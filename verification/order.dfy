/** The persisted order entity.  Its state is stored as the name of the
    lifecycle constant and decoded again, by name, when it is read. */
module Orders {
  import opened Wrappers
  import opened OrderStateMachine

  /** A point in time; the model never inspects one. */
  type Date = int

  /** One row of the orders table.  `id` stays empty until the repository
      assigns one on first save; `state` holds a state's name. */
  datatype Order = Order(id: Option<int>, datetime: Date, state: string)

  /** The constant's name, as the enum reports it. */
  function Name(s: OrderState): string {
    match s
    case Submitted => "SUBMITTED"
    case Paid => "PAID"
    case Fulfilled => "FULFILLED"
    case Cancelled => "CANCELLED"
  }

  /** Decodes a stored name; a string that names no state has no value
      (the enum lookup throws on it). */
  function ValueOf(name: string): (r: Option<OrderState>)
    ensures forall s :: r == Some(s) <==> name == Name(s)
  {
    if name == "SUBMITTED" then Some(Submitted)
    else if name == "PAID" then Some(Paid)
    else if name == "FULFILLED" then Some(Fulfilled)
    else if name == "CANCELLED" then Some(Cancelled)
    else None
  }

  /** Reads the state back from its stored name. */
  function GetOrderStates(o: Order): (r: Option<OrderState>)
    ensures r.None? <==> forall s :: o.state != Name(s)
    ensures forall s :: r == Some(s) <==> o.state == Name(s)
  {
    ValueOf(o.state)
  }

  /** Stores the state's name; nothing else of the order changes. */
  function SetOrderState(o: Order, s: OrderState): (r: Order)
    ensures r.id == o.id && r.datetime == o.datetime
    ensures GetOrderStates(r) == Some(s)
  {
    o.(state := Name(s))
  }

  /** A new, not yet saved order created at `when` in state `s`. */
  function NewOrder(when: Date, s: OrderState): (o: Order)
    ensures o.id == None && o.datetime == when
    ensures GetOrderStates(o) == Some(s)
  {
    SetOrderState(Order(None, when, ""), s)
  }

  /** Distinct states are stored under distinct names. */
  lemma NameIsInjective(a: OrderState, b: OrderState)
    ensures Name(a) == Name(b) ==> a == b
  {
  }

  /** Decoding undoes encoding, and encoding undoes a successful decoding. */
  lemma NameRoundTrip(s: OrderState, name: string)
    ensures ValueOf(Name(s)) == Some(s)
    ensures ValueOf(name).Some? ==> Name(ValueOf(name).value) == name
  {
  }
}
