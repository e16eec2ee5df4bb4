/** The order service: creation and lookup of orders, and the pay and
    fulfill operations, each of which rebuilds a machine from the stored
    order, sends it one event and lets a pre-state-change hook write the
    new state back to the repository. */
module OrderService {
  import opened Wrappers
  import opened OrderStateMachine
  import opened Orders
  import opened OrderRepository

  /** Why `build` fails: no row under the id (the null order is
      dereferenced), or a stored name that decodes to no state. */
  datatype Error = OrderNotFound(id: int) | UnknownState(name: string)

  /** What `pay` and `fulfill` leave behind: the repository after the call
      and the machine they drove. */
  datatype Handled = Handled(repo: Repository, machine: Machine)

  /** The decoded state of order `id`, if the order exists and its stored
      name decodes. */
  function StoredState(repo: Repository, id: int): Option<OrderState> {
    if id in repo.rows then GetOrderStates(repo.rows[id]) else None
  }

  /** Every stored state name decodes. */
  predicate WellFormed(repo: Repository) {
    forall k :: k in repo.rows ==> GetOrderStates(repo.rows[k]).Some?
  }

  /** The machine is in the state stored for order `id`. */
  predicate InSync(repo: Repository, id: int, m: Machine) {
    StoredState(repo, id) == Some(m.state)
  }

  /** At most the stored state of order `id` differs between the two
      repositories: no row is added or removed, no other row changes, the
      order keeps its id and datetime, and the id generator is untouched. */
  predicate OnlyStateOf(before: Repository, after: Repository, id: int) {
    && after.nextId == before.nextId
    && after.rows.Keys == before.rows.Keys
    && (forall k :: k in before.rows && k != id ==> after.rows[k] == before.rows[k])
    && (id in before.rows ==>
          after.rows[id].id == before.rows[id].id && after.rows[id].datetime == before.rows[id].datetime)
  }

  /** Looks an order up; the repository is not touched. */
  function ById(repo: Repository, id: int): (r: Option<Order>)
    ensures r.Some? <==> id in repo.rows
    ensures r.Some? ==> r.value == repo.rows[id]
  {
    FindOne(repo, id)
  }

  /** Saves a new order created at `when` in the initial state, under a
      fresh id; no existing order changes. */
  function Create(repo: Repository, when: Date): (r: (Repository, Order))
    ensures r.1.datetime == when && GetOrderStates(r.1) == Some(Initial)
    ensures r.1.id.Some? && r.1.id.value !in repo.rows
    ensures r.0.rows == repo.rows[r.1.id.value := r.1]
    ensures WellFormed(repo) ==> WellFormed(r.0)
  {
    Save(repo, NewOrder(when, Submitted))
  }

  /** Rehydrates a machine for order `id`: it starts in the state stored for
      the order, not in the declared initial state. */
  function Build(repo: Repository, id: int): (r: Result<Machine, Error>)
    ensures id !in repo.rows ==> r == Err(OrderNotFound(id))
    ensures r.Ok? ==> InSync(repo, id, r.value)
    ensures id in repo.rows && r.Err? ==>
      r.error == UnknownState(repo.rows[id].state) && StoredState(repo, id).None?
    ensures WellFormed(repo) && id in repo.rows ==> r.Ok?
  {
    match FindOne(repo, id)
    case None => Err(OrderNotFound(id))
    case Some(order) =>
      match GetOrderStates(order)
      case None => Err(UnknownState(order.state))
      case Some(s) => Ok(Machine(s))
  }

  /** The persistence hook run before the machine enters `target`: it loads
      the order named by the message's id header, sets its state and saves
      it. */
  function PreStateChange(repo: Repository, orderId: int, target: OrderState): (r: Repository)
    requires orderId in repo.rows
    ensures OnlyStateOf(repo, r, orderId)
    ensures StoredState(r, orderId) == Some(target)
    ensures WellFormed(repo) ==> WellFormed(r)
  {
    var order1 := FindOne(repo, orderId).value;
    Save(repo, SetOrderState(order1, target)).0
  }

  /** Builds the machine for order `id` and sends it `e` with the order's
      id in the message header.  The hook fires only when the event causes
      a transition, so a rejected event leaves the repository as it was. */
  function Apply(repo: Repository, id: int, e: OrderEvent): (r: Result<Handled, Error>)
    ensures r.Err? <==> Build(repo, id).Err?
    ensures r.Err? ==> r.error == Build(repo, id).error
    ensures r.Ok? ==> InSync(r.value.repo, id, r.value.machine)
    ensures r.Ok? ==> Build(r.value.repo, id) == Ok(r.value.machine)
    ensures r.Ok? ==> OnlyStateOf(repo, r.value.repo, id)
    ensures r.Ok? && Step(StoredState(repo, id).value, e).None? ==>
      r.value == Handled(repo, Machine(StoredState(repo, id).value))
    ensures r.Ok? && Step(StoredState(repo, id).value, e).Some? ==>
      Transition(StoredState(repo, id).value, e, r.value.machine.state) in Table
    ensures r.Ok? && WellFormed(repo) ==> WellFormed(r.value.repo)
  {
    match Build(repo, id)
    case Err(err) => Err(err)
    case Ok(m) =>
      var sent := SendEvent(m, e);
      var repo' := if sent.1 then PreStateChange(repo, id, sent.0.state) else repo;
      Ok(Handled(repo', sent.0))
  }

  /** Sends PAY for order `id`.  The confirmation number travels in a
      header nothing reads. */
  function Pay(repo: Repository, id: int, paymentConfirmationNumber: string): (r: Result<Handled, Error>)
    ensures id !in repo.rows ==> r == Err(OrderNotFound(id))
    ensures id in repo.rows ==> (r.Ok? <==> StoredState(repo, id).Some?)
    ensures r.Ok? ==> InSync(r.value.repo, id, r.value.machine) && OnlyStateOf(repo, r.value.repo, id)
    ensures StoredState(repo, id) == Some(Submitted) ==> r.Ok? && r.value.machine.state == Paid
    ensures r.Ok? && StoredState(repo, id) != Some(Submitted) ==>
      r.value == Handled(repo, Machine(StoredState(repo, id).value))
  {
    Apply(repo, id, OrderEvent.Pay)
  }

  /** Sends FULFILL for order `id`. */
  function Fulfill(repo: Repository, id: int): (r: Result<Handled, Error>)
    ensures id !in repo.rows ==> r == Err(OrderNotFound(id))
    ensures id in repo.rows ==> (r.Ok? <==> StoredState(repo, id).Some?)
    ensures r.Ok? ==> InSync(r.value.repo, id, r.value.machine) && OnlyStateOf(repo, r.value.repo, id)
    ensures StoredState(repo, id) == Some(Paid) ==> r.Ok? && r.value.machine.state == Fulfilled
    ensures r.Ok? && StoredState(repo, id) != Some(Paid) ==>
      r.value == Handled(repo, Machine(StoredState(repo, id).value))
  {
    Apply(repo, id, OrderEvent.Fulfill)
  }

  /** The payment confirmation number does not influence `pay`. */
  lemma PayIgnoresConfirmation(repo: Repository, id: int, n1: string, n2: string)
    ensures Pay(repo, id, n1) == Pay(repo, id, n2)
  {
  }

  /** Sending an event that has no transition changes nothing, so sending
      it again gives the same outcome. */
  lemma RejectionIsIdempotent(repo: Repository, id: int, e: OrderEvent)
    requires StoredState(repo, id).Some? && Step(StoredState(repo, id).value, e).None?
    ensures Apply(repo, id, e).Ok?
    ensures Apply(Apply(repo, id, e).value.repo, id, e) == Apply(repo, id, e)
  {
  }

  /** A call of the service against one order. */
  datatype Call = PayCall(paymentConfirmationNumber: string) | FulfillCall

  function EventOf(c: Call): OrderEvent {
    match c
    case PayCall(_) => OrderEvent.Pay
    case FulfillCall => OrderEvent.Fulfill
  }

  function Perform(repo: Repository, id: int, c: Call): Result<Handled, Error> {
    match c
    case PayCall(n) => Pay(repo, id, n)
    case FulfillCall => Fulfill(repo, id)
  }

  /** The repository after performing `calls` in order, stopping at the
      first failure. */
  function PerformAll(repo: Repository, id: int, calls: seq<Call>): Result<Repository, Error>
    decreases |calls|
  {
    if |calls| == 0 then Ok(repo)
    else match Perform(repo, id, calls[0])
      case Err(err) => Err(err)
      case Ok(h) => PerformAll(h.repo, id, calls[1..])
  }

  /** The state one long-lived machine would reach if it received the
      events of `calls` in order, ignoring the ones it does not accept. */
  function Resident(s: OrderState, calls: seq<Call>): OrderState
    decreases |calls|
  {
    if |calls| == 0 then s
    else Resident(SendEvent(Machine(s), EventOf(calls[0])).0.state, calls[1..])
  }

  /** Rebuilding the machine from the repository on every call stores
      exactly the state a single resident machine would be in, and touches
      nothing but that order's state. */
  lemma {:induction false} RehydrationMatchesResidentMachine(repo: Repository, id: int, calls: seq<Call>)
    requires StoredState(repo, id).Some?
    ensures PerformAll(repo, id, calls).Ok?
    ensures StoredState(PerformAll(repo, id, calls).value, id) == Some(Resident(StoredState(repo, id).value, calls))
    ensures OnlyStateOf(repo, PerformAll(repo, id, calls).value, id)
    decreases |calls|
  {
    if |calls| > 0 {
      var h := Perform(repo, id, calls[0]);
      assert h == Apply(repo, id, EventOf(calls[0]));
      RehydrationMatchesResidentMachine(h.value.repo, id, calls[1..]);
    }
  }

  /** The application runner's sequence: create an order, pay it, fulfill
      it.  Each machine reports the state the repository then holds, and
      the order ends FULFILLED; a further pay or fulfill changes nothing. */
  lemma RunnerScenario(repo: Repository, when: Date, paymentConfirmationNumber: string)
    ensures
      var (repo1, order) := Create(repo, when);
      var id := order.id.value;
      var paid := Pay(repo1, id, paymentConfirmationNumber);
      && paid.Ok? && paid.value.machine.state == Paid
      && StoredState(paid.value.repo, id) == Some(Paid)
      && var fulfilled := Fulfill(paid.value.repo, id);
      && fulfilled.Ok? && fulfilled.value.machine.state == Fulfilled
      && StoredState(fulfilled.value.repo, id) == Some(Fulfilled)
      && ById(fulfilled.value.repo, id).Some?
      && ById(fulfilled.value.repo, id).value.datetime == when
      && Pay(fulfilled.value.repo, id, paymentConfirmationNumber).value.repo == fulfilled.value.repo
      && Fulfill(fulfilled.value.repo, id).value.repo == fulfilled.value.repo
  {
  }
}
