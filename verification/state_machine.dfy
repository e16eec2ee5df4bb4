/** The order lifecycle as configured for the state-machine factory: four
    states, three events and four external transitions.  The configuration
    reduces to a partial function from (state, event) to the target state. */
module OrderStateMachine {
  import opened Wrappers

  datatype OrderEvent = Fulfill | Pay | Cancel

  datatype OrderState = Submitted | Paid | Fulfilled | Cancelled

  /** One external transition: in `source`, `event` moves the machine to `target`. */
  datatype Transition = Transition(source: OrderState, event: OrderEvent, target: OrderState)

  /** The external transitions, in the order they are declared. */
  const Table: seq<Transition> := [
    Transition(Submitted, Pay, Paid),
    Transition(Paid, Fulfill, Fulfilled),
    Transition(Submitted, Cancel, Cancelled),
    Transition(Paid, Cancel, Cancelled)
  ]

  /** The declared initial state. */
  const Initial: OrderState := Submitted

  /** The declared end states. */
  const EndStates: set<OrderState> := {Fulfilled, Cancelled}

  /** No two transitions of `table` leave the same state on the same event. */
  predicate Deterministic(table: seq<Transition>) {
    forall i, j :: 0 <= i < |table| && 0 <= j < |table| && i != j ==>
      table[i].source != table[j].source || table[i].event != table[j].event
  }

  /** Scans `table` for a transition leaving `s` on `e`, as the machine does
      when an event arrives; the first match wins. */
  function Lookup(table: seq<Transition>, s: OrderState, e: OrderEvent): (r: Option<OrderState>)
    ensures r.Some? ==> Transition(s, e, r.value) in table
    ensures r.None? <==> forall t :: t in table ==> t.source != s || t.event != e
  {
    if |table| == 0 then None
    else if table[0].source == s && table[0].event == e then Some(table[0].target)
    else Lookup(table[1..], s, e)
  }

  /** The transition function of the configured machine. */
  function Step(s: OrderState, e: OrderEvent): (r: Option<OrderState>)
    ensures forall t :: r == Some(t) <==> Transition(s, e, t) in Table
  {
    match (s, e)
    case (Submitted, Pay) => Some(Paid)
    case (Paid, Fulfill) => Some(Fulfilled)
    case (Submitted, Cancel) => Some(Cancelled)
    case (Paid, Cancel) => Some(Cancelled)
    case _ => None
  }

  /** The declared table never offers two targets for one (state, event) pair. */
  lemma TableIsDeterministic()
    ensures Deterministic(Table)
  {
  }

  /** In a deterministic table, the scan finds every declared transition. */
  lemma DeterministicLookup(table: seq<Transition>, t: Transition)
    requires Deterministic(table)
    requires t in table
    ensures Lookup(table, t.source, t.event) == Some(t.target)
  {
  }

  /** `Step` is exactly what a scan of the declared table finds. */
  lemma StepIsTableLookup(s: OrderState, e: OrderEvent)
    ensures Step(s, e) == Lookup(Table, s, e)
  {
  }

  /** The end states are exactly the states no event can leave. */
  lemma EndStatesAreFinal(s: OrderState)
    ensures s in EndStates <==> forall e :: Step(s, e) == None
  {
    if s !in EndStates {
      assert Step(s, Cancel).Some?;
    }
  }

  /** No transition enters the initial state. */
  lemma NothingTargetsInitial()
    ensures forall t :: t in Table ==> t.target != Initial
  {
  }

  /** A running machine instance; only its current state matters here. */
  datatype Machine = Machine(state: OrderState)

  /** Delivers one event to a started machine.  The event is accepted when
      the table has a transition for it, and the machine moves to the target;
      otherwise it is not accepted and the machine stays where it was. */
  function SendEvent(m: Machine, e: OrderEvent): (r: (Machine, bool))
    ensures r.1 <==> exists t :: Transition(m.state, e, t) in Table
    ensures r.1 ==> Transition(m.state, e, r.0.state) in Table
    ensures !r.1 ==> r.0 == m
  {
    match Step(m.state, e)
    case Some(t) => (Machine(t), true)
    case None => (m, false)
  }

  /** The state reached by following `evs` through the table from `s`, or
      `None` as soon as one of them has no transition. */
  function Run(s: OrderState, evs: seq<OrderEvent>): Option<OrderState>
    decreases |evs|
  {
    if |evs| == 0 then Some(s)
    else match Step(s, evs[0])
      case Some(t) => Run(t, evs[1..])
      case None => None
  }

  /** Distance from the initial state; every transition increases it. */
  function Rank(s: OrderState): nat {
    match s
    case Submitted => 0
    case Paid => 1
    case Fulfilled => 2
    case Cancelled => 2
  }

  /** The graph is acyclic: a path of transitions from `s` has at most
      `2 - Rank(s)` steps, and a non-empty path never ends in the initial
      state. */
  lemma {:induction false} PathsAreShort(s: OrderState, evs: seq<OrderEvent>)
    requires Run(s, evs).Some?
    ensures |evs| + Rank(s) <= 2
    ensures |evs| > 0 ==> Run(s, evs).value != Initial
    decreases |evs|
  {
    if |evs| > 0 {
      var t := Step(s, evs[0]).value;
      assert Rank(t) > Rank(s);
      PathsAreShort(t, evs[1..]);
    }
  }

  /** Every state can be reached from the initial state in at most two steps. */
  lemma EveryStateReachable(s: OrderState)
    ensures exists evs :: |evs| <= 2 && Run(Initial, evs) == Some(s)
  {
    match s
    case Submitted => assert Run(Initial, []) == Some(s);
    case Paid => assert Run(Initial, [Pay]) == Some(s);
    case Fulfilled =>
      assert [Pay, Fulfill][1..] == [Fulfill];
      assert Run(Initial, [Pay, Fulfill]) == Some(s);
    case Cancelled => assert Run(Initial, [Cancel]) == Some(s);
  }
}
