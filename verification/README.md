# Order lifecycle state machine, modelled in Dafny

This project models the core of a small Spring Statemachine order service.
An order moves through SUBMITTED, PAID, FULFILLED and CANCELLED on the events
PAY, FULFILL and CANCEL. The service does not keep a machine per order in
memory. On every `pay` or `fulfill` call it loads the order, rebuilds a
machine seeded with the order's *stored* state, and sends one event. A
pre-state-change interceptor writes the new state back to the stored order.

Modules, one per source file or component:

- `Wrappers` (`wrappers.dfy`): `Option` and `Result`.
- `OrderStateMachine` (`state_machine.dfy`): the two enums and the declared
  transition table. It contains the transition function `Step`, a scan of the
  table (`Lookup`), the running machine (`Machine`, `SendEvent`), and lemmas
  about the graph.
- `Orders` (`order.dfy`): the `Order` entity. Its state is stored as the enum
  constant's name string and decoded with `valueOf`.
- `OrderRepository` (`repository.dfy`): the JPA repository as an immutable map
  from id to row plus an id generator. `Repository` is a subset type. Every row
  is stored under its own id, and every id is below the generator's next value.
- `OrderService` (`order_service.dfy`): `byId`, `create`, `build`, the
  persistence hook, and `pay`/`fulfill`. Each is a function from repository
  to repository plus a result.

The main invariant is that machine and store agree. After every successful
`pay` or `fulfill`, rebuilding a machine from the new repository gives exactly
the machine the call returned (`Apply`). Only the order's state field may have
changed (`OnlyStateOf`). `RehydrationMatchesResidentMachine` shows that
rebuilding the machine on every call gives the same stored state that one
long-lived machine would reach.

The model follows what the code does, which is less than a fully checked order service would do:

- `pay` and `fulfill` return the state machine, not the order.
- An event with no transition is not reported as an error. The event is just
  not accepted: the returned machine stays in the stored state and the
  repository is unchanged.
- The service has no `cancel` operation. CANCEL appears only in the table.
- Nothing locks or conditionally updates an order.

## Model

| member | source | states |
|---|---|---|
| OrderStateMachine.Step | src/main/java/com/example/orderservice/SimpleEnumStatemachineConfiguration.java:37-56 | `Step(s, e) == Some(t)` exactly when (s, e, t) is one of the four declared external transitions. Every unlisted pair, such as FULFILL from SUBMITTED or PAY from PAID, has no transition. |
| OrderStateMachine.Lookup | src/main/java/com/example/orderservice/SimpleEnumStatemachineConfiguration.java:35-58 | Scanning a transition list finds only a transition that is declared for (s, e). It finds nothing exactly when no declared transition leaves s on e. |
| OrderStateMachine.TableIsDeterministic | src/main/java/com/example/orderservice/SimpleEnumStatemachineConfiguration.java:37-56 | No two declared transitions share a (source, event) pair. |
| OrderStateMachine.DeterministicLookup | src/main/java/com/example/orderservice/SimpleEnumStatemachineConfiguration.java:37-56 | In a deterministic list, scanning for a declared transition's source and event returns that transition's target. |
| OrderStateMachine.StepIsTableLookup | src/main/java/com/example/orderservice/SimpleEnumStatemachineConfiguration.java:37-56 | The transition function agrees with a scan of the declared table on every (state, event) pair. |
| OrderStateMachine.EndStatesAreFinal | src/main/java/com/example/orderservice/SimpleEnumStatemachineConfiguration.java:83-85 | A state is one of the declared end states (FULFILLED, CANCELLED) if and only if no event has a transition from it. |
| OrderStateMachine.NothingTargetsInitial | src/main/java/com/example/orderservice/SimpleEnumStatemachineConfiguration.java:64 | No declared transition targets the initial state SUBMITTED. |
| OrderStateMachine.PathsAreShort | src/main/java/com/example/orderservice/SimpleEnumStatemachineConfiguration.java:37-56 | The graph is acyclic. A path from s has at most 2 - rank(s) steps, and a non-empty path never ends in SUBMITTED, so SUBMITTED is never re-entered. |
| OrderStateMachine.EveryStateReachable | src/main/java/com/example/orderservice/SimpleEnumStatemachineConfiguration.java:37-64 | Every state is reachable from the initial state in at most two transitions. |
| OrderStateMachine.SendEvent | src/main/java/com/example/orderservice/OrderService.java:49 | An event is accepted if and only if the table has a transition for it from the current state. When accepted, the machine moves to that transition's target. Otherwise the machine is unchanged. |
| Orders.ValueOf | src/main/java/com/example/orderservice/Order.java:30 | Decoding a string gives s if and only if the string is s's constant name. A string that names no state decodes to nothing, where the enum lookup would throw. |
| Orders.GetOrderStates | src/main/java/com/example/orderservice/Order.java:29-31 | Reading the state fails exactly when the stored string names no state. Otherwise it gives the state whose name is stored. |
| Orders.SetOrderState | src/main/java/com/example/orderservice/Order.java:33-35 | After setting s, reading the state gives s. The id and datetime are unchanged. |
| Orders.NewOrder | src/main/java/com/example/orderservice/Order.java:24-27 | A constructed order has no id yet, carries the given datetime, and reads back the given state. |
| Orders.NameIsInjective | src/main/java/com/example/orderservice/Order.java:33-35 | Distinct states are stored as distinct strings. |
| Orders.NameRoundTrip | src/main/java/com/example/orderservice/Order.java:29-35 | Encoding then decoding gives the state back. A string that decodes is the encoding of the state it decodes to. |
| OrderRepository.FindOne | src/main/java/com/example/orderservice/OrderRepository.java:7 | Lookup finds an order exactly when a row exists under the id. The order it finds carries that id. |
| OrderRepository.Save | src/main/java/com/example/orderservice/OrderRepository.java:7 | Saving changes at most the entity's id. The saved entity is stored under its id, and no other row changes. An entity whose id is already stored keeps that id. Any other entity gets a fresh id. |
| OrderService.ById | src/main/java/com/example/orderservice/OrderService.java:33-35 | Returns the stored order under the id, or nothing when there is none. It returns no repository, so the store cannot change. |
| OrderService.Create | src/main/java/com/example/orderservice/OrderService.java:37-40 | Adds exactly one order under an id not in use before. The new order is SUBMITTED with the given datetime, and every existing row is kept. |
| OrderService.Build | src/main/java/com/example/orderservice/OrderService.java:85-184 | A missing id is an OrderNotFound error. Otherwise the machine is seeded with the order's stored state, not the declared initial state, so machine and store agree. An undecodable stored name is an UnknownState error, which never happens in a well-formed repository. |
| OrderService.PreStateChange | src/main/java/com/example/orderservice/OrderService.java:132-144 | The hook stores the target state for the order named in the header. It changes nothing else: not that order's id or datetime, not any other row, not the id generator. |
| OrderService.Apply | src/main/java/com/example/orderservice/OrderService.java:42-63 | Build, then send one event. It fails exactly when build fails. On success, machine and stored state agree, and a fresh build sees the returned machine. Only the order's state may change. A rejected event leaves the repository untouched and the machine in the stored state. An accepted event moves along a declared transition. |
| OrderService.Pay | src/main/java/com/example/orderservice/OrderService.java:53-63 | PAY on a SUBMITTED order leaves machine and store PAID. From any other decodable state the repository is unchanged and the machine shows the stored state. A missing order is an OrderNotFound error. |
| OrderService.Fulfill | src/main/java/com/example/orderservice/OrderService.java:42-51 | FULFILL on a PAID order leaves machine and store FULFILLED. From any other decodable state the repository is unchanged and the machine shows the stored state. A missing order is an OrderNotFound error. |
| OrderService.PayIgnoresConfirmation | src/main/java/com/example/orderservice/OrderService.java:53-63 | The outcome of `pay` does not depend on the payment confirmation number. |
| OrderService.RejectionIsIdempotent | src/main/java/com/example/orderservice/OrderService.java:132-144 | Sending an event with no transition from the stored state succeeds without changes, so sending it again gives the same outcome. |
| OrderService.RehydrationMatchesResidentMachine | src/main/java/com/example/orderservice/OrderService.java:65-84 | For any sequence of pay/fulfill calls on an order whose state decodes, every call succeeds. The stored state ends where one long-lived machine receiving the same events would be, and nothing but that order's state changes. |
| OrderService.RunnerScenario | src/main/java/com/example/orderservice/Runner.java:31-45 | Create, pay, fulfill: the machines report PAID, then FULFILLED. The stored order ends FULFILLED with its creation datetime. A further pay or fulfill leaves the repository unchanged. |

## Left out

- Spring wiring: the state-machine factory keyed by the id string, `stop`/`start`, `autoStartup(false)`, the accessor and region plumbing, and message/header construction. `build` plus `sendEvent` is one pure function, `OrderService.Apply`.
- Logging: the `preEvent`, `preTransition`, `postTransition` and `postStateChange` interceptor methods and the `stateChanged` listener. They only log.
- The `-1L` default for a missing id header in the hook. `pay` and `fulfill` always set the header, so this path cannot be reached.
- A null message or null id argument. Java nulls are not modelled. Ids are integers, and an order built by the JPA no-argument constructor, whose state string would be null, is not modelled.
- Concurrency: the code has no locking or conditional update, and the model treats each call as atomic.
- A `cancel` service operation: the service has none. CANCEL is modelled only in the transition table.
- Dates: a `Date` is an opaque integer, and no operation inspects it.
- The application runner's `UUID`, clock and logging. Its call sequence is kept as the `RunnerScenario` lemma.
- OrderRepository.Save: ids are unbounded integers. The 64-bit `Long` id generator's overflow is not modelled. Storage failures are not modelled either, since the repository is an in-memory map.
