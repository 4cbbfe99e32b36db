# marty: sensor-edge classifier and LoRa radio scheduler, in Dafny

This project models the two parts of the marty firmware that carry real
invariants.

The first is the two-sensor classifier. A table-driven state machine
turns rising and falling edges from a right (arrival-side) and a left
(departure-side) sensor into outcomes: a car arrived, a car departed, or a
false alarm. Each state runs an action when entered. The action bumps the
counter named after it and returns a follow-up event. The three outcome
states return `Reset`, which carries the machine back to `Default`. An event
the current state does not accept is rejected. The caller recovers from a
rejection by counting an error and forcing the machine back to `Default`.
The package `marty` (`New`, `Marty.SendEvent`) and the `marty` command
(`newMartyFSM` and the `sendEvent` test helper) each hold a copy of the
table, the actions and the recovery.

The second is one tick of the radio scheduler in package `road`.
`SetupLora` replaces a zero timeout with 1000 ms. On each tick, `LoraTx`
does nothing if the outbound queue is empty. Otherwise it:

1. raises the radio's EN pin;
2. makes a number of receive calls;
3. drains the queue into a single frame, with `|` between messages;
4. transmits the frame if it is non-empty;
5. lowers EN.

The non-blocking producer send of the mailbox command is also modelled. It
drops the value when the channel is full.

Modules:

- `Wrappers`: an `Option` type.
- `Fsm`: the engine and its vocabulary.
  - `StateId`, `EventId`, `Action`, `Counts`, `State`, `States`.
  - The engine's contract for one submitted event: `Submit`.
  - The seven actions: `Effect` and `FollowUp` on values, and the mutable
    `Context` class whose `Execute` they specify.
  - The mutable `StateMachine`, whose `SendEvent` runs the cascade as a loop
    and is proved against `Submit`.
- `Marty`: the table `New` builds (`NewStates`).
  - `Step` and `Run` are the semantics of `SendEvent` with reject recovery.
  - The `Marty` class holds the engine and its context.
  - Lemmas cover the table's shape, each step, whole runs, and the test
    scenarios.
- `CmdMarty`: the `marty` command's own copy of the table, proved equal to
  `Marty.NewStates`.
  - Its `sendEvent` helper.
  - Its test scenarios, run as methods with exact expected counters. Each
    starts from a fresh machine. The test instead reuses one machine and
    zeroes only the context, which gives the same counters because every
    scenario ends in `Default`.
- `Road`:
  - the timeout default and the frame (`Batch`, proved against the reference
    `Join`);
  - the bounded channel as a `Queue` class with `TryPush` and `TryPop`;
  - the `Radio` class, whose `LoraTxCycle` is one tick. Its calls to the
    transceiver and the EN pin are recorded in a ghost trace and stated
    exactly by `CycleCalls`.

Behaviour of the code worth knowing before reading the contracts:

- In `Default` the falling edges and `Reset` have no table entry
  (pkg/marty/marty.go:154-160), so they are rejections, not self-loops: an
  error is counted, Current is forced back to `Default`, and `DefaultAction`
  does not run (`Marty.DefaultRejectsFalling`).
- `LoraTx` has no operating mode: every tick with a non-empty queue runs the
  receive window (pkg/road/road.go:145-156), and every tick with an empty
  queue is skipped (pkg/road/road.go:134-137).
- Received packets are only logged (pkg/road/road.go:150-154); nothing is
  forwarded.
- `SetupLora` raises EN (pkg/road/road.go:90), and a tick on an empty queue
  never lowers it, so the radio stays powered until the first tick that
  finds something queued (`Road.SetupThenIdleTick`).

## Model

| member | source | states |
|---|---|---|
| Fsm.Effect | pkg/marty/marty.go:62-144 | each action raises its own counter by exactly one and leaves the other six counters unchanged |
| Fsm.FollowUp | pkg/marty/marty.go:62-144 | an action returns NoOp or Reset, and Reset exactly for ArrivedAction, DepartedAction and FalseAlarmAction |
| Fsm.Context.constructor | pkg/marty/marty_test.go:179-189 | a fresh context has all seven counters at zero |
| Fsm.Context.Execute | cmd/marty/main.go:53-146 | running an action updates the counters as Effect says and returns FollowUp's event |
| Fsm.SubmitFirstStep | pkg/marty/marty.go:52-53 | the engine reports a rejection with the machine untouched exactly when the current state has no entry for the submitted event |
| Fsm.Submit | pkg/marty/marty.go:52-53 | the engine's SendEvent as a function: reject on a missing entry, otherwise move Previous and Current, run the target's action and submit its follow-up; an accepted submission ends in a table state whose action asked for nothing more |
| Fsm.StateMachine.constructor | pkg/marty/marty.go:149-152 | a machine starts with Current and Previous at Default over the given table |
| Fsm.StateMachine.SendEvent | pkg/marty/marty.go:52 | the loop (look up, move Previous and Current, run the action, follow up until NoOp, stop on a missing entry) ends in the state and outcome of the engine contract Submit |
| Marty.NewStatesWellFormed | pkg/marty/marty.go:149-199 | every target of New's table is a state of the table, and every Reset cascade ends after one step in Default |
| Marty.NewStatesShape | pkg/marty/marty.go:149-199 | six states; Default accepts exactly the two rising edges; Arrived, Departed and FalseAlarm accept only Reset, to Default; no entry leads into Error |
| Marty.NewStates | pkg/marty/marty.go:149-199 | the table New builds, state by state; its shape is stated by NewStatesShape and NewStatesWellFormed |
| Marty.Recover | pkg/marty/marty.go:53-56 | the recovery after a rejection: ErrorCount plus one and Current forced to Default, nothing else touched |
| Marty.Step | pkg/marty/marty.go:50-57 | Marty.SendEvent on values: the engine's Submit over New's table, with Recover applied to a rejection; characterised by StepCases and StepRejects |
| Marty.StepCases | pkg/marty/marty.go:50-57 | one SendEvent either recovers a rejection or enters the target, and from an outcome state goes on through Reset to Default, running DefaultAction |
| Marty.StepRejects | pkg/marty/marty.go:52-56 | SendEvent takes the recovery path exactly when the current state has no entry for the event |
| Marty.DefaultRejectsFalling | pkg/marty/marty.go:154-160 | in Default every event other than the two rising edges is rejected: ErrorCount goes up, Current stays Default, DefaultAction does not run |
| Marty.StepRests | pkg/marty/marty.go:149-199 | after any SendEvent the machine rests in Default, Arriving or Departing, so it never enters Error |
| Marty.StepErrorCount | pkg/marty/marty.go:53-54 | ErrorCount rises by one on a rejection and is otherwise unchanged |
| Marty.StepMonotone | pkg/marty/marty.go:62-144 | no counter decreases across one SendEvent |
| Marty.StepBalanced | pkg/marty/marty.go:170-197 | from a resting machine with DefaultCount = ArrivedCount + DepartedCount + FalseAlarmCount, one SendEvent keeps both |
| Marty.RunMonotone | pkg/marty/marty.go:62-144 | no counter decreases along any event sequence |
| Marty.RunBalanced | pkg/marty/marty.go:170-197 | the resting-and-balanced invariant holds along any event sequence |
| Marty.FromNew | pkg/marty/marty.go:146-202 | from New, after any event sequence the machine rests, the balance holds and no counter is negative |
| Marty.ArrivalPair | pkg/marty/marty_test.go:17-34 | right then left rising edge from Default: Arriving, Arrived and Default counted once each, ending in Default |
| Marty.DeparturePair | pkg/marty/marty_test.go:36-53 | left then right rising edge from Default: Departing, Departed and Default counted once each, ending in Default |
| Marty.ArrivingFalseAlarmPair | pkg/marty/marty_test.go:56-74 | right rising then right falling: Arriving, FalseAlarm and Default counted once each, ending in Default |
| Marty.DepartingFalseAlarmPair | pkg/marty/marty_test.go:76-93 | left rising then left falling: Departing, FalseAlarm and Default counted once each, ending in Default |
| Marty.DepartingDoubleRising | pkg/marty/marty_test.go:96-114 | two left rising edges: Departing and Error counted once, DefaultAction never runs, ending in Default |
| Marty.ArrivingDoubleRising | pkg/marty/marty_test.go:116-134 | two right rising edges: Arriving and Error counted once, DefaultAction never runs, ending in Default |
| Marty.Combination | pkg/marty/marty_test.go:136-175 | the twelve-event sequence from New ends with counters 4, 1, 3, 1, 3, 2, 2 |
| Marty.Marty.constructor | pkg/marty/marty.go:146-202 | New: the table above over the six states, Current = Previous = Default, zero counters |
| Marty.Marty.SendEvent | pkg/marty/marty.go:50-57 | the machine and counters after the call are Step of those before it |
| CmdMarty.SameTableAsMarty | cmd/marty/main.go:148-207 | newMartyFSM's table is the same as New's, states, actions and transitions alike |
| CmdMarty.NewMartyStates | cmd/marty/main.go:150-202 | the table newMartyFSM builds; SameTableAsMarty proves it equal to New's |
| CmdMarty.SamePair | cmd/marty/main_test.go:192-200 | two helper calls over the command's table step exactly as two Marty.SendEvent calls |
| CmdMarty.NewMartyFsm | cmd/marty/main.go:148-207 | a fresh machine over the command's table with Current and Previous at Default |
| CmdMarty.SendEvent | cmd/marty/main_test.go:192-200 | submit; on rejection count an error in the context and force Current to Default |
| CmdMarty.HelperStep | cmd/marty/main_test.go:192-200 | the test helper on values: Submit over the given table, then the same recovery as Marty.Recover |
| CmdMarty.SendPair | cmd/marty/main_test.go:22-23 | two helper calls leave the machine as Marty.Run over the two events |
| CmdMarty.CarArriving | cmd/marty/main_test.go:18-35 | counters (1,1,1,0,0,0,0), Current Default |
| CmdMarty.CarDeparting | cmd/marty/main_test.go:37-55 | counters (1,0,0,1,1,0,0), Current Default |
| CmdMarty.FalseAlarmArriving | cmd/marty/main_test.go:57-76 | counters (1,0,1,0,0,0,1), Current Default |
| CmdMarty.FalseAlarmDeparting | cmd/marty/main_test.go:77-95 | counters (1,0,0,0,1,0,1), Current Default |
| CmdMarty.ErrorDeparting | cmd/marty/main_test.go:97-115 | counters (0,0,0,0,1,1,0), Current Default |
| CmdMarty.ErrorArriving | cmd/marty/main_test.go:117-135 | counters (0,0,1,0,0,1,0), Current Default |
| CmdMarty.Combination | cmd/marty/main_test.go:137-176 | counters (4,1,3,1,3,2,2), Current Default |
| Road.TimeoutOrDefault | pkg/road/road.go:69-79 | a zero timeout becomes 1000 ms, any other is kept, so the result is never zero |
| Road.DropLeadingEmpty | pkg/road/road.go:169-173 | the suffix from the first non-empty message on, everything before it being empty |
| Road.Batch | pkg/road/road.go:162-182 | the frame the drain loop builds, one message at a time, with '\|' only once the frame is non-empty; BatchIsJoin relates it to the reference Join |
| Road.BatchIsJoin | pkg/road/road.go:162-182 | the drain loop's frame is the '|'-join, in FIFO order, of the drained messages from the first non-empty one on |
| Road.BatchOfNonEmpty | pkg/road/road.go:164-173 | with no empty message the frame is exactly the '|'-join of all of them |
| Road.BatchEmptyIff | pkg/road/road.go:187-195 | the frame is empty, and nothing is transmitted, exactly when every drained message is empty |
| Road.CycleShape | pkg/road/road.go:134-199 | an empty queue means no radio call at all; otherwise EN goes high first and low last and nowhere between, each Rx uses the receive timeout, and one Tx of the whole frame with the transmit timeout happens exactly when some message is non-empty |
| Road.CycleCalls | pkg/road/road.go:134-199 | the radio calls of one tick: none on an empty queue, else EN high, the Rx calls, a Tx of the frame if it is non-empty, EN low; CycleShape states its shape |
| Road.ThreeMessages | pkg/road/road.go:162-195 | messages m1, m2, m3 after one receive call are sent as the one frame m1\|m2\|m3 |
| Road.OfferAllKeepsPrefix | cmd/mbx/main.go:168-174 | repeated non-blocking sends keep the oldest values that fit, in order, and drop the rest |
| Road.OverflowDropsNewest | cmd/mbx/main.go:168-174 | capacity + 1 sends into an empty channel hold the first capacity values and drop the last |
| Road.Offer | cmd/mbx/main.go:171-174 | one non-blocking send: appended when the buffer has room, dropped otherwise; OfferAllKeepsPrefix states its effect over many sends |
| Road.Queue.constructor | cmd/mbx/main.go:41 | a channel starts empty with the given capacity |
| Road.Queue.TryPush | cmd/mbx/main.go:171-174 | a send succeeds exactly when the buffer has room; the value is appended on success and the buffer is unchanged otherwise |
| Road.Queue.TryPop | pkg/road/road.go:167-176 | a receive on an empty channel takes the default branch; otherwise it yields the oldest value and removes it |
| Road.Radio.SetupLora | pkg/road/road.go:39-122 | both timeouts are defaulted by TimeoutOrDefault, the queue is kept, EN is raised, and the radio is ready for a tick |
| Road.Radio.SetEn | pkg/road/road.go:140 | EN takes the given level and the pin write is recorded |
| Road.Radio.Receive | pkg/road/road.go:149-154 | one Rx call with the receive timeout; its result changes nothing |
| Road.Radio.Transmit | pkg/road/road.go:189-192 | one Tx call of the payload with the transmit timeout; an error changes nothing |
| Road.Radio.LoraTxCycle | pkg/road/road.go:129-202 | given the replies of the receive window, which always makes at least one Rx call, one tick drains the queue completely, makes exactly the calls CycleCalls lists for the queue it started with, and leaves EN low, except that on an empty queue EN is untouched |
| Road.SetupThenIdleTick | pkg/road/road.go:90 | after SetupLora with zero timeouts, a tick on an empty queue leaves EN high and both timeouts at 1000 ms |
| Road.EmptyMessageTick | pkg/road/road.go:134-199 | a queued empty message wakes the radio but makes an empty frame: after setup the calls are EN high, then the tick's EN high, one Rx with the default timeout and EN low, with no Tx; the queue is drained and EN ends low |

## Left out

- The engine source (package `fsm`) is not part of this model. Its
  `SendEvent` is modelled by its observable contract (`Fsm.Submit`): look
  the event up, reject it if absent, otherwise move Previous and Current,
  run the action and follow up until NoOp.
- Fsm.StateMachine.SendEvent: requires the table to be well-formed (closed,
  and a follow-up cascade at most one step deep). Both tables in the
  program meet this (`Marty.NewStatesWellFormed`). A table with a longer or
  cyclic cascade is not modelled.
- Fsm.Effect: counters are unbounded integers. Go's `int` wraps on
  overflow, which would take billions of events.
- State and event identifiers are Go strings in the source. Here they are
  closed enumerations of the values the program uses.
- Logging (`log.Printf`, `log.Println`) and the `String` methods have no
  observable effect on the state and are left out.
- The `main` functions of the `marty`, `mike`, `mbx` and `gateway`
  commands (pin and interrupt wiring, goroutines, the display, the UART
  bridge) are left out. From `mbx`, only the non-blocking send is modelled.
- SPI and pin configuration, the sx127x driver, `DetectDevice` and its
  panic, and the LoRa radio configuration are hardware bring-up and are left
  out.
- Road.Radio.LoraTxCycle: the five-second wall-clock receive window is
  represented by the number of Rx replies passed in, at least one. The clock is not
  modelled.
- Road.Radio.LoraTxCycle: the ten-second ticker and `runtime.Gosched` are
  left out. One call is one tick.
- Road.Radio.LoraTxCycle: assumes no producer pushes between the emptiness
  check and the end of the drain, the receive window included. The frame is
  therefore the queue as it stood when the tick began, and the queue is
  empty at the end. In the source, a message pushed during the five-second
  receive window goes out in the same tick's frame; concurrent sends from
  interrupt handlers are not modelled.
- Road.Radio.Receive and Road.Radio.Transmit: the driver's error values and
  received bytes are only logged in the source. The model records the call
  and nothing else.
- Road.Queue.TryPush: the outbound queue is a `Queue<Msg>`, and the same
  generic class stands for the sensor-event channel of cmd/mbx. Whether the
  send is safe to call from an interrupt handler is not modelled.
