/** The copy of the classifier in the marty command: newMartyFSM builds its
    own table for the same engine, and its tests drive it through a helper
    that applies the same reject recovery as package marty. */
module CmdMarty {
  import opened Fsm
  import Marty

  /** The table newMartyFSM builds. */
  function NewMartyStates(): States {
    map[
      Default := State(DefaultAction, map[RightRising := Arriving, LeftRising := Departing]),
      Arriving := State(ArrivingAction, map[LeftRising := Arrived, RightFalling := FalseAlarm]),
      Arrived := State(ArrivedAction, map[Reset := Default]),
      Departing := State(DepartingAction, map[LeftFalling := FalseAlarm, RightRising := Departed]),
      Departed := State(DepartedAction, map[Reset := Default]),
      FalseAlarm := State(FalseAlarmAction, map[Reset := Default])
    ]
  }

  /** The two copies agree: same states, same actions, same transitions. */
  lemma SameTableAsMarty()
    ensures NewMartyStates() == Marty.NewStates()
    ensures WellFormed(NewMartyStates())
  {
    Marty.NewStatesWellFormed();
  }

  /** Hence the helper over this table steps exactly as Marty.SendEvent does. */
  lemma SamePair(m: Machine, a: EventId, b: EventId)
    ensures HelperStep(NewMartyStates(), HelperStep(NewMartyStates(), m, a), b) == Marty.Run(m, [a, b])
  {
    SameTableAsMarty();
    Marty.RunTwo(m, a, b);
  }

  /** What the test helper leaves behind after one event, on values. */
  function HelperStep(states: States, m: Machine, e: EventId): Machine
    requires WellFormed(states)
  {
    Marty.Settle(Submit(states, m, e))
  }

  /** newMartyFSM: the table above, Current = Previous = Default. */
  method NewMartyFsm() returns (sm: StateMachine)
    ensures fresh(sm) && sm.Valid()
    ensures sm.states == NewMartyStates()
    ensures sm.current == Default && sm.previous == Default
  {
    SameTableAsMarty();
    Marty.NewStatesWellFormed();
    sm := new StateMachine(NewMartyStates());
  }

  /** The tests' sendEvent helper: submit, and on rejection count an error in
      the context and force the machine back to Default. */
  method SendEvent(event: EventId, sm: StateMachine, ctx: Context)
    requires sm.Valid()
    modifies sm, ctx
    ensures sm.Valid()
    ensures sm.Snapshot(ctx) == HelperStep(sm.states, old(sm.Snapshot(ctx)), event)
  {
    var rejected := sm.SendEvent(event, ctx);
    if rejected {
      ctx.errorCount := ctx.errorCount + 1;
      sm.current := Default;
    }
  }

  /** Two helper calls in a row, as each test scenario makes them. */
  method SendPair(a: EventId, b: EventId, sm: StateMachine, ctx: Context)
    requires sm.Valid() && sm.states == NewMartyStates()
    modifies sm, ctx
    ensures sm.Valid()
    ensures sm.Snapshot(ctx) == Marty.Run(old(sm.Snapshot(ctx)), [a, b])
  {
    SamePair(sm.Snapshot(ctx), a, b);
    SendEvent(a, sm, ctx);
    SendEvent(b, sm, ctx);
  }

  // The test scenarios, each from newMartyFSM() and a zeroed context. The
  // test itself builds one machine and reuses it, zeroing only the context
  // between scenarios; that gives the same counters, because every scenario
  // ends with the machine in Default and the pair lemmas of Marty hold from
  // any machine in Default, whatever Previous and the counters are.

  /** A car arriving: right then left rising edge. */
  method CarArriving() returns (c: Counts, current: StateId)
    ensures c == Counts(1, 1, 1, 0, 0, 0, 0)
    ensures current == Default
  {
    var sm := NewMartyFsm();
    var ctx := new Context();
    Marty.ArrivalPair(sm.Snapshot(ctx));
    SendPair(RightRising, LeftRising, sm, ctx);
    c, current := ctx.Snapshot(), sm.current;
  }

  /** A car departing: left then right rising edge. */
  method CarDeparting() returns (c: Counts, current: StateId)
    ensures c == Counts(1, 0, 0, 1, 1, 0, 0)
    ensures current == Default
  {
    var sm := NewMartyFsm();
    var ctx := new Context();
    Marty.DeparturePair(sm.Snapshot(ctx));
    SendPair(LeftRising, RightRising, sm, ctx);
    c, current := ctx.Snapshot(), sm.current;
  }

  /** A false alarm from the arriving side: right rising then right falling. */
  method FalseAlarmArriving() returns (c: Counts, current: StateId)
    ensures c == Counts(1, 0, 1, 0, 0, 0, 1)
    ensures current == Default
  {
    var sm := NewMartyFsm();
    var ctx := new Context();
    Marty.ArrivingFalseAlarmPair(sm.Snapshot(ctx));
    SendPair(RightRising, RightFalling, sm, ctx);
    c, current := ctx.Snapshot(), sm.current;
  }

  /** A false alarm from the departing side: left rising then left falling. */
  method FalseAlarmDeparting() returns (c: Counts, current: StateId)
    ensures c == Counts(1, 0, 0, 0, 1, 0, 1)
    ensures current == Default
  {
    var sm := NewMartyFsm();
    var ctx := new Context();
    Marty.DepartingFalseAlarmPair(sm.Snapshot(ctx));
    SendPair(LeftRising, LeftFalling, sm, ctx);
    c, current := ctx.Snapshot(), sm.current;
  }

  /** Two left rising edges: the second is rejected, DefaultAction never runs. */
  method ErrorDeparting() returns (c: Counts, current: StateId)
    ensures c == Counts(0, 0, 0, 0, 1, 1, 0)
    ensures current == Default
  {
    var sm := NewMartyFsm();
    var ctx := new Context();
    Marty.DepartingDoubleRising(sm.Snapshot(ctx));
    SendPair(LeftRising, LeftRising, sm, ctx);
    c, current := ctx.Snapshot(), sm.current;
  }

  /** Two right rising edges: the second is rejected, DefaultAction never runs. */
  method ErrorArriving() returns (c: Counts, current: StateId)
    ensures c == Counts(0, 0, 1, 0, 0, 1, 0)
    ensures current == Default
  {
    var sm := NewMartyFsm();
    var ctx := new Context();
    Marty.ArrivingDoubleRising(sm.Snapshot(ctx));
    SendPair(RightRising, RightRising, sm, ctx);
    c, current := ctx.Snapshot(), sm.current;
  }

  /** The twelve-event combination, one context throughout. */
  method Combination() returns (c: Counts, current: StateId)
    ensures c == Counts(4, 1, 3, 1, 3, 2, 2)
    ensures current == Default
  {
    var sm := NewMartyFsm();
    var ctx := new Context();
    Marty.ArrivalPair(sm.Snapshot(ctx));
    SendPair(RightRising, LeftRising, sm, ctx);
    Marty.DeparturePair(sm.Snapshot(ctx));
    SendPair(LeftRising, RightRising, sm, ctx);
    Marty.ArrivingFalseAlarmPair(sm.Snapshot(ctx));
    SendPair(RightRising, RightFalling, sm, ctx);
    Marty.DepartingFalseAlarmPair(sm.Snapshot(ctx));
    SendPair(LeftRising, LeftFalling, sm, ctx);
    Marty.DepartingDoubleRising(sm.Snapshot(ctx));
    SendPair(LeftRising, LeftRising, sm, ctx);
    Marty.ArrivingDoubleRising(sm.Snapshot(ctx));
    SendPair(RightRising, RightRising, sm, ctx);
    c, current := ctx.Snapshot(), sm.current;
  }
}
