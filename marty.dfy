/** The two-sensor classifier of package marty: the transition table New()
    builds, the Marty aggregate whose SendEvent recovers from rejected events,
    and what holds of every run of it. */
module Marty {
  import opened Wrappers
  import opened Fsm

  /** The table New() builds. Default accepts only the two rising edges; the
      three outcome states accept only Reset, back to Default; Error has no
      entry at all. */
  function NewStates(): States {
    map[
      Default := State(DefaultAction, map[RightRising := Arriving, LeftRising := Departing]),
      Arriving := State(ArrivingAction, map[LeftRising := Arrived, RightFalling := FalseAlarm]),
      Arrived := State(ArrivedAction, map[Reset := Default]),
      Departing := State(DepartingAction, map[LeftFalling := FalseAlarm, RightRising := Departed]),
      Departed := State(DepartedAction, map[Reset := Default]),
      FalseAlarm := State(FalseAlarmAction, map[Reset := Default])
    ]
  }

  /** The action type named after each state. */
  function ActionOf(s: StateId): Action {
    match s
    case Default => DefaultAction
    case Arriving => ArrivingAction
    case Arrived => ArrivedAction
    case Departing => DepartingAction
    case Departed => DepartedAction
    case FalseAlarm => FalseAlarmAction
    case Error => ErrorAction
  }

  /** Each state's entry, one at a time. */
  lemma NewStatesEntry(s: StateId)
    requires s in NewStates()
    ensures NewStates()[s].action == ActionOf(s)
    ensures NewStates()[s].events == match s
      case Default => map[RightRising := Arriving, LeftRising := Departing]
      case Arriving => map[LeftRising := Arrived, RightFalling := FalseAlarm]
      case Departing => map[LeftFalling := FalseAlarm, RightRising := Departed]
      case _ => map[Reset := Default]
  {
  }

  lemma NewStatesWellFormed()
    ensures WellFormed(NewStates())
  {
    var states := NewStates();
    assert states.Keys == {Default, Arriving, Arrived, Departing, Departed, FalseAlarm};
    forall s, e | s in states && e in states[s].events
      ensures states[s].events[e] in states
    {
      NewStatesEntry(s);
    }
    forall s | s in states && FollowUp(states[s].action) in states[s].events
      ensures FollowUp(states[s].action) == NoOp ||
              FollowUp(states[states[s].events[FollowUp(states[s].action)]].action) == NoOp
    {
      NewStatesEntry(s);
      if FollowUp(states[s].action) != NoOp {
        assert states[s].events[Reset] == Default;
        NewStatesEntry(Default);
      }
    }
  }

  /** The shape of the table: six states, each running the action named after
      it; Default accepts exactly the two rising edges; the outcome states
      accept exactly Reset and it leads to Default; nothing leads into Error. */
  lemma NewStatesShape()
    ensures NewStates().Keys == {Default, Arriving, Arrived, Departing, Departed, FalseAlarm}
    ensures forall s :: s in NewStates() ==> NewStates()[s].action == ActionOf(s)
    ensures forall e :: Lookup(NewStates(), Default, e).Some? <==> e == RightRising || e == LeftRising
    ensures forall s, e :: s == Arrived || s == Departed || s == FalseAlarm ==>
              Lookup(NewStates(), s, e) == if e == Reset then Some(Default) else None
    ensures forall s, e :: Lookup(NewStates(), s, e) != Some(Error)
  {
  }

  /** The states the machine can come to rest in after a SendEvent. */
  predicate Resting(s: StateId) {
    s == Default || s == Arriving || s == Departing
  }

  /** The recovery SendEvent applies to a rejected event: one more error,
      Current forced to Default, nothing else touched (DefaultAction does not
      run). */
  function Recover(m: Machine): Machine {
    m.(current := Default, counts := m.counts.(errorCount := m.counts.errorCount + 1))
  }

  /** The machine after a submission, recovery applied to a rejection. */
  function Settle(o: Outcome): Machine {
    match o
    case Accepted(m) => m
    case Rejected(m) => Recover(m)
  }

  /** Marty.SendEvent on values. */
  function Step(m: Machine, e: EventId): Machine {
    NewStatesWellFormed();
    Settle(Submit(NewStates(), m, e))
  }

  /** A sequence of SendEvent calls. */
  function Run(m: Machine, es: seq<EventId>): Machine
    decreases |es|
  {
    if es == [] then m else Run(Step(m, es[0]), es[1..])
  }

  /** Closed form of one step: a rejected event is recovered; an accepted one
      enters its target and, when that is an outcome state, cascades through
      Reset back to Default, running DefaultAction. */
  lemma StepCases(m: Machine, e: EventId)
    ensures Lookup(NewStates(), m.current, e).None? ==> Step(m, e) == Recover(m)
    ensures Lookup(NewStates(), m.current, e).Some? ==>
      var t := Lookup(NewStates(), m.current, e).value;
      var c := Effect(ActionOf(t), m.counts);
      t != Error &&
      Step(m, e) == if FollowUp(ActionOf(t)) == NoOp then Machine(t, m.current, c)
                    else Machine(Default, t, Effect(DefaultAction, c))
  {
    NewStatesWellFormed();
    var states := NewStates();
    assert states.Keys == {Default, Arriving, Arrived, Departing, Departed, FalseAlarm};
    match Lookup(states, m.current, e)
    case None =>
    case Some(t) =>
      NewStatesEntry(t);
      var a := ActionOf(t);
      if FollowUp(a) != NoOp {
        var m' := Machine(t, m.current, Effect(a, m.counts));
        assert Lookup(states, t, Reset) == Some(Default);
        NewStatesEntry(Default);
        assert Submit(states, m', Reset) == Accepted(Machine(Default, t, Effect(DefaultAction, m'.counts)));
      }
  }

  /** A SendEvent rejects exactly when the current state has no entry for the
      event, and a rejection is exactly the recovery. */
  lemma StepRejects(m: Machine, e: EventId)
    ensures Lookup(NewStates(), m.current, e).None? <==> Step(m, e) == Recover(m)
  {
    StepCases(m, e);
    if Lookup(NewStates(), m.current, e).Some? {
      var t := Lookup(NewStates(), m.current, e).value;
      var c := Effect(ActionOf(t), m.counts);
      assert Counter(c, ActionOf(t)) != Counter(m.counts, ActionOf(t));
      assert ActionOf(t) != ErrorAction;
      if FollowUp(ActionOf(t)) != NoOp {
        var c2 := Effect(DefaultAction, c);
        assert Counter(c2, DefaultAction) != Counter(m.counts, DefaultAction) by {
          if ActionOf(t) != DefaultAction {
            assert Counter(c, DefaultAction) == Counter(m.counts, DefaultAction);
          }
        }
      }
    }
  }

  /** In Default, falling edges, Reset and NoOp have no entry: each is a
      rejection, recovered without running DefaultAction. */
  lemma DefaultRejectsFalling(m: Machine, e: EventId)
    requires m.current == Default
    requires e != RightRising && e != LeftRising
    ensures Step(m, e) == Recover(m)
    ensures Step(m, e).counts.defaultCount == m.counts.defaultCount
  {
    NewStatesShape();
    StepRejects(m, e);
  }

  /** After every SendEvent, whatever the state before, the machine rests in
      Default, Arriving or Departing; in particular it never enters Error. */
  lemma StepRests(m: Machine, e: EventId)
    ensures Resting(Step(m, e).current)
  {
    StepCases(m, e);
    NewStatesShape();
  }

  /** ErrorCount changes only through the reject path, by exactly one. */
  lemma StepErrorCount(m: Machine, e: EventId)
    ensures Step(m, e).counts.errorCount
            == m.counts.errorCount + if Lookup(NewStates(), m.current, e).None? then 1 else 0
  {
    StepCases(m, e);
  }

  /** Every counter is at least as large as the other's. */
  predicate AtMost(c: Counts, d: Counts) {
    c.defaultCount <= d.defaultCount && c.arrivedCount <= d.arrivedCount &&
    c.arrivingCount <= d.arrivingCount && c.departedCount <= d.departedCount &&
    c.departingCount <= d.departingCount && c.errorCount <= d.errorCount &&
    c.falseAlarmCount <= d.falseAlarmCount
  }

  lemma StepMonotone(m: Machine, e: EventId)
    ensures AtMost(m.counts, Step(m, e).counts)
  {
    StepCases(m, e);
  }

  /** Every completed arrival, departure or false alarm ran DefaultAction once. */
  predicate Balanced(c: Counts) {
    c.defaultCount == c.arrivedCount + c.departedCount + c.falseAlarmCount
  }

  lemma StepBalanced(m: Machine, e: EventId)
    requires Resting(m.current) && Balanced(m.counts)
    ensures Resting(Step(m, e).current) && Balanced(Step(m, e).counts)
  {
    StepCases(m, e);
    StepRests(m, e);
  }

  lemma RunTwo(m: Machine, a: EventId, b: EventId)
    ensures Run(m, [a, b]) == Step(Step(m, a), b)
  {
    assert [a, b][1..] == [b];
    assert [b][1..] == [];
    assert Run(m, [a, b]) == Run(Step(m, a), [b]);
    assert Run(Step(m, a), [b]) == Run(Step(Step(m, a), b), []);
  }

  lemma {:induction false} RunAppend(m: Machine, a: seq<EventId>, b: seq<EventId>)
    ensures Run(m, a + b) == Run(Run(m, a), b)
    decreases |a|
  {
    if a == [] {
      assert a + b == b;
    } else {
      assert (a + b)[1..] == a[1..] + b;
      RunAppend(Step(m, a[0]), a[1..], b);
    }
  }

  /** Counters never decrease along any event sequence. */
  lemma {:induction false} RunMonotone(m: Machine, es: seq<EventId>)
    ensures AtMost(m.counts, Run(m, es).counts)
    decreases |es|
  {
    if es != [] {
      StepMonotone(m, es[0]);
      RunMonotone(Step(m, es[0]), es[1..]);
    }
  }

  /** From a resting, balanced machine every event sequence ends resting and
      balanced. */
  lemma {:induction false} RunBalanced(m: Machine, es: seq<EventId>)
    requires Resting(m.current) && Balanced(m.counts)
    ensures Resting(Run(m, es).current) && Balanced(Run(m, es).counts)
    decreases |es|
  {
    if es != [] {
      StepBalanced(m, es[0]);
      RunBalanced(Step(m, es[0]), es[1..]);
    }
  }

  /** The machine New() returns, on values. */
  const Initial := Machine(Default, Default, Zero)

  /** From New(), after any event sequence: DefaultCount equals
      ArrivedCount + DepartedCount + FalseAlarmCount, and no counter is
      negative. */
  lemma FromNew(es: seq<EventId>)
    ensures Resting(Run(Initial, es).current)
    ensures Balanced(Run(Initial, es).counts)
    ensures AtMost(Zero, Run(Initial, es).counts)
  {
    RunBalanced(Initial, es);
    RunMonotone(Initial, es);
  }

  // The four complete pairs, from Default with any counters.

  lemma ArrivalPair(m: Machine)
    requires m.current == Default
    ensures Run(m, [RightRising, LeftRising]) == Machine(Default, Arrived,
      m.counts.(arrivingCount := m.counts.arrivingCount + 1,
                arrivedCount := m.counts.arrivedCount + 1,
                defaultCount := m.counts.defaultCount + 1))
  {
    NewStatesEntry(Default);
    NewStatesEntry(Arriving);
    StepCases(m, RightRising);
    var m1 := Step(m, RightRising);
    assert m1 == Machine(Arriving, Default, Effect(ActionOf(Arriving), m.counts));
    StepCases(m1, LeftRising);
    RunTwo(m, RightRising, LeftRising);
  }

  lemma DeparturePair(m: Machine)
    requires m.current == Default
    ensures Run(m, [LeftRising, RightRising]) == Machine(Default, Departed,
      m.counts.(departingCount := m.counts.departingCount + 1,
                departedCount := m.counts.departedCount + 1,
                defaultCount := m.counts.defaultCount + 1))
  {
    NewStatesEntry(Default);
    NewStatesEntry(Departing);
    StepCases(m, LeftRising);
    var m1 := Step(m, LeftRising);
    assert m1 == Machine(Departing, Default, Effect(ActionOf(Departing), m.counts));
    StepCases(m1, RightRising);
    RunTwo(m, LeftRising, RightRising);
  }

  lemma ArrivingFalseAlarmPair(m: Machine)
    requires m.current == Default
    ensures Run(m, [RightRising, RightFalling]) == Machine(Default, FalseAlarm,
      m.counts.(arrivingCount := m.counts.arrivingCount + 1,
                falseAlarmCount := m.counts.falseAlarmCount + 1,
                defaultCount := m.counts.defaultCount + 1))
  {
    NewStatesEntry(Default);
    NewStatesEntry(Arriving);
    StepCases(m, RightRising);
    var m1 := Step(m, RightRising);
    assert m1 == Machine(Arriving, Default, Effect(ActionOf(Arriving), m.counts));
    StepCases(m1, RightFalling);
    RunTwo(m, RightRising, RightFalling);
  }

  lemma DepartingFalseAlarmPair(m: Machine)
    requires m.current == Default
    ensures Run(m, [LeftRising, LeftFalling]) == Machine(Default, FalseAlarm,
      m.counts.(departingCount := m.counts.departingCount + 1,
                falseAlarmCount := m.counts.falseAlarmCount + 1,
                defaultCount := m.counts.defaultCount + 1))
  {
    NewStatesEntry(Default);
    NewStatesEntry(Departing);
    StepCases(m, LeftRising);
    var m1 := Step(m, LeftRising);
    assert m1 == Machine(Departing, Default, Effect(ActionOf(Departing), m.counts));
    StepCases(m1, LeftFalling);
    RunTwo(m, LeftRising, LeftFalling);
  }

  // Two rising edges from the same side: the second is rejected.

  lemma ArrivingDoubleRising(m: Machine)
    requires m.current == Default
    ensures Run(m, [RightRising, RightRising]) == Machine(Default, Default,
      m.counts.(arrivingCount := m.counts.arrivingCount + 1,
                errorCount := m.counts.errorCount + 1))
  {
    NewStatesEntry(Default);
    NewStatesEntry(Arriving);
    StepCases(m, RightRising);
    var m1 := Step(m, RightRising);
    assert m1 == Machine(Arriving, Default, Effect(ActionOf(Arriving), m.counts));
    StepCases(m1, RightRising);
    RunTwo(m, RightRising, RightRising);
  }

  lemma DepartingDoubleRising(m: Machine)
    requires m.current == Default
    ensures Run(m, [LeftRising, LeftRising]) == Machine(Default, Default,
      m.counts.(departingCount := m.counts.departingCount + 1,
                errorCount := m.counts.errorCount + 1))
  {
    NewStatesEntry(Default);
    NewStatesEntry(Departing);
    StepCases(m, LeftRising);
    var m1 := Step(m, LeftRising);
    assert m1 == Machine(Departing, Default, Effect(ActionOf(Departing), m.counts));
    StepCases(m1, LeftRising);
    RunTwo(m, LeftRising, LeftRising);
  }

  /** The combined scenario: the six pairs above in a row, from New(). */
  lemma Combination()
    ensures Run(Initial, [RightRising, LeftRising, LeftRising, RightRising,
                          RightRising, RightFalling, LeftRising, LeftFalling,
                          LeftRising, LeftRising, RightRising, RightRising]).counts
            == Counts(4, 1, 3, 1, 3, 2, 2)
  {
    var m0 := Initial;
    ArrivalPair(m0);
    var m1 := Run(m0, [RightRising, LeftRising]);
    DeparturePair(m1);
    var m2 := Run(m1, [LeftRising, RightRising]);
    ArrivingFalseAlarmPair(m2);
    var m3 := Run(m2, [RightRising, RightFalling]);
    DepartingFalseAlarmPair(m3);
    var m4 := Run(m3, [LeftRising, LeftFalling]);
    DepartingDoubleRising(m4);
    var m5 := Run(m4, [LeftRising, LeftRising]);
    ArrivingDoubleRising(m5);
    RunAppend(m0, [RightRising, LeftRising], [LeftRising, RightRising, RightRising, RightFalling,
      LeftRising, LeftFalling, LeftRising, LeftRising, RightRising, RightRising]);
    RunAppend(m1, [LeftRising, RightRising], [RightRising, RightFalling,
      LeftRising, LeftFalling, LeftRising, LeftRising, RightRising, RightRising]);
    RunAppend(m2, [RightRising, RightFalling], [LeftRising, LeftFalling, LeftRising, LeftRising,
      RightRising, RightRising]);
    RunAppend(m3, [LeftRising, LeftFalling], [LeftRising, LeftRising, RightRising, RightRising]);
    RunAppend(m4, [LeftRising, LeftRising], [RightRising, RightRising]);
  }

  /** The Marty aggregate: the engine and its context, owned together. */
  class Marty {
    const stateMachine: StateMachine
    const ctx: Context

    ghost predicate Valid()
      reads this, stateMachine
    {
      stateMachine.states == NewStates()
    }

    function Snapshot(): Machine
      reads this, stateMachine, ctx
    {
      stateMachine.Snapshot(ctx)
    }

    /** New(): the table above, Current = Previous = Default, zero counters. */
    constructor ()
      ensures Valid() && fresh(stateMachine) && fresh(ctx)
      ensures Snapshot() == Initial
      ensures stateMachine.states.Keys == {Default, Arriving, Arrived, Departing, Departed, FalseAlarm}
    {
      NewStatesWellFormed();
      NewStatesShape();
      stateMachine := new StateMachine(NewStates());
      ctx := new Context();
    }

    /** Submit to the engine; on rejection count an error and force Default. */
    method SendEvent(event: EventId)
      requires Valid()
      modifies stateMachine, ctx
      ensures Valid()
      ensures Snapshot() == Step(old(Snapshot()), event)
    {
      NewStatesWellFormed();
      var rejected := stateMachine.SendEvent(event, ctx);
      if rejected {
        ctx.errorCount := ctx.errorCount + 1;
        stateMachine.current := Default;
      }
    }
  }
}
