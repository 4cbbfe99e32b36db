/** The table-driven state machine engine (package fsm) and the vocabulary its
    tables are written in for the two-sensor classifier.

    The engine's own source is not part of this model: StateMachine.SendEvent
    is modelled by its observable contract only (look the event up in the
    current state's table, reject it if absent, otherwise move Previous and
    Current, run the target state's action and keep going with the action's
    follow-up event until that is NoOp). Actions, which the source dispatches
    through an interface, are a tagged variant here, and the event context is
    the seven-counter record both classifier copies use. */
module Fsm {
  import opened Wrappers

  /** State identifiers: the engine's Default plus the classifier's six. */
  datatype StateId = Default | Arriving | Arrived | Departing | Departed | FalseAlarm | Error

  /** Event identifiers: the engine's NoOp sentinel ("no follow-up"), the
      four sensor edges and the classifier's internal Reset. */
  datatype EventId = NoOp | RightRising | RightFalling | LeftRising | LeftFalling | Reset

  /** One tag per action type (DefaultAction, ArrivedAction, ...). */
  datatype Action =
    | DefaultAction | ArrivedAction | ArrivingAction | DepartedAction
    | DepartingAction | ErrorAction | FalseAlarmAction

  /** The event context: one counter per outcome. */
  datatype Counts = Counts(
    defaultCount: int,
    arrivedCount: int,
    arrivingCount: int,
    departedCount: int,
    departingCount: int,
    errorCount: int,
    falseAlarmCount: int)

  const Zero := Counts(0, 0, 0, 0, 0, 0, 0)

  /** The counter an action is named after. */
  function Counter(c: Counts, a: Action): int {
    match a
    case DefaultAction => c.defaultCount
    case ArrivedAction => c.arrivedCount
    case ArrivingAction => c.arrivingCount
    case DepartedAction => c.departedCount
    case DepartingAction => c.departingCount
    case ErrorAction => c.errorCount
    case FalseAlarmAction => c.falseAlarmCount
  }

  /** What running an action does to the counters: its own counter goes up by
      one and every other counter is left as it was. */
  function Effect(a: Action, c: Counts): (r: Counts)
    ensures Counter(r, a) == Counter(c, a) + 1
    ensures forall b: Action :: b != a ==> Counter(r, b) == Counter(c, b)
  {
    match a
    case DefaultAction => c.(defaultCount := c.defaultCount + 1)
    case ArrivedAction => c.(arrivedCount := c.arrivedCount + 1)
    case ArrivingAction => c.(arrivingCount := c.arrivingCount + 1)
    case DepartedAction => c.(departedCount := c.departedCount + 1)
    case DepartingAction => c.(departingCount := c.departingCount + 1)
    case ErrorAction => c.(errorCount := c.errorCount + 1)
    case FalseAlarmAction => c.(falseAlarmCount := c.falseAlarmCount + 1)
  }

  /** The follow-up event an action returns: the three outcome actions ask to
      return to Default, the others ask for nothing more. */
  function FollowUp(a: Action): (e: EventId)
    ensures e == NoOp || e == Reset
    ensures e == Reset <==> (a == ArrivedAction || a == DepartedAction || a == FalseAlarmAction)
  {
    match a
    case ArrivedAction => Reset
    case DepartedAction => Reset
    case FalseAlarmAction => Reset
    case _ => NoOp
  }

  /** A table entry: the action run on entry and the accepted events. */
  datatype State = State(action: Action, events: map<EventId, StateId>)

  type States = map<StateId, State>

  /** The transition the table holds for `e` in `current`, if any. */
  function Lookup(states: States, current: StateId, e: EventId): Option<StateId> {
    if current in states && e in states[current].events then Some(states[current].events[e]) else None
  }

  /** Every transition target is itself a state of the table. */
  ghost predicate Closed(states: States) {
    forall s, e :: s in states && e in states[s].events ==> states[s].events[e] in states
  }

  /** The follow-up an entered state asks for leads, when accepted, to a state
      whose action asks for nothing more: a cascade is at most one step deep. */
  ghost predicate ShallowCascade(states: States)
    requires Closed(states)
  {
    forall s :: s in states && FollowUp(states[s].action) in states[s].events ==>
      FollowUp(states[s].action) == NoOp ||
      FollowUp(states[states[s].events[FollowUp(states[s].action)]].action) == NoOp
  }

  ghost predicate WellFormed(states: States) {
    Closed(states) && ShallowCascade(states)
  }

  /** The observable state of an engine run: Current, Previous and the context. */
  datatype Machine = Machine(current: StateId, previous: StateId, counts: Counts)

  /** How a submission ends, with the machine as it stands at that point. */
  datatype Outcome = Accepted(after: Machine) | Rejected(after: Machine)

  /** How many more table steps submitting `e` in `current` can take. */
  function Rank(states: States, current: StateId, e: EventId): nat
    requires Closed(states)
  {
    match Lookup(states, current, e)
    case None => 0
    case Some(t) => if FollowUp(states[t].action) == NoOp then 1 else 2
  }

  /** The engine's contract for one submitted event, cascade included. An
      accepted submission ends in a state of the table whose action asked for
      nothing more; a rejection leaves Current in the table if it started
      there. */
  function Submit(states: States, m: Machine, e: EventId): (r: Outcome)
    requires WellFormed(states)
    ensures r.Accepted? ==> r.after.current in states && FollowUp(states[r.after.current].action) == NoOp
    ensures r.Rejected? && m.current in states ==> r.after.current in states
    decreases Rank(states, m.current, e)
  {
    match Lookup(states, m.current, e)
    case None => Rejected(m)
    case Some(t) =>
      var a := states[t].action;
      var m' := Machine(t, m.current, Effect(a, m.counts));
      if FollowUp(a) == NoOp then Accepted(m')
      else Submit(states, m', FollowUp(a))
  }

  /** Submit reports a rejection with the machine untouched exactly when the
      current state has no entry for the event: once a transition is taken, an
      action has run and the counters differ from the ones submitted. */
  lemma SubmitFirstStep(states: States, m: Machine, e: EventId)
    requires WellFormed(states)
    ensures Lookup(states, m.current, e).None? <==> Submit(states, m, e) == Rejected(m)
  {
    if Lookup(states, m.current, e).Some? {
      var t := Lookup(states, m.current, e).value;
      var a := states[t].action;
      var c := Effect(a, m.counts);
      assert Counter(c, a) != Counter(m.counts, a);
    }
  }

  /** The caller-owned event context (Context in pkg/marty, MartyContext in
      cmd/marty): seven counters updated in place by the actions. */
  class Context {
    var defaultCount: int
    var arrivedCount: int
    var arrivingCount: int
    var departedCount: int
    var departingCount: int
    var errorCount: int
    var falseAlarmCount: int

    function Snapshot(): Counts
      reads this
    {
      Counts(defaultCount, arrivedCount, arrivingCount, departedCount,
             departingCount, errorCount, falseAlarmCount)
    }

    /** A zeroed context, as the Go zero value and resetContext() give. */
    constructor ()
      ensures Snapshot() == Zero
    {
      defaultCount, arrivedCount, arrivingCount := 0, 0, 0;
      departedCount, departingCount, errorCount, falseAlarmCount := 0, 0, 0, 0;
    }

    /** The seven Execute methods: bump the action's own counter, return the
        follow-up event. */
    method Execute(a: Action) returns (next: EventId)
      modifies this
      ensures Snapshot() == Effect(a, old(Snapshot()))
      ensures next == FollowUp(a)
    {
      match a
      case DefaultAction =>
        defaultCount := defaultCount + 1;
        next := NoOp;
      case ArrivedAction =>
        arrivedCount := arrivedCount + 1;
        next := Reset;
      case ArrivingAction =>
        arrivingCount := arrivingCount + 1;
        next := NoOp;
      case DepartedAction =>
        departedCount := departedCount + 1;
        next := Reset;
      case DepartingAction =>
        departingCount := departingCount + 1;
        next := NoOp;
      case ErrorAction =>
        errorCount := errorCount + 1;
        next := NoOp;
      case FalseAlarmAction =>
        falseAlarmCount := falseAlarmCount + 1;
        next := Reset;
    }
  }

  /** fsm.StateMachine: Current and Previous change, the table does not. */
  class StateMachine {
    var current: StateId
    var previous: StateId
    const states: States

    ghost predicate Valid()
      reads this
    {
      WellFormed(states)
    }

    function Snapshot(ctx: Context): Machine
      reads this, ctx
    {
      Machine(current, previous, ctx.Snapshot())
    }

    /** The struct literal both classifier copies build: Current and Previous
        start at Default. */
    constructor (states: States)
      requires WellFormed(states)
      ensures Valid() && this.states == states
      ensures current == Default && previous == Default
    {
      this.states := states;
      current, previous := Default, Default;
    }

    /** Submit one event; the cascade of follow-up events runs as a loop.
        Returns true when the event (or a follow-up) was rejected. */
    method SendEvent(event: EventId, ctx: Context) returns (rejected: bool)
      requires Valid()
      modifies this, ctx
      ensures Valid()
      ensures Submit(states, old(Snapshot(ctx)), event)
              == if rejected then Rejected(Snapshot(ctx)) else Accepted(Snapshot(ctx))
    {
      var e := event;
      while true
        invariant Valid()
        invariant Submit(states, Snapshot(ctx), e) == Submit(states, old(Snapshot(ctx)), event)
        decreases Rank(states, current, e)
      {
        var next := Lookup(states, current, e);
        if next.None? {
          return true;
        }
        var t := next.value;
        previous, current := current, t;
        e := ctx.Execute(states[t].action);
        if e == NoOp {
          return false;
        }
      }
    }
  }
}
