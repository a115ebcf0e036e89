/** The module-level flag that lets one graph invocation run at a time, through three entry points. */
module SingleFlight {

  type CallId = nat

  datatype Entry = Research | Continuation | ContinuationWithProgress

  datatype Outcome = Completed | Invalid | Busy | TimedOut | Failed

  /** Where a call stands: merging its input, at the guard, inside its run, in `finally`, or over. */
  datatype Phase =
    | Merging(entry: Entry)
    | AtGuard(entry: Entry)
    | Running(entry: Entry)
    | Clearing(entry: Entry, outcome: Outcome)
    | Over(outcome: Outcome)

  datatype State = State(busy: bool, calls: map<CallId, Phase>)

  /** `result` is what the step meets: invalid input while merging, the end of the run while inside. */
  datatype Event = Call(id: CallId, entry: Entry) | Proceed(id: CallId, result: Outcome)

  predicate Inside(p: Phase) { p.Running? || p.Clearing? }

  function Calls(s: State): set<CallId> {
    set id | id in s.calls && Inside(s.calls[id])
  }

  function At(s: State, id: CallId, p: Phase): State { s.(calls := s.calls[id := p]) }

  function Step(s: State, e: Event): State {
    match e
    case Call(id, entry) => if id in s.calls then s else At(s, id, Merging(entry))
    case Proceed(id, result) =>
      if id !in s.calls then s
      else
        match s.calls[id]
        case Merging(entry) => At(s, id, if result == Invalid then Over(Invalid) else AtGuard(entry))
        case AtGuard(entry) => if s.busy then At(s, id, Over(Busy)) else At(s, id, Running(entry)).(busy := true)
        case Running(entry) =>
          At(s, id, Clearing(entry, if result == Invalid || result == Busy then Failed else result))
        case Clearing(_, outcome) => At(s, id, Over(outcome)).(busy := false)
        case Over(_) => s
  }

  function Exec(s: State, events: seq<Event>): State
    decreases |events|
  {
    if events == [] then s else Exec(Step(s, events[0]), events[1..])
  }

  const IDLE: State := State(false, map[])

  /** The flag is set exactly while one call is inside, and two are never inside. */
  ghost predicate Exact(s: State) {
    && (s.busy <==> exists id :: id in s.calls && Inside(s.calls[id]))
    && (forall a, b | a in s.calls && b in s.calls && Inside(s.calls[a]) && Inside(s.calls[b]) :: a == b)
  }

  lemma StepKeepsExact(s: State, e: Event)
    requires Exact(s)
    ensures Exact(Step(s, e))
  {
    var z := Step(s, e);
    if id :| id in s.calls && Inside(s.calls[id]) {
      if e.id != id {
        assert id in z.calls && z.calls[id] == s.calls[id];
      } else if Inside(z.calls[id]) {
        assert z.busy;
      }
    } else if e.Proceed? && e.id in s.calls && s.calls[e.id].AtGuard? {
      assert e.id in z.calls && Inside(z.calls[e.id]);
    }
  }

  lemma {:induction false} RunKeepsExact(s: State, events: seq<Event>)
    requires Exact(s)
    ensures Exact(Exec(s, events))
    decreases |events|
  {
    if events == [] {
    } else {
      StepKeepsExact(s, events[0]);
      RunKeepsExact(Step(s, events[0]), events[1..]);
    }
  }

  /** In every interleaving the flag is up exactly when one call is inside its run. */
  lemma BusyExactly(events: seq<Event>)
    ensures var s := Exec(IDLE, events); if s.busy then |Calls(s)| == 1 else Calls(s) == {}
  {
    var s := Exec(IDLE, events);
    RunKeepsExact(IDLE, events);
    if s.busy {
      var id :| id in s.calls && Inside(s.calls[id]);
      assert Calls(s) == {id};
    }
  }

  /** The guard lets a call in exactly when no call is inside; a refused call leaves the flag to the
      call that holds it. However the holder's run ended, its last step lowers the flag. */
  lemma GuardAndClear(events: seq<Event>, id: CallId, result: Outcome)
    requires id in Exec(IDLE, events).calls
    ensures var s := Exec(IDLE, events); var z := Step(s, Proceed(id, result));
      && (s.calls[id].AtGuard? ==>
            && (z.calls[id].Running? <==> Calls(s) == {})
            && (Calls(s) != {} ==> z.calls[id] == Over(Busy) && z.busy && Calls(z) == Calls(s)))
      && (s.calls[id].Clearing? ==> !z.busy && Calls(z) == {} && z.calls[id] == Over(s.calls[id].outcome))
  {
    var s := Exec(IDLE, events);
    var z := Step(s, Proceed(id, result));
    RunKeepsExact(IDLE, events);
    BusyExactly(events);
    if s.calls[id].Clearing? {
      assert forall other | other in z.calls && other != id :: !Inside(s.calls[other]);
    }
  }

  ghost predicate Ran(s: State, z: State) {
    exists events: seq<Event> :: Exec(s, events) == z
  }

  ghost predicate OthersRan(s: State, z: State, me: CallId) {
    exists events: seq<Event> :: (forall i | 0 <= i < |events| :: events[i].id != me) && Exec(s, events) == z
  }

  lemma {:induction false} ExecConcat(s: State, a: seq<Event>, b: seq<Event>)
    ensures Exec(s, a + b) == Exec(Exec(s, a), b)
    decreases |a|
  {
    if a == [] {
      assert a + b == b;
    } else {
      assert (a + b)[1..] == a[1..] + b;
      ExecConcat(Step(s, a[0]), a[1..], b);
    }
  }

  lemma RanStep(s: State, z: State, e: Event)
    requires Ran(s, z)
    ensures Ran(s, Step(z, e))
  {
    var events: seq<Event> :| Exec(s, events) == z;
    ExecConcat(s, events, [e]);
    assert [e][1..] == [];
    assert Exec(s, events + [e]) == Step(z, e);
  }

  lemma {:induction false} OthersStepPast(s: State, events: seq<Event>, me: CallId)
    requires me in s.calls && forall i | 0 <= i < |events| :: events[i].id != me
    ensures me in Exec(s, events).calls && Exec(s, events).calls[me] == s.calls[me]
    decreases |events|
  {
    if events == [] {
    } else {
      assert events[0].id != me;
      OthersStepPast(Step(s, events[0]), events[1..], me);
    }
  }

  /** A call keeps its phase at an await whatever steps the other calls take: all that `Yield` promises
      holds of every such run. */
  lemma OthersLeave(start: State, s: State, z: State, me: CallId, p: Phase)
    requires Ran(start, s) && me in s.calls && s.calls[me] == p && OthersRan(s, z, me)
    ensures Ran(start, z) && me in z.calls && z.calls[me] == p
  {
    var before: seq<Event> :| Exec(start, before) == s;
    var events: seq<Event> :| (forall i | 0 <= i < |events| :: events[i].id != me) && Exec(s, events) == z;
    OthersStepPast(s, events, me);
    ExecConcat(start, before, events);
    assert Exec(start, before + events) == z;
  }

  /** The flag as module state; other calls run at every await. */
  class GraphModule {
    var busy: bool
    ghost var calls: map<CallId, Phase>

    constructor ()
      ensures Shown() == IDLE
    {
      busy, calls := false, map[];
    }

    ghost function Shown(): State
      reads this
    {
      State(busy, calls)
    }

    ghost predicate Stands(start: State, me: CallId, p: Phase)
      reads this
    {
      Ran(start, Shown()) && me in calls && calls[me] == p
    }

    method Yield(ghost start: State, ghost me: CallId, ghost p: Phase)
      requires Stands(start, me, p)
      modifies this
      ensures Stands(start, me, p) && OthersRan(old(Shown()), Shown(), me)
    {
      assert Exec(Shown(), []) == Shown();
    }

    /** An invocation: merge and validate, take the flag or be refused, run to `end`, and clear in
        `finally`. */
    method Invoke(ghost me: CallId, entry: Entry, valid: bool, end: Outcome) returns (o: Outcome)
      requires me !in calls && end in {Completed, TimedOut, Failed}
      modifies this
      ensures Ran(old(Shown()), Shown()) && me in calls && calls[me] == Over(o)
      ensures if valid then o == end || o == Busy else o == Invalid
    {
      ghost var start := Shown();
      assert Exec(start, []) == start;
      RanStep(start, start, Call(me, entry));
      calls := calls[me := Merging(entry)];
      ghost var merged := if valid then Completed else Invalid;
      RanStep(start, Shown(), Proceed(me, merged));
      if !valid {
        calls := calls[me := Over(Invalid)];
        return Invalid;
      }
      calls := calls[me := AtGuard(entry)];
      Yield(start, me, AtGuard(entry));
      RanStep(start, Shown(), Proceed(me, merged));
      if busy {
        calls := calls[me := Over(Busy)];
        return Busy;
      }
      busy, calls := true, calls[me := Running(entry)];
      o := RunAndClear(start, me, entry, end);
    }

    /** The run, which ends with `end`, and its `finally` block, which lowers the flag. */
    method RunAndClear(ghost start: State, ghost me: CallId, entry: Entry, end: Outcome) returns (o: Outcome)
      requires Stands(start, me, Running(entry)) && end in {Completed, TimedOut, Failed}
      modifies this
      ensures Stands(start, me, Over(o)) && o == end && !busy
    {
      Yield(start, me, Running(entry));
      o := end;
      RanStep(start, Shown(), Proceed(me, o));
      calls := calls[me := Clearing(entry, o)];
      Yield(start, me, Clearing(entry, o));
      RanStep(start, Shown(), Proceed(me, o));
      busy, calls := false, calls[me := Over(o)];
    }
  }
}
