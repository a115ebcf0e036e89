/** Stretches of a run in which one call goes on by itself and nothing raises. */
module Schedules {
  import opened Wrappers
  import opened SessionStores
  import opened TurnProtocol

  function Go(id: WorkerId, env: TurnEnv): Event { Advance(id, env, NoFault) }

  /** The event is no failing await of this call, and does not stop its worker. */
  predicate Harmless(e: Event, id: WorkerId) {
    e != Crash(id) && (e.Advance? && e.id == id ==> e.fault == NoFault)
  }

  /** None of the awaits of this call raises, and its worker does not stop. */
  predicate Steady(events: seq<Event>, id: WorkerId) {
    forall e | e in events :: Harmless(e, id)
  }

  /** A call arrives and takes the lock. */
  function Arrival(id: WorkerId, req: Request, env: TurnEnv): seq<Event> {
    [Begin(id, req), Go(id, env), Go(id, env), Go(id, env)]
  }

  predicate CanArrive(y: System, id: WorkerId, req: Request) {
    id !in y.workers && req.owner == y.owner
  }

  function Arrived(y: System, id: WorkerId, req: Request): System {
    y.(store := y.store.(lock := Some(y.store.minted), minted := y.store.minted + 1),
       workers := y.workers[id := Worker(req, Some(y.store.minted), if HasKey(req) then FindKey else LoadSnapshot)])
  }

  lemma {:induction false} ExecOne(y: System, e: Event)
    ensures Exec(y, [e]) == Step(y, e)
  {
    assert Exec(Step(y, e), []) == Step(y, e);
  }

  lemma {:induction false} ExecCons(y: System, e: Event, rest: seq<Event>)
    ensures Exec(y, [e] + rest) == Exec(Step(y, e), rest)
  {
    assert ([e] + rest)[1..] == rest;
  }

  lemma ArrivalTakesLock(y: System, id: WorkerId, req: Request, env: TurnEnv)
    requires CanArrive(y, id, req) && y.store.lock == None
    ensures Exec(y, Arrival(id, req, env)) == Arrived(y, id, req)
  {
    var y1 := Step(y, Begin(id, req));
    var y2 := Step(y1, Go(id, env));
    assert y2.workers[id] == Worker(req, None, Authorize);
    var y3 := Step(y2, Go(id, env));
    assert y3.workers[id] == Worker(req, None, Acquire(0));
    var y4 := Step(y3, Go(id, env));
    assert y4.workers[id] == Worker(req, Some(y.store.minted), if HasKey(req) then FindKey else LoadSnapshot);
    assert y4.workers == Arrived(y, id, req).workers;
    ExecOne(y3, Go(id, env));
    ExecCons(y2, Go(id, env), [Go(id, env)]);
    ExecCons(y1, Go(id, env), [Go(id, env), Go(id, env)]);
    ExecCons(y, Begin(id, req), [Go(id, env), Go(id, env), Go(id, env)]);
    assert [Go(id, env)] + [Go(id, env)] == [Go(id, env), Go(id, env)];
    assert [Go(id, env)] + [Go(id, env), Go(id, env)] == [Go(id, env), Go(id, env), Go(id, env)];
    assert [Begin(id, req)] + [Go(id, env), Go(id, env), Go(id, env)] == Arrival(id, req, env);
  }

  /** k awaits of one call in a row, none of them raising. */
  function Goes(id: WorkerId, env: TurnEnv, k: nat): seq<Event> {
    if k == 0 then [] else [Go(id, env)] + Goes(id, env, k - 1)
  }

  lemma {:induction false} GoesOn(y: System, id: WorkerId, env: TurnEnv, k: nat)
    ensures Exec(y, Goes(id, env, k + 1)) == Exec(Step(y, Go(id, env)), Goes(id, env, k))
  {
    ExecCons(y, Go(id, env), Goes(id, env, k));
  }

  function At(y: System, id: WorkerId, pc: Pc): System
    requires id in y.workers
  {
    y.(workers := y.workers[id := y.workers[id].(pc := pc)])
  }
}
