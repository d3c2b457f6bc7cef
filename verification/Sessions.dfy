/**
 * Session creation in the MCP server: transports are created under a lock and served outside it.
 *
 * Any number of request tasks and server tasks interleave; a step is what runs between two awaits.
 */
module Sessions {
  import opened Prelude

  /** Where a request task is suspended. `Creating` waits, under the lock, for its server task to report. */
  datatype Pc = WaitingForLock | Creating(sid: string) | Handling(sid: string) | NotFound | Done

  datatype Server = Starting | Serving | Ended

  /** `transport[k]`: the own id of the transport registered under `k`; `issued`: every id ever generated. */
  datatype State = State(
    lock: Option<nat>, tasks: map<nat, Pc>, transport: map<string, string>,
    servers: map<string, Server>, terminated: set<string>)

  const START := State(None, map[], map[], map[], {})

  datatype Action =
    | Arrive(task: nat, requested: Option<string>)
    | Acquire(task: nat, newId: string)
    | ServerReports(sid: string)
    | StartReturns(task: nat)
    | StartFails(task: nat)
    | Finish(task: nat)
    | Cancel(task: nat)
    | ServerEnds(sid: string)
    | Terminate(sid: string)

  predicate At(s: State, task: nat, pc: Pc) {
    task in s.tasks && s.tasks[task] == pc
  }

  predicate Enabled(s: State, a: Action) {
    match a
    case Arrive(t, _) => t !in s.tasks
    case Acquire(t, newId) => At(s, t, WaitingForLock) && s.lock.None? && newId !in s.servers && newId != ""
    case ServerReports(sid) => sid in s.servers && s.servers[sid].Starting?
    case StartReturns(t) =>
      t in s.tasks && s.tasks[t].Creating? && s.tasks[t].sid in s.servers && !s.servers[s.tasks[t].sid].Starting?
    case StartFails(t) =>
      t in s.tasks && s.tasks[t].Creating? && s.tasks[t].sid in s.servers && s.servers[s.tasks[t].sid].Starting?
    case Finish(t) => t in s.tasks && (s.tasks[t].Handling? || s.tasks[t].NotFound?)
    case Cancel(t) => t in s.tasks
    case ServerEnds(sid) => sid in s.servers && s.servers[sid].Serving?
    case Terminate(sid) => sid in s.servers
  }

  function Release(s: State, t: nat): State {
    if s.lock == Some(t) then s.(lock := None) else s
  }

  function Step(s: State, a: Action): State
    requires Enabled(s, a)
  {
    match a
    case Arrive(t, sid) =>
      s.(tasks := s.tasks[t :=
        if sid.Some? && sid.value in s.transport then Handling(s.transport[sid.value])
        else if sid.None? then WaitingForLock
        else NotFound])
    case Acquire(t, newId) =>
      s.(lock := Some(t), tasks := s.tasks[t := Creating(newId)],
         transport := s.transport[newId := newId], servers := s.servers[newId := Starting])
    case ServerReports(sid) => s.(servers := s.servers[sid := Serving])
    case StartReturns(t) => Release(s.(tasks := s.tasks[t := Handling(s.tasks[t].sid)]), t)
    case StartFails(t) =>
      Release(s.(tasks := s.tasks[t := Done], servers := s.servers[s.tasks[t].sid := Ended]), t)
    case Finish(t) => s.(tasks := s.tasks[t := Done])
    case Cancel(t) => Release(s.(tasks := s.tasks[t := Done]), t)
    case ServerEnds(sid) =>
      s.(servers := s.servers[sid := Ended],
         transport := if sid in s.transport && sid !in s.terminated then s.transport - {sid} else s.transport)
    case Terminate(sid) => s.(terminated := s.terminated + {sid})
  }

  predicate Valid(s: State, actions: seq<Action>)
    decreases |actions|
  {
    actions == [] || (Enabled(s, actions[0]) && Valid(Step(s, actions[0]), actions[1..]))
  }

  function Run(s: State, actions: seq<Action>): State
    requires Valid(s, actions)
    decreases |actions|
  {
    if actions == [] then s else Run(Step(s, actions[0]), actions[1..])
  }

  // ---------------------------------------------------------------------------
  // The invariant
  // ---------------------------------------------------------------------------

  ghost predicate LockIsExact(s: State) {
    forall t :: t in s.tasks ==> (s.tasks[t].Creating? <==> s.lock == Some(t))
  }

  ghost predicate Inv(s: State) {
    && LockIsExact(s)
    && (s.lock.Some? ==> s.lock.value in s.tasks)
    && (forall t :: t in s.tasks && s.tasks[t].Creating? ==> s.tasks[t].sid in s.servers)
    && (forall k :: k in s.transport ==> k in s.servers && s.transport[k] == k)
    && (forall k :: k in s.servers && !s.servers[k].Ended? ==> k in s.transport)
  }

  lemma StepInv(s: State, a: Action)
    requires Inv(s) && Enabled(s, a)
    ensures Inv(Step(s, a))
  {
  }

  lemma {:induction false} RunInv(s: State, actions: seq<Action>)
    requires Inv(s) && Valid(s, actions)
    ensures Inv(Run(s, actions))
    decreases |actions|
  {
    if actions != [] {
      StepInv(s, actions[0]);
      RunInv(Step(s, actions[0]), actions[1..]);
    }
  }

  /**
   * In every reachable state: at most one task creates a session and it alone holds the lock, no task that is
   * serving a request holds it, every registered key is its transport's own id, and every live server is registered.
   */
  lemma LockProtocol(actions: seq<Action>)
    requires Valid(START, actions)
    ensures var s := Run(START, actions);
            && (forall t, u :: t in s.tasks && u in s.tasks && s.tasks[t].Creating? && s.tasks[u].Creating? ==> t == u)
            && (forall t :: t in s.tasks && s.tasks[t].Handling? ==> s.lock != Some(t))
            && (s.lock.Some? ==> s.lock.value in s.tasks && s.tasks[s.lock.value].Creating?)
            && (forall k :: k in s.transport ==> s.transport[k] == k)
            && (forall k :: k in s.servers && !s.servers[k].Ended? ==> k in s.transport)
  {
    RunInv(START, actions);
  }

  /**
   * Where a request goes, in any reachable state: with a registered id to the transport of that id, without an id to the
   * lock, with an unknown id to 404. It touches no other task, and nothing else.
   */
  lemma RequestsGo(actions: seq<Action>, t: nat, requested: Option<string>)
    requires Valid(START, actions) && t !in Run(START, actions).tasks
    ensures var s := Run(START, actions);
            var s' := Step(s, Arrive(t, requested));
            && t in s'.tasks
            && (match requested
                case Some(sid) => s'.tasks[t] == (if sid in s.transport then Handling(sid) else NotFound)
                case None => s'.tasks[t] == WaitingForLock)
            && (forall u :: u in s.tasks ==> u in s'.tasks && s'.tasks[u] == s.tasks[u])
            && s'.lock == s.lock && s'.transport == s.transport && s'.servers == s.servers
  {
    RunInv(START, actions);
  }

  /**
   * A task that took the lock handles its request with a session of its own, under the id it drew, once its server has
   * reported, and the lock is free again; the session is registered unless its server has ended.
   */
  lemma CreatedIsOwn(s: State, t: nat, newId: string, between: seq<Action>)
    requires Inv(s) && Enabled(s, Acquire(t, newId)) && Valid(Step(s, Acquire(t, newId)), between)
    requires var s1 := Run(Step(s, Acquire(t, newId)), between); At(s1, t, Creating(newId)) && Enabled(s1, StartReturns(t))
    ensures var s2 := Step(Run(Step(s, Acquire(t, newId)), between), StartReturns(t));
            && At(s2, t, Handling(newId)) && s2.lock.None?
            && newId in s2.servers && (!s2.servers[newId].Ended? ==> newId in s2.transport && s2.transport[newId] == newId)
  {
    StepInv(s, Acquire(t, newId));
    RunInv(Step(s, Acquire(t, newId)), between);
  }

  /**
   * A start-up that fails ends the task and frees the lock, but the session stays registered for good, although its
   * server is dead: requests for it still go to its transport.
   */
  lemma FailedStartStays(s: State, t: nat, more: seq<Action>)
    requires Inv(s) && Enabled(s, StartFails(t)) && Valid(Step(s, StartFails(t)), more)
    ensures var sid := s.tasks[t].sid;
            var s1 := Step(s, StartFails(t));
            && At(s1, t, Done) && s1.lock.None?
            && sid in s1.servers && s1.servers[sid].Ended?
            && sid in Run(s1, more).transport
  {
    StepInv(s, StartFails(t));
    DeadStays(Step(s, StartFails(t)), s.tasks[t].sid, more);
  }

  lemma {:induction false} DeadStays(s: State, k: string, more: seq<Action>)
    requires Inv(s) && k in s.transport && s.servers[k].Ended? && Valid(s, more)
    ensures k in Run(s, more).transport
    decreases |more|
  {
    if more != [] {
      StepInv(s, more[0]);
      DeadStays(Step(s, more[0]), k, more[1..]);
    }
  }

  /** Every task can be cancelled, and finish once it is being answered; then it is done and does not hold the lock. */
  lemma TasksCanEnd(s: State, t: nat)
    requires Inv(s) && t in s.tasks
    ensures Enabled(s, Cancel(t)) && At(Step(s, Cancel(t)), t, Done) && Step(s, Cancel(t)).lock != Some(t)
    ensures s.tasks[t].Handling? || s.tasks[t].NotFound? ==> Enabled(s, Finish(t)) && At(Step(s, Finish(t)), t, Done)
  {
  }

  /** A session that has been terminated keeps its entry, whatever happens: its server does not remove it any more. */
  lemma {:induction false} TerminatedStays(s: State, k: string, more: seq<Action>)
    requires Inv(s) && k in s.transport
    ensures Enabled(s, Terminate(k))
    ensures Valid(Step(s, Terminate(k)), more) ==> k in Run(Step(s, Terminate(k)), more).transport
  {
    if Valid(Step(s, Terminate(k)), more) {
      StepInv(s, Terminate(k));
      KeptWhileTerminated(Step(s, Terminate(k)), k, more);
    }
  }

  lemma {:induction false} KeptWhileTerminated(s: State, k: string, more: seq<Action>)
    requires Inv(s) && k in s.transport && k in s.terminated && Valid(s, more)
    ensures k in Run(s, more).transport
    decreases |more|
  {
    if more != [] {
      StepInv(s, more[0]);
      RemovedByItsOwnServer(s, more[0], k);
      KeptWhileTerminated(Step(s, more[0]), k, more[1..]);
    }
  }

  /** An entry disappears in a step exactly when its own, unterminated, server task ends. */
  lemma RemovedByItsOwnServer(s: State, a: Action, k: string)
    requires Inv(s) && Enabled(s, a) && k in s.transport
    ensures k !in Step(s, a).transport <==> a == ServerEnds(k) && k !in s.terminated
  {
  }

  /** Over a run: an entry that is gone belonged to a server that ended, at step `i`, without being terminated first. */
  lemma {:induction false} GoneMeansEnded(s: State, actions: seq<Action>, k: string) returns (i: nat)
    requires Inv(s) && Valid(s, actions) && k in s.transport
    requires k !in Run(s, actions).transport
    ensures i < |actions| && actions[i] == ServerEnds(k)
    ensures Valid(s, actions[..i]) && k !in Run(s, actions[..i]).terminated
    ensures k in Run(s, actions).servers && Run(s, actions).servers[k].Ended?
    decreases |actions|
  {
    var s' := Step(s, actions[0]);
    StepInv(s, actions[0]);
    RemovedByItsOwnServer(s, actions[0], k);
    if k in s'.transport {
      var j := GoneMeansEnded(s', actions[1..], k);
      i := j + 1;
      assert actions[..i][1..] == actions[1..][..j];
    } else {
      EndedIsFinal(s', actions[1..], k);
      i := 0;
    }
  }

  lemma {:induction false} EndedIsFinal(s: State, actions: seq<Action>, k: string)
    requires Valid(s, actions) && k in s.servers && s.servers[k].Ended?
    ensures k in Run(s, actions).servers && Run(s, actions).servers[k].Ended?
    decreases |actions|
  {
    if actions != [] {
      EndedIsFinal(Step(s, actions[0]), actions[1..], k);
    }
  }

  // ---------------------------------------------------------------------------
  // No deadlock behind a stream
  // ---------------------------------------------------------------------------

  /** Lets the holder of the lock, if any, get past its start-up. */
  function Clearing(s: State): seq<Action> {
    if s.lock.None? || s.lock.value !in s.tasks || !s.tasks[s.lock.value].Creating? then []
    else
      var sid := s.tasks[s.lock.value].sid;
      if sid in s.servers && s.servers[sid].Starting?
      then [ServerReports(sid), StartReturns(s.lock.value)]
      else [StartReturns(s.lock.value)]
  }

  /** A schedule that serves the waiting task `t`: at most the current holder's start-up stands in its way. */
  function Schedule(s: State, t: nat, newId: string): seq<Action> {
    Clearing(s) + [Acquire(t, newId), ServerReports(newId), StartReturns(t)]
  }

  lemma Cons(s: State, a: Action, rest: seq<Action>)
    requires Enabled(s, a) && Valid(Step(s, a), rest)
    ensures Valid(s, [a] + rest) && Run(s, [a] + rest) == Run(Step(s, a), rest)
  {
    assert ([a] + rest)[1..] == rest;
  }

  lemma Created(s: State, t: nat, newId: string)
    requires s.lock.None? && At(s, t, WaitingForLock) && newId !in s.servers && newId != ""
    ensures var plan := [Acquire(t, newId), ServerReports(newId), StartReturns(t)];
            Valid(s, plan) && At(Run(s, plan), t, Handling(newId))
  {
    var s1 := Step(s, Acquire(t, newId));
    var s2 := Step(s1, ServerReports(newId));
    Cons(s2, StartReturns(t), []);
    Cons(s1, ServerReports(newId), [StartReturns(t)]);
    Cons(s, Acquire(t, newId), [ServerReports(newId), StartReturns(t)]);
    assert [Acquire(t, newId)] + [ServerReports(newId), StartReturns(t)] ==
           [Acquire(t, newId), ServerReports(newId), StartReturns(t)];
  }

  lemma {:induction false} RunConcat(s: State, a: seq<Action>, b: seq<Action>)
    requires Valid(s, a) && Valid(Run(s, a), b)
    ensures Valid(s, a + b) && Run(s, a + b) == Run(Run(s, a), b)
    decreases |a|
  {
    if a == [] {
      assert a + b == b;
    } else {
      assert (a + b)[1..] == a[1..] + b;
      RunConcat(Step(s, a[0]), a[1..], b);
    }
  }

  /** The holder's start-up frees the lock and leaves the waiting task waiting. */
  lemma Cleared(s: State, t: nat) returns (s': State)
    requires Inv(s) && At(s, t, WaitingForLock)
    ensures Valid(s, Clearing(s)) && s' == Run(s, Clearing(s))
    ensures s'.lock.None? && At(s', t, WaitingForLock) && s'.servers.Keys == s.servers.Keys
  {
    s' := s;
    if s.lock.Some? {
      var holder := s.lock.value;
      var sid := s.tasks[holder].sid;
      var s1 := if s.servers[sid].Starting? then Step(s, ServerReports(sid)) else s;
      s' := Step(s1, StartReturns(holder));
      Cons(s1, StartReturns(holder), []);
      assert [StartReturns(holder)] + [] == [StartReturns(holder)];
      if s.servers[sid].Starting? {
        Cons(s, ServerReports(sid), [StartReturns(holder)]);
        assert [ServerReports(sid)] + [StartReturns(holder)] == Clearing(s);
      }
    }
  }

  /**
   * From every reachable state a waiting task gets its own session without any request in progress finishing or
   * being cancelled: open streams, however many and however long, never block the creation of sessions.
   */
  lemma NoDeadlock(s: State, t: nat, newId: string)
    requires Inv(s) && At(s, t, WaitingForLock) && newId !in s.servers && newId != ""
    ensures var plan := Schedule(s, t, newId);
            && Valid(s, plan)
            && |plan| <= 5
            && (forall i :: 0 <= i < |plan| ==> !plan[i].Finish? && !plan[i].Cancel? && !plan[i].ServerEnds?)
            && At(Run(s, plan), t, Handling(newId))
  {
    var tail := [Acquire(t, newId), ServerReports(newId), StartReturns(t)];
    var s1 := Cleared(s, t);
    Created(s1, t, newId);
    RunConcat(s, Clearing(s), tail);
  }

  // ---------------------------------------------------------------------------
  // The manager itself
  // ---------------------------------------------------------------------------

  class SessionManager {
    var sessionCreationLock: Option<nat>
    var tasks: map<nat, Pc>
    var serverInstances: map<string, string>
    var servers: map<string, Server>
    var terminated: set<string>

    function Value(): State
      reads this
    {
      State(sessionCreationLock, tasks, serverInstances, servers, terminated)
    }

    constructor ()
      ensures Value() == START
    {
      sessionCreationLock, tasks, serverInstances, servers, terminated := None, map[], map[], map[], {};
    }

    /** A stateful request up to its first await. */
    method Begin(task: nat, sid: Option<string>)
      requires task !in tasks
      modifies this`tasks
      ensures Value() == Step(old(Value()), Arrive(task, sid))
    {
      if sid.Some? && sid.value in serverInstances {
        var transport := serverInstances[sid.value];
        tasks := tasks[task := Handling(transport)];
        return;
      }
      if sid.None? {
        tasks := tasks[task := WaitingForLock];
        return;
      }
      tasks := tasks[task := NotFound];
    }

    /** The body of the locked section, up to the wait for the server task. */
    method CreateTransport(task: nat, newSessionId: string)
      requires Enabled(Value(), Acquire(task, newSessionId))
      modifies this
      ensures Value() == Step(old(Value()), Acquire(task, newSessionId))
    {
      sessionCreationLock := Some(task);
      serverInstances := serverInstances[newSessionId := newSessionId];
      servers := servers[newSessionId := Starting];
      tasks := tasks[task := Creating(newSessionId)];
    }

    /** The server task has reported: leave the locked section, then handle the request. */
    method HandleOutsideLock(task: nat)
      requires Enabled(Value(), StartReturns(task)) && LockIsExact(Value())
      modifies this`sessionCreationLock, this`tasks
      ensures Value() == Step(old(Value()), StartReturns(task))
    {
      sessionCreationLock := None;
      tasks := tasks[task := Handling(tasks[task].sid)];
    }

    /** The `finally` clause of a server task. */
    method ServerFinally(sid: string)
      requires Enabled(Value(), ServerEnds(sid))
      modifies this`servers, this`serverInstances
      ensures Value() == Step(old(Value()), ServerEnds(sid))
    {
      servers := servers[sid := Ended];
      if sid in serverInstances && sid !in terminated {
        serverInstances := serverInstances - {sid};
      }
    }
  }
}
