/** The audit hook on the read engine: its installation, its allow-list flags and its verdicts. */
module AuditHook {
  import opened Prelude
  import opened SqlGuard

  datatype Kind = Migration | ColdPath

  datatype Verdict = Passed | Warned | RaisedWrite | RaisedBothFlags

  /**
   * `listeners`: the engines that have the hook, once for each registration. `depth`: how many scopes of each kind are
   * being executed, which the code itself does not keep.
   */
  datatype State = State(flags: set<Kind>, installed: Option<nat>, listeners: multiset<nat>, depth: map<Kind, nat>)

  const START := State({}, None, multiset{}, map[Migration := 0, ColdPath := 0])

  datatype Action = Enter(kind: Kind) | Leave(kind: Kind) | Install(engine: nat) | Uninstall

  function Depth(s: State, kind: Kind): nat {
    if kind in s.depth then s.depth[kind] else 0
  }

  function Step(s: State, a: Action): State {
    match a
    case Enter(k) => s.(flags := s.flags + {k}, depth := s.depth[k := Depth(s, k) + 1])
    case Leave(k) => s.(flags := s.flags - {k}, depth := s.depth[k := if Depth(s, k) == 0 then 0 else Depth(s, k) - 1])
    case Install(e) =>
      if s.installed.Some? then s else s.(installed := Some(e), listeners := s.listeners + multiset{e})
    case Uninstall =>
      if s.installed.None? then s else s.(installed := None, listeners := s.listeners - multiset{s.installed.value})
  }

  function Run(s: State, actions: seq<Action>): State
    decreases |actions|
  {
    if actions == [] then s else Run(Step(s, actions[0]), actions[1..])
  }

  function Audit(flags: set<Kind>, statement: string, raises: bool): Verdict {
    if Migration in flags && ColdPath in flags then RaisedBothFlags
    else if Migration in flags || ColdPath in flags then Passed
    else if !IsWrite(statement) then Passed
    else if raises then RaisedWrite
    else Warned
  }

  class ReadEngine {
    var flags: set<Kind>
    var listener: Option<nat>
    var listeners: multiset<nat>
    ghost var depth: map<Kind, nat>

    ghost function Value(): State
      reads this
    {
      State(flags, listener, listeners, depth)
    }

    constructor ()
      ensures Value() == START
    {
      flags, listener, listeners, depth := {}, None, multiset{}, map[Migration := 0, ColdPath := 0];
    }

    /** False when it raises because a hook is installed already. */
    method InstallHook(engine: nat) returns (ok: bool)
      modifies this`listener, this`listeners
      ensures Value() == Step(old(Value()), Install(engine))
      ensures ok <==> old(listener).None?
    {
      if listener.Some? {
        return false;
      }
      listeners := listeners + multiset{engine};
      listener := Some(engine);
      return true;
    }

    method UninstallHook()
      modifies this`listener, this`listeners
      ensures Value() == Step(old(Value()), Uninstall)
    {
      if listener.None? {
        return;
      }
      listeners := listeners - multiset{listener.value};
      listener := None;
    }

    method Check(statement: string, raises: bool) returns (verdict: Verdict)
      ensures verdict == Audit(flags, statement, raises)
    {
      if Migration in flags && ColdPath in flags {
        return RaisedBothFlags;
      }
      if Migration in flags || ColdPath in flags {
        return Passed;
      }
      var write := IsWriteStatement(statement);
      if !write {
        return Passed;
      }
      return if raises then RaisedWrite else Warned;
    }
  }

  // ---------------------------------------------------------------------------
  // Properties
  // ---------------------------------------------------------------------------

  predicate Registered(s: State) {
    s.listeners == if s.installed.Some? then multiset{s.installed.value} else multiset{}
  }

  lemma {:induction false} StaysRegistered(s: State, actions: seq<Action>)
    requires Registered(s)
    ensures Registered(Run(s, actions))
    decreases |actions|
  {
    if actions != [] {
      StaysRegistered(Step(s, actions[0]), actions[1..]);
    }
  }

  /** However often it is installed and uninstalled, the hook runs once per statement on its engine and nowhere else. */
  lemma OneListener(actions: seq<Action>, engine: nat)
    ensures Run(START, actions).listeners[engine] == if Run(START, actions).installed == Some(engine) then 1 else 0
  {
    StaysRegistered(START, actions);
  }

  /** And it is installed on an engine exactly if the last thing that succeeded was an installation there. */
  lemma InstallStands(s: State, engine: nat, other: nat)
    ensures s.installed.None? ==> Step(s, Install(engine)).installed == Some(engine)
    ensures s.installed.Some? ==> Step(s, Install(engine)) == s
    ensures Step(s, Uninstall).installed.None?
    ensures Step(Step(Step(s, Uninstall), Install(engine)), Install(other)).installed == Some(engine)
  {
  }

  /** A flag is up exactly while a scope of its kind is executing. */
  ghost predicate FlagsExact(s: State) {
    forall k :: k in s.flags <==> Depth(s, k) > 0
  }

  predicate LeavesNested(s: State, a: Action) {
    a.Leave? && Depth(s, a.kind) >= 2
  }

  predicate NeverNested(s: State, actions: seq<Action>)
    decreases |actions|
  {
    actions == [] || (!LeavesNested(s, actions[0]) && NeverNested(Step(s, actions[0]), actions[1..]))
  }

  lemma FlagsStep(s: State, a: Action)
    requires FlagsExact(s)
    ensures FlagsExact(Step(s, a)) <==> !LeavesNested(s, a)
  {
    var s' := Step(s, a);
    if LeavesNested(s, a) {
      assert a.kind !in s'.flags && Depth(s', a.kind) > 0;
    }
  }

  /** The flags stay exact through a whole run exactly when no scope is left inside another of its kind. */
  lemma {:induction false} FlagsExactThroughout(s: State, actions: seq<Action>)
    requires FlagsExact(s)
    ensures (forall n :: 0 <= n <= |actions| ==> FlagsExact(Run(s, actions[..n]))) <==> NeverNested(s, actions)
    decreases |actions|
  {
    if actions == [] {
      assert actions[..0] == [];
    } else {
      var s', rest := Step(s, actions[0]), actions[1..];
      FlagsStep(s, actions[0]);
      forall n | 0 <= n <= |rest| ensures Run(s, actions[..n + 1]) == Run(s', rest[..n]) {
        assert actions[..n + 1][1..] == rest[..n];
      }
      assert actions[..0] == [];
      if FlagsExact(s') {
        FlagsExactThroughout(s', rest);
        assert forall n :: 1 <= n <= |actions| ==> Run(s, actions[..n]) == Run(s', rest[..n - 1]);
      } else {
        assert rest[..0] == [];
        assert Run(s, actions[..0 + 1]) == s';
      }
    }
  }

  /**
   * With exact flags, the hook reports a statement exactly when it is a write behind its leading trivia and no scope
   * is executing; and it refuses every statement, reads included, exactly when both kinds of scope are.
   */
  lemma VerdictsExactly(s: State, statement: string, raises: bool)
    requires FlagsExact(s)
    ensures var v := Audit(s.flags, statement, raises);
            && (v == (if raises then RaisedWrite else Warned) <==>
                  Depth(s, Migration) == 0 && Depth(s, ColdPath) == 0
                  && exists ts, rest :: WriteBehindTrivia(statement, ts, rest))
            && (v == RaisedBothFlags <==> Depth(s, Migration) > 0 && Depth(s, ColdPath) > 0)
  {
    WritesExactly(statement);
  }

  /** A scope inside another of its kind: when the inner one ends, the outer one's writes are reported. */
  lemma NestedScopeIsExposed(k: Kind)
    ensures var s := Run(START, [Enter(k), Enter(k), Leave(k)]);
            s.flags == {} && Depth(s, k) == 1 && Audit(s.flags, "DELETE", true) == RaisedWrite
  {
    var s3 := Step(Step(Step(START, Enter(k)), Enter(k)), Leave(k));
    assert [Enter(k), Enter(k), Leave(k)][1..] == [Enter(k), Leave(k)];
    assert [Enter(k), Leave(k)][1..] == [Leave(k)];
    assert [Leave(k)][1..] == [];
    assert Run(Step(Step(START, Enter(k)), Enter(k)), [Leave(k)]) == s3;
    assert s3.flags == {};
    BareIsCore("DELETE");
    assert Upper("DELETE") == "DELETE";
    assert StartsWith(Upper("DELETE"), WRITES[2]);
  }
}
