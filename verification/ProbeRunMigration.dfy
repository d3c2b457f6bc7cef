/**
 * The revision that replaces table `probe_run` by `run_row`, and its downgrade. Either direction is one transaction.
 * JSON payloads are opaque, except for the probe metadata: a flat object whose values are strings or null.
 */
module ProbeRunMigration {
  import opened Prelude

  datatype Times = Times(started: int, completed: Option<int>)

  datatype Payload = Payload(
    promptsGenerated: int, promptResults: Option<string>, aggregate: Option<string>, taxonomyDelta: Option<string>,
    finalReport: Option<string>)

  datatype ProbeRow = ProbeRow(
    id: string, topic: string, scope: string, intentHint: string, repo: string, project: Option<string>,
    commit: Option<string>, times: Times, payload: Payload, status: string, suite: Option<string>, error: Option<string>)

  type Json = map<string, Option<string>>

  datatype RunRow = RunRow(
    id: string, mode: string, status: string, times: Times, error: Option<string>, project: Option<string>,
    repo: Option<string>, topic: Option<string>, intentHint: Option<string>, payload: Payload,
    suite: Option<string>, probeMeta: Option<Json>, seedMeta: Option<string>)

  /** A table that does not exist is `None`. */
  datatype Db = Db(probe: Option<seq<ProbeRow>>, run: Option<seq<RunRow>>)

  datatype Outcome = Done(db: Db) | Aborted

  const PROBE := "topic_probe"

  // ---------------------------------------------------------------------------
  // Row mappings
  // ---------------------------------------------------------------------------

  function Up(p: ProbeRow): RunRow {
    RunRow(p.id, PROBE, p.status, p.times, p.error, p.project, Some(p.repo), Some(p.topic), Some(p.intentHint), p.payload,
           p.suite, Some(map["scope" := Some(p.scope), "commit_sha" := p.commit]), None)
  }

  /** NULL for a missing object, a missing key and a null value alike. */
  function Extract(json: Option<Json>, key: string): Option<string> {
    if json.Some? && key in json.value then json.value[key] else None
  }

  function Coalesce(x: Option<string>, otherwise: string): string {
    if x.Some? then x.value else otherwise
  }

  function Down(r: RunRow): ProbeRow {
    ProbeRow(r.id, Coalesce(r.topic, ""), Coalesce(Extract(r.probeMeta, "scope"), "**/*"),
             Coalesce(r.intentHint, "explore"), Coalesce(r.repo, ""), r.project, Extract(r.probeMeta, "commit_sha"),
             r.times, r.payload, r.status, r.suite, r.error)
  }

  /** The rows that a downgrade followed by an upgrade gives back unchanged. */
  predicate Canonical(r: RunRow) {
    && r.mode == PROBE && r.repo.Some? && r.topic.Some? && r.intentHint.Some? && r.seedMeta.None?
    && r.probeMeta.Some?
    && r.probeMeta.value.Keys == {"scope", "commit_sha"}
    && r.probeMeta.value["scope"].Some?
  }

  lemma DownUp(r: RunRow)
    ensures Up(Down(r)) == r <==> Canonical(r)
    ensures Down(Up(Down(r))) == Down(r)
  {
    var meta := Up(Down(r)).probeMeta.value;
    assert meta.Keys == {"scope", "commit_sha"};
    if Canonical(r) {
      assert meta == r.probeMeta.value;
    }
  }

  // ---------------------------------------------------------------------------
  // Tables
  // ---------------------------------------------------------------------------

  function UpAll(rows: seq<ProbeRow>): seq<RunRow> {
    seq(|rows|, i requires 0 <= i < |rows| => Up(rows[i]))
  }

  /** `WHERE mode = 'topic_probe'`. */
  function Probes(rows: seq<RunRow>): seq<RunRow> {
    if rows == [] then [] else (if rows[0].mode == PROBE then [rows[0]] else []) + Probes(rows[1..])
  }

  function DownAll(rows: seq<RunRow>): seq<ProbeRow> {
    var probes := Probes(rows);
    seq(|probes|, i requires 0 <= i < |probes| => Down(probes[i]))
  }

  /** With neither table, the INSERT finds no table to read. */
  function Upgrade(db: Db): Outcome {
    if db.run.Some? && db.probe.None? then Done(db)
    else if db.run.Some? then Aborted
    else if db.probe.None? then Aborted
    else Done(Db(None, Some(UpAll(db.probe.value))))
  }

  function Downgrade(db: Db): Outcome {
    if db.probe.Some? || db.run.None? then Aborted
    else Done(Db(Some(DownAll(db.run.value)), None))
  }

  class Schema {
    var probe: Option<seq<ProbeRow>>
    var run: Option<seq<RunRow>>

    function Value(): Db
      reads this
    {
      Db(probe, run)
    }

    constructor (db: Db)
      ensures Value() == db
    {
      probe, run := db.probe, db.run;
    }

    /** The guard sorts out the states a previous attempt may have left. */
    method RunUpgrade() returns (ok: bool)
      modifies this
      ensures ok <==> (old(probe).Some? <==> old(run).None?)
      ensures if ok then Upgrade(old(Value())) == Done(Value()) else Value() == old(Value())
      ensures ok ==> probe.None? && run.Some?
    {
      if run.Some? && probe.None? {
        return true;
      }
      if run.Some? && probe.Some? {
        return false;
      }
      if probe.None? {
        return false;
      }
      run := Some(UpAll(probe.value));
      probe := None;
      return true;
    }

    method RunDowngrade() returns (ok: bool)
      modifies this
      ensures ok <==> old(probe).None? && old(run).Some?
      ensures if ok then Downgrade(old(Value())) == Done(Value()) else Value() == old(Value())
      ensures ok ==> probe.Some? && run.None?
    {
      if probe.Some? || run.None? {
        return false;
      }
      probe := Some(DownAll(run.value));
      run := None;
      return true;
    }
  }

  // ---------------------------------------------------------------------------
  // Properties
  // ---------------------------------------------------------------------------

  lemma {:induction false} ProbesExactly(rows: seq<RunRow>, r: RunRow)
    ensures multiset(Probes(rows))[r] == if r.mode == PROBE then multiset(rows)[r] else 0
  {
    if rows != [] {
      assert rows == [rows[0]] + rows[1..];
      ProbesExactly(rows[1..], r);
    }
  }

  lemma {:induction false} AllProbes(rows: seq<RunRow>)
    ensures |Probes(rows)| <= |rows|
    ensures |Probes(rows)| == |rows| || (forall r :: r in rows ==> r.mode == PROBE) ==> Probes(rows) == rows
  {
    if rows != [] {
      assert rows == [rows[0]] + rows[1..];
      AllProbes(rows[1..]);
    }
  }

  /** Upgrading and downgrading again gives back the very same `probe_run` table. */
  lemma RoundTrip(rows: seq<ProbeRow>)
    ensures var up := Upgrade(Db(Some(rows), None));
            && up.Done? && up.db.probe.None?
            && Downgrade(up.db) == Done(Db(Some(rows), None))
  {
    AllProbes(UpAll(rows));
    assert DownAll(UpAll(rows)) == rows;
  }

  /** An upgrade succeeds exactly from one table; repeating it changes nothing. */
  lemma UpgradeIsIdempotent(db: Db)
    ensures Upgrade(db).Done? <==> (db.probe.Some? <==> db.run.None?)
    ensures Upgrade(db).Done? ==> Upgrade(Upgrade(db).db) == Upgrade(db) && Upgrade(db).db.probe.None?
    ensures Upgrade(db).Done? && db.probe.Some? ==> |Upgrade(db).db.run.value| == |db.probe.value|
    ensures Upgrade(db).Done? && db.probe.Some? ==>
              forall r :: r in Upgrade(db).db.run.value ==> Canonical(r)
  {
  }

  /**
   * A downgrade keeps the probe rows, all of them and only those. What was not NULL comes through, and what was gets
   * the column's default.
   */
  lemma DowngradeKeepsExactly(rows: seq<RunRow>, i: nat)
    ensures |DownAll(rows)| == |Probes(rows)|
    ensures forall r :: multiset(Probes(rows))[r] == if r.mode == PROBE then multiset(rows)[r] else 0
    ensures i < |Probes(rows)| ==>
              var r, p := Probes(rows)[i], DownAll(rows)[i];
              && p.id == r.id
              && (if r.topic.Some? then Some(p.topic) == r.topic else p.topic == "")
              && (if r.repo.Some? then Some(p.repo) == r.repo else p.repo == "")
              && (if r.intentHint.Some? then Some(p.intentHint) == r.intentHint else p.intentHint == "explore")
              && (var scope := Extract(r.probeMeta, "scope"); if scope.Some? then Some(p.scope) == scope else p.scope == "**/*")
              && p.commit == Extract(r.probeMeta, "commit_sha")
              && p.times == r.times && p.payload == r.payload && p.project == r.project
              && p.status == r.status && p.suite == r.suite && p.error == r.error
  {
    forall r ensures multiset(Probes(rows))[r] == if r.mode == PROBE then multiset(rows)[r] else 0 {
      ProbesExactly(rows, r);
    }
  }

  /**
   * The other round trip is the identity exactly when every row is a probe row with nothing left NULL and no more
   * metadata than a scope and a commit.
   */
  lemma DowngradeUpgrade(rows: seq<RunRow>)
    ensures var down := Downgrade(Db(None, Some(rows)));
            && down.Done?
            && (Upgrade(down.db) == Done(Db(None, Some(rows))) <==> forall r :: r in rows ==> Canonical(r))
  {
    var back := UpAll(DownAll(rows));
    AllProbes(rows);
    forall i | 0 <= i < |rows| ensures Up(Down(rows[i])) == rows[i] <==> Canonical(rows[i]) {
      DownUp(rows[i]);
    }
    if forall r :: r in rows ==> Canonical(r) {
      assert back == rows;
    }
    if back == rows {
      assert forall i :: 0 <= i < |rows| ==> back[i] == Up(Down(rows[i]));
    }
  }
}
