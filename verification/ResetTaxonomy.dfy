/** The taxonomy reset script: removes archived empty clusters and the rows that point at nothing. */
module ResetTaxonomy {
  import opened Prelude

  datatype Cluster = Cluster(id: string, parent: Option<string>, state: string, memberCount: int)
  datatype MetaPattern = MetaPattern(id: string, cluster: string)
  datatype Link = Link(id: int, optimization: string, cluster: string, metaPattern: Option<string>)
  datatype Optimization = Optimization(id: string, cluster: Option<string>)

  /** The four tables the script reads; `links` is `optimization_patterns`. */
  datatype Db = Db(
    clusters: seq<Cluster>, metas: seq<MetaPattern>, links: seq<Link>, optimizations: seq<Optimization>)

  function Keep<T>(rows: seq<T>, p: T -> bool): seq<T> {
    if rows == [] then []
    else (if p(rows[0]) then [rows[0]] else []) + Keep(rows[1..], p)
  }

  lemma {:induction false} KeepMembers<T>(rows: seq<T>, p: T -> bool)
    ensures forall x :: x in Keep(rows, p) <==> x in rows && p(x)
  {
    if rows != [] {
      KeepMembers(rows[1..], p);
    }
  }

  lemma {:induction false} KeepSize<T>(rows: seq<T>, p: T -> bool)
    ensures |Keep(rows, p)| <= |rows|
    ensures |Keep(rows, p)| == |rows| ==> Keep(rows, p) == rows
    ensures (forall x :: x in rows ==> p(x)) ==> Keep(rows, p) == rows
    ensures Keep(rows, p) == rows ==> forall x :: x in rows ==> p(x)
  {
    if rows != [] {
      KeepSize(rows[1..], p);
      KeepMembers(rows, p);
      if forall x :: x in rows ==> p(x) {
        assert p(rows[0]);
        assert forall x :: x in rows[1..] ==> x in rows;
      }
    }
  }

  function ClusterIds(db: Db): set<string> {
    set c | c in db.clusters :: c.id
  }

  function OptimizationIds(db: Db): set<string> {
    set o | o in db.optimizations :: o.id
  }

  predicate Candidate(c: Cluster) {
    c.state == "archived" && c.memberCount == 0
  }

  predicate HoldsOptimizations(db: Db, id: string) {
    exists o :: o in db.optimizations && o.cluster == Some(id)
  }

  predicate HasChildren(db: Db, id: string) {
    exists c :: c in db.clusters && c.parent == Some(id)
  }

  predicate HasLinks(db: Db, id: string) {
    exists l :: l in db.links && l.cluster == id
  }

  predicate Unreferenced(db: Db, id: string) {
    !HoldsOptimizations(db, id) && !HasChildren(db, id) && !HasLinks(db, id)
  }

  /** Ids of the clusters one run deletes. */
  function Safe(db: Db): set<string> {
    set c | c in db.clusters && Candidate(c) && Unreferenced(db, c.id) :: c.id
  }

  function DropClusters(db: Db, ids: set<string>): Db {
    db.(metas := Keep(db.metas, (m: MetaPattern) => m.cluster !in ids),
        clusters := Keep(db.clusters, (c: Cluster) => c.id !in ids))
  }

  function DropOrphanMetas(db: Db): Db {
    var ids := ClusterIds(db);
    db.(metas := Keep(db.metas, (m: MetaPattern) => m.cluster in ids))
  }

  function DropOrphanLinks(db: Db): Db {
    var ids, opts := ClusterIds(db), OptimizationIds(db);
    db.(links := Keep(db.links, (l: Link) => l.cluster in ids && l.optimization in opts))
  }

  function Reset(db: Db): Db {
    DropOrphanLinks(DropOrphanMetas(DropClusters(db, Safe(db))))
  }

  class Taxonomy {
    var clusters: seq<Cluster>
    var metas: seq<MetaPattern>
    var links: seq<Link>
    var optimizations: seq<Optimization>

    function Value(): Db
      reads this
    {
      Db(clusters, metas, links, optimizations)
    }

    constructor (db: Db)
      ensures Value() == db
    {
      clusters, metas, links, optimizations := db.clusters, db.metas, db.links, db.optimizations;
    }

    /** Collects the ids that are safe to delete, one archived row at a time. */
    method SafeIds() returns (safeIds: seq<string>)
      ensures (set id | id in safeIds) == Safe(Value())
    {
      safeIds := [];
      for i := 0 to |clusters|
        invariant forall id :: id in safeIds <==>
                    exists j :: 0 <= j < i && clusters[j].id == id && Candidate(clusters[j]) && Unreferenced(Value(), id)
      {
        var c := clusters[i];
        if !Candidate(c) {
          continue;
        }
        if HoldsOptimizations(Value(), c.id) {
          continue;
        }
        if HasChildren(Value(), c.id) {
          continue;
        }
        if HasLinks(Value(), c.id) {
          continue;
        }
        safeIds := safeIds + [c.id];
      }
    }

    method Run()
      modifies this
      ensures Value() == Reset(old(Value()))
    {
      var safeIds := SafeIds();
      var safe := set id | id in safeIds;
      if safeIds != [] {
        metas := Keep(metas, (m: MetaPattern) => m.cluster !in safe);
        clusters := Keep(clusters, (c: Cluster) => c.id !in safe);
      } else {
        KeepSize(metas, (m: MetaPattern) => m.cluster !in safe);
        KeepSize(clusters, (c: Cluster) => c.id !in safe);
      }
      assert Value() == DropClusters(old(Value()), safe);
      var ids := ClusterIds(Value());
      metas := Keep(metas, (m: MetaPattern) => m.cluster in ids);
      assert ClusterIds(Value()) == ids;
      var opts := OptimizationIds(Value());
      links := Keep(links, (l: Link) => l.cluster in ids && l.optimization in opts);
    }
  }

  // ---------------------------------------------------------------------------
  // What one run leaves
  // ---------------------------------------------------------------------------

  /** `id` is a primary key. */
  ghost predicate Keyed(db: Db) {
    forall c, d :: c in db.clusters && d in db.clusters && c.id == d.id ==> c == d
  }

  lemma ResetMembers(db: Db)
    ensures var db' := Reset(db);
            && (forall c :: c in db'.clusters <==> c in db.clusters && c.id !in Safe(db))
            && (forall m :: m in db'.metas <==> m in db.metas && m.cluster !in Safe(db) && m.cluster in ClusterIds(db'))
            && (forall l :: l in db'.links <==>
                  l in db.links && l.cluster in ClusterIds(db') && l.optimization in OptimizationIds(db))
            && db'.optimizations == db.optimizations
  {
    var safe := Safe(db);
    var a := DropClusters(db, safe);
    var ids, opts := ClusterIds(a), OptimizationIds(a);
    KeepMembers(db.metas, (m: MetaPattern) => m.cluster !in safe);
    KeepMembers(db.clusters, (c: Cluster) => c.id !in safe);
    KeepMembers(a.metas, (m: MetaPattern) => m.cluster in ids);
    KeepMembers(a.links, (l: Link) => l.cluster in ids && l.optimization in opts);
  }

  /** An id survives exactly when it existed and was not safe to delete. */
  lemma SurvivingIds(db: Db)
    ensures ClusterIds(Reset(db)) == ClusterIds(db) - Safe(db)
  {
    ResetMembers(db);
    forall id | id in ClusterIds(db) - Safe(db) ensures id in ClusterIds(Reset(db)) {
      var c :| c in db.clusters && c.id == id;
      assert c in Reset(db).clusters;
    }
  }

  /** No meta-pattern and no link points at a missing cluster afterwards, and no link at a missing optimization. */
  lemma NothingDangles(db: Db)
    ensures var db' := Reset(db);
            && (forall m :: m in db'.metas ==> m.cluster in ClusterIds(db'))
            && (forall l :: l in db'.links ==> l.cluster in ClusterIds(db') && l.optimization in OptimizationIds(db'))
  {
    ResetMembers(db);
  }

  /** Clusters and optimizations that could be found before can be found after, and no sound row is lost. */
  lemma ResolvableStays(db: Db)
    ensures var db' := Reset(db);
            && (forall c :: c in db'.clusters && c.parent.Some? && c.parent.value in ClusterIds(db) ==>
                  c.parent.value in ClusterIds(db'))
            && (forall o :: o in db'.optimizations && o.cluster.Some? && o.cluster.value in ClusterIds(db) ==>
                  o.cluster.value in ClusterIds(db'))
            && (forall l :: l in db.links && l.cluster in ClusterIds(db) && l.optimization in OptimizationIds(db) ==>
                  l in db'.links)
            && (forall m :: m in db.metas && m.cluster in ClusterIds(db) && m.cluster !in Safe(db) ==> m in db'.metas)
  {
    ResetMembers(db);
    SurvivingIds(db);
  }

  function MetaIds(db: Db): set<string> {
    set m | m in db.metas :: m.id
  }

  /** The meta-patterns that are left: those of clusters that are. */
  lemma SurvivingMetas(db: Db)
    ensures MetaIds(Reset(db)) == set m | m in db.metas && m.cluster in ClusterIds(Reset(db)) :: m.id
  {
    ResetMembers(db);
    SurvivingIds(db);
    forall m | m in db.metas && m.cluster in ClusterIds(Reset(db)) ensures m in Reset(db).metas {
    }
  }

  /**
   * The third reference of a link is not looked after: it points at nothing exactly when it did before, or when each
   * meta-pattern of that id belongs to a cluster that is deleted or missing.
   */
  lemma MetaReferencesExactly(db: Db, l: Link)
    requires l in Reset(db).links && l.metaPattern.Some?
    ensures l.metaPattern.value !in MetaIds(Reset(db)) <==>
            forall m :: m in db.metas && m.id == l.metaPattern.value ==> m.cluster in Safe(db) || m.cluster !in ClusterIds(db)
  {
    SurvivingMetas(db);
    SurvivingIds(db);
  }

  /** A sound link of one cluster to a meta-pattern of another one, archived and empty: the run leaves it dangling. */
  lemma MetaReferenceLost(db: Db, l: Link)
    requires l == Link(1, "o", "live", Some("m"))
    requires db == Db([Cluster("live", None, "active", 1), Cluster("old", None, "archived", 0)],
                      [MetaPattern("m", "old")], [l], [Optimization("o", Some("live"))])
    ensures "m" in MetaIds(db) && l in Reset(db).links && "m" !in MetaIds(Reset(db))
  {
    assert MetaPattern("m", "old") in db.metas;
    var busy, dead := db.clusters[0], db.clusters[1];
    assert busy in db.clusters && dead in db.clusters && forall c :: c in db.clusters ==> c == busy || c == dead;
    assert Unreferenced(db, "old");
    assert "old" in Safe(db) && "live" !in Safe(db);
    SurvivingIds(db);
    ResetMembers(db);
    assert "live" in ClusterIds(db) && "live" in ClusterIds(Reset(db));
    assert db.optimizations[0] in db.optimizations && l in db.links;
    MetaReferencesExactly(db, l);
  }

  /** A cluster is kept exactly when it is not archived, not empty, or still referenced by any of the three tables. */
  lemma OthersUntouched(db: Db, c: Cluster)
    requires Keyed(db) && c in db.clusters
    ensures c in Reset(db).clusters <==>
              || c.state != "archived" || c.memberCount != 0
              || (exists o :: o in db.optimizations && o.cluster == Some(c.id))
              || (exists d :: d in db.clusters && d.parent == Some(c.id))
              || (exists l :: l in db.links && l.cluster == c.id)
  {
    ResetMembers(db);
  }

  // ---------------------------------------------------------------------------
  // Repeated runs
  // ---------------------------------------------------------------------------

  function Rows(db: Db): nat {
    |db.clusters| + |db.metas| + |db.links|
  }

  /** Every run that changes anything removes at least one row. */
  lemma RowsFall(db: Db)
    ensures Rows(Reset(db)) <= Rows(db)
    ensures Rows(Reset(db)) == Rows(db) <==> Reset(db) == db
  {
    var safe := Safe(db);
    var a := DropClusters(db, safe);
    var ids, opts := ClusterIds(a), OptimizationIds(a);
    KeepSize(db.metas, (m: MetaPattern) => m.cluster !in safe);
    KeepSize(db.clusters, (c: Cluster) => c.id !in safe);
    KeepSize(a.metas, (m: MetaPattern) => m.cluster in ids);
    KeepSize(a.links, (l: Link) => l.cluster in ids && l.optimization in opts);
  }

  function Repeat(db: Db, n: nat): Db
    decreases n
  {
    if n == 0 then db else Repeat(Reset(db), n - 1)
  }

  lemma {:induction false} FixpointStays(db: Db, n: nat)
    requires Reset(db) == db
    ensures Repeat(db, n) == db
  {
    if n > 0 { FixpointStays(db, n - 1); }
  }

  /** Repeated runs reach a fixpoint, after at most as many runs as there are rows. */
  lemma {:induction false} Converges(db: Db, n: nat)
    requires n >= Rows(db)
    ensures Reset(Repeat(db, n)) == Repeat(db, n)
    decreases n
  {
    RowsFall(db);
    if Reset(db) == db {
      FixpointStays(db, n);
    } else {
      Converges(Reset(db), n - 1);
    }
  }

  /** The fixpoints: nothing left to delete and nothing dangling. */
  lemma FixpointMeaning(db: Db)
    ensures Reset(db) == db <==>
            && Safe(db) == {}
            && (forall m :: m in db.metas ==> m.cluster in ClusterIds(db))
            && (forall l :: l in db.links ==> l.cluster in ClusterIds(db) && l.optimization in OptimizationIds(db))
  {
    var safe := Safe(db);
    var a := DropClusters(db, safe);
    var ids, opts := ClusterIds(a), OptimizationIds(a);
    KeepSize(db.metas, (m: MetaPattern) => m.cluster !in safe);
    KeepSize(db.clusters, (c: Cluster) => c.id !in safe);
    KeepSize(a.metas, (m: MetaPattern) => m.cluster in ids);
    KeepSize(a.links, (l: Link) => l.cluster in ids && l.optimization in opts);
    if Reset(db) == db {
      NothingDangles(db);
      SurvivingIds(db);
      assert Safe(db) <= ClusterIds(db) == ClusterIds(db) - Safe(db);
      assert Safe(db) * (ClusterIds(db) - Safe(db)) == {};
    }
  }

  /**
   * A cluster that this run keeps only because of children it deletes, or of links it deletes: nothing but those
   * stood in the way.
   */
  predicate Unlocked(db: Db, c: Cluster) {
    && c in db.clusters && Candidate(c) && c.id !in Safe(db)
    && !HoldsOptimizations(db, c.id)
    && (forall d :: d in db.clusters && d.parent == Some(c.id) ==> d.id in Safe(db))
    && (forall l :: l in db.links && l.cluster == c.id ==> l.optimization !in OptimizationIds(db))
  }

  /** Exactly those clusters are deleted by a second run. */
  lemma SecondRunDeletes(db: Db, id: string)
    ensures id in Safe(Reset(db)) <==> exists c :: Unlocked(db, c) && c.id == id
  {
    var db' := Reset(db);
    ResetMembers(db);
    SurvivingIds(db);
    if id in Safe(db') {
      var c :| c in db'.clusters && Candidate(c) && Unreferenced(db', c.id) && c.id == id;
      assert forall d :: d in db.clusters && d.id !in Safe(db) ==> d in db'.clusters;
      assert c.id in ClusterIds(db');
      assert Unlocked(db, c);
    }
    if exists c :: Unlocked(db, c) && c.id == id {
      var c :| Unlocked(db, c) && c.id == id;
      assert c in db'.clusters;
      assert !HasChildren(db', id);
      assert !HasLinks(db', id);
      assert !HoldsOptimizations(db', id);
    }
  }

  /**
   * The script calls itself idempotent. It is, exactly when no cluster is unlocked by the run: deleting a child can
   * free its parent, and deleting a dangling link can free the cluster it names.
   */
  lemma IdempotentExactly(db: Db)
    ensures Reset(Reset(db)) == Reset(db) <==> forall c :: c in db.clusters ==> !Unlocked(db, c)
  {
    var db' := Reset(db);
    FixpointMeaning(db');
    NothingDangles(db);
    if forall c :: c in db.clusters ==> !Unlocked(db, c) {
      forall id | id in Safe(db') ensures false {
        SecondRunDeletes(db, id);
      }
      assert Safe(db') == {};
    } else {
      var c :| c in db.clusters && Unlocked(db, c);
      SecondRunDeletes(db, c.id);
    }
  }

  /** An archived parent and its archived child, both empty: the second run deletes what the first did not. */
  lemma TwoRunsNeeded(db: Db)
    requires db == Db([Cluster("p", None, "archived", 0), Cluster("c", Some("p"), "archived", 0)], [], [], [])
    ensures Reset(Reset(db)) != Reset(db)
  {
    var p, c := db.clusters[0], db.clusters[1];
    assert c in db.clusters && HasChildren(db, "p");
    forall d | d in db.clusters ensures d == p || d == c {
    }
    assert Unreferenced(db, "c");
    assert "c" in Safe(db);
    assert Unlocked(db, p);
    IdempotentExactly(db);
  }
}
