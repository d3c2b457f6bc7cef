/**
 * The data steps of the template migration: every cluster in state "template" becomes "mature" and leaves a live
 * template row for its best optimization. Row ids and promotion times are not modelled.
 */
module TemplateMigration {
  import opened Prelude

  datatype Cluster = Cluster(parent: Option<string>, title: string, state: string, templateCount: nat)

  datatype Optimization = Optimization(
    id: string, cluster: Option<string>, prompt: Option<string>, strategy: Option<string>,
    score: Option<real>, project: Option<string>, createdAt: int)

  datatype Link = Link(optimization: string, metaPattern: Option<string>)

  datatype Template = Template(
    cluster: Option<string>, optimization: Option<string>, project: Option<string>, title: string, prompt: string,
    strategy: Option<string>, score: real, patterns: seq<string>, domain: string, retired: bool)

  datatype Db = Db(
    clusters: map<string, Cluster>, optimizations: seq<Optimization>, links: seq<Link>, templates: seq<Template>)

  // ---------------------------------------------------------------------------
  // The root domain of a cluster
  // ---------------------------------------------------------------------------

  predicate IsTop(clusters: map<string, Cluster>, id: string) {
    || id !in clusters
    || clusters[id].parent.None?
    || clusters[id].parent.value == ""
    || clusters[id].parent.value !in clusters
  }

  function TopTitle(clusters: map<string, Cluster>, id: string): string {
    if id in clusters && clusters[id].state == "domain" && clusters[id].title != "" then clusters[id].title else "general"
  }

  /** Climbs at most `steps` nodes, the starting node included. */
  function Climb(clusters: map<string, Cluster>, id: string, steps: nat): string
    decreases steps
  {
    if steps == 0 then "general"
    else if IsTop(clusters, id) then TopTitle(clusters, id)
    else Climb(clusters, clusters[id].parent.value, steps - 1)
  }

  function RootDomain(clusters: map<string, Cluster>, id: string): string {
    Climb(clusters, id, 8)
  }

  method RootDomainLabel(clusters: map<string, Cluster>, id: string) returns (title: string)
    ensures title == RootDomain(clusters, id)
  {
    var current := id;
    var seen: set<string> := {};
    for i := 0 to 8
      invariant RootDomain(clusters, id) == Climb(clusters, current, 8 - i)
      invariant forall x :: x in seen ==> !IsTop(clusters, x) && clusters[x].parent.value in seen + {current}
    {
      if current in seen {
        CyclesAreGeneral(clusters, seen, current, 8 - i);
        return "general";
      }
      seen := seen + {current};
      if IsTop(clusters, current) {
        return TopTitle(clusters, current);
      }
      current := clusters[current].parent.value;
    }
    return "general";
  }

  /** A set of nodes that is closed under taking parents has no root. */
  lemma {:induction false} CyclesAreGeneral(clusters: map<string, Cluster>, closed: set<string>, id: string, steps: nat)
    requires id in closed
    requires forall x :: x in closed ==> !IsTop(clusters, x) && clusters[x].parent.value in closed
    ensures Climb(clusters, id, steps) == "general"
    decreases steps
  {
    if steps > 0 {
      CyclesAreGeneral(clusters, closed, clusters[id].parent.value, steps - 1);
    }
  }

  ghost predicate IsParent(clusters: map<string, Cluster>, id: string, parent: string) {
    id in clusters && parent in clusters && parent != "" && clusters[id].parent == Some(parent)
  }

  /** `path` leads from its first node to one that has no parent, parent by parent. */
  ghost predicate PathToTop(clusters: map<string, Cluster>, path: seq<string>) {
    && path != []
    && if |path| == 1 then forall p :: !IsParent(clusters, path[0], p)
       else IsParent(clusters, path[0], path[1]) && PathToTop(clusters, path[1..])
  }

  lemma TopHasNoParent(clusters: map<string, Cluster>, id: string)
    ensures IsTop(clusters, id) <==> forall p :: !IsParent(clusters, id, p)
    ensures !IsTop(clusters, id) ==> IsParent(clusters, id, clusters[id].parent.value)
  {
    if !IsTop(clusters, id) {
      assert IsParent(clusters, id, clusters[id].parent.value);
    }
  }

  /** The label of a cluster's root, provided the root is a labelled domain fewer than 8 levels up. */
  lemma {:induction false} RootDomainMeaning(clusters: map<string, Cluster>, path: seq<string>, steps: nat)
    requires PathToTop(clusters, path)
    ensures Climb(clusters, path[0], steps) ==
            if |path| <= steps then TopTitle(clusters, path[|path| - 1]) else "general"
    decreases steps
  {
    TopHasNoParent(clusters, path[0]);
    if steps > 0 && |path| > 1 {
      RootDomainMeaning(clusters, path[1..], steps - 1);
    }
  }

  /** Same tree; states may have gone from "template" to "mature", and counts may differ. */
  ghost predicate Evolved(before: map<string, Cluster>, after: map<string, Cluster>) {
    && before.Keys == after.Keys
    && forall id :: id in before ==>
         && after[id].parent == before[id].parent && after[id].title == before[id].title
         && (after[id].state == before[id].state || (before[id].state == "template" && after[id].state == "mature"))
  }

  /** So the parent, label and state maps read before the loop stay good for the whole loop. */
  lemma {:induction false} RootDomainStable(before: map<string, Cluster>, after: map<string, Cluster>, id: string, steps: nat)
    requires Evolved(before, after)
    ensures Climb(before, id, steps) == Climb(after, id, steps)
    decreases steps
  {
    if steps > 0 && !IsTop(before, id) {
      RootDomainStable(before, after, before[id].parent.value, steps - 1);
    }
  }

  // ---------------------------------------------------------------------------
  // The best optimization of a cluster
  // ---------------------------------------------------------------------------

  /** Strictly ahead in `ORDER BY overall_score DESC, created_at DESC`; a NULL score comes last. */
  predicate Ahead(a: Optimization, b: Optimization) {
    || (a.score.Some? && b.score.None?)
    || (a.score.Some? && b.score.Some? && a.score.value > b.score.value)
    || (a.score == b.score && a.createdAt > b.createdAt)
  }

  /** The first row in that order; rows that tie come in table order. */
  function Best(opts: seq<Optimization>, cluster: string): Option<Optimization> {
    if opts == [] then None
    else
      var rest := Best(opts[1..], cluster);
      if opts[0].cluster != Some(cluster) then rest
      else if rest.Some? && Ahead(rest.value, opts[0]) then rest
      else Some(opts[0])
  }

  /**
   * Row `k` of the cluster: with a score if any row of the cluster has one, and none greater; of the rows with that score,
   * or of all if none has one, none is newer; and of those that tie it is the first.
   */
  ghost predicate Tops(opts: seq<Optimization>, cluster: string, k: nat) {
    && k < |opts| && opts[k].cluster == Some(cluster)
    && forall i :: 0 <= i < |opts| && opts[i].cluster == Some(cluster) ==>
         && (opts[i].score.Some? ==> opts[k].score.Some? && opts[k].score.value >= opts[i].score.value)
         && (opts[i].score == opts[k].score ==>
               opts[i].createdAt < opts[k].createdAt || (opts[i].createdAt == opts[k].createdAt && k <= i))
  }

  lemma {:induction false} BestIsBest(opts: seq<Optimization>, cluster: string) returns (k: nat)
    ensures Best(opts, cluster).Some? ==> Tops(opts, cluster, k) && Best(opts, cluster) == Some(opts[k])
    ensures Best(opts, cluster).None? <==> forall o :: o in opts ==> o.cluster != Some(cluster)
  {
    k := 0;
    if opts != [] {
      var rest := opts[1..];
      var j := BestIsBest(rest, cluster);
      if opts[0].cluster != Some(cluster) || (Best(rest, cluster).Some? && Ahead(rest[j], opts[0])) {
        k := j + 1;
      }
      assert forall i :: 0 < i < |opts| ==> opts[i] == rest[i - 1];
    }
  }

  // ---------------------------------------------------------------------------
  // The writes of the migration
  // ---------------------------------------------------------------------------

  function PatternIds(links: seq<Link>, optimization: string): seq<string> {
    if links == [] then []
    else
      (if links[0].optimization == optimization && links[0].metaPattern.Some? then [links[0].metaPattern.value] else [])
      + PatternIds(links[1..], optimization)
  }

  predicate Names(t: Template, cluster: string, optimization: string) {
    t.cluster == Some(cluster) && t.optimization == Some(optimization) && !t.retired
  }

  predicate HasLive(templates: seq<Template>, cluster: string, optimization: string) {
    exists t :: t in templates && Names(t, cluster, optimization)
  }

  function NewTemplate(id: string, c: Cluster, o: Optimization, links: seq<Link>, domain: string): Template {
    Template(Some(id), Some(o.id), o.project,
             if c.title == "" then "untitled" else c.title,
             if o.prompt.Some? then o.prompt.value else "",
             o.strategy,
             if o.score.Some? then o.score.value else 0.0,
             PatternIds(links, o.id), domain, false)
  }

  /** The row, if any, that the turn of cluster `id` inserts. */
  function Addition(db: Db, id: string): seq<Template>
    requires id in db.clusters
  {
    match Best(db.optimizations, id)
    case None => []
    case Some(o) =>
      if HasLive(db.templates, id, o.id) then []
      else [NewTemplate(id, db.clusters[id], o, db.links, RootDomain(db.clusters, id))]
  }

  function Insert(db: Db, id: string): Db
    requires id in db.clusters
  {
    db.(templates := db.templates + Addition(db, id))
  }

  function Mature(db: Db, id: string): Db
    requires id in db.clusters
  {
    if db.clusters[id].state == "template"
    then db.(clusters := db.clusters[id := db.clusters[id].(state := "mature")])
    else db
  }

  function Live(templates: seq<Template>, cluster: string): seq<Template> {
    if templates == [] then []
    else
      (if templates[0].cluster == Some(cluster) && !templates[0].retired then [templates[0]] else [])
      + Live(templates[1..], cluster)
  }

  function Recount(db: Db): Db {
    db.(clusters := map id | id in db.clusters :: db.clusters[id].(templateCount := |Live(db.templates, id)|))
  }

  function Migrate(db: Db, ids: seq<string>): Db
    requires forall id :: id in ids ==> id in db.clusters
    decreases |ids|
  {
    if ids == [] then db else Migrate(Mature(Insert(db, ids[0]), ids[0]), ids[1..])
  }

  /** `ids`: the clusters in state "template", in the order the database returned them. */
  function Upgrade(db: Db, ids: seq<string>): Db
    requires forall id :: id in ids ==> id in db.clusters
  {
    Recount(Migrate(db, ids))
  }

  predicate Waiting(db: Db, id: string) {
    id in db.clusters && db.clusters[id].state == "template"
  }

  /** `ids` is an answer to `SELECT id ... WHERE state = 'template'`. */
  ghost predicate Fetched(db: Db, ids: seq<string>) {
    && (forall id :: id in ids <==> Waiting(db, id))
    && (forall i, j :: 0 <= i < j < |ids| ==> ids[i] != ids[j])
  }

  // ---------------------------------------------------------------------------
  // What is still owed
  // ---------------------------------------------------------------------------

  function Owed(db: Db, id: string): seq<Template> {
    if Waiting(db, id) then Addition(db, id) else []
  }

  /** 1 when the migration still has to insert row `t`, else 0. */
  function Due(db: Db, t: Template): nat {
    if t.cluster.Some? && Owed(db, t.cluster.value) == [t] then 1 else 0
  }

  /** How many copies of row `t` there will be. */
  function Total(db: Db, t: Template): nat {
    multiset(db.templates)[t] + Due(db, t)
  }

  /** A cluster as it will be, but for its count. */
  function Settled(c: Cluster): Cluster {
    c.(state := if c.state == "template" then "mature" else c.state, templateCount := 0)
  }

  ghost predicate SameFuture(a: Db, b: Db) {
    && a.optimizations == b.optimizations && a.links == b.links && a.clusters.Keys == b.clusters.Keys
    && (forall id :: id in a.clusters ==> Settled(a.clusters[id]) == Settled(b.clusters[id]))
    && (forall t :: Total(a, t) == Total(b, t))
  }

  lemma AdditionStable(a: Db, b: Db, id: string)
    requires id in a.clusters && Evolved(a.clusters, b.clusters)
    requires a.optimizations == b.optimizations && a.links == b.links
    requires Best(a.optimizations, id).Some? ==>
               HasLive(a.templates, id, Best(a.optimizations, id).value.id) == HasLive(b.templates, id, Best(a.optimizations, id).value.id)
    ensures Addition(a, id) == Addition(b, id)
  {
    RootDomainStable(a.clusters, b.clusters, id, 8);
  }

  lemma InsertOwes(db: Db, id: string)
    requires id in db.clusters
    ensures Addition(Insert(db, id), id) == []
  {
    var db' := Insert(db, id);
    match Best(db.optimizations, id)
    case None =>
    case Some(o) =>
      if HasLive(db.templates, id, o.id) {
        assert db'.templates == db.templates;
      } else {
        var t := Addition(db, id)[0];
        assert t in db'.templates && Names(t, id, o.id);
      }
  }

  lemma InsertKeepsFuture(db: Db, id: string)
    requires Waiting(db, id)
    ensures SameFuture(db, Insert(db, id))
  {
    var db' := Insert(db, id);
    InsertOwes(db, id);
    forall t ensures Total(db, t) == Total(db', t) {
    }
  }

  lemma MatureKeepsTotals(db: Db, id: string)
    requires id in db.clusters && Addition(db, id) == []
    ensures forall t :: Total(db, t) == Total(Mature(db, id), t)
  {
    var db' := Mature(db, id);
    forall other | other in db.clusters ensures Addition(db, other) == Addition(db', other) {
      AdditionStable(db, db', other);
    }
    forall t ensures Total(db, t) == Total(db', t) {
    }
  }

  lemma MatureKeepsFuture(db: Db, id: string)
    requires id in db.clusters && Addition(db, id) == []
    ensures SameFuture(db, Mature(db, id))
  {
    MatureKeepsTotals(db, id);
  }

  /** One turn of the loop. */
  lemma TurnKeepsFuture(db: Db, id: string)
    requires Waiting(db, id)
    ensures SameFuture(db, Mature(Insert(db, id), id))
  {
    InsertKeepsFuture(db, id);
    InsertOwes(db, id);
    MatureKeepsFuture(Insert(db, id), id);
    SameFutureChain(db, Insert(db, id), Mature(Insert(db, id), id));
  }

  lemma SameFutureChain(a: Db, b: Db, c: Db)
    requires SameFuture(a, b) && SameFuture(b, c)
    ensures SameFuture(a, c)
  {
  }

  lemma RecountKeepsFuture(db: Db)
    ensures SameFuture(db, Recount(db))
  {
    var db' := Recount(db);
    forall other | other in db.clusters ensures Addition(db, other) == Addition(db', other) {
      AdditionStable(db, db', other);
    }
  }

  // ---------------------------------------------------------------------------
  // Interruptions
  // ---------------------------------------------------------------------------

  /** What `n` writes of a run leave: an insert and an update for each cluster, and the final recount. */
  function Interrupted(db: Db, ids: seq<string>, n: nat): Db
    requires forall id :: id in ids ==> id in db.clusters
    decreases |ids|
  {
    if n == 0 then db
    else if ids == [] then Recount(db)
    else if n == 1 then Insert(db, ids[0])
    else Interrupted(Mature(Insert(db, ids[0]), ids[0]), ids[1..], n - 2)
  }

  ghost predicate AllWaiting(db: Db, ids: seq<string>) {
    && (forall id :: id in ids ==> Waiting(db, id))
    && (forall i, j :: 0 <= i < j < |ids| ==> ids[i] != ids[j])
  }

  lemma {:induction false} InterruptedKeepsFuture(db: Db, ids: seq<string>, n: nat)
    requires AllWaiting(db, ids)
    ensures SameFuture(db, Interrupted(db, ids, n))
    decreases |ids|
  {
    if n > 0 && ids == [] {
      RecountKeepsFuture(db);
    } else if n > 0 {
      assert Waiting(db, ids[0]) && forall id :: id in ids[1..] ==> id in ids && id != ids[0];
      if n == 1 {
        InsertKeepsFuture(db, ids[0]);
      } else {
        var db1 := Mature(Insert(db, ids[0]), ids[0]);
        TurnKeepsFuture(db, ids[0]);
        assert AllWaiting(db1, ids[1..]);
        InterruptedKeepsFuture(db1, ids[1..], n - 2);
        SameFutureChain(db, db1, Interrupted(db1, ids[1..], n - 2));
      }
    }
  }

  lemma {:induction false} UpgradeIsWholeRun(db: Db, ids: seq<string>)
    requires forall id :: id in ids ==> id in db.clusters
    ensures Upgrade(db, ids) == Interrupted(db, ids, 2 * |ids| + 1)
    decreases |ids|
  {
    if ids != [] {
      UpgradeIsWholeRun(Mature(Insert(db, ids[0]), ids[0]), ids[1..]);
    }
  }

  lemma {:induction false} MigrateStates(db: Db, ids: seq<string>, id: string)
    requires (forall x :: x in ids ==> x in db.clusters) && id in db.clusters
    ensures Migrate(db, ids).clusters.Keys == db.clusters.Keys
    ensures Migrate(db, ids).clusters[id] ==
            if id in ids && Waiting(db, id) then db.clusters[id].(state := "mature") else db.clusters[id]
    decreases |ids|
  {
    if ids != [] {
      MigrateStates(Mature(Insert(db, ids[0]), ids[0]), ids[1..], id);
    }
  }

  /** The check that ends the migration never raises: no cluster is left in state "template". */
  lemma NoneWaits(db: Db, ids: seq<string>)
    requires Fetched(db, ids)
    ensures forall id :: !Waiting(Upgrade(db, ids), id)
  {
    forall id | id in db.clusters ensures !Waiting(Upgrade(db, ids), id) {
      MigrateStates(db, ids, id);
    }
    if ids != [] { MigrateStates(db, ids, ids[0]); }
  }

  /**
   * Exactly which rows one run adds, whatever order the clusters are visited in: one for each waiting cluster that
   * has an optimization but no live row for the best one, as that cluster alone would have added it.
   */
  lemma TemplatesExactly(db: Db, ids: seq<string>, t: Template)
    requires Fetched(db, ids)
    ensures multiset(Upgrade(db, ids).templates)[t] == multiset(db.templates)[t] + Due(db, t)
  {
    UpgradeKeepsFuture(db, ids);
    assert Total(Upgrade(db, ids), t) == Total(db, t);
    NoneWaits(db, ids);
  }

  datatype Attempt = Attempt(ids: seq<string>, writes: nat)

  /** Each attempt fetched its clusters afresh and got as far as its number of writes. */
  ghost predicate Attempts(db: Db, history: seq<Attempt>)
    decreases |history|
  {
    history == []
    || (Fetched(db, history[0].ids) && Attempts(Interrupted(db, history[0].ids, history[0].writes), history[1..]))
  }

  ghost function After(db: Db, history: seq<Attempt>): Db
    requires Attempts(db, history)
    decreases |history|
  {
    if history == [] then db
    else After(Interrupted(db, history[0].ids, history[0].writes), history[1..])
  }

  lemma {:induction false} AttemptsKeepFuture(db: Db, history: seq<Attempt>)
    requires Attempts(db, history)
    ensures SameFuture(db, After(db, history))
    decreases |history|
  {
    if history != [] {
      InterruptedKeepsFuture(db, history[0].ids, history[0].writes);
      AttemptsKeepFuture(Interrupted(db, history[0].ids, history[0].writes), history[1..]);
    }
  }

  lemma {:induction false} LiveCounts(templates: seq<Template>, cluster: string, t: Template)
    ensures multiset(Live(templates, cluster))[t] ==
            if t.cluster == Some(cluster) && !t.retired then multiset(templates)[t] else 0
  {
    if templates != [] {
      assert templates == [templates[0]] + templates[1..];
      LiveCounts(templates[1..], cluster, t);
    }
  }

  /** The number of live rows of a cluster does not depend on their order. */
  lemma LiveByContents(a: seq<Template>, b: seq<Template>, cluster: string)
    requires multiset(a) == multiset(b)
    ensures |Live(a, cluster)| == |Live(b, cluster)|
  {
    forall t ensures multiset(Live(a, cluster))[t] == multiset(Live(b, cluster))[t] {
      LiveCounts(a, cluster, t);
      LiveCounts(b, cluster, t);
    }
    assert multiset(Live(a, cluster)) == multiset(Live(b, cluster));
    assert |multiset(Live(a, cluster))| == |Live(a, cluster)|;
  }

  /**
   * Safe to run again after partial failure: however often the migration was cut short, and wherever, a complete run
   * ends with the tables that one undisturbed run would have left.
   */
  lemma RestartsConverge(db: Db, ids: seq<string>, history: seq<Attempt>, last: seq<string>)
    requires Fetched(db, ids) && Attempts(db, history) && Fetched(After(db, history), last)
    ensures var once, finally := Upgrade(db, ids), Upgrade(After(db, history), last);
            && finally.clusters == once.clusters
            && multiset(finally.templates) == multiset(once.templates)
            && finally.optimizations == once.optimizations && finally.links == once.links
  {
    var db' := After(db, history);
    AttemptsKeepFuture(db, history);
    UpgradesAgree(db, ids, db', last);
  }

  /** Two databases with the same future are upgraded to the same tables. */
  lemma UpgradesAgree(db: Db, ids: seq<string>, db': Db, ids': seq<string>)
    requires SameFuture(db, db') && Fetched(db, ids) && Fetched(db', ids')
    ensures var a, b := Upgrade(db, ids), Upgrade(db', ids');
            && b.clusters == a.clusters && multiset(b.templates) == multiset(a.templates)
            && b.optimizations == a.optimizations && b.links == a.links
  {
    var a, b := Upgrade(db, ids), Upgrade(db', ids');
    UpgradeKeepsFuture(db, ids);
    UpgradeKeepsFuture(db', ids');
    SameFutureJoins(db, db', a);
    SameFutureJoins(db', a, b);
    NoneWaits(db, ids);
    NoneWaits(db', ids');
    SettledTemplates(a, b);
    forall id | id in a.clusters ensures a.clusters[id] == b.clusters[id] {
      SettledCluster(db, ids, db', ids', id);
    }
  }

  lemma SameFutureJoins(hub: Db, a: Db, b: Db)
    requires SameFuture(hub, a) && SameFuture(hub, b)
    ensures SameFuture(a, b)
  {
  }

  lemma UpgradeKeepsFuture(db: Db, ids: seq<string>)
    requires Fetched(db, ids)
    ensures SameFuture(db, Upgrade(db, ids))
  {
    UpgradeIsWholeRun(db, ids);
    InterruptedKeepsFuture(db, ids, 2 * |ids| + 1);
  }

  lemma SettledTemplates(a: Db, b: Db)
    requires SameFuture(a, b) && (forall id :: !Waiting(a, id)) && (forall id :: !Waiting(b, id))
    ensures multiset(a.templates) == multiset(b.templates)
  {
    forall t ensures multiset(a.templates)[t] == multiset(b.templates)[t] {
      assert Total(a, t) == Total(b, t);
    }
  }

  lemma SettledCluster(db: Db, ids: seq<string>, db': Db, ids': seq<string>, id: string)
    requires Fetched(db, ids) && Fetched(db', ids')
    requires var a, b := Upgrade(db, ids), Upgrade(db', ids');
             && SameFuture(a, b) && multiset(a.templates) == multiset(b.templates)
             && id in a.clusters && !Waiting(a, id) && !Waiting(b, id)
    ensures Upgrade(db, ids).clusters[id] == Upgrade(db', ids').clusters[id]
  {
    var a, b := Upgrade(db, ids), Upgrade(db', ids');
    LiveByContents(a.templates, b.templates, id);
    assert Settled(a.clusters[id]) == Settled(b.clusters[id]);
    assert a.clusters[id].templateCount == |Live(a.templates, id)|;
    assert b.clusters[id].templateCount == |Live(b.templates, id)|;
  }

  // ---------------------------------------------------------------------------
  // What a run achieves
  // ---------------------------------------------------------------------------

  predicate NamesPattern(l: Link, optimization: string) {
    l.optimization == optimization && l.metaPattern.Some?
  }

  /** `ix`: the links, in table order, of that optimization that name a meta-pattern; `patterns`: those meta-patterns. */
  ghost predicate PatternLinks(links: seq<Link>, optimization: string, ix: seq<nat>, patterns: seq<string>) {
    && |patterns| == |ix|
    && (forall a, b :: 0 <= a < b < |ix| ==> ix[a] < ix[b])
    && (forall a :: 0 <= a < |ix| ==> ix[a] < |links| && NamesPattern(links[ix[a]], optimization)
                                      && links[ix[a]].metaPattern == Some(patterns[a]))
    && (forall i :: 0 <= i < |links| && NamesPattern(links[i], optimization) ==> i in ix)
  }

  lemma {:induction false} PatternIdsSnoc(links: seq<Link>, l: Link, optimization: string)
    ensures PatternIds(links + [l], optimization) ==
            PatternIds(links, optimization) + if NamesPattern(l, optimization) then [l.metaPattern.value] else []
  {
    if links == [] {
      assert links + [l] == [l] && [l][1..] == [];
    } else {
      assert (links + [l])[1..] == links[1..] + [l];
      PatternIdsSnoc(links[1..], l, optimization);
    }
  }

  lemma {:induction false} PatternIdsExactly(links: seq<Link>, optimization: string) returns (ix: seq<nat>)
    ensures PatternLinks(links, optimization, ix, PatternIds(links, optimization))
    decreases |links|
  {
    ix := [];
    if links != [] {
      var init, l := links[..|links| - 1], links[|links| - 1];
      assert links == init + [l];
      PatternIdsSnoc(init, l, optimization);
      ix := PatternIdsExactly(init, optimization);
      PatternLinksSnoc(init, l, optimization, ix, PatternIds(init, optimization));
      if NamesPattern(l, optimization) {
        ix := ix + [|init|];
      }
    }
  }

  lemma PatternLinksSnoc(links: seq<Link>, l: Link, optimization: string, ix: seq<nat>, patterns: seq<string>)
    requires PatternLinks(links, optimization, ix, patterns)
    ensures if NamesPattern(l, optimization)
            then PatternLinks(links + [l], optimization, ix + [|links|], patterns + [l.metaPattern.value])
            else PatternLinks(links + [l], optimization, ix, patterns)
  {
    if NamesPattern(l, optimization) {
      var ix' := ix + [|links|];
      assert ix'[|ix|] == |links|;
      forall i | 0 <= i < |links + [l]| && NamesPattern((links + [l])[i], optimization) ensures i in ix' {
        if i < |links| {
          assert i in ix;
        }
      }
    }
  }

  /** What the template row of cluster `id` says, field by field, for its optimization in row `k`. */
  ghost predicate TellsOf(db: Db, id: string, k: nat, t: Template)
    requires id in db.clusters && k < |db.optimizations|
  {
    var c, o := db.clusters[id], db.optimizations[k];
    && t.cluster == Some(id) && t.optimization == Some(o.id) && !t.retired
    && t.project == o.project && t.strategy == o.strategy
    && (if c.title != "" then t.title == c.title else t.title == "untitled")
    && (if o.prompt.Some? then Some(t.prompt) == o.prompt else t.prompt == "")
    && (if o.score.Some? then Some(t.score) == o.score else t.score == 0.0)
    && (exists ix :: PatternLinks(db.links, o.id, ix, t.patterns))
    && (forall path :: PathToTop(db.clusters, path) && path[0] == id ==> t.domain == LabelOf(db.clusters, path))
    && ((forall path :: PathToTop(db.clusters, path) ==> path[0] != id) ==> t.domain == "general")
  }

  /** The label of the root that `path` leads to, if that is a labelled domain and among the first 8 nodes. */
  ghost function LabelOf(clusters: map<string, Cluster>, path: seq<string>): string
    requires path != []
  {
    var top := path[|path| - 1];
    if |path| <= 8 && top in clusters && clusters[top].state == "domain" && clusters[top].title != ""
    then clusters[top].title else "general"
  }

  lemma NewTemplateTells(db: Db, id: string, k: nat)
    requires id in db.clusters && k < |db.optimizations|
    ensures TellsOf(db, id, k, NewTemplate(id, db.clusters[id], db.optimizations[k], db.links, RootDomain(db.clusters, id)))
  {
    var ix := PatternIdsExactly(db.links, db.optimizations[k].id);
    forall path | PathToTop(db.clusters, path) && path[0] == id
      ensures RootDomain(db.clusters, id) == LabelOf(db.clusters, path)
    {
      RootDomainMeaning(db.clusters, path, 8);
    }
    if RootDomain(db.clusters, id) != "general" {
      var path := LabelledHasRoot(db.clusters, id, 8);
    }
  }

  /** A cluster without a root, on or below a cycle, has no label. */
  lemma {:induction false} LabelledHasRoot(clusters: map<string, Cluster>, id: string, steps: nat) returns (path: seq<string>)
    requires Climb(clusters, id, steps) != "general"
    ensures PathToTop(clusters, path) && path[0] == id
    decreases steps
  {
    path := [id];
    TopHasNoParent(clusters, id);
    if !IsTop(clusters, id) {
      var more := LabelledHasRoot(clusters, clusters[id].parent.value, steps - 1);
      path := [id] + more;
      assert path[1..] == more;
    }
  }

  /**
   * Every former template cluster with an optimization has a live row for its best one. A row that the run had to add
   * carries over that optimization and says where the cluster sits in the tree.
   */
  lemma BestHasLiveTemplate(db: Db, ids: seq<string>, id: string) returns (k: nat, t: Template)
    requires Fetched(db, ids) && Waiting(db, id)
    requires exists o :: o in db.optimizations && o.cluster == Some(id)
    ensures Tops(db.optimizations, id, k)
    ensures t in Upgrade(db, ids).templates
    ensures t.cluster == Some(id) && t.optimization == Some(db.optimizations[k].id) && !t.retired
    ensures (forall x :: x in db.templates ==> !Names(x, id, db.optimizations[k].id)) ==> TellsOf(db, id, k, t)
  {
    k := BestIsBest(db.optimizations, id);
    var o := db.optimizations[k];
    var after := Upgrade(db, ids).templates;
    if HasLive(db.templates, id, o.id) {
      t :| t in db.templates && Names(t, id, o.id);
    } else {
      t := NewTemplate(id, db.clusters[id], o, db.links, RootDomain(db.clusters, id));
      assert Due(db, t) == 1;
      NewTemplateTells(db, id, k);
    }
    TemplatesExactly(db, ids, t);
    assert t in multiset(after);
  }

  /** The partial unique index: one live row at most for a cluster and an optimization. */
  ghost predicate Unique(templates: seq<Template>) {
    forall i, j :: 0 <= i < j < |templates| ==> !Collide(templates[i], templates[j])
  }

  predicate Collide(s: Template, t: Template) {
    && !s.retired && !t.retired
    && s.cluster.Some? && s.cluster == t.cluster
    && s.optimization.Some? && s.optimization == t.optimization
  }

  /** Of the live rows, at most one names the same cluster and the same optimization. */
  lemma UniqueExactly(templates: seq<Template>)
    ensures Unique(templates) <==>
            forall i, j, c, o :: 0 <= i < j < |templates| && Names(templates[i], c, o) ==> !Names(templates[j], c, o)
  {
    if !Unique(templates) {
      var i, j :| 0 <= i < j < |templates| && Collide(templates[i], templates[j]);
      assert Names(templates[i], templates[i].cluster.value, templates[i].optimization.value);
    }
  }

  /** No write of any attempt violates the index. */
  lemma {:induction false} UniqueStays(db: Db, ids: seq<string>, n: nat)
    requires (forall id :: id in ids ==> id in db.clusters) && Unique(db.templates)
    ensures Unique(Interrupted(db, ids, n).templates)
    decreases |ids|
  {
    if n > 0 && ids != [] {
      InsertKeepsUnique(db, ids[0]);
      if n > 1 {
        UniqueStays(Mature(Insert(db, ids[0]), ids[0]), ids[1..], n - 2);
      }
    }
  }

  lemma InsertKeepsUnique(db: Db, id: string)
    requires id in db.clusters && Unique(db.templates)
    ensures Unique(Insert(db, id).templates)
  {
    if Addition(db, id) != [] {
      var t := Addition(db, id)[0];
      forall i | 0 <= i < |db.templates| ensures !Collide(db.templates[i], t) {
        assert db.templates[i] in db.templates;
      }
    }
  }

  /** Clusters that were not templates keep their state, and every count is the number of live rows. */
  lemma ClustersExactly(db: Db, ids: seq<string>, id: string)
    requires Fetched(db, ids) && id in db.clusters
    ensures var after := Upgrade(db, ids);
            && id in after.clusters
            && after.clusters[id] == db.clusters[id].(
                 state := if db.clusters[id].state == "template" then "mature" else db.clusters[id].state,
                 templateCount := |LiveRows(after.templates, id)|)
  {
    MigrateStates(db, ids, id);
    LiveIsRows(Upgrade(db, ids).templates, id);
  }

  /** Where the live rows of a cluster are. */
  ghost function LiveRows(templates: seq<Template>, cluster: string): set<nat> {
    set i: nat | i < |templates| && templates[i].cluster == Some(cluster) && !templates[i].retired
  }

  lemma {:induction false} LiveSnoc(templates: seq<Template>, t: Template, cluster: string)
    ensures |Live(templates + [t], cluster)| ==
            |Live(templates, cluster)| + if t.cluster == Some(cluster) && !t.retired then 1 else 0
  {
    if templates == [] {
      assert templates + [t] == [t] && [t][1..] == [];
    } else {
      assert (templates + [t])[1..] == templates[1..] + [t];
      LiveSnoc(templates[1..], t, cluster);
    }
  }

  lemma {:induction false} LiveIsRows(templates: seq<Template>, cluster: string)
    ensures |Live(templates, cluster)| == |LiveRows(templates, cluster)|
    decreases |templates|
  {
    if templates == [] {
      assert LiveRows(templates, cluster) == {};
    } else {
      var init, t := templates[..|templates| - 1], templates[|templates| - 1];
      assert templates == init + [t];
      LiveSnoc(init, t, cluster);
      LiveIsRows(init, cluster);
      assert LiveRows(templates, cluster) ==
             LiveRows(init, cluster) + if t.cluster == Some(cluster) && !t.retired then {|init|} else {};
    }
  }

  /** A second run finds nothing to do. */
  lemma SecondRunIsNoOp(db: Db, ids: seq<string>, again: seq<string>)
    requires Fetched(db, ids) && Fetched(Upgrade(db, ids), again)
    ensures Upgrade(Upgrade(db, ids), again) == Upgrade(db, ids)
  {
    assert again == [] || again[0] in again;
    NoneWaits(db, ids);
    var once := Upgrade(db, ids);
    assert Recount(once).clusters == once.clusters;
  }

  // ---------------------------------------------------------------------------
  // The migration in place
  // ---------------------------------------------------------------------------

  lemma MigrateTurn(db: Db, ids: seq<string>, i: nat)
    requires i < |ids| && forall id :: id in ids ==> id in db.clusters
    ensures Migrate(db, ids[i..]) == Migrate(Mature(Insert(db, ids[i]), ids[i]), ids[i + 1..])
  {
    assert ids[i..][1..] == ids[i + 1..];
  }

  class Tables {
    var clusters: map<string, Cluster>
    var optimizations: seq<Optimization>
    var links: seq<Link>
    var templates: seq<Template>

    function Value(): Db
      reads this
    {
      Db(clusters, optimizations, links, templates)
    }

    constructor (db: Db)
      ensures Value() == db
    {
      clusters, optimizations, links, templates := db.clusters, db.optimizations, db.links, db.templates;
    }

    /** One turn of the loop; `tree` is what was read before it. */
    method MigrateCluster(id: string, tree: map<string, Cluster>)
      requires id in clusters && Evolved(tree, clusters)
      modifies this
      ensures Value() == Mature(Insert(old(Value()), id), id)
      ensures Evolved(tree, clusters)
    {
      var best := Best(optimizations, id);
      if best.Some? {
        var o := best.value;
        if !HasLive(templates, id, o.id) {
          var domain := RootDomainLabel(tree, id);
          RootDomainStable(tree, clusters, id, 8);
          var patterns := PatternIds(links, o.id);
          templates := templates + [
            Template(Some(id), Some(o.id), o.project, if tree[id].title == "" then "untitled" else tree[id].title,
                     if o.prompt.Some? then o.prompt.value else "", o.strategy,
                     if o.score.Some? then o.score.value else 0.0, patterns, domain, false)];
        }
      }
      assert Value() == Insert(old(Value()), id);
      if clusters[id].state == "template" {
        clusters := clusters[id := clusters[id].(state := "mature")];
      }
    }

    method Backfill()
      modifies this
      ensures Value() == Recount(old(Value()))
    {
      clusters := map id | id in clusters :: clusters[id].(templateCount := |Live(templates, id)|);
    }

    method Run(ids: seq<string>)
      requires Fetched(Value(), ids)
      modifies this
      ensures Value() == Upgrade(old(Value()), ids)
    {
      var tree := clusters;
      for i := 0 to |ids|
        invariant Evolved(tree, clusters)
        invariant forall id :: id in ids ==> id in old(clusters) && id in clusters
        invariant Migrate(old(Value()), ids) == Migrate(Value(), ids[i..])
      {
        MigrateTurn(Value(), ids, i);
        MigrateCluster(ids[i], tree);
      }
      Backfill();
    }
  }
}
