/**
 * The migration every backend start runs: a Legacy project, domains detached from projects, a project for each
 * linked repository, and a project id on every optimization. It is one transaction.
 */
module StartupMigration {
  import opened Prelude

  datatype Cluster = Cluster(id: string, parent: Option<string>, title: string, state: string)

  datatype Repo = Repo(name: string, project: Option<string>)

  datatype Optimization = Optimization(repo: Option<string>, project: Option<string>)

  /** Tables in row order; `next` counts the ids the generator has handed out. */
  datatype Db = Db(clusters: seq<Cluster>, repos: seq<Repo>, optimizations: seq<Optimization>, next: nat)

  const LEGACY := "Legacy"

  function ClusterIds(clusters: seq<Cluster>): set<string> {
    set c | c in clusters :: c.id
  }

  function ProjectIds(clusters: seq<Cluster>): set<string> {
    set c | c in clusters && c.state == "project" :: c.id
  }

  /** What the id generator still has to hand out is not empty, not in use, and never the same twice. */
  ghost predicate Unused(db: Db, uuid: nat -> string) {
    && (forall k :: db.next <= k ==> uuid(k) != "")
    && (forall k, c :: db.next <= k && c in db.clusters ==> uuid(k) != c.id && Some(uuid(k)) != c.parent)
    && (forall j, k :: db.next <= j < k ==> uuid(j) != uuid(k))
  }

  /** Ids, and references to projects, are never the empty string. */
  ghost predicate NoEmptyIds(db: Db) {
    && (forall c :: c in db.clusters ==> c.id != "")
    && (forall r :: r in db.repos ==> r.project != Some(""))
  }

  // ---------------------------------------------------------------------------
  // Projects
  // ---------------------------------------------------------------------------

  /** The first project with that label. */
  function ProjectNamed(clusters: seq<Cluster>, title: string): Option<string> {
    if clusters == [] then None
    else if clusters[0].state == "project" && clusters[0].title == title then Some(clusters[0].id)
    else ProjectNamed(clusters[1..], title)
  }

  /** The first cluster row that is a project and has that label has that id. */
  ghost predicate FirstProject(clusters: seq<Cluster>, title: string, id: string) {
    exists j :: 0 <= j < |clusters| && clusters[j].state == "project" && clusters[j].title == title && clusters[j].id == id
                && forall i :: 0 <= i < j ==> !(clusters[i].state == "project" && clusters[i].title == title)
  }

  lemma {:induction false} ProjectNamedFinds(clusters: seq<Cluster>, title: string)
    ensures ProjectNamed(clusters, title).Some? ==> FirstProject(clusters, title, ProjectNamed(clusters, title).value)
    ensures ProjectNamed(clusters, title).None? ==>
              forall c :: c in clusters ==> !(c.state == "project" && c.title == title)
  {
    if clusters != [] {
      ProjectNamedFinds(clusters[1..], title);
      if ProjectNamed(clusters, title).Some? {
        ProjectNamedAt(clusters, title);
      }
    }
  }

  lemma ProjectNamedAt(clusters: seq<Cluster>, title: string)
    requires clusters != [] && ProjectNamed(clusters, title).Some?
    requires ProjectNamed(clusters[1..], title).Some? ==>
               FirstProject(clusters[1..], title, ProjectNamed(clusters[1..], title).value)
    ensures FirstProject(clusters, title, ProjectNamed(clusters, title).value)
  {
    if clusters[0].state == "project" && clusters[0].title == title {
      assert clusters[0].id == ProjectNamed(clusters, title).value;
    } else {
      var rest := clusters[1..];
      var j :| 0 <= j < |rest| && rest[j].state == "project" && rest[j].title == title
               && rest[j].id == ProjectNamed(rest, title).value
               && forall i :: 0 <= i < j ==> !(rest[i].state == "project" && rest[i].title == title);
      assert clusters[j + 1] == rest[j];
      assert forall i :: 0 < i < j + 1 ==> clusters[i] == rest[i - 1];
    }
  }

  lemma {:induction false} ProjectNamedAppend(a: seq<Cluster>, b: seq<Cluster>, title: string)
    ensures ProjectNamed(a + b, title) ==
            if ProjectNamed(a, title).Some? then ProjectNamed(a, title) else ProjectNamed(b, title)
  {
    if a == [] {
      assert a + b == b;
    } else {
      assert (a + b)[1..] == a[1..] + b;
      ProjectNamedAppend(a[1..], b, title);
    }
  }

  function Create(db: Db, uuid: nat -> string, title: string): Db {
    db.(clusters := db.clusters + [Cluster(uuid(db.next), None, title, "project")], next := db.next + 1)
  }

  /** Step 1. */
  function WithLegacy(db: Db, uuid: nat -> string): Db {
    if ProjectNamed(db.clusters, LEGACY).Some? then db else Create(db, uuid, LEGACY)
  }

  // ---------------------------------------------------------------------------
  // Domains leave projects
  // ---------------------------------------------------------------------------

  predicate UnderProject(c: Cluster, projects: set<string>) {
    c.state == "domain" && c.parent.Some? && c.parent.value in projects
  }

  function DetachAll(clusters: seq<Cluster>, projects: set<string>): seq<Cluster> {
    seq(|clusters|, i requires 0 <= i < |clusters| =>
      if UnderProject(clusters[i], projects) then clusters[i].(parent := None) else clusters[i])
  }

  /** Step 2. */
  function Detached(db: Db): Db {
    db.(clusters := DetachAll(db.clusters, ProjectIds(db.clusters)))
  }

  /** The unique index on (COALESCE(parent_id, ''), label) of domains. */
  predicate Clash(c: Cluster, d: Cluster) {
    && c.state == "domain" && d.state == "domain" && c.title == d.title
    && (if c.parent.Some? then c.parent.value else "") == (if d.parent.Some? then d.parent.value else "")
  }

  predicate Indexed(clusters: seq<Cluster>) {
    forall i, j :: 0 <= i < j < |clusters| ==> !Clash(clusters[i], clusters[j])
  }

  /** No two domains have the same label and the same parent, where an empty parent is none. */
  lemma IndexedExactly(clusters: seq<Cluster>)
    ensures Indexed(clusters) <==>
            forall i, j :: 0 <= i < |clusters| && 0 <= j < |clusters| && i != j
                           && clusters[i].state == "domain" && clusters[j].state == "domain"
                           && clusters[i].title == clusters[j].title ==>
              clusters[i].parent != clusters[j].parent
              && !(clusters[i].parent in {None, Some("")} && clusters[j].parent in {None, Some("")})
  {
    forall i, j | 0 <= i < |clusters| && 0 <= j < |clusters|
      ensures Clash(clusters[i], clusters[j]) <==> Clash(clusters[j], clusters[i])
    {
    }
  }

  predicate AtRoot(c: Cluster, projects: set<string>) {
    c.state == "domain" && (c.parent.None? || c.parent.value == "" || c.parent.value in projects)
  }

  /** Two domains that are, or are about to be, at the root have the same label. */
  predicate Collides(clusters: seq<Cluster>) {
    exists i, j :: 0 <= i < j < |clusters| && clusters[i].title == clusters[j].title
                && AtRoot(clusters[i], ProjectIds(clusters)) && AtRoot(clusters[j], ProjectIds(clusters))
  }

  /** Exactly when detaching breaks the index. */
  lemma DetachFailsExactly(clusters: seq<Cluster>)
    requires Indexed(clusters) && "" !in ProjectIds(clusters)
    ensures Indexed(DetachAll(clusters, ProjectIds(clusters))) <==> !Collides(clusters)
  {
    var projects := ProjectIds(clusters);
    var after := DetachAll(clusters, projects);
    forall i, j | 0 <= i < j < |clusters|
      ensures Clash(after[i], after[j]) <==>
                clusters[i].title == clusters[j].title && AtRoot(clusters[i], projects) && AtRoot(clusters[j], projects)
    {
      assert !Clash(clusters[i], clusters[j]);
    }
  }

  // ---------------------------------------------------------------------------
  // A project for each repository
  // ---------------------------------------------------------------------------

  predicate Given(id: Option<string>) {
    id.Some? && id.value != ""
  }

  /** The first row of that repository, or the number of rows. */
  function FirstRow(repos: seq<Repo>, name: string): (i: nat)
    ensures i <= |repos|
    ensures i < |repos| ==> repos[i].name == name
    ensures forall j :: 0 <= j < i ==> repos[j].name != name
  {
    if repos == [] || repos[0].name == name then 0 else FirstRow(repos[1..], name) + 1
  }

  function Link(repos: seq<Repo>, i: nat, id: string): seq<Repo>
    requires i <= |repos|
  {
    if i < |repos| then repos[i := repos[i].(project := Some(id))] else repos
  }

  /** `ensure_project_for_repo` without an explicit target. */
  function EnsureProject(db: Db, uuid: nat -> string, name: string): Db {
    var i := FirstRow(db.repos, name);
    if i < |db.repos| && Given(db.repos[i].project) then db
    else match ProjectNamed(db.clusters, name)
      case Some(id) => db.(repos := Link(db.repos, i, id))
      case None => Create(db, uuid, name).(repos := Link(db.repos, i, uuid(db.next)))
  }

  function UnlinkedNames(repos: seq<Repo>): seq<string> {
    if repos == [] then []
    else (if repos[0].project.None? && repos[0].name != "" then [repos[0].name] else []) + UnlinkedNames(repos[1..])
  }

  function ProvisionAll(db: Db, uuid: nat -> string, names: seq<string>): Db
    decreases |names|
  {
    if names == [] then db else ProvisionAll(EnsureProject(db, uuid, names[0]), uuid, names[1..])
  }

  /** Step 2.5. */
  function Provisioned(db: Db, uuid: nat -> string): Db {
    ProvisionAll(db, uuid, UnlinkedNames(db.repos))
  }

  // ---------------------------------------------------------------------------
  // A project for each optimization
  // ---------------------------------------------------------------------------

  /** Of several linked rows for one repository the last one counts. */
  function RepoMap(repos: seq<Repo>): map<string, string> {
    if repos == [] then map[]
    else
      var last := repos[|repos| - 1];
      var before := RepoMap(repos[..|repos| - 1]);
      if last.project.Some? then before[last.name := last.project.value] else before
  }

  /** The project found for a row; an empty string counts as none. */
  function Resolve(o: Optimization, projects: map<string, string>, legacy: Option<string>): Option<string> {
    if o.repo.Some? && o.repo.value != "" && o.repo.value in projects then Some(projects[o.repo.value])
    else if Given(legacy) then legacy
    else None
  }

  function Fill(o: Optimization, projects: map<string, string>, legacy: Option<string>): Optimization {
    if o.project.None? && Given(Resolve(o, projects, legacy)) then o.(project := Resolve(o, projects, legacy)) else o
  }

  function FillAll(opts: seq<Optimization>, projects: map<string, string>, legacy: Option<string>): seq<Optimization> {
    seq(|opts|, i requires 0 <= i < |opts| => Fill(opts[i], projects, legacy))
  }

  /** Step 3. */
  function Backfilled(db: Db): Db {
    db.(optimizations := FillAll(db.optimizations, RepoMap(db.repos), ProjectNamed(db.clusters, LEGACY)))
  }

  function Migrated(db: Db, uuid: nat -> string): Db {
    Backfilled(Provisioned(Detached(WithLegacy(db, uuid)), uuid))
  }

  // ---------------------------------------------------------------------------
  // What provisioning keeps
  // ---------------------------------------------------------------------------

  /** `b` has the rows of `a` and after them new root projects under ids the generator handed out meanwhile. */
  ghost predicate Grown(a: Db, b: Db, uuid: nat -> string) {
    && a.next <= b.next
    && |b.clusters| == |a.clusters| + (b.next - a.next)
    && b.clusters[..|a.clusters|] == a.clusters
    && forall i :: |a.clusters| <= i < |b.clusters| ==> IsNewProject(b.clusters[i], uuid(a.next + i - |a.clusters|))
  }

  predicate IsNewProject(c: Cluster, id: string) {
    c.id == id && c.parent.None? && c.state == "project"
  }

  lemma GrownJoins(a: Db, b: Db, c: Db, uuid: nat -> string)
    requires Grown(a, b, uuid) && Grown(b, c, uuid)
    ensures Grown(a, c, uuid)
  {
    assert c.clusters[..|a.clusters|] == c.clusters[..|b.clusters|][..|a.clusters|];
    forall i | |a.clusters| <= i < |c.clusters|
      ensures IsNewProject(c.clusters[i], uuid(a.next + i - |a.clusters|))
    {
      if i < |b.clusters| {
        assert c.clusters[i] == c.clusters[..|b.clusters|][i] == b.clusters[i];
      }
    }
  }

  lemma GrownStaysUnused(a: Db, b: Db, uuid: nat -> string)
    requires Grown(a, b, uuid) && Unused(a, uuid)
    ensures Unused(b, uuid)
  {
    forall k, c | b.next <= k && c in b.clusters ensures uuid(k) != c.id && Some(uuid(k)) != c.parent {
      var i :| 0 <= i < |b.clusters| && b.clusters[i] == c;
      if i < |a.clusters| {
        assert b.clusters[..|a.clusters|][i] == a.clusters[i];
        assert c in a.clusters;
      } else {
        assert IsNewProject(b.clusters[i], uuid(a.next + i - |a.clusters|));
      }
    }
  }

  lemma GrownProjectNamed(a: Db, b: Db, uuid: nat -> string, title: string)
    requires Grown(a, b, uuid) && ProjectNamed(a.clusters, title).Some?
    ensures ProjectNamed(b.clusters, title) == ProjectNamed(a.clusters, title)
  {
    assert b.clusters == a.clusters + b.clusters[|a.clusters|..];
    ProjectNamedAppend(a.clusters, b.clusters[|a.clusters|..], title);
  }

  /** Linked rows, and rows that are not the first of their repository, are left alone. */
  ghost predicate Relinked(a: Db, b: Db) {
    && |b.repos| == |a.repos|
    && forall i :: 0 <= i < |a.repos| ==>
         && b.repos[i].name == a.repos[i].name
         && (b.repos[i] == a.repos[i] || NewlyLinked(a, b, i))
  }

  /** An unlinked first row that got the project labelled like the repository. */
  ghost predicate NewlyLinked(a: Db, b: Db, i: nat)
    requires i < |a.repos| && i < |b.repos|
  {
    && i == FirstRow(a.repos, a.repos[i].name)
    && !Given(a.repos[i].project)
    && b.repos[i].project.Some?
    && b.repos[i].project == ProjectNamed(b.clusters, a.repos[i].name)
  }

  lemma SameFirstRow(a: seq<Repo>, b: seq<Repo>, name: string)
    requires |a| == |b| && forall i :: 0 <= i < |a| ==> a[i].name == b[i].name
    ensures FirstRow(a, name) == FirstRow(b, name)
  {
    var i, j := FirstRow(a, name), FirstRow(b, name);
    assert i < |a| ==> b[i].name == name;
    assert j < |b| ==> a[j].name == name;
  }

  lemma RelinkedJoins(a: Db, b: Db, c: Db, uuid: nat -> string)
    requires Relinked(a, b) && Relinked(b, c) && Grown(b, c, uuid)
    ensures Relinked(a, c)
  {
    forall i | 0 <= i < |a.repos|
      ensures c.repos[i].name == a.repos[i].name && (c.repos[i] == a.repos[i] || NewlyLinked(a, c, i))
    {
      SameFirstRow(a.repos, b.repos, a.repos[i].name);
      if NewlyLinked(a, b, i) {
        GrownProjectNamed(b, c, uuid, a.repos[i].name);
      }
    }
  }

  lemma EnsureProjectGrows(db: Db, uuid: nat -> string, name: string)
    ensures Grown(db, EnsureProject(db, uuid, name), uuid)
  {
  }

  lemma EnsureProjectLinks(db: Db, uuid: nat -> string, name: string)
    requires uuid(db.next) != "" && NoEmptyIds(db)
    ensures var db' := EnsureProject(db, uuid, name);
            && Relinked(db, db') && NoEmptyIds(db')
            && (FirstRow(db.repos, name) < |db.repos| ==> Given(db'.repos[FirstRow(db.repos, name)].project))
  {
    ProjectNamedFinds(db.clusters, name);
    if ProjectNamed(db.clusters, name).None? {
      var created := [Cluster(uuid(db.next), None, name, "project")];
      ProjectNamedAppend(db.clusters, created, name);
      assert ProjectNamed(created, name) == Some(uuid(db.next));
    }
  }

  lemma EnsureProjectKeeps(db: Db, uuid: nat -> string, name: string)
    requires Unused(db, uuid) && NoEmptyIds(db)
    ensures var db' := EnsureProject(db, uuid, name);
            && Grown(db, db', uuid) && Relinked(db, db') && NoEmptyIds(db') && Unused(db', uuid)
            && db'.optimizations == db.optimizations
            && (FirstRow(db.repos, name) < |db.repos| ==> Given(db'.repos[FirstRow(db.repos, name)].project))
  {
    EnsureProjectGrows(db, uuid, name);
    EnsureProjectLinks(db, uuid, name);
    GrownStaysUnused(db, EnsureProject(db, uuid, name), uuid);
  }

  lemma {:induction false} ProvisionAllKeeps(db: Db, uuid: nat -> string, names: seq<string>)
    requires Unused(db, uuid) && NoEmptyIds(db)
    ensures var db' := ProvisionAll(db, uuid, names);
            && Grown(db, db', uuid) && Relinked(db, db') && NoEmptyIds(db') && Unused(db', uuid)
            && db'.optimizations == db.optimizations
    ensures forall name :: name in names && FirstRow(db.repos, name) < |db.repos| ==>
              Given(ProvisionAll(db, uuid, names).repos[FirstRow(db.repos, name)].project)
    decreases |names|
  {
    if names != [] {
      var db1 := EnsureProject(db, uuid, names[0]);
      var db' := ProvisionAll(db, uuid, names);
      EnsureProjectKeeps(db, uuid, names[0]);
      ProvisionAllKeeps(db1, uuid, names[1..]);
      GrownJoins(db, db1, db', uuid);
      RelinkedJoins(db, db1, db', uuid);
      forall name | name in names && FirstRow(db.repos, name) < |db.repos|
        ensures Given(db'.repos[FirstRow(db.repos, name)].project)
      {
        SameFirstRow(db.repos, db1.repos, name);
        assert name == names[0] || name in names[1..];
      }
    }
  }

  // ---------------------------------------------------------------------------
  // What the migration achieves
  // ---------------------------------------------------------------------------

  lemma WithLegacyKeeps(db: Db, uuid: nat -> string)
    requires Unused(db, uuid) && NoEmptyIds(db)
    ensures var db' := WithLegacy(db, uuid);
            && Grown(db, db', uuid) && Unused(db', uuid) && NoEmptyIds(db')
            && db'.repos == db.repos && db'.optimizations == db.optimizations
            && Given(ProjectNamed(db'.clusters, LEGACY))
  {
    LegacyExists(db, uuid);
    assert Grown(db, WithLegacy(db, uuid), uuid);
    GrownStaysUnused(db, WithLegacy(db, uuid), uuid);
  }

  lemma LegacyExists(db: Db, uuid: nat -> string)
    requires uuid(db.next) != "" && NoEmptyIds(db)
    ensures Given(ProjectNamed(WithLegacy(db, uuid).clusters, LEGACY))
  {
    ProjectNamedFinds(db.clusters, LEGACY);
    if ProjectNamed(db.clusters, LEGACY).None? {
      var created := [Cluster(uuid(db.next), None, LEGACY, "project")];
      ProjectNamedAppend(db.clusters, created, LEGACY);
      assert ProjectNamed(created, LEGACY) == Some(uuid(db.next));
    }
  }

  lemma {:induction false} DetachKeepsProjects(clusters: seq<Cluster>, projects: set<string>, title: string)
    ensures ProjectNamed(DetachAll(clusters, projects), title) == ProjectNamed(clusters, title)
  {
    if clusters != [] {
      assert DetachAll(clusters, projects)[1..] == DetachAll(clusters[1..], projects);
      DetachKeepsProjects(clusters[1..], projects, title);
    }
  }

  lemma DetachMembers(clusters: seq<Cluster>, projects: set<string>, c: Cluster) returns (b: Cluster)
    requires c in DetachAll(clusters, projects)
    ensures b in clusters && c.id == b.id && c.state == b.state && c.parent in {b.parent, None} && !UnderProject(c, projects)
  {
    var i :| 0 <= i < |clusters| && DetachAll(clusters, projects)[i] == c;
    b := clusters[i];
  }

  lemma DetachKeepsIds(db: Db, uuid: nat -> string)
    requires Unused(db, uuid) && NoEmptyIds(db)
    ensures Unused(Detached(db), uuid) && NoEmptyIds(Detached(db))
  {
    forall c | c in Detached(db).clusters
      ensures c.id != "" && forall k :: db.next <= k ==> uuid(k) != c.id && Some(uuid(k)) != c.parent
    {
      var b := DetachMembers(db.clusters, ProjectIds(db.clusters), c);
    }
  }

  lemma DetachKeepsProjectIds(clusters: seq<Cluster>, projects: set<string>)
    ensures ProjectIds(DetachAll(clusters, projects)) == ProjectIds(clusters)
  {
    var after := DetachAll(clusters, projects);
    forall c | c in after && c.state == "project" ensures c.id in ProjectIds(clusters) {
      var b := DetachMembers(clusters, projects, c);
    }
    forall b | b in clusters && b.state == "project" ensures b in after {
      var i :| 0 <= i < |clusters| && clusters[i] == b;
      assert after[i] == b;
    }
  }

  lemma DetachKeeps(db: Db, uuid: nat -> string)
    requires Unused(db, uuid) && NoEmptyIds(db)
    ensures var db' := Detached(db);
            && Unused(db', uuid) && NoEmptyIds(db') && ProjectIds(db'.clusters) == ProjectIds(db.clusters)
            && ProjectNamed(db'.clusters, LEGACY) == ProjectNamed(db.clusters, LEGACY)
            && (forall c :: c in db'.clusters ==> !UnderProject(c, ProjectIds(db.clusters)))
  {
    var projects := ProjectIds(db.clusters);
    DetachKeepsIds(db, uuid);
    DetachKeepsProjects(db.clusters, projects, LEGACY);
    DetachKeepsProjectIds(db.clusters, projects);
    forall c | c in Detached(db).clusters ensures !UnderProject(c, projects) {
      var b := DetachMembers(db.clusters, projects, c);
    }
  }

  /** The three stages before the backfill, seen from the start. */
  lemma Stages(db: Db, uuid: nat -> string)
    requires Unused(db, uuid) && NoEmptyIds(db)
    ensures var a := WithLegacy(db, uuid);
            var b := Detached(a);
            var c := Provisioned(b, uuid);
            && Grown(db, a, uuid) && NoEmptyIds(a)
            && NoEmptyIds(b) && Unused(b, uuid) && ProjectIds(b.clusters) == ProjectIds(a.clusters)
            && (forall d :: d in b.clusters ==> !UnderProject(d, ProjectIds(a.clusters)))
            && Grown(b, c, uuid) && Relinked(b, c) && NoEmptyIds(c) && Unused(c, uuid)
            && c.optimizations == db.optimizations && b.repos == db.repos
            && Given(ProjectNamed(c.clusters, LEGACY))
  {
    var a := WithLegacy(db, uuid);
    var b := Detached(a);
    WithLegacyKeeps(db, uuid);
    DetachKeeps(a, uuid);
    ProvisionAllKeeps(b, uuid, UnlinkedNames(b.repos));
    GrownProjectNamed(b, Provisioned(b, uuid), uuid, LEGACY);
  }

  lemma {:induction false} RepoMapRange(repos: seq<Repo>)
    requires forall r :: r in repos ==> r.project != Some("")
    ensures forall name :: name in RepoMap(repos) ==> RepoMap(repos)[name] != ""
    decreases |repos|
  {
    if repos != [] {
      RepoMapRange(repos[..|repos| - 1]);
    }
  }

  /** Row `k` is the last row of that repository that has a project. */
  ghost predicate LastLinked(repos: seq<Repo>, name: string, k: nat) {
    && k < |repos| && repos[k].name == name && repos[k].project.Some?
    && forall j :: k < j < |repos| ==> !(repos[j].name == name && repos[j].project.Some?)
  }

  lemma {:induction false} RepoMapIsLast(repos: seq<Repo>, name: string)
    ensures forall k: nat :: LastLinked(repos, name, k) ==>
              name in RepoMap(repos) && Some(RepoMap(repos)[name]) == repos[k].project
    ensures name in RepoMap(repos) <==> exists r :: r in repos && r.name == name && r.project.Some?
    decreases |repos|
  {
    if repos != [] {
      var init := repos[..|repos| - 1];
      assert repos == init + [repos[|repos| - 1]];
      RepoMapIsLast(init, name);
      forall k: nat | LastLinked(repos, name, k)
        ensures name in RepoMap(repos) && Some(RepoMap(repos)[name]) == repos[k].project
      {
        if k < |init| {
          assert LastLinked(init, name, k);
        }
      }
    }
  }

  /**
   * Every optimization ends with a project, and nothing else about it changes. One that had a project keeps it; one of a
   * repository that is linked then gets the project of the last linked row of that repository; any other one gets the
   * first project labelled "Legacy".
   */
  lemma EveryOptimizationHasAProject(db: Db, uuid: nat -> string, i: nat)
    requires Unused(db, uuid) && NoEmptyIds(db) && i < |db.optimizations|
    ensures var db' := Migrated(db, uuid);
            && |db'.optimizations| == |db.optimizations|
            && var o, o' := db.optimizations[i], db'.optimizations[i];
               && o'.repo == o.repo && o'.project.Some?
               && (o.project.Some? ==> o' == o)
               && (o.project.None? ==>
                     if exists r :: r in db'.repos && o.repo == Some(r.name) && r.name != "" && r.project.Some?
                     then forall k: nat :: LastLinked(db'.repos, o.repo.value, k) ==> o'.project == db'.repos[k].project
                     else FirstProject(db'.clusters, "Legacy", o'.project.value))
  {
    Stages(db, uuid);
    var c := Provisioned(Detached(WithLegacy(db, uuid)), uuid);
    RepoMapRange(c.repos);
    ProjectNamedFinds(c.clusters, LEGACY);
    var o := db.optimizations[i];
    if o.repo.Some? {
      RepoMapIsLast(c.repos, o.repo.value);
    }
  }

  /** No domain is left under a project, not even under one that the migration itself created. */
  lemma NoDomainUnderProject(db: Db, uuid: nat -> string)
    requires Unused(db, uuid) && NoEmptyIds(db)
    ensures var clusters := Migrated(db, uuid).clusters;
            forall c, p :: c in clusters && p in clusters && c.state == "domain" && p.state == "project" ==> c.parent != Some(p.id)
    ensures var clusters := Migrated(db, uuid).clusters;
            forall c :: c in clusters ==> !UnderProject(c, ProjectIds(clusters))
  {
    Stages(db, uuid);
    var a := WithLegacy(db, uuid);
    var b := Detached(a);
    var c := Provisioned(b, uuid);
    forall d, p | d in c.clusters && p in c.clusters && p.state == "project"
      ensures !(d.state == "domain" && d.parent == Some(p.id))
    {
      NewProjectsHaveNoDomains(b, c, uuid, d, p);
    }
  }

  lemma NewProjectsHaveNoDomains(b: Db, c: Db, uuid: nat -> string, d: Cluster, p: Cluster)
    requires Unused(b, uuid) && Grown(b, c, uuid) && d in c.clusters && p in c.clusters && p.state == "project"
    requires forall x :: x in b.clusters ==> !UnderProject(x, ProjectIds(b.clusters))
    ensures !(d.state == "domain" && d.parent == Some(p.id))
  {
    GrownMembers(b, c, uuid, d);
    GrownMembers(b, c, uuid, p);
    if d in b.clusters && p in b.clusters {
      assert p.id in ProjectIds(b.clusters);
    }
  }

  lemma GrownMembers(a: Db, b: Db, uuid: nat -> string, c: Cluster)
    requires Grown(a, b, uuid) && c in b.clusters
    ensures c in a.clusters || exists k :: a.next <= k < b.next && IsNewProject(c, uuid(k))
  {
    var i :| 0 <= i < |b.clusters| && b.clusters[i] == c;
    if i < |a.clusters| {
      assert b.clusters[..|a.clusters|][i] == a.clusters[i];
    } else {
      assert IsNewProject(c, uuid(a.next + i - |a.clusters|));
    }
  }

  /**
   * The cluster table: the old rows in place, changed only where a domain was under a project, then new root projects.
   * Sub-domains keep their parent.
   */
  lemma ClustersExactly(db: Db, uuid: nat -> string, i: nat)
    requires Unused(db, uuid) && NoEmptyIds(db) && i < |Migrated(db, uuid).clusters|
    ensures var after := Migrated(db, uuid).clusters;
            && |db.clusters| <= |after|
            && if i >= |db.clusters|
               then after[i] == Cluster(uuid(db.next + i - |db.clusters|), None, after[i].title, "project")
               else if db.clusters[i].state == "domain"
                       && exists p :: p in db.clusters && p.state == "project" && db.clusters[i].parent == Some(p.id)
               then after[i] == db.clusters[i].(parent := None)
               else after[i] == db.clusters[i]
  {
    var b := Detached(WithLegacy(db, uuid));
    DetachedExactly(db, uuid);
    GrownByProvisioning(db, uuid);
    GrownAt(b, Provisioned(b, uuid), uuid, i);
  }

  lemma GrownByProvisioning(db: Db, uuid: nat -> string)
    requires Unused(db, uuid) && NoEmptyIds(db)
    ensures var b := Detached(WithLegacy(db, uuid)); Grown(b, Provisioned(b, uuid), uuid)
  {
    Stages(db, uuid);
  }

  lemma DetachedExactly(db: Db, uuid: nat -> string)
    requires Unused(db, uuid)
    ensures var b := Detached(WithLegacy(db, uuid));
            && |b.clusters| - |db.clusters| == b.next - db.next >= 0
            && forall i :: 0 <= i < |b.clusters| ==>
                 if i >= |db.clusters| then IsNewProject(b.clusters[i], uuid(db.next + i - |db.clusters|))
                 else b.clusters[i] == if UnderProject(db.clusters[i], ProjectIds(db.clusters))
                                       then db.clusters[i].(parent := None) else db.clusters[i]
  {
    forall i | 0 <= i < |db.clusters|
      ensures UnderProject(db.clusters[i], ProjectIds(WithLegacy(db, uuid).clusters))
              <==> UnderProject(db.clusters[i], ProjectIds(db.clusters))
    {
      LegacyAdoptsNothing(db, uuid, db.clusters[i]);
    }
  }

  lemma GrownAt(a: Db, b: Db, uuid: nat -> string, i: nat)
    requires Grown(a, b, uuid) && i < |b.clusters|
    ensures if i < |a.clusters| then b.clusters[i] == a.clusters[i]
            else IsNewProject(b.clusters[i], uuid(a.next + i - |a.clusters|))
  {
    if i < |a.clusters| {
      assert b.clusters[i] == b.clusters[..|a.clusters|][i];
    }
  }

  lemma LegacyAdoptsNothing(db: Db, uuid: nat -> string, c: Cluster)
    requires Unused(db, uuid) && c in db.clusters
    ensures UnderProject(c, ProjectIds(WithLegacy(db, uuid).clusters)) <==> UnderProject(c, ProjectIds(db.clusters))
    ensures AtRoot(c, ProjectIds(WithLegacy(db, uuid).clusters)) <==> AtRoot(c, ProjectIds(db.clusters))
  {
    var a := WithLegacy(db, uuid);
    assert forall p :: p in a.clusters ==> p in db.clusters || p.id == uuid(db.next);
    assert forall p :: p in db.clusters ==> p in a.clusters;
  }

  lemma {:induction false} UnlinkedNamesExactly(repos: seq<Repo>, name: string)
    ensures name in UnlinkedNames(repos) <==>
              name != "" && exists r :: r in repos && r.name == name && r.project.None?
  {
    if repos != [] {
      UnlinkedNamesExactly(repos[1..], name);
      assert repos == [repos[0]] + repos[1..];
    }
  }

  /**
   * Which unlinked repository rows get a project: the first row of each repository with a name. Its project is the
   * one labelled like the repository; every other row stays as it was.
   */
  lemma LinkedExactly(db: Db, uuid: nat -> string, i: nat)
    requires Unused(db, uuid) && NoEmptyIds(db) && i < |db.repos|
    ensures var db' := Migrated(db, uuid);
            var r := db.repos[i];
            && |db'.repos| == |db.repos|
            && if r.project.None? && r.name != "" && forall j :: 0 <= j < i ==> db.repos[j].name != r.name
               then db'.repos[i].name == r.name && db'.repos[i].project.Some?
                    && FirstProject(db'.clusters, r.name, db'.repos[i].project.value)
               else db'.repos[i] == r
  {
    Stages(db, uuid);
    ProjectNamedFinds(Migrated(db, uuid).clusters, db.repos[i].name);
    FirstRowIs(db.repos, i);
    var b := Detached(WithLegacy(db, uuid));
    var c := Provisioned(b, uuid);
    var r := db.repos[i];
    UnlinkedNamesExactly(db.repos, r.name);
    ProvisionAllKeeps(b, uuid, UnlinkedNames(b.repos));
    assert r in db.repos;
    if c.repos[i] != r {
      assert NewlyLinked(b, c, i);
      NamelessStay(b, uuid, UnlinkedNames(b.repos), i);
    }
  }

  lemma FirstRowIs(repos: seq<Repo>, i: nat)
    requires i < |repos|
    ensures i == FirstRow(repos, repos[i].name) <==> forall j :: 0 <= j < i ==> repos[j].name != repos[i].name
  {
    var k := FirstRow(repos, repos[i].name);
    assert k <= i;
  }

  /** No project that comes before row `i` has the same label. */
  ghost predicate NewLabel(clusters: seq<Cluster>, i: nat) {
    i < |clusters| && forall j :: 0 <= j < i ==> !(clusters[j].state == "project" && clusters[j].title == clusters[i].title)
  }

  lemma {:induction false} ProvisionLabels(db: Db, uuid: nat -> string, names: seq<string>, i: nat)
    requires Unused(db, uuid) && NoEmptyIds(db)
    requires |db.clusters| <= i < |ProvisionAll(db, uuid, names).clusters|
    ensures ProvisionAll(db, uuid, names).clusters[i].title in names
    ensures NewLabel(ProvisionAll(db, uuid, names).clusters, i)
    decreases |names|
  {
    if names != [] {
      var db1 := EnsureProject(db, uuid, names[0]);
      EnsureProjectKeeps(db, uuid, names[0]);
      if |db1.clusters| <= i {
        ProvisionLabels(db1, uuid, names[1..], i);
      } else {
        ProvisionAllKeeps(db1, uuid, names[1..]);
        FirstLabel(db, db1, ProvisionAll(db, uuid, names), uuid, names[0]);
      }
    }
  }

  lemma FirstLabel(db: Db, db1: Db, db': Db, uuid: nat -> string, name: string)
    requires db1 == EnsureProject(db, uuid, name) && |db1.clusters| == |db.clusters| + 1 && Grown(db1, db', uuid)
    ensures db'.clusters[|db.clusters|].title == name && NewLabel(db'.clusters, |db.clusters|)
  {
    ProjectNamedFinds(db.clusters, name);
    forall j | 0 <= j <= |db.clusters| ensures db'.clusters[j] == db1.clusters[j] {
      assert db'.clusters[..|db1.clusters|][j] == db'.clusters[j];
    }
    forall j | 0 <= j < |db.clusters| ensures !(db1.clusters[j].state == "project" && db1.clusters[j].title == name) {
      assert db1.clusters[j] == db.clusters[j] && db.clusters[j] in db.clusters;
    }
  }

  /**
   * The projects that are created: labelled "Legacy", or like a repository with an unlinked row, and only when no
   * project with that label came before, old or new.
   */
  lemma NewProjectsExactly(db: Db, uuid: nat -> string, i: nat)
    requires Unused(db, uuid) && NoEmptyIds(db) && |db.clusters| <= i < |Migrated(db, uuid).clusters|
    ensures var after := Migrated(db, uuid).clusters;
            && NewLabel(after, i)
            && (after[i].title == "Legacy" || (after[i].title != "" && exists r :: r in db.repos && r.name == after[i].title && r.project.None?))
  {
    var b := Detached(WithLegacy(db, uuid));
    Stages(db, uuid);
    if i < |b.clusters| {
      LegacyIsNew(db, b, Provisioned(b, uuid), uuid, i);
    } else {
      ProvisionLabels(b, uuid, UnlinkedNames(b.repos), i);
      UnlinkedNamesExactly(b.repos, Migrated(db, uuid).clusters[i].title);
    }
  }

  lemma LegacyIsNew(db: Db, b: Db, c: Db, uuid: nat -> string, i: nat)
    requires b == Detached(WithLegacy(db, uuid)) && Grown(b, c, uuid) && |db.clusters| <= i < |b.clusters|
    ensures i < |c.clusters| && c.clusters[i].title == "Legacy" && NewLabel(c.clusters, i)
  {
    ProjectNamedFinds(db.clusters, LEGACY);
    forall j | 0 <= j <= i ensures c.clusters[j] == b.clusters[j] {
      GrownAt(b, c, uuid, j);
    }
    forall j | 0 <= j < i ensures !(b.clusters[j].state == "project" && b.clusters[j].title == LEGACY) {
      assert db.clusters[j] in db.clusters;
    }
  }

  /** Provisioning touches only rows whose name is on its list. */
  lemma {:induction false} NamelessStay(db: Db, uuid: nat -> string, names: seq<string>, i: nat)
    requires i < |db.repos|
    ensures |ProvisionAll(db, uuid, names).repos| == |db.repos|
    ensures db.repos[i].name !in names ==> ProvisionAll(db, uuid, names).repos[i] == db.repos[i]
    decreases |names|
  {
    if names != [] {
      NamelessStay(EnsureProject(db, uuid, names[0]), uuid, names[1..], i);
    }
  }

  /** One repository linked by two sessions, the first of them already provided for: the second row stays unlinked. */
  lemma SecondRowStaysUnlinked(db: Db, uuid: nat -> string)
    requires Unused(db, uuid) && NoEmptyIds(db)
    requires db.repos == [Repo("a/b", Some("p")), Repo("a/b", None)]
    ensures Migrated(db, uuid).repos == db.repos
  {
    LinkedExactly(db, uuid, 0);
    LinkedExactly(db, uuid, 1);
  }

  /** Nor does one run give both of two unlinked rows a project. */
  lemma OnlyOneRowIsLinked(db: Db, uuid: nat -> string)
    requires Unused(db, uuid) && NoEmptyIds(db)
    requires db.repos == [Repo("a/b", None), Repo("a/b", None)]
    ensures var repos := Migrated(db, uuid).repos; |repos| == 2 && Given(repos[0].project) && repos[1] == db.repos[1]
  {
    LinkedExactly(db, uuid, 0);
    LinkedExactly(db, uuid, 1);
    Stages(db, uuid);
    assert Migrated(db, uuid).repos[0] in Migrated(db, uuid).repos;
  }

  // ---------------------------------------------------------------------------
  // Running it again
  // ---------------------------------------------------------------------------

  lemma {:induction false} ProvisionAllIsNoOp(db: Db, uuid: nat -> string, names: seq<string>)
    requires forall name :: name in names ==>
               FirstRow(db.repos, name) < |db.repos| && Given(db.repos[FirstRow(db.repos, name)].project)
    ensures ProvisionAll(db, uuid, names) == db
    decreases |names|
  {
    if names != [] {
      assert names[0] in names;
      ProvisionAllIsNoOp(db, uuid, names[1..]);
    }
  }

  lemma FirstRowExists(repos: seq<Repo>, r: Repo)
    requires r in repos
    ensures FirstRow(repos, r.name) < |repos|
  {
    var i :| 0 <= i < |repos| && repos[i] == r;
  }

  lemma NothingLeftToProvision(db: Db, uuid: nat -> string, name: string)
    requires Unused(db, uuid) && NoEmptyIds(db) && name in UnlinkedNames(Migrated(db, uuid).repos)
    ensures var repos := Migrated(db, uuid).repos;
            FirstRow(repos, name) < |repos| && Given(repos[FirstRow(repos, name)].project)
  {
    var repos := Migrated(db, uuid).repos;
    Stages(db, uuid);
    UnlinkedNamesExactly(repos, name);
    var r :| r in repos && r.name == name && r.project.None?;
    FirstRowExists(repos, r);
    var k :| 0 <= k < |repos| && repos[k] == r;
    LinkedExactly(db, uuid, k);
    assert db.repos[k] in db.repos;
    UnlinkedNamesExactly(db.repos, name);
    SameFirstRow(db.repos, repos, name);
    ProvisionAllKeeps(Detached(WithLegacy(db, uuid)), uuid, UnlinkedNames(db.repos));
  }

  /** Idempotent: a second run changes nothing. */
  lemma SecondRunIsNoOp(db: Db, uuid: nat -> string)
    requires Unused(db, uuid) && NoEmptyIds(db)
    ensures Migrated(Migrated(db, uuid), uuid) == Migrated(db, uuid)
  {
    var db' := Migrated(db, uuid);
    Stages(db, uuid);
    assert WithLegacy(db', uuid) == db';
    NoDomainUnderProject(db, uuid);
    assert DetachAll(db'.clusters, ProjectIds(db'.clusters)) == db'.clusters;
    forall name | name in UnlinkedNames(db'.repos)
      ensures FirstRow(db'.repos, name) < |db'.repos| && Given(db'.repos[FirstRow(db'.repos, name)].project)
    {
      NothingLeftToProvision(db, uuid, name);
    }
    ProvisionAllIsNoOp(db', uuid, UnlinkedNames(db'.repos));
    forall i | 0 <= i < |db'.optimizations| ensures db'.optimizations[i].project.Some? {
      EveryOptimizationHasAProject(db, uuid, i);
    }
    assert Backfilled(db').optimizations == db'.optimizations;
  }

  /** A domain that is at the root afterwards was on its way there before. */
  lemma RootsWereRoots(db: Db, uuid: nat -> string, i: nat)
    requires Unused(db, uuid) && NoEmptyIds(db) && i < |Migrated(db, uuid).clusters|
    requires var after := Migrated(db, uuid).clusters; AtRoot(after[i], ProjectIds(after))
    ensures i < |db.clusters| && AtRoot(db.clusters[i], ProjectIds(db.clusters))
    ensures Migrated(db, uuid).clusters[i].title == db.clusters[i].title
  {
    ClustersExactly(db, uuid, i);
    NoDomainUnderProject(db, uuid);
    assert Migrated(db, uuid).clusters[i] in Migrated(db, uuid).clusters;
  }

  lemma NoNewCollision(db: Db, uuid: nat -> string)
    requires Unused(db, uuid) && NoEmptyIds(db) && !Collides(db.clusters)
    ensures !Collides(Migrated(db, uuid).clusters)
  {
    var after := Migrated(db, uuid).clusters;
    forall i, j | 0 <= i < j < |after| && after[i].title == after[j].title
                  && AtRoot(after[i], ProjectIds(after)) && AtRoot(after[j], ProjectIds(after))
      ensures false
    {
      RootsWereRoots(db, uuid, i);
      RootsWereRoots(db, uuid, j);
    }
  }

  /** New projects do not touch the index on domains. */
  lemma GrownStaysIndexed(a: Db, b: Db, uuid: nat -> string)
    requires Grown(a, b, uuid) && Indexed(a.clusters)
    ensures Indexed(b.clusters)
  {
    forall i, j | 0 <= i < j < |b.clusters| ensures !Clash(b.clusters[i], b.clusters[j]) {
      GrownAt(a, b, uuid, i);
      GrownAt(a, b, uuid, j);
    }
  }

  /** And a second run finds what the first one needed, and nothing that could fail it: it commits as well. */
  lemma SecondRunCommits(db: Db, uuid: nat -> string)
    requires Unused(db, uuid) && NoEmptyIds(db) && Indexed(db.clusters) && !Collides(db.clusters)
    ensures var db' := Migrated(db, uuid);
            Unused(db', uuid) && NoEmptyIds(db') && Indexed(db'.clusters) && !Collides(db'.clusters)
  {
    var a := WithLegacy(db, uuid);
    var b := Detached(a);
    Stages(db, uuid);
    NoNewCollision(db, uuid);
    CollidesBeforeLegacy(db, uuid);
    DetachFailsExactly(a.clusters);
    GrownStaysIndexed(b, Provisioned(b, uuid), uuid);
  }

  // ---------------------------------------------------------------------------
  // The migration in place
  // ---------------------------------------------------------------------------

  predicate Missing(o: Optimization) {
    o.project.None?
  }

  function MissingCount(opts: seq<Optimization>): nat {
    if opts == [] then 0 else (if Missing(opts[0]) then 1 else 0) + MissingCount(opts[1..])
  }

  lemma {:induction false} FillingLowersCount(opts: seq<Optimization>, i: nat, o: Optimization)
    requires i < |opts| && Missing(opts[i]) && !Missing(o)
    ensures MissingCount(opts[i := o]) == MissingCount(opts) - 1
  {
    if i == 0 {
      assert opts[i := o][1..] == opts[1..];
    } else {
      assert opts[i := o][1..] == opts[1..][i - 1 := o];
      FillingLowersCount(opts[1..], i - 1, o);
    }
  }

  function FillRows(opts: seq<Optimization>, rows: seq<nat>, projects: map<string, string>, legacy: Option<string>)
    : seq<Optimization>
  {
    seq(|opts|, i requires 0 <= i < |opts| => if i in rows then Fill(opts[i], projects, legacy) else opts[i])
  }

  lemma FillRowsNext(opts: seq<Optimization>, rows: seq<nat>, k: nat, projects: map<string, string>, legacy: Option<string>)
    requires k < |rows| && rows[k] < |opts| && forall i, j :: 0 <= i < j < |rows| ==> rows[i] < rows[j]
    ensures var before := FillRows(opts, rows[..k], projects, legacy);
            var filled := Fill(opts[rows[k]], projects, legacy);
            && before[rows[k]] == opts[rows[k]]
            && FillRows(opts, rows[..k + 1], projects, legacy) == before[rows[k] := filled]
            && (filled == opts[rows[k]] ==> FillRows(opts, rows[..k + 1], projects, legacy) == before)
  {
    var before, after := FillRows(opts, rows[..k], projects, legacy), FillRows(opts, rows[..k + 1], projects, legacy);
    assert rows[..k + 1] == rows[..k] + [rows[k]];
    assert rows[k] !in rows[..k];
    assert after == before[rows[k] := Fill(opts[rows[k]], projects, legacy)];
  }

  class Startup {
    var clusters: seq<Cluster>
    var repos: seq<Repo>
    var optimizations: seq<Optimization>
    var next: nat
    const uuid: nat -> string

    function Value(): Db
      reads this
    {
      Db(clusters, repos, optimizations, next)
    }

    constructor (db: Db, uuid: nat -> string)
      ensures Value() == db && this.uuid == uuid
    {
      clusters, repos, optimizations, next := db.clusters, db.repos, db.optimizations, db.next;
      this.uuid := uuid;
    }

    method AddProject(title: string) returns (id: string)
      modifies this
      ensures Value() == Create(old(Value()), uuid, title) && id == uuid(old(next))
    {
      id := uuid(next);
      clusters, next := clusters + [Cluster(id, None, title, "project")], next + 1;
    }

    method Ensure(name: string) returns (id: string)
      modifies this
      ensures Value() == EnsureProject(old(Value()), uuid, name)
      ensures if FirstRow(repos, name) < |repos| then repos[FirstRow(repos, name)].project == Some(id)
              else ProjectNamed(clusters, name) == Some(id)
    {
      var i := FirstRow(repos, name);
      if i < |repos| && Given(repos[i].project) {
        return repos[i].project.value;
      }
      var existing := ProjectNamed(clusters, name);
      if existing.Some? {
        id := existing.value;
      } else {
        id := AddProject(name);
        ProjectNamedAppend(old(clusters), [Cluster(id, None, name, "project")], name);
        assert ProjectNamed([Cluster(id, None, name, "project")], name) == Some(id);
      }
      if i < |repos| {
        repos := repos[i := repos[i].(project := Some(id))];
      }
      SameFirstRow(old(repos), repos, name);
    }

    method Provision()
      modifies this
      ensures Value() == Provisioned(old(Value()), uuid)
    {
      var names := UnlinkedNames(repos);
      for i := 0 to |names|
        invariant ProvisionAll(old(Value()), uuid, names) == ProvisionAll(Value(), uuid, names[i..])
      {
        assert names[i..][1..] == names[i + 1..];
        var _ := Ensure(names[i]);
      }
    }

    method LinkedProjects() returns (projects: map<string, string>)
      ensures projects == RepoMap(repos)
    {
      projects := map[];
      for i := 0 to |repos|
        invariant projects == RepoMap(repos[..i])
      {
        assert repos[..i + 1][..i] == repos[..i];
        if repos[i].project.Some? {
          projects := projects[repos[i].name := repos[i].project.value];
        }
      }
      assert repos[..|repos|] == repos;
    }

    /** At most 500 rows without a project, in table order. */
    method FetchMissing() returns (rows: seq<nat>)
      ensures |rows| <= 500 && (rows == [] <==> forall o :: o in optimizations ==> !Missing(o))
      ensures forall k :: 0 <= k < |rows| ==> rows[k] < |optimizations| && Missing(optimizations[rows[k]])
      ensures forall j, k :: 0 <= j < k < |rows| ==> rows[j] < rows[k]
    {
      rows := [];
      var i := 0;
      while i < |optimizations| && |rows| < 500
        invariant i <= |optimizations| && |rows| <= 500
        invariant rows == [] ==> forall j :: 0 <= j < i ==> !Missing(optimizations[j])
        invariant forall k :: 0 <= k < |rows| ==> rows[k] < i && Missing(optimizations[rows[k]])
        invariant forall j, k :: 0 <= j < k < |rows| ==> rows[j] < rows[k]
      {
        if Missing(optimizations[i]) {
          rows := rows + [i];
        }
        i := i + 1;
      }
      if rows != [] {
        assert optimizations[rows[0]] in optimizations;
      }
    }

    /** One pass over a batch; counts the rows it filled. */
    method FillBatch(rows: seq<nat>, projects: map<string, string>, legacy: Option<string>) returns (filled: nat)
      requires forall k :: 0 <= k < |rows| ==> rows[k] < |optimizations| && Missing(optimizations[rows[k]])
      requires forall j, k :: 0 <= j < k < |rows| ==> rows[j] < rows[k]
      modifies this`optimizations
      ensures |optimizations| == |old(optimizations)|
      ensures forall i :: 0 <= i < |optimizations| ==>
                optimizations[i] == if i in rows then Fill(old(optimizations)[i], projects, legacy) else old(optimizations)[i]
      ensures MissingCount(optimizations) == old(MissingCount(optimizations)) - filled
      ensures (forall k :: 0 <= k < |rows| ==> Given(Resolve(old(optimizations)[rows[k]], projects, legacy))) ==> filled == |rows|
    {
      filled := 0;
      ghost var was := optimizations;
      for k := 0 to |rows|
        invariant optimizations == FillRows(was, rows[..k], projects, legacy)
        invariant MissingCount(optimizations) == MissingCount(was) - filled
        invariant filled <= k
        invariant (forall j :: 0 <= j < k ==> Given(Resolve(was[rows[j]], projects, legacy))) ==> filled == k
      {
        FillRowsNext(was, rows, k, projects, legacy);
        var o := optimizations[rows[k]];
        var resolved := Resolve(o, projects, legacy);
        if Given(resolved) {
          FillingLowersCount(optimizations, rows[k], o.(project := resolved));
          optimizations := optimizations[rows[k] := o.(project := resolved)];
          filled := filled + 1;
        }
      }
      assert rows[..|rows|] == rows;
    }

    /** The batch loop. It stops early, without filling the rest, when a whole batch cannot be resolved. */
    method Backfill()
      modifies this`optimizations
      ensures |optimizations| == |old(optimizations)|
      ensures forall i :: 0 <= i < |optimizations| ==>
                optimizations[i] in {old(optimizations)[i],
                                     Fill(old(optimizations)[i], RepoMap(repos), ProjectNamed(clusters, LEGACY))}
      ensures Given(ProjectNamed(clusters, LEGACY)) && NoEmptyIds(Value()) ==> Value() == Backfilled(old(Value()))
    {
      var legacy := ProjectNamed(clusters, LEGACY);
      var projects := LinkedProjects();
      ghost var resolvable := Given(legacy) && NoEmptyIds(Value());
      ghost var was := optimizations;
      RepoMapGivesIds(Value());
      while true
        invariant |optimizations| == |was|
        invariant forall i :: 0 <= i < |was| ==> optimizations[i] in {was[i], Fill(was[i], projects, legacy)}
        decreases MissingCount(optimizations)
      {
        var missing := FetchMissing();
        if missing == [] {
          assert forall i :: 0 <= i < |was| ==> optimizations[i] in optimizations;
          break;
        }
        var filled := FillBatch(missing, projects, legacy);
        if filled == 0 {
          assert !resolvable;
          break;
        }
      }
      if resolvable {
        assert optimizations == FillAll(was, projects, legacy);
      }
    }

    /** The whole transaction; a violated index rolls everything back. */
    method Run() returns (committed: bool)
      requires Unused(Value(), uuid) && NoEmptyIds(Value()) && Indexed(clusters)
      modifies this
      ensures committed <==> !Collides(old(clusters))
      ensures Value() == if committed then Migrated(old(Value()), uuid) else old(Value())
    {
      var before := Value();
      if ProjectNamed(clusters, LEGACY).None? {
        var _ := AddProject(LEGACY);
      }
      CollidesBeforeLegacy(before, uuid);
      WithLegacyKeeps(before, uuid);
      DetachFailsExactly(clusters);
      var projects := ProjectIds(clusters);
      clusters := DetachAll(clusters, projects);
      if !Indexed(clusters) {
        clusters, repos, optimizations, next := before.clusters, before.repos, before.optimizations, before.next;
        return false;
      }
      Stages(before, uuid);
      Provision();
      Backfill();
      return true;
    }
  }

  lemma RepoMapGivesIds(db: Db)
    ensures NoEmptyIds(db) ==> forall name :: name in RepoMap(db.repos) ==> RepoMap(db.repos)[name] != ""
  {
    if NoEmptyIds(db) { RepoMapRange(db.repos); }
  }

  /** Creating the Legacy project neither makes nor hides a collision, and keeps the index. */
  lemma CollidesBeforeLegacy(db: Db, uuid: nat -> string)
    requires Unused(db, uuid) && Indexed(db.clusters)
    ensures Indexed(WithLegacy(db, uuid).clusters)
    ensures Collides(WithLegacy(db, uuid).clusters) <==> Collides(db.clusters)
  {
    var a := WithLegacy(db, uuid).clusters;
    assert forall i :: |db.clusters| <= i < |a| ==> a[i].state == "project";
    forall i | 0 <= i < |db.clusters|
      ensures a[i] == db.clusters[i] && (AtRoot(a[i], ProjectIds(a)) <==> AtRoot(db.clusters[i], ProjectIds(db.clusters)))
    {
      LegacyAdoptsNothing(db, uuid, db.clusters[i]);
    }
    CollidesByRows(db.clusters, a);
  }

  lemma CollidesByRows(a: seq<Cluster>, b: seq<Cluster>)
    requires |a| <= |b| && (forall i :: |a| <= i < |b| ==> b[i].state == "project")
    requires forall i :: 0 <= i < |a| ==>
               b[i] == a[i] && (AtRoot(b[i], ProjectIds(b)) <==> AtRoot(a[i], ProjectIds(a)))
    ensures Collides(b) <==> Collides(a)
  {
    if Collides(a) {
      var i, j :| 0 <= i < j < |a| && a[i].title == a[j].title
               && AtRoot(a[i], ProjectIds(a)) && AtRoot(a[j], ProjectIds(a));
      assert b[i].title == b[j].title;
    }
  }
}
