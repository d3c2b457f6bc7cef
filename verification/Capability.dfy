/**
 * The MCP middleware that watches initialize handshakes and SSE streams to decide whether a sampling client is
 * connected, together with the routing callbacks it drives.
 *
 * A step is what runs between two awaits of one request; requests interleave freely.
 */
module Capability {
  import opened Prelude

  datatype Routing = Routing(sampling: Option<bool>, connected: bool)

  /** The session file; its timestamps are not modelled. */
  datatype SessionFile = SessionFile(sampling: bool, streams: Option<int>)

  datatype Callback = Activity | Initialized(sampling: bool) | McpDisconnect | SamplingDisconnect | Invalidated

  /** Local state of one request. */
  datatype Post = Post(sid: string, isInitialize: bool, sampling: bool, status: nat)
  datatype Get = Get(sid: string, hasSid: bool, handled: bool, isSse: bool)

  /**
   * A POST body: an initialize message, one whose client information cannot be read, one whose capabilities cannot be
   * read, or anything else.
   */
  datatype Body = Initialize(sampling: bool) | AnonymousInitialize(sampling: bool) | BrokenInitialize | OtherBody

  datatype State = State(
    active: int, samplingIds: set<string>, samplingStreams: set<string>,
    routing: Option<Routing>, file: Option<SessionFile>,
    posts: map<nat, Post>, gets: map<nat, Get>, fired: seq<Callback>)

  const START := State(0, {}, {}, None, None, map[], map[], [])

  datatype Action =
    | PostArrives(id: nat, sid: string, due: bool)
    | PostBody(id: nat, body: Body)
    | PostStatus(id: nat, status: nat)
    | PostEnds(id: nat, raised: bool)
    | GetArrives(id: nat, sid: string)
    | GetStatus(id: nat, status: nat, responseSid: string)
    | GetChunk(id: nat, foundSid: Option<string>, due: bool)
    | GetEnds(id: nat)
    | RoutingReady(routing: Routing)

  // ---------------------------------------------------------------------------
  // Routing callbacks
  // ---------------------------------------------------------------------------

  function Persist(r: Routing): Option<SessionFile> {
    Some(SessionFile(r.sampling == Some(true), None))
  }

  /** The effect of a callback on the routing state and on the session file. */
  function React(r: Routing, file: Option<SessionFile>, c: Callback): (Routing, Option<SessionFile>) {
    match c
    case Activity => var r' := r.(connected := true); (r', Persist(r'))
    case Initialized(b) => var r' := Routing(Some(b), true); (r', Persist(r'))
    case McpDisconnect =>
      if !r.connected && r.sampling.None? then (r, file) else (Routing(None, false), None)
    case SamplingDisconnect =>
      if r.sampling.None? then (r, file) else var r' := r.(sampling := None); (r', Persist(r'))
    case Invalidated => (Routing(None, false), None)
  }

  function Fire(s: State, c: Callback): State {
    match s.routing
    case None => s
    case Some(r) =>
      var (r', file) := React(r, s.file, c);
      s.(routing := Some(r'), file := file, fired := s.fired + [c])
  }

  // ---------------------------------------------------------------------------
  // Steps
  // ---------------------------------------------------------------------------

  function TouchFile(s: State, due: bool): State {
    if due && s.file.Some? then s.(file := Some(s.file.value.(streams := Some(s.active)))) else s
  }

  function Inspect(s: State, sampling: bool): State {
    if s.routing.Some? then
      if !sampling && (s.routing.value.sampling == Some(true) || s.samplingStreams != {}) then s
      else Fire(s, Initialized(sampling))
    else if !sampling && s.samplingStreams != {} then s
    else s.(file := Some(SessionFile(sampling, None)))
  }

  function Optimistic(s: State): State {
    var current := s.routing.Some? && s.routing.value.sampling == Some(true);
    Fire(s, Activity).(file := Some(SessionFile(current, Some(s.active))))
  }

  function Invalidate(s: State): State {
    if s.file.None? then s else Fire(s.(file := None), Invalidated)
  }

  function Opened(s: State, id: nat, g: Get, responseSid: string): State {
    var g' := g.(handled := true, isSse := true, sid := if g.sid == "" then responseSid else g.sid);
    var sampling := g'.sid != "" && g'.sid in s.samplingIds;
    var s' := s.(active := s.active + 1, gets := s.gets[id := g'],
                 samplingStreams := if sampling then s.samplingStreams + {g'.sid} else s.samplingStreams);
    if !g.hasSid then Optimistic(s') else if sampling then Fire(s', Activity) else s'
  }

  function Chunk(s: State, id: nat, g: Get, foundSid: Option<string>, due: bool): State {
    var g' := g.(sid := if g.sid == "" && foundSid.Some? then foundSid.value else g.sid);
    var sampling := g'.sid != "" && g'.sid in s.samplingIds;
    var s' := s.(gets := s.gets[id := g'],
                 samplingStreams := if sampling then s.samplingStreams + {g'.sid} else s.samplingStreams);
    TouchFile(if sampling then Fire(s', Activity) else s', due)
  }

  function Closed(s: State, id: nat, g: Get): State {
    var s0 := s.(gets := s.gets - {id});
    if !g.isSse then s0
    else
      var wasSampling := g.sid != "" && g.sid in s.samplingStreams;
      var active := Max(0, s.active - 1);
      var s' := s0.(
        active := active,
        samplingStreams := s.samplingStreams - if wasSampling then {g.sid} else {},
        file := if s.file.Some? then Some(s.file.value.(streams := Some(active))) else None);
      if wasSampling && s'.samplingStreams == {} then
        if active == 0 then Fire(s', McpDisconnect) else Fire(s', SamplingDisconnect)
      else if active == 0 then Fire(s', McpDisconnect)
      else s'
  }

  predicate Enabled(s: State, a: Action) {
    match a
    case PostArrives(id, _, _) => id !in s.posts
    case PostBody(id, _) => id in s.posts
    case PostStatus(id, _) => id in s.posts
    case PostEnds(id, _) => id in s.posts
    case GetArrives(id, _) => id !in s.gets
    case GetStatus(id, _, _) => id in s.gets
    case GetChunk(id, _, _) => id in s.gets
    case GetEnds(id) => id in s.gets
    case RoutingReady(_) => s.routing.None?
  }

  function Step(s: State, a: Action): State
    requires Enabled(s, a)
  {
    match a
    case PostArrives(id, sid, due) =>
      var s' := s.(posts := s.posts[id := Post(sid, false, false, 0)]);
      TouchFile(if sid in s.samplingIds then Fire(s', Activity) else s', due)
    case PostBody(id, body) => (
      match body
      case Initialize(b) =>
        Inspect(s.(posts := s.posts[id := s.posts[id].(isInitialize := true, sampling := b)]), b)
      case AnonymousInitialize(b) => s.(posts := s.posts[id := s.posts[id].(isInitialize := true, sampling := b)])
      case BrokenInitialize => s.(posts := s.posts[id := s.posts[id].(isInitialize := true)])
      case OtherBody => s
    )
    case PostStatus(id, status) =>
      var p := s.posts[id];
      var s' := s.(posts := s.posts[id := p.(status := status)]);
      if p.isInitialize && status == 200 && p.sid != ""
      then s'.(samplingIds := if p.sampling then s.samplingIds + {p.sid} else s.samplingIds - {p.sid})
      else s'
    case PostEnds(id, raised) =>
      var p := s.posts[id];
      var s' := s.(posts := s.posts - {id});
      if !raised && p.status in {400, 404} && p.sid != "" then Invalidate(s') else s'
    case GetArrives(id, sid) => s.(gets := s.gets[id := Get(sid, sid != "", false, false)])
    case GetStatus(id, status, responseSid) =>
      var g := s.gets[id];
      if g.handled then s
      else if status in {400, 404} && g.sid != "" then
        Invalidate(s.(gets := s.gets[id := g.(handled := true)]))
      else if status == 200 then Opened(s, id, g, responseSid)
      else s.(gets := s.gets[id := g.(handled := true)])
    case GetChunk(id, foundSid, due) =>
      if s.gets[id].isSse then Chunk(s, id, s.gets[id], foundSid, due) else s
    case GetEnds(id) => Closed(s, id, s.gets[id])
    case RoutingReady(routing) => s.(routing := Some(routing))
  }

  predicate Valid(s: State, actions: seq<Action>)
    decreases |actions|
  {
    actions == [] || (Enabled(s, actions[0]) && Valid(Step(s, actions[0]), actions[1..]))
  }

  function Run(s: State, actions: seq<Action>): State
    requires Valid(s, actions)
    decreases |actions|
  {
    if actions == [] then s else Run(Step(s, actions[0]), actions[1..])
  }

  // ---------------------------------------------------------------------------
  // The counters describe the open streams
  // ---------------------------------------------------------------------------

  function OpenStreams(s: State): set<nat> {
    set id | id in s.gets && s.gets[id].isSse
  }

  ghost predicate Counts(s: State) {
    && s.active == |OpenStreams(s)|
    && forall sid :: sid in s.samplingStreams ==>
         sid != "" && exists id :: id in OpenStreams(s) && s.gets[id].sid == sid
  }

  /** Streams that have been answered are marked handled, so a stream is counted once. */
  ghost predicate Handled(s: State) {
    forall id :: id in s.gets && s.gets[id].isSse ==> s.gets[id].handled
  }

  ghost predicate Inv(s: State) {
    Counts(s) && Handled(s) && "" !in s.samplingIds
  }

  lemma SameStreams(s: State, s': State)
    requires Counts(s) && s'.active == s.active && s'.samplingStreams == s.samplingStreams
    requires OpenStreams(s') == OpenStreams(s)
    requires forall id :: id in OpenStreams(s) ==> s'.gets[id].sid == s.gets[id].sid
    ensures Counts(s')
  {
  }

  /** Stream `id` is opened, or learns its session id. */
  lemma StreamCounts(s: State, s': State, id: nat)
    requires Counts(s) && id in s.gets && id in s'.gets && s'.gets[id].isSse
    requires s'.gets == s.gets[id := s'.gets[id]]
    requires s.gets[id].sid != "" ==> s'.gets[id].sid == s.gets[id].sid
    requires s'.active == s.active + if s.gets[id].isSse then 0 else 1
    requires s'.samplingStreams == s.samplingStreams
             || (s'.gets[id].sid != "" && s'.samplingStreams == s.samplingStreams + {s'.gets[id].sid})
    ensures Counts(s')
  {
    assert OpenStreams(s') == OpenStreams(s) + {id};
    assert id in OpenStreams(s');
    forall sid | sid in s.samplingStreams
      ensures sid != "" && exists k :: k in OpenStreams(s') && s'.gets[k].sid == sid
    {
      var k :| k in OpenStreams(s) && s.gets[k].sid == sid;
      assert k in OpenStreams(s') && s'.gets[k].sid == sid;
    }
  }

  lemma ClosedCounts(s: State, s': State, id: nat)
    requires Counts(s) && id in OpenStreams(s) && s'.gets == s.gets - {id}
    requires s'.active == Max(0, s.active - 1)
    requires s'.samplingStreams == s.samplingStreams - {s.gets[id].sid}
    ensures Counts(s')
  {
    assert OpenStreams(s') == OpenStreams(s) - {id};
    forall sid | sid in s'.samplingStreams
      ensures sid != "" && exists k :: k in OpenStreams(s') && s'.gets[k].sid == sid
    {
      var k :| k in OpenStreams(s) && s.gets[k].sid == sid;
      assert k in OpenStreams(s') && s'.gets[k].sid == sid;
    }
  }

  lemma OpenedCounts(s: State, id: nat, responseSid: string)
    requires Counts(s) && Handled(s) && id in s.gets && !s.gets[id].handled
    ensures Counts(Opened(s, id, s.gets[id], responseSid))
  {
    StreamCounts(s, Opened(s, id, s.gets[id], responseSid), id);
  }

  lemma StatusCounts(s: State, id: nat, status: nat, responseSid: string)
    requires Counts(s) && Handled(s) && id in s.gets
    ensures Counts(Step(s, GetStatus(id, status, responseSid)))
  {
    if s.gets[id].handled || status != 200 {
      SameStreams(s, Step(s, GetStatus(id, status, responseSid)));
    } else {
      OpenedCounts(s, id, responseSid);
    }
  }

  lemma ChunkCounts(s: State, id: nat, foundSid: Option<string>, due: bool)
    requires Counts(s) && id in s.gets && s.gets[id].isSse
    ensures Counts(Step(s, GetChunk(id, foundSid, due)))
  {
    StreamCounts(s, Step(s, GetChunk(id, foundSid, due)), id);
  }

  lemma EndsCounts(s: State, id: nat)
    requires Counts(s) && id in s.gets
    ensures Counts(Step(s, GetEnds(id)))
  {
    var s' := Step(s, GetEnds(id));
    if s.gets[id].isSse {
      assert "" !in s.samplingStreams;
      ClosedCounts(s, s', id);
    } else {
      SameStreams(s, s');
    }
  }

  lemma OtherCounts(s: State, a: Action)
    requires Counts(s) && Enabled(s, a) && !a.GetStatus? && !a.GetChunk? && !a.GetEnds?
    ensures Counts(Step(s, a))
  {
    SameStreams(s, Step(s, a));
  }

  lemma StepCounts(s: State, a: Action)
    requires Inv(s) && Enabled(s, a)
    ensures Counts(Step(s, a))
  {
    match a
    case GetStatus(id, status, responseSid) => StatusCounts(s, id, status, responseSid);
    case GetChunk(id, foundSid, due) => if s.gets[id].isSse { ChunkCounts(s, id, foundSid, due); }
    case GetEnds(id) => EndsCounts(s, id);
    case _ => OtherCounts(s, a);
  }

  lemma StepHandled(s: State, a: Action)
    requires Handled(s) && "" !in s.samplingIds && Enabled(s, a)
    ensures Handled(Step(s, a)) && "" !in Step(s, a).samplingIds
  {
  }

  lemma StepInv(s: State, a: Action)
    requires Inv(s) && Enabled(s, a)
    ensures Inv(Step(s, a))
  {
    StepCounts(s, a);
    StepHandled(s, a);
  }

  lemma {:induction false} RunInv(s: State, actions: seq<Action>)
    requires Inv(s) && Valid(s, actions)
    ensures Inv(Run(s, actions))
    decreases |actions|
  {
    if actions != [] {
      StepInv(s, actions[0]);
      RunInv(Step(s, actions[0]), actions[1..]);
    }
  }

  /** In every reachable state the counter is the number of open streams and each tracked session has one. */
  lemma CountersAreExact(actions: seq<Action>)
    requires Valid(START, actions)
    ensures var s := Run(START, actions);
            && s.active == |OpenStreams(s)|
            && forall sid :: sid in s.samplingStreams ==> exists id :: id in OpenStreams(s) && s.gets[id].sid == sid
  {
    assert OpenStreams(START) == {};
    RunInv(START, actions);
  }

  /**
   * Closing a stream never clips the counter, and with routing present it fires the full disconnect exactly when
   * no stream is left, the sampling disconnect exactly when it empties the tracked set while streams remain, and
   * nothing otherwise.
   */
  lemma CloseFires(s: State, id: nat)
    requires Inv(s) && id in OpenStreams(s) && s.routing.Some?
    ensures var s' := Step(s, GetEnds(id));
            && s'.active == s.active - 1 >= 0
            && (s'.fired == s.fired + [McpDisconnect] <==> OpenStreams(s') == {})
            && (s'.fired == s.fired + [SamplingDisconnect] <==>
                  s.samplingStreams != {} && s'.samplingStreams == {} && OpenStreams(s') != {})
            && (s'.fired == s.fired || s'.fired == s.fired + [McpDisconnect] || s'.fired == s.fired + [SamplingDisconnect])
  {
    var s' := Step(s, GetEnds(id));
    assert OpenStreams(s') == OpenStreams(s) - {id};
    assert |OpenStreams(s')| == s.active - 1;
    assert s.fired + [McpDisconnect] != s.fired + [SamplingDisconnect] by {
      assert (s.fired + [McpDisconnect])[|s.fired|] != (s.fired + [SamplingDisconnect])[|s.fired|];
    }
    if s.samplingStreams != {} && s'.samplingStreams == {} {
      var sid :| sid in s.samplingStreams;
      assert sid !in s'.samplingStreams;
    }
  }

  // ---------------------------------------------------------------------------
  // Sampling is sticky
  // ---------------------------------------------------------------------------

  predicate Samples(s: State) {
    s.routing.Some? && s.routing.value.sampling == Some(true)
  }

  /** The close of a stream that fires a disconnect, or a 400/404 for a session while the session file exists. */
  predicate Clears(s: State, a: Action)
    requires Enabled(s, a)
  {
    match a
    case GetEnds(id) =>
      && s.gets[id].isSse
      && (s.active <= 1 || (s.gets[id].sid != "" && s.samplingStreams == {s.gets[id].sid}))
    case PostEnds(id, raised) => !raised && s.posts[id].status in {400, 404} && s.posts[id].sid != "" && s.file.Some?
    case GetStatus(id, status, _) =>
      !s.gets[id].handled && status in {400, 404} && s.gets[id].sid != "" && s.file.Some?
    case _ => false
  }

  /** One step clears an established sampling capability exactly when it is one of those. */
  lemma StepSticky(s: State, a: Action)
    requires Enabled(s, a) && Samples(s)
    ensures Samples(Step(s, a)) <==> !Clears(s, a)
  {
    if a.GetEnds? && s.gets[a.id].isSse {
      var g := s.gets[a.id];
      var left := s.samplingStreams - {g.sid};
      assert g.sid in s.samplingStreams ==> (left == {} <==> s.samplingStreams == {g.sid});
    }
  }

  predicate NeverClears(s: State, actions: seq<Action>)
    requires Valid(s, actions)
    decreases |actions|
  {
    actions == [] || (!Clears(s, actions[0]) && NeverClears(Step(s, actions[0]), actions[1..]))
  }

  ghost predicate AlwaysSamples(s: State, actions: seq<Action>)
    requires Valid(s, actions)
    decreases |actions|
  {
    Samples(s) && (actions != [] ==> AlwaysSamples(Step(s, actions[0]), actions[1..]))
  }

  /** Over whole runs: sampling stays established throughout exactly when no step is one of those. */
  lemma {:induction false} SamplingSticky(s: State, actions: seq<Action>)
    requires Valid(s, actions) && Samples(s)
    ensures AlwaysSamples(s, actions) <==> NeverClears(s, actions)
    decreases |actions|
  {
    if actions != [] {
      StepSticky(s, actions[0]);
      if Samples(Step(s, actions[0])) {
        SamplingSticky(Step(s, actions[0]), actions[1..]);
      }
    }
  }

  /** No POST in progress has been answered with 400 or 404. */
  ghost predicate NoneRejected(s: State) {
    forall id :: id in s.posts ==> s.posts[id].status !in {400, 404}
  }

  /**
   * In particular initializes, POSTs that return normally or raise, reconnections without a session id and body chunks:
   * anything but the close of a stream and an answer of 400 or 404.
   */
  lemma {:induction false} TrafficKeepsSampling(s: State, actions: seq<Action>)
    requires Valid(s, actions) && Samples(s) && NoneRejected(s)
    requires forall i :: 0 <= i < |actions| ==>
               match actions[i]
               case GetEnds(_) => false
               case PostStatus(_, status) => status !in {400, 404}
               case GetStatus(_, status, _) => status !in {400, 404}
               case _ => true
    ensures Samples(Run(s, actions))
    decreases |actions|
  {
    if actions != [] {
      StepSticky(s, actions[0]);
      RejectionsNeedAnswers(s, actions[0]);
      TrafficKeepsSampling(Step(s, actions[0]), actions[1..]);
    }
  }

  lemma RejectionsNeedAnswers(s: State, a: Action)
    requires Enabled(s, a) && NoneRejected(s) && (a.PostStatus? ==> a.status !in {400, 404})
    ensures NoneRejected(Step(s, a))
  {
  }

  /** An initialize handshake leaves sampling established exactly when it offers it or it was established already. */
  lemma InitializeDecides(s: State, id: nat, sampling: bool)
    requires id in s.posts
    ensures var s' := Step(s, PostBody(id, Initialize(sampling)));
            && (s.routing.Some? ==> (Samples(s') <==> sampling || Samples(s)))
            && (s.routing.Some? && s'.fired == s.fired ==> !sampling && (Samples(s) || s.samplingStreams != {}))
            && (s.routing.None? && (sampling || s.samplingStreams == {}) ==> s'.file == Some(SessionFile(sampling, None)))
            && (s.routing.None? && !sampling && s.samplingStreams != {} ==> s'.file == s.file)
  {
  }

  /** A session enters or leaves the set of sampling sessions exactly when its initialize request is answered with 200. */
  lemma SamplingIdsChange(s: State, a: Action, sid: string)
    requires Enabled(s, a)
    ensures (sid in Step(s, a).samplingIds) != (sid in s.samplingIds) <==>
              && a.PostStatus? && a.status == 200 && sid != ""
              && s.posts[a.id].isInitialize && s.posts[a.id].sid == sid
              && s.posts[a.id].sampling != (sid in s.samplingIds)
  {
  }

  /** No step of POST request `id`. */
  ghost predicate OfOthers(actions: seq<Action>, id: nat) {
    forall i :: 0 <= i < |actions| ==>
      var a := actions[i]; (a.PostArrives? || a.PostBody? || a.PostStatus? || a.PostEnds?) ==> a.id != id
  }

  /** What is recorded of a request is its own business. */
  lemma {:induction false} RequestKept(s: State, actions: seq<Action>, id: nat)
    requires Valid(s, actions) && id in s.posts && OfOthers(actions, id)
    ensures id in Run(s, actions).posts && Run(s, actions).posts[id] == s.posts[id]
    decreases |actions|
  {
    if actions != [] {
      RequestKept(Step(s, actions[0]), actions[1..], id);
    }
  }

  /**
   * From arrival to answer, whatever other requests do in between: a request for a session that initializes and is
   * answered with 200 leaves the session known to sample exactly if its own body offered sampling; one whose
   * capabilities cannot be read counts as not offering it; any other body leaves the session as it was.
   */
  lemma HandshakeRegisters(
    s: State, id: nat, sid: string, due: bool, before: seq<Action>, body: Body, after: seq<Action>) returns (last: State)
    requires id !in s.posts && sid != ""
    requires var s1 := Step(s, PostArrives(id, sid, due));
             && Valid(s1, before) && OfOthers(before, id)
             && id in Run(s1, before).posts
             && Valid(Step(Run(s1, before), PostBody(id, body)), after)
             && OfOthers(after, id)
    ensures var s1 := Step(s, PostArrives(id, sid, due));
            last == Run(Step(Run(s1, before), PostBody(id, body)), after) && id in last.posts
    ensures sid in Step(last, PostStatus(id, 200)).samplingIds <==>
            match body
            case Initialize(b) => b
            case AnonymousInitialize(b) => b
            case BrokenInitialize => false
            case OtherBody => sid in last.samplingIds
    ensures forall other :: other != sid ==>
              (other in Step(last, PostStatus(id, 200)).samplingIds <==> other in last.samplingIds)
  {
    var s1 := Step(s, PostArrives(id, sid, due));
    RequestKept(s1, before, id);
    var s2 := Step(Run(s1, before), PostBody(id, body));
    BodyRecorded(Run(s1, before), id, body);
    RequestKept(s2, after, id);
    last := Run(s2, after);
  }

  lemma BodyRecorded(s: State, id: nat, body: Body)
    requires id in s.posts && s.posts[id] == Post(s.posts[id].sid, false, false, 0)
    ensures var s' := Step(s, PostBody(id, body));
            && id in s'.posts
            && s'.posts[id] == Post(s.posts[id].sid, !body.OtherBody?,
                                    (body.Initialize? || body.AnonymousInitialize?) && body.sampling, 0)
  {
  }

  // ---------------------------------------------------------------------------
  // What routing knows is what it was told
  // ---------------------------------------------------------------------------

  /** The last of `calls` that says something about sampling. */
  ghost function SamplingAfter(before: Option<bool>, calls: seq<Callback>): Option<bool> {
    if calls == [] then before
    else match calls[|calls| - 1]
      case Initialized(b) => Some(b)
      case Activity => SamplingAfter(before, calls[..|calls| - 1])
      case _ => None
  }

  /** The last of `calls` that says something about the connection. */
  ghost function ConnectedAfter(before: bool, calls: seq<Callback>): bool {
    if calls == [] then before
    else match calls[|calls| - 1]
      case Activity => true
      case Initialized(_) => true
      case SamplingDisconnect => ConnectedAfter(before, calls[..|calls| - 1])
      case _ => false
  }

  /** The callbacks of the step, at most one. */
  lemma StepCalls(s: State, a: Action) returns (calls: seq<Callback>)
    requires Enabled(s, a) && s.routing.Some?
    ensures var s' := Step(s, a);
            && |calls| <= 1 && s'.fired == s.fired + calls && s'.routing.Some?
            && s'.routing.value.sampling == SamplingAfter(s.routing.value.sampling, calls)
            && s'.routing.value.connected == ConnectedAfter(s.routing.value.connected, calls)
  {
    var s' := Step(s, a);
    calls := s'.fired[|s.fired|..];
    assert |calls| <= 1;
    assert calls != [] ==> calls[..|calls| - 1] == [];
  }

  lemma {:induction false} AfterConcat(x: Option<bool>, c: bool, a: seq<Callback>, b: seq<Callback>)
    ensures SamplingAfter(x, a + b) == SamplingAfter(SamplingAfter(x, a), b)
    ensures ConnectedAfter(c, a + b) == ConnectedAfter(ConnectedAfter(c, a), b)
    decreases |b|
  {
    if b == [] {
      assert a + b == a;
    } else {
      assert (a + b)[..|a + b| - 1] == a + b[..|b| - 1];
      AfterConcat(x, c, a, b[..|b| - 1]);
    }
  }

  /**
   * What a callback leaves in the session file: nothing after a disconnect or an invalidation, else what routing then
   * says of sampling, without a number of streams; but a disconnect of what is not connected leaves the file alone.
   */
  lemma CallbackWrites(s: State, c: Callback)
    requires s.routing.Some?
    ensures var s' := Fire(s, c);
            var idle := if c.McpDisconnect? then s.routing == Some(Routing(None, false))
                        else c.SamplingDisconnect? && s.routing.value.sampling.None?;
            && (idle ==> s' == s.(fired := s.fired + [c]))
            && (!idle && (c.McpDisconnect? || c.Invalidated?) ==> s'.file.None? && s'.routing == Some(Routing(None, false)))
            && (!idle && !c.McpDisconnect? && !c.Invalidated? ==>
                  s'.file == Some(SessionFile(s'.routing.value.sampling == Some(true), None)))
  {
  }

  /** Over any run, routing knows exactly what the callbacks told it, the last word counting. */
  lemma {:induction false} RoutingKnowsWhatItWasTold(s: State, actions: seq<Action>) returns (calls: seq<Callback>)
    requires Valid(s, actions) && s.routing.Some?
    ensures var s' := Run(s, actions);
            && s'.fired == s.fired + calls && s'.routing.Some?
            && s'.routing.value.sampling == SamplingAfter(s.routing.value.sampling, calls)
            && s'.routing.value.connected == ConnectedAfter(s.routing.value.connected, calls)
    decreases |actions|
  {
    calls := [];
    if actions != [] {
      var first := StepCalls(s, actions[0]);
      var more := RoutingKnowsWhatItWasTold(Step(s, actions[0]), actions[1..]);
      calls := first + more;
      AfterConcat(s.routing.value.sampling, s.routing.value.connected, first, more);
    }
  }

  // ---------------------------------------------------------------------------
  // Which streams are tracked
  // ---------------------------------------------------------------------------

  /** Only the first response start of a GET counts. */
  lemma FirstStatusDecides(s: State, id: nat, status: nat, sid: string, later: nat, laterSid: string)
    requires id in s.gets
    ensures var s' := Step(s, GetStatus(id, status, sid)); id in s'.gets && Step(s', GetStatus(id, later, laterSid)) == s'
    ensures var s' := Step(s, GetStatus(id, status, sid));
            s'.gets[id].isSse <==> s.gets[id].isSse || (status == 200 && !s.gets[id].handled)
  {
  }

  /**
   * A session is tracked from the response start or the first chunk that finds it known to sample, under the id of the
   * request, else of the response, else of a chunk, until a stream of it closes.
   */
  lemma TrackedExactly(s: State, a: Action, sid: string)
    requires Enabled(s, a)
    ensures sid in Step(s, a).samplingStreams <==>
            match a
            case GetStatus(id, status, responseSid) =>
              || sid in s.samplingStreams
              || (status == 200 && !s.gets[id].handled && sid != "" && sid in s.samplingIds
                  && sid == if s.gets[id].sid != "" then s.gets[id].sid else responseSid)
            case GetChunk(id, found, _) =>
              || sid in s.samplingStreams
              || (s.gets[id].isSse && sid != "" && sid in s.samplingIds
                  && (sid == s.gets[id].sid || (s.gets[id].sid == "" && found == Some(sid))))
            case GetEnds(id) => sid in s.samplingStreams && !(s.gets[id].isSse && s.gets[id].sid == sid && sid != "")
            case _ => sid in s.samplingStreams
  {
  }

  /** The step is one that writes the number of streams into the file, if the file is there. */
  predicate WritesStreams(s: State, a: Action)
    requires Enabled(s, a)
  {
    match a
    case PostArrives(_, _, due) => due
    case GetChunk(id, _, due) => due && s.gets[id].isSse
    case GetEnds(id) => s.gets[id].isSse
    case GetStatus(_, _, _) => AnswersSessionless(s, a)
    case _ => false
  }

  lemma FileAfter(s: State, a: Action)
    requires Enabled(s, a)
    ensures var s' := Step(s, a);
            s'.file.Some? && s'.file.value.streams.Some? && (s.file.None? || s'.file.value.streams != s.file.value.streams) ==>
              WritesStreams(s, a) && s'.file.value.streams == Some(s'.active)
    ensures var s' := Step(s, a);
            WritesStreams(s, a) && s.file.Some? && !a.GetEnds? ==>
              s'.file.Some? && s'.file.value.streams == Some(s'.active)
    ensures var s' := Step(s, a);
            WritesStreams(s, a) && a.GetEnds? && s'.fired == s.fired && s.file.Some? ==>
              s'.file == Some(s.file.value.(streams := Some(s'.active)))
    ensures AnswersSessionless(s, a) ==> Step(s, a).file == Some(SessionFile(Samples(s), Some(s.active + 1)))
  {
  }

  /**
   * The number of streams in the file is that of the open streams at the time it was written: on a touch that is due,
   * on the answer to a GET without a session id, which also makes the file, and on a close that reports nothing.
   */
  lemma StreamsWritten(s: State, a: Action)
    requires Inv(s) && Enabled(s, a)
    ensures var s' := Step(s, a);
            s'.file.Some? && s'.file.value.streams.Some? && (s.file.None? || s'.file.value.streams != s.file.value.streams) ==>
              WritesStreams(s, a) && s'.file.value.streams == Some(|OpenStreams(s')|)
    ensures var s' := Step(s, a);
            WritesStreams(s, a) && s.file.Some? && (a.GetEnds? ==> s'.fired == s.fired) ==>
              s'.file.Some? && s'.file.value.streams == Some(|OpenStreams(s')|)
    ensures AnswersSessionless(s, a) ==>
              Step(s, a).file == Some(SessionFile(Samples(s), Some(|OpenStreams(s)| + 1)))
  {
    StepInv(s, a);
    FileAfter(s, a);
  }

  /** The session file says of sampling what routing says. */
  predicate FileAgrees(s: State) {
    s.routing.Some? && s.file.Some? ==> s.file.value.sampling == Samples(s)
  }

  lemma PostAgrees(s: State, a: Action)
    requires Enabled(s, a) && s.routing.Some? && FileAgrees(s)
    requires a.PostArrives? || a.PostBody? || a.PostStatus? || a.PostEnds? || a.GetArrives?
    ensures Step(s, a).routing.Some? && FileAgrees(Step(s, a))
  {
  }

  lemma {:induction false} StepAgrees(s: State, a: Action)
    requires Enabled(s, a) && s.routing.Some? && FileAgrees(s)
    ensures Step(s, a).routing.Some? && FileAgrees(Step(s, a))
  {
    if a.PostArrives? || a.PostBody? || a.PostStatus? || a.PostEnds? || a.GetArrives? {
      PostAgrees(s, a);
    }
  }

  /** Once it does, no interleaving of requests makes the file and routing disagree. */
  lemma {:induction false} FileStaysTrue(s: State, actions: seq<Action>)
    requires Valid(s, actions) && s.routing.Some?
    requires s.file.Some? ==> (s.file.value.sampling <==> s.routing.value.sampling == Some(true))
    ensures var s' := Run(s, actions);
            s'.routing.Some? && (s'.file.Some? ==> (s'.file.value.sampling <==> s'.routing.value.sampling == Some(true)))
    decreases |actions|
  {
    if actions != [] {
      StepAgrees(s, actions[0]);
      FileStaysTrue(Step(s, actions[0]), actions[1..]);
    }
  }

  // ---------------------------------------------------------------------------
  // Where the middleware's own documentation is too strong
  // ---------------------------------------------------------------------------

  predicate AnswersSessionless(s: State, a: Action)
    requires Enabled(s, a)
  {
    a.GetStatus? && a.status == 200 && !s.gets[a.id].handled && !s.gets[a.id].hasSid
  }

  predicate FileDenies(s: State) {
    s.file.Some? && !s.file.value.sampling
  }

  /** A GET without a session id is answered, or a client without sampling initializes and no session is tracked. */
  predicate Overwrites(s: State, a: Action)
    requires Enabled(s, a)
  {
    AnswersSessionless(s, a) || (a.PostBody? && a.body == Initialize(false) && s.samplingStreams == {})
  }

  /** Before routing exists, the session file starts to deny sampling in one step exactly when that step overwrites. */
  lemma EarlyFileOverwrite(s: State, a: Action)
    requires Enabled(s, a) && s.routing.None? && !FileDenies(s)
    ensures FileDenies(Step(s, a)) <==> Overwrites(s, a)
  {
  }

  predicate NeverOverwrites(s: State, actions: seq<Action>)
    requires Valid(s, actions)
    decreases |actions|
  {
    actions != [] ==> !Overwrites(s, actions[0]) && NeverOverwrites(Step(s, actions[0]), actions[1..])
  }

  predicate NeverDenies(s: State, actions: seq<Action>)
    requires Valid(s, actions)
    decreases |actions|
  {
    !FileDenies(s) && (actions != [] ==> NeverDenies(Step(s, actions[0]), actions[1..]))
  }

  /** Over a run that stays before routing, the file never denies sampling exactly when no step overwrites. */
  lemma {:induction false} EarlyFileKept(s: State, actions: seq<Action>)
    requires Valid(s, actions) && s.routing.None? && !FileDenies(s)
    requires forall i :: 0 <= i < |actions| ==> !actions[i].RoutingReady?
    ensures NeverDenies(s, actions) <==> NeverOverwrites(s, actions)
    decreases |actions|
  {
    if actions != [] {
      EarlyFileOverwrite(s, actions[0]);
      if !Overwrites(s, actions[0]) {
        EarlyFileKept(Step(s, actions[0]), actions[1..]);
      }
    }
  }

  ghost predicate Reachable(s: State) {
    exists actions :: Valid(START, actions) && s == Run(START, actions)
  }

  lemma {:induction false} RunSnoc(s: State, actions: seq<Action>, a: Action)
    requires Valid(s, actions) && Enabled(Run(s, actions), a)
    ensures Valid(s, actions + [a]) && Run(s, actions + [a]) == Step(Run(s, actions), a)
    decreases |actions|
  {
    if actions == [] {
      assert [] + [a] == [a] && [a][1..] == [];
      assert Valid(Step(s, a), []);
    } else {
      assert (actions + [a])[1..] == actions[1..] + [a];
      RunSnoc(Step(s, actions[0]), actions[1..], a);
    }
  }

  /** One more step from a reachable state. */
  lemma Then(s: State, a: Action) returns (s': State)
    requires Reachable(s) && Enabled(s, a)
    ensures s' == Step(s, a) && Reachable(s')
  {
    var actions :| Valid(START, actions) && s == Run(START, actions);
    RunSnoc(START, actions, a);
    s' := Step(s, a);
  }

  lemma ReachableInv(s: State)
    requires Reachable(s)
    ensures Inv(s)
  {
    var actions :| Valid(START, actions) && s == Run(START, actions);
    assert OpenStreams(START) == {};
    RunInv(START, actions);
  }

  /** A sampling client initializes session "a". */
  lemma SamplingHandshake() returns (s: State)
    ensures Reachable(s)
    ensures s == START.(samplingIds := {"a"}, file := Some(SessionFile(true, None)),
                        posts := map[0 := Post("a", true, true, 200)])
  {
    assert Valid(START, []) && Run(START, []) == START;
    s := Then(START, PostArrives(0, "a", false));
    s := Then(s, PostBody(0, Initialize(true)));
    s := Then(s, PostStatus(0, 200));
    assert s.samplingIds == {"a"};
  }

  /** And opens stream 1. */
  lemma SamplingClientConnects() returns (s: State)
    ensures Reachable(s)
    ensures s == State(1, {"a"}, {"a"}, None, Some(SessionFile(true, None)),
                       map[0 := Post("a", true, true, 200)], map[1 := Get("a", true, true, true)], [])
  {
    s := SamplingHandshake();
    s := Then(s, GetArrives(1, "a"));
    s := Then(s, GetStatus(1, 200, ""));
    assert s.samplingStreams == {"a"};
  }

  /** Then a client reconnects without a session id, and the file denies sampling while the stream is open. */
  lemma EarlyFileLost() returns (s: State, s': State)
    ensures Reachable(s) && !FileDenies(s) && s.routing.None? && s.samplingStreams == {"a"}
    ensures Reachable(s') && Enabled(s, GetStatus(2, 200, "")) && s' == Step(s, GetStatus(2, 200, ""))
    ensures FileDenies(s') && s'.routing.None? && s'.samplingStreams == {"a"} && 1 in OpenStreams(s')
  {
    s := SamplingClientConnects();
    s := Then(s, GetArrives(2, ""));
    s' := Then(s, GetStatus(2, 200, ""));
  }

  /**
   * Or the sampling client's stream opens before its initialize is answered and is not tracked. Then a client without
   * sampling initializes, and the file denies sampling while the stream is open.
   */
  lemma LateStreamOverwritten() returns (s: State)
    ensures Reachable(s) && !FileDenies(s) && s.routing.None? && s.file == Some(SessionFile(true, None))
    ensures OpenStreams(s) == {3} && s.gets[3].sid in s.samplingIds && s.samplingStreams == {}
    ensures Enabled(s, PostBody(5, Initialize(false)))
    ensures var s' := Step(s, PostBody(5, Initialize(false))); FileDenies(s') && OpenStreams(s') == {3}
  {
    assert Valid(START, []) && Run(START, []) == START;
    s := OpensUnknown(START, 3, "b");
    s := EarlyHandshake(s, "b");
    s := Then(s, PostArrives(5, "c", false));
    assert OpenStreams(s) == {3};
    assert OpenStreams(Step(s, PostBody(5, Initialize(false)))) == {3};
  }

  /** Or its handshake carries no session id, as the usual first one does, and its stream is not tracked either. */
  lemma UnnamedStreamOverwritten() returns (s: State)
    ensures Reachable(s) && !FileDenies(s) && s.routing.None? && s.file == Some(SessionFile(true, None))
    ensures OpenStreams(s) == {3} && s.gets[3].sid == "b" && s.samplingIds == {} && s.samplingStreams == {}
    ensures Enabled(s, PostBody(5, Initialize(false)))
    ensures var s' := Step(s, PostBody(5, Initialize(false))); FileDenies(s') && OpenStreams(s') == {3}
  {
    assert Valid(START, []) && Run(START, []) == START;
    s := EarlyHandshake(START, "");
    s := OpensUnknown(s, 3, "b");
    s := Then(s, PostArrives(5, "c", false));
    assert OpenStreams(s) == {3};
    assert OpenStreams(Step(s, PostBody(5, Initialize(false)))) == {3};
  }

  /** A handshake that offers sampling, before routing, on a request for session `sid`. */
  lemma EarlyHandshake(s: State, sid: string) returns (s': State)
    requires Reachable(s) && s.posts == map[] && s.routing.None? && sid !in s.samplingIds
    ensures Reachable(s') && s'.posts == map[4 := Post(sid, true, true, 200)]
    ensures s' == s.(posts := s'.posts, file := Some(SessionFile(true, None)),
                     samplingIds := if sid == "" then s.samplingIds else s.samplingIds + {sid})
  {
    s' := Then(s, PostArrives(4, sid, false));
    s' := Then(s', PostBody(4, Initialize(true)));
    s' := Then(s', PostStatus(4, 200));
  }

  /** Activity is reported by sampling POSTs, by sampling streams, and also by any reconnection without a session id. */
  lemma ActivitySources(s: State, a: Action)
    requires Enabled(s, a) && s.routing.Some?
    ensures Step(s, a).fired == s.fired + [Activity] <==>
            match a
            case PostArrives(_, sid, _) => sid in s.samplingIds
            case GetStatus(id, status, responseSid) =>
              status == 200 && !s.gets[id].handled &&
              (!s.gets[id].hasSid || (s.gets[id].sid != "" && s.gets[id].sid in s.samplingIds)
               || (s.gets[id].sid == "" && responseSid != "" && responseSid in s.samplingIds))
            case GetChunk(id, found, _) =>
              var sid := if s.gets[id].sid == "" && found.Some? then found.value else s.gets[id].sid;
              s.gets[id].isSse && sid != "" && sid in s.samplingIds
            case _ => false
  {
    var s' := Step(s, a);
    if s'.fired != s.fired {
      assert |s'.fired| == |s.fired| + 1;
      assert (s.fired + [Activity])[|s.fired|] == Activity;
    }
  }

  /** Another open stream belongs to a sampling session. */
  ghost predicate OtherSamplingStream(s: State, id: nat) {
    exists k :: k in OpenStreams(s) && k != id && s.gets[k].sid in s.samplingIds
  }

  /**
   * The close of a stream reports that the last sampling stream is gone although one is open, exactly when the closed
   * stream's session is the only tracked one and another open stream belongs to a sampling session. The tracked set
   * holds session ids, not streams, and a stream opened before its session was found to sample may not be in it.
   */
  lemma PrematureDisconnect(s: State, id: nat)
    requires Inv(s) && id in OpenStreams(s) && s.routing.Some?
    ensures var s' := Step(s, GetEnds(id));
            (&& s'.fired == s.fired + [SamplingDisconnect]
             && exists k :: k in OpenStreams(s') && s'.gets[k].sid in s'.samplingIds) <==>
            s.samplingStreams == {s.gets[id].sid} && OtherSamplingStream(s, id)
  {
    var s' := Step(s, GetEnds(id));
    var sid := s.gets[id].sid;
    CloseFires(s, id);
    assert OpenStreams(s') == OpenStreams(s) - {id};
    assert forall k :: k in OpenStreams(s') ==> s'.gets[k] == s.gets[k];
    if s'.fired == s.fired + [SamplingDisconnect] && exists k :: k in OpenStreams(s') && s'.gets[k].sid in s'.samplingIds {
      var k :| k in OpenStreams(s') && s'.gets[k].sid in s'.samplingIds;
      assert k in OpenStreams(s) && k != id;
      assert s.samplingStreams - {sid} == {} ==> s.samplingStreams == {sid};
    }
    if s.samplingStreams == {sid} && OtherSamplingStream(s, id) {
      var k :| k in OpenStreams(s) && k != id && s.gets[k].sid in s.samplingIds;
      assert k in OpenStreams(s') && s'.gets[k].sid in s'.samplingIds;
      assert sid != "";
      assert s'.samplingStreams == {};
    }
  }

  /** Routing takes over from the session file. */
  lemma SamplingClientRouted() returns (s: State)
    ensures Reachable(s)
    ensures s == State(1, {"a"}, {"a"}, Some(Routing(Some(true), true)), Some(SessionFile(true, None)),
                       map[0 := Post("a", true, true, 200)], map[1 := Get("a", true, true, true)], [])
  {
    s := SamplingClientConnects();
    s := Then(s, RoutingReady(Routing(Some(true), true)));
  }

  /** One way to get there: two streams of one session. */
  lemma SharedSession() returns (s: State)
    ensures Reachable(s) && OpenStreams(s) == {1, 2} && s.gets[1].sid == "a" && s.gets[2].sid == "a"
    ensures "a" in s.samplingIds && Step(s, GetEnds(1)).fired == s.fired + [SamplingDisconnect]
  {
    s := SecondStreamOpens();
    ReachableInv(s);
    assert OpenStreams(s) == {1, 2};
    assert OtherSamplingStream(s, 1);
    PrematureDisconnect(s, 1);
  }

  lemma SecondStreamOpens() returns (s: State)
    ensures Reachable(s) && s.samplingIds == {"a"} && s.samplingStreams == {"a"} && s.routing.Some?
    ensures s.gets == map[1 := Get("a", true, true, true), 2 := Get("a", true, true, true)]
  {
    s := SamplingClientRouted();
    s := Then(s, GetArrives(2, "a"));
    s := Then(s, GetStatus(2, 200, ""));
    assert s.samplingStreams == {"a"};
  }

  /** Stream 3 opens for session "b", of which nothing is known yet. */
  lemma UnknownStreamOpens() returns (s: State)
    ensures Reachable(s)
    ensures s == State(2, {"a"}, {"a"}, Some(Routing(Some(true), true)), Some(SessionFile(true, None)),
                       map[0 := Post("a", true, true, 200)],
                       map[1 := Get("a", true, true, true), 3 := Get("b", true, true, true)], [])
  {
    s := SamplingClientRouted();
    s := Then(s, GetArrives(3, "b"));
    s := Then(s, GetStatus(3, 200, ""));
  }

  /** Session "b" turns out to sample. */
  lemma UnknownSessionSamples() returns (s: State)
    ensures Reachable(s) && s.samplingIds == {"a", "b"} && s.samplingStreams == {"a"} && s.routing.Some?
    ensures s.gets == map[1 := Get("a", true, true, true), 3 := Get("b", true, true, true)]
  {
    s := UnknownStreamOpens();
    s := Then(s, PostArrives(4, "b", false));
    s := Then(s, PostBody(4, Initialize(true)));
    s := Then(s, PostStatus(4, 200));
  }

  /** Another, without any shared session: a stream opens before its session's initialize is answered. */
  lemma LateSession() returns (s: State)
    ensures Reachable(s) && OpenStreams(s) == {1, 3} && s.gets[1].sid == "a" && s.gets[3].sid == "b"
    ensures "b" in s.samplingIds && Step(s, GetEnds(1)).fired == s.fired + [SamplingDisconnect]
  {
    s := UnknownSessionSamples();
    ReachableInv(s);
    assert OpenStreams(s) == {1, 3};
    assert OtherSamplingStream(s, 1);
    PrematureDisconnect(s, 1);
  }

  /** The closing stream is the last open one of a session known to sample. */
  ghost predicate LastSamplingStream(s: State, id: nat)
    requires id in s.gets
  {
    s.gets[id].sid in s.samplingIds && !OtherSamplingStream(s, id)
  }

  /**
   * While other streams stay open, the sampling disconnect comes when and only when the last sampling stream closes,
   * exactly if the tracked set agrees: the closing session is the only tracked one just when its stream is the last.
   */
  lemma DisconnectIsRightExactly(s: State, id: nat)
    requires Inv(s) && id in OpenStreams(s) && s.routing.Some? && OpenStreams(s) != {id}
    ensures var fires := Step(s, GetEnds(id)).fired == s.fired + [SamplingDisconnect];
            (fires <==> LastSamplingStream(s, id)) <==>
            (s.samplingStreams == {s.gets[id].sid} <==> LastSamplingStream(s, id))
  {
    FiresExactly(s, id);
  }

  lemma FiresExactly(s: State, id: nat)
    requires Inv(s) && id in OpenStreams(s) && s.routing.Some?
    ensures var fired := Step(s, GetEnds(id)).fired;
            && (fired == s.fired + [SamplingDisconnect] <==> OpenStreams(s) != {id} && s.samplingStreams == {s.gets[id].sid})
            && (fired == s.fired <==> OpenStreams(s) != {id} && s.samplingStreams != {s.gets[id].sid})
  {
    var s' := Step(s, GetEnds(id));
    var sid := s.gets[id].sid;
    CloseFires(s, id);
    assert OpenStreams(s') == OpenStreams(s) - {id};
    assert s.samplingStreams != {} && s.samplingStreams - {sid} == {} ==> s.samplingStreams == {sid};
    assert |s.fired + [SamplingDisconnect]| == |s.fired| + 1 == |s.fired + [McpDisconnect]|;
    if s.samplingStreams == {sid} {
      assert s'.samplingStreams == {};
    }
  }

  /**
   * The disconnect can also fail to come: the last sampling stream closes and nothing is reported, exactly when other
   * streams stay open and its session is not the only tracked one. Sampling then counts as available without a client.
   */
  lemma MissedDisconnect(s: State, id: nat)
    requires Inv(s) && id in OpenStreams(s) && s.routing.Some? && LastSamplingStream(s, id)
    ensures var s' := Step(s, GetEnds(id));
            && (s'.fired == s.fired <==> OpenStreams(s) != {id} && s.samplingStreams != {s.gets[id].sid})
            && (forall k :: k in OpenStreams(s') ==> s'.gets[k].sid !in s'.samplingIds)
            && (s'.fired == s.fired ==> (Samples(s') <==> Samples(s)))
  {
    var s' := Step(s, GetEnds(id));
    FiresExactly(s, id);
    assert OpenStreams(s') == OpenStreams(s) - {id};
    forall k | k in OpenStreams(s') ensures s'.gets[k].sid !in s'.samplingIds {
      assert k in OpenStreams(s) && k != id && s'.gets[k] == s.gets[k];
    }
  }

  /** Streams 3 and 5 are open, of sessions of which nothing is known. */
  lemma TwoUnknownStreams(s: State) returns (s': State)
    requires Reachable(s) && s.gets == map[] && s.samplingStreams == {} && "b" !in s.samplingIds && "c" !in s.samplingIds
    ensures Reachable(s')
    ensures s' == s.(active := s.active + 2,
                     gets := map[3 := Get("b", true, true, true), 5 := Get("c", true, true, true)])
  {
    s' := OpensUnknown(s, 3, "b");
    s' := OpensUnknown(s', 5, "c");
    assert s'.gets == map[3 := Get("b", true, true, true), 5 := Get("c", true, true, true)];
  }

  lemma OpensUnknown(s: State, id: nat, sid: string) returns (s': State)
    requires Reachable(s) && id !in s.gets && sid != "" && sid !in s.samplingIds
    ensures Reachable(s') && s' == s.(active := s.active + 1, gets := s.gets[id := Get(sid, true, true, true)])
  {
    s' := Then(s, GetArrives(id, sid));
    s' := Then(s', GetStatus(id, 200, ""));
    assert s'.gets == s.gets[id := Get(sid, true, true, true)];
  }

  /** A handshake that offers sampling, on a request for session `sid`. */
  lemma Handshake(s: State, sid: string) returns (s': State)
    requires Reachable(s) && s.posts == map[] && s.routing == Some(Routing(None, false)) && sid !in s.samplingIds
    ensures Reachable(s') && Samples(s') && s'.gets == s.gets && s'.active == s.active
    ensures s'.samplingStreams == s.samplingStreams
    ensures s'.samplingIds == if sid == "" then s.samplingIds else s.samplingIds + {sid}
  {
    s' := Then(s, PostArrives(4, sid, false));
    s' := Then(s', PostBody(4, Initialize(true)));
    s' := Then(s', PostStatus(4, 200));
  }

  lemma RoutedStart() returns (s: State)
    ensures Reachable(s) && s == START.(routing := Some(Routing(None, false)))
  {
    assert Valid(START, []) && Run(START, []) == START;
    s := Then(START, RoutingReady(Routing(None, false)));
  }

  /**
   * A run to such a state: the sampling client's stream opens before its initialize is answered, and is never tracked.
   * When it closes, nothing is reported, and sampling stays established with no sampling stream open.
   */
  lemma LateSessionMissed() returns (s: State)
    ensures Reachable(s) && OpenStreams(s) == {3, 5} && s.gets[3].sid == "b" && s.gets[5].sid == "c"
    ensures s.samplingIds == {"b"} && LastSamplingStream(s, 3)
    ensures Step(s, GetEnds(3)).fired == s.fired && Samples(Step(s, GetEnds(3)))
  {
    s := RoutedStart();
    s := TwoUnknownStreams(s);
    s := Handshake(s, "b");
    ReachableInv(s);
    assert OpenStreams(s) == {3, 5} && OpenStreams(s) != {3};
    MissedDisconnect(s, 3);
  }

  /**
   * And the usual first handshake: its request carries no session id, so no session is ever known to sample. The close
   * of the client's stream goes unreported whenever another one is open.
   */
  lemma UnnamedHandshakeMissed() returns (s: State)
    ensures Reachable(s) && OpenStreams(s) == {3, 5} && s.samplingIds == {} && Samples(s)
    ensures Step(s, GetEnds(3)).fired == s.fired && Samples(Step(s, GetEnds(3)))
  {
    s := RoutedStart();
    s := Handshake(s, "");
    s := TwoUnknownStreams(s);
    ReachableInv(s);
    assert OpenStreams(s) == {3, 5} && OpenStreams(s) != {3};
    FiresExactly(s, 3);
  }

  /** Nothing is tracked, and no POST in progress names a session. */
  ghost predicate Untracked(s: State) {
    && s.samplingIds == {} && s.samplingStreams == {}
    && (forall id :: id in s.posts ==> s.posts[id].sid == "")
  }

  lemma StepUntracked(s: State, a: Action)
    requires Untracked(s) && Enabled(s, a) && (a.PostArrives? ==> a.sid == "")
    ensures Untracked(Step(s, a))
    ensures SamplingDisconnect in Step(s, a).fired ==> SamplingDisconnect in s.fired
  {
  }

  /** In a run in which no POST names a session, nothing is ever tracked and the sampling disconnect never comes. */
  lemma {:induction false} UnnamedNeverTracked(s: State, actions: seq<Action>)
    requires Untracked(s) && Valid(s, actions) && SamplingDisconnect !in s.fired
    requires forall i :: 0 <= i < |actions| && actions[i].PostArrives? ==> actions[i].sid == ""
    ensures Untracked(Run(s, actions)) && SamplingDisconnect !in Run(s, actions).fired
    decreases |actions|
  {
    if actions != [] {
      StepUntracked(s, actions[0]);
      UnnamedNeverTracked(Step(s, actions[0]), actions[1..]);
    }
  }

  /** A client that never offered sampling reconnects without a session id, and activity is reported. */
  lemma NonSamplingActivity() returns (s: State)
    ensures Reachable(s) && s.samplingIds == {} && Enabled(s, GetStatus(1, 200, ""))
    ensures Step(s, GetStatus(1, 200, "")).fired == s.fired + [Activity]
  {
    s := RoutedStart();
    s := Then(s, GetArrives(1, ""));
  }

  // ---------------------------------------------------------------------------
  // The middleware itself
  // ---------------------------------------------------------------------------

  class Middleware {
    var activeSseStreams: int
    var samplingSessionIds: set<string>
    var samplingSseSessions: set<string>
    var routing: Option<Routing>
    var file: Option<SessionFile>
    var posts: map<nat, Post>
    var gets: map<nat, Get>
    ghost var fired: seq<Callback>

    ghost function Value(): State
      reads this
    {
      State(activeSseStreams, samplingSessionIds, samplingSseSessions, routing, file, posts, gets, fired)
    }

    constructor ()
      ensures Value() == START
    {
      activeSseStreams, samplingSessionIds, samplingSseSessions := 0, {}, {};
      routing, file, posts, gets, fired := None, None, map[], map[], [];
    }

    /** Calls a routing callback, if routing exists. */
    method Notify(c: Callback)
      modifies this`routing, this`file, this`fired
      ensures Value() == Fire(old(Value()), c)
    {
      if routing.Some? {
        var (r, f) := React(routing.value, file, c);
        routing, file := Some(r), f;
        fired := fired + [c];
      }
    }

    /** `due`: the ten-second throttle lets this write through. */
    method TouchSessionFile(due: bool)
      modifies this`file
      ensures Value() == TouchFile(old(Value()), due)
    {
      if due && file.Some? {
        file := Some(file.value.(streams := Some(activeSseStreams)));
      }
    }

    method InspectInitialize(sampling: bool)
      modifies this`routing, this`file, this`fired
      ensures Value() == Inspect(old(Value()), sampling)
    {
      if routing.Some? {
        if !sampling {
          if routing.value.sampling == Some(true) {
            return;
          }
          if samplingSseSessions != {} {
            return;
          }
        }
        Notify(Initialized(sampling));
      } else {
        if !sampling && samplingSseSessions != {} {
          return;
        }
        file := Some(SessionFile(sampling, None));
      }
    }

    method WriteOptimisticSession()
      modifies this`routing, this`file, this`fired
      ensures Value() == Optimistic(old(Value()))
    {
      var current := if routing.Some? then routing.value.sampling == Some(true) else false;
      if routing.Some? {
        Notify(Activity);
      }
      file := Some(SessionFile(current, Some(activeSseStreams)));
    }

    method InvalidateStaleSession()
      modifies this`routing, this`file, this`fired
      ensures Value() == Invalidate(old(Value()))
    {
      var removed := file.Some?;
      file := None;
      if removed && routing.Some? {
        Notify(Invalidated);
      }
    }

    method PostArrives(id: nat, sid: string, due: bool)
      requires id !in posts
      modifies this
      ensures Value() == Step(old(Value()), Action.PostArrives(id, sid, due))
    {
      posts := posts[id := Post(sid, false, false, 0)];
      var isSamplingClient := sid in samplingSessionIds;
      if isSamplingClient {
        Notify(Activity);
      }
      TouchSessionFile(due);
    }

    method PostBody(id: nat, body: Body)
      requires id in posts
      modifies this
      ensures Value() == Step(old(Value()), Action.PostBody(id, body))
    {
      match body
      case Initialize(b) =>
        posts := posts[id := posts[id].(isInitialize := true, sampling := b)];
        InspectInitialize(b);
      case AnonymousInitialize(b) =>
        posts := posts[id := posts[id].(isInitialize := true, sampling := b)];
      case BrokenInitialize =>
        posts := posts[id := posts[id].(isInitialize := true)];
      case OtherBody =>
    }

    method PostStatus(id: nat, status: nat)
      requires id in posts
      modifies this
      ensures Value() == Step(old(Value()), Action.PostStatus(id, status))
    {
      var p := posts[id];
      posts := posts[id := p.(status := status)];
      if p.isInitialize && status == 200 {
        if p.sid != "" {
          if p.sampling {
            samplingSessionIds := samplingSessionIds + {p.sid};
          } else {
            samplingSessionIds := samplingSessionIds - {p.sid};
          }
        }
      }
    }

    method PostEnds(id: nat, raised: bool)
      requires id in posts
      modifies this
      ensures Value() == Step(old(Value()), Action.PostEnds(id, raised))
    {
      var p := posts[id];
      posts := posts - {id};
      if !raised && p.status in {400, 404} && p.sid != "" {
        InvalidateStaleSession();
      }
    }

    method GetArrives(id: nat, sid: string)
      requires id !in gets
      modifies this
      ensures Value() == Step(old(Value()), Action.GetArrives(id, sid))
    {
      gets := gets[id := Get(sid, sid != "", false, false)];
    }

    /** The response start of a GET. */
    method GetStatus(id: nat, status: nat, responseSid: string)
      requires id in gets
      modifies this
      ensures Value() == Step(old(Value()), Action.GetStatus(id, status, responseSid))
    {
      if gets[id].handled {
        return;
      }
      if status in {400, 404} && gets[id].sid != "" {
        gets := gets[id := gets[id].(handled := true)];
        InvalidateStaleSession();
      } else if status == 200 {
        StreamOpens(id, responseSid);
      } else {
        gets := gets[id := gets[id].(handled := true)];
      }
    }

    method StreamOpens(id: nat, responseSid: string)
      requires id in gets
      modifies this
      ensures Value() == Opened(old(Value()), id, old(gets[id]), responseSid)
    {
      var g := gets[id];
      activeSseStreams := activeSseStreams + 1;
      var sid := g.sid;
      if sid == "" {
        sid := responseSid;
      }
      gets := gets[id := g.(handled := true, isSse := true, sid := sid)];
      var isSamplingStream := sid != "" && sid in samplingSessionIds;
      if isSamplingStream {
        samplingSseSessions := samplingSseSessions + {sid};
      }
      if !g.hasSid {
        WriteOptimisticSession();
      } else if isSamplingStream {
        Notify(Activity);
      }
    }

    /** A body chunk of a GET; `foundSid`: a session id found in it. */
    method GetChunk(id: nat, foundSid: Option<string>, due: bool)
      requires id in gets
      modifies this
      ensures Value() == Step(old(Value()), Action.GetChunk(id, foundSid, due))
    {
      if !gets[id].isSse {
        return;
      }
      if gets[id].sid == "" && foundSid.Some? {
        gets := gets[id := gets[id].(sid := foundSid.value)];
      }
      assert gets == old(gets)[id := gets[id]];
      var sid := gets[id].sid;
      if sid != "" && sid in samplingSessionIds {
        NoteSamplingStream(sid);
      }
      TouchSessionFile(due);
    }

    method NoteSamplingStream(sid: string)
      modifies this
      ensures Value() == Fire(old(Value()).(samplingStreams := old(samplingSseSessions) + {sid}), Activity)
    {
      if sid !in samplingSseSessions {
        samplingSseSessions := samplingSseSessions + {sid};
      }
      assert samplingSseSessions == old(samplingSseSessions) + {sid};
      Notify(Activity);
    }

    /** The `finally` clause of a GET. */
    method GetEnds(id: nat)
      requires id in gets
      modifies this
      ensures Value() == Step(old(Value()), Action.GetEnds(id))
    {
      var g := gets[id];
      gets := gets - {id};
      if !g.isSse {
        return;
      }
      activeSseStreams := Max(0, activeSseStreams - 1);
      var wasSampling := g.sid != "" && g.sid in samplingSseSessions;
      if wasSampling {
        samplingSseSessions := samplingSseSessions - {g.sid};
      }
      if file.Some? {
        file := Some(file.value.(streams := Some(activeSseStreams)));
      }
      if wasSampling && samplingSseSessions == {} && routing.Some? {
        if activeSseStreams == 0 {
          Notify(McpDisconnect);
        } else {
          Notify(SamplingDisconnect);
        }
      } else if activeSseStreams == 0 && routing.Some? {
        Notify(McpDisconnect);
      }
    }
  }
}
