# Project Synthesis: verified models of its delivery, session, migration and retry logic

The backend serves prompt optimization to browsers, command-line scripts and MCP clients. This project models the
parts of it whose guarantees span whole runs, and proves those guarantees for every run, every interleaving and every
input:

- **Event delivery.** `EventBus.dfy` is the in-process bus with its bounded replay buffer and bounded queues;
  `EventStream.dfy` is one SSE connection (replay, sync frame, live delivery) interleaved with publications;
  `Reconnect.dfy` is a client that reconnects any number of times, `ReconnectAccounts.dfy` what becomes of each event and
  `ReconnectCursors.dfy` which ids are safe to resume from; `SseText.dfy` is the frame formatter together with
  the incremental reader of the validation script (event-stream syntax: section 9.2 of the WHATWG HTML standard).
- **MCP sessions.** `Capability.dfy` is the middleware that derives from handshakes and streams whether a sampling
  client is connected; `Sessions.dfy` is the creation of sessions under a lock.
- **Migrations and table rewrites.** `TemplateMigration.dfy` and `ProbeRunMigration.dfy` are two Alembic revisions,
  `StartupMigration.dfy` the transaction that every start runs, `ResetTaxonomy.dfy` the recovery script.
- **Timers and retries.** `WarmPath.dfy` is the debounced warm-path timer, `Retry.dfy` the retry loop around a
  provider, `ResetTime.dfy` the calendar arithmetic behind a rate-limit reset.
- **Guards and pages.** `SqlGuard.dfy` classifies SQL behind leading comments, `AuditHook.dfy` is the read-engine hook
  built on it, `ActivityHistory.dfy` pages through stored events.

A protocol is a state machine: `Step` is what runs between two suspension points, and the theorems quantify over all
sequences of steps. Beside it stands a class whose methods change the same fields as the original object does; each
handler is proved to do exactly one `Step`, so the theorems about runs hold for the class. A table rewrite is a function
on tables, a class whose methods compute it with the original's loops, and theorems about the function.

## Where the code and its own documentation differ

The models follow the code. Each difference is a theorem with a concrete case and, where the property holds on part of
the inputs, the exact condition.

- A client that adopts the id of a sync frame and then reconnects can lose events: the frame carries the current
  sequence number, which runs ahead of what is still queued when something was published during the replay
  (`Cursors.SyncLosesAnEvent`; exactly when, `Accounts.ExactlyOnce`). The frontend adopts sync ids
  (`frontend/src/lib/stores/sse-health.svelte.ts:204-208`). It also sends no id while its counter is 0
  (`frontend/src/lib/stores/sse-health.svelte.ts:254`), which the server treats like having seen everything so far
  (`Stream.NoCursorStartsHere`): what was published since a first, empty connection is lost
  (`Cursors.OmittedZeroLosesAnEvent`).
- The bus counts from 0 again when the backend restarts (`backend/app/services/event_bus.py:36`), but the frontend keeps
  the largest id it ever saw. Until the new numbers have passed that id, each return skips every retained event that the
  client lacks (`Cursors.StaleReturnSkipsAll`, `Cursors.RestartLosesAnEvent`); the exact condition for any id is that of
  `Accounts.ExactlyOnce`. Live delivery does not suffer (`Stream.StaleCursorSuppressesNothing`).
- The deduplication in the live loop never fires (`Stream.QueueIsNew`).
- "Puts a sentinel into every queue … causing their HTTP connections to close naturally"
  (`backend/app/services/event_bus.py:102-108`): a connection whose queue is full gets none and stays open
  (`Stream.ShutdownEndsExactly`, `Stream.MissedShutdownNeverEnds`).
- A session whose server fails to start stays registered although nothing serves it (`Sessions.FailedStartStays`).
- "The warm path runs on its interval or when signalled, whichever comes first" (`backend/app/main.py:1655-1657`):
  signals that keep coming put the run off without bound (`WarmPath.NoBoundOnWaiting`); it holds exactly of the waits
  that leave a gap of 30 seconds in time (`WarmPath.WithinTheIntervalExactly`).
- An attempt that finds `_warm_path_lock` held is skipped and the signal behind it is not recalled: its clusters stay
  dirty until the interval is over (`WarmPath.LockLosesAWakeUp`, `WarmPath.WakeUpLostExactly`).
- "Warm/cold path events must NOT re-trigger the warm path" (`backend/app/main.py:1146-1151`): of the events these
  paths publish themselves, `domain_created` and `cold_path_rejected` pass the filter
  (`WarmPath.OwnEventsThatHurry`, `WarmPath.ARunCausesAnother`).
- "Don't write sampling=False if a sampling SSE is active" (`backend/app/mcp_server.py:1137`): before routing exists, the
  session file comes to deny sampling when a GET without a session id is answered, and when a client without sampling
  initializes while no session is tracked, although a sampling stream is open (`Capability.EarlyFileLost`,
  `Capability.LateStreamOverwritten`, `Capability.UnnamedStreamOverwritten`; exactly when,
  `Capability.EarlyFileOverwrite`).
- Activity is reported also for non-sampling clients that reconnect without a session id
  (`Capability.ActivitySources`, `Capability.NonSamplingActivity`).
- "`on_sampling_disconnect` when the last sampling stream closes" (`backend/app/mcp_server.py:813-816`) can come early
  and can fail to come: the tracked set holds session ids, not streams, a stream that opened before its session's
  handshake is not in it, and a handshake without a session id, the usual first one, puts nothing into it. It is right
  exactly when the closing session is the only tracked one just when its stream is the last
  (`Capability.DisconnectIsRightExactly`). Early: `Capability.PrematureDisconnect`, `Capability.SharedSession`,
  `Capability.LateSession`. Missing: `Capability.MissedDisconnect`, `Capability.LateSessionMissed`,
  `Capability.UnnamedHandshakeMissed`.
- The reset script is idempotent only if no cluster was held back by rows that the same run deletes
  (`ResetTaxonomy.IdempotentExactly`, `ResetTaxonomy.TwoRunsNeeded`). It looks after two of the three references of a
  link; the one to a meta-pattern can be left dangling (`ResetTaxonomy.MetaReferencesExactly`).
- "Step 2.5 provisions a project per linked repository that has none" (`backend/app/main.py:141-145`): of several rows
  for one repository only the first can be linked (`StartupMigration.LinkedExactly`,
  `StartupMigration.SecondRowStaysUnlinked`, `StartupMigration.OnlyOneRowIsLinked`).
- A reset on 29 February is given up although a later leap year has that date (`ResetTime.LeapDayAnswer`).
- The history pages of a range drop the newest events of a day that stores more than `limit + 1`
  (`ActivityHistory.NewestAreLost`, `ActivityHistory.NewestOfThreeIsLost`); the pages of a single day each run newest
  first, but start with the oldest page (`ActivityHistory.DayPagesInOrder`, `ActivityHistory.OldestPageFirst`).
- The allow-list flags of the audit hook are plain booleans: leaving a scope inside another of its kind exposes the
  outer one (`AuditHook.FlagsExactThroughout`).

## Assumptions

- Only one thread runs; other tasks run only at suspension points. A wait whose event or item is already there ends at
  once, and wins against a time-out that falls on the same instant. Time-outs fire punctually.
- JSON payloads and event names contain no line end; text is ASCII. Which texts are JSON is a parameter. No event is
  called "sync".
- Identifiers that a generator hands out are not empty, not in use and not repeated; row and project ids are never
  empty strings.
- SQL without ORDER BY returns rows in table order, and a migration revision is one transaction. The template
  migration is proved without the latter.
- The clock does not run backwards between two looks at it, and a time zone has a fixed offset.
- The taxonomy engine exists when events arrive, and its first cycle looks at every cluster.

## Model

| member | source | states |
|---|---|---|
| Bus.EventBus.Publish | backend/app/services/event_bus.py:40-72 | one publication numbers the event, keeps the last 500, and reaches every subscriber, whose full queue loses its oldest item; nothing after shutdown |
| Bus.EventBus.Stop | backend/app/services/event_bus.py:102-118 | shutdown puts a sentinel behind what is queued and never displaces an event |
| Bus.SubscriberQueue.Put | backend/app/services/event_bus.py:51-67 | a full queue, of whatever size, drops its oldest item to take the new one |
| Bus.AppendRecords | backend/app/services/event_bus.py:40-50 | the bus is a window on the history of publications: numbered from 1, the last 500 retained |
| Bus.ReplayIsTail | backend/app/services/event_bus.py:74-80 | a replay is a contiguous tail of the history: everything after the cursor that is still retained |
| Bus.RetainsExactly | backend/app/services/event_bus.py:22-50 | the buffer holds exactly the last 500 events |
| Stream.EventStream.Start | backend/app/routers/events.py:127-156 | up to the first yield: subscribes, snapshots the replay, sends its first frame or the sync frame |
| Stream.EventStream.Resume | backend/app/routers/events.py:139-184 | one resumption: next replay frame, sync frame, live event, deduplication or shutdown, with the exact new state |
| Stream.EventStream.TimeOut | backend/app/routers/events.py:185-195 | a time-out with an empty queue sends a keepalive sync frame and changes nothing else |
| Stream.EventStream.Close | backend/app/routers/events.py:196-203 | the connection unsubscribes exactly its own queue |
| Stream.StepInv | backend/app/routers/events.py:127-203 | every publication, resumption, keepalive, shutdown and disconnect keeps the invariant that ties frames, queue and history together |
| Stream.DeliveryIsOrdered | backend/app/routers/events.py:127-195 | in every interleaving the data frames carry strictly increasing sequence numbers, all above a readable cursor |
| Stream.Conservation | backend/app/routers/events.py:127-195 | what was published since the subscription is an interleaving of what was sent live and what overflowed, followed by what is queued |
| Stream.ExactDelivery | backend/app/routers/events.py:127-195 | sent, unsent replay and queued events are together exactly the replay plus everything published since, if and only if no publication met a full queue |
| Stream.OverflowIsVisible | backend/app/services/event_bus.py:54-67 | an event is dropped in a run exactly when some publication meets a full queue |
| Stream.ReplayedUpToIsLast | backend/app/routers/events.py:128-144 | in every run, once the connection is live, deduplication goes by the number of the last event replayed |
| Stream.DeduplicatesReplayed | backend/app/routers/events.py:178-181 | of itself it lets through exactly what is newer or has no number |
| Stream.QueueIsNew | backend/app/routers/events.py:178-181 | an event that comes off the queue is newer than everything replayed, so deduplication never fires |
| Stream.StaleCursorSuppressesNothing | backend/app/routers/events.py:127-184 | a cursor ahead of the bus suppresses no live event |
| Stream.NoCursorStartsHere | backend/app/routers/events.py:135-149 | a missing or unreadable cursor is served like one at the current sequence number |
| Stream.SyncsAreClean | backend/app/routers/events.py:151-195 | a sync frame has events queued behind it only directly after replayed frames; a keepalive never has |
| Stream.SyncsAreCurrent | backend/app/routers/events.py:151-195 | a sync frame carries the number of the last event published when it is sent, and is a keepalive exactly after a time-out |
| Stream.OverflowsExactly | backend/app/services/event_bus.py:54-67 | a publication overflows exactly when 100 events are queued on an open connection |
| Stream.ShutdownEndsExactly | backend/app/services/event_bus.py:102-118 | shutdown loses nothing that is queued on a live connection, and once that is sent the connection closes, exactly unless its queue was full |
| Stream.ClosedIsFinal | backend/app/routers/events.py:196-203 | over any further run a closed connection is left as it is |
| Stream.NothingAfterStop | backend/app/services/event_bus.py:40-42 | in no run is anything published after shutdown |
| Stream.MissedShutdownNeverEnds | backend/app/routers/events.py:158-195 | a live connection that the sentinel missed stays open through every further run, until the client or another shutdown ends it |
| Reconnection.AtMostOnce | backend/app/routers/events.py:122-195 | over any reconnections, overflow and eviction, with every choice of adopted ids, with or without an id of 0, and with an id from before a restart, no event is received twice or out of order |
| Accounts.ExactlyOnce | backend/app/routers/events.py:122-195 | in any run, with overflow, eviction, any first id and any choice of ids, each event up to the point reached was received once, or was no longer in the replay buffer when the client came for it, or was skipped, or had been passed over; nothing is skipped exactly when the client never comes, first or later, ahead of a retained event that it lacks, nothing is passed over exactly when each number it gets is the next, and exactly if both hold what was received and what was evicted interleave to the history |
| Accounts.MoveSkips | backend/app/routers/events.py:135-144 | one move of client or server: it skips something exactly when the client returns ahead of the first retained event that it lacks, and passes something over exactly when it gets a number that is not the next |
| Accounts.ReturnSkips | backend/app/routers/events.py:135-144 | one reconnection: what counts as evicted is not in the replay buffer then, and what counts as skipped is |
| Accounts.FramePassesOver | backend/app/services/event_bus.py:54-67 | what a data frame passes over had been dropped from the connection's queue |
| Accounts.UndroppedPassesNothing | backend/app/services/event_bus.py:54-67 | in a run in which no queue overflows nothing is passed over |
| Accounts.EvictedIsGone | backend/app/services/event_bus.py:74-80 | of the history beyond a point, what the buffer has lost and what it still holds |
| Cursors.CarefulReceivesAll | backend/app/routers/events.py:122-195 | a client that adopts data ids, and sync ids only from frames with nothing queued behind them, receives every retained event exactly once and in order, as long as no queue overflows, exactly when it never comes ahead of one; with a first id that is sent and that this history has reached, only the first connection decides |
| Cursors.DataIdsAreCareful | backend/app/routers/events.py:139-144 | resuming from data-frame ids only meets that condition as long as nothing overflows |
| Cursors.SyncSkipsTheQueue | backend/app/routers/events.py:151-156 | adopting a sync id and reconnecting at once skips exactly the retained ones of the events queued behind the frame, or of those up to an id that is larger still |
| Cursors.SkippedForGood | backend/app/routers/events.py:135-144 | what a connection starts beyond is never received on any later one |
| Cursors.SyncLosesAnEvent | backend/app/routers/events.py:151-156 | a run in which one publication during the replay is lost for good although the buffer still holds it |
| Cursors.OmittedZeroLosesAnEvent | frontend/src/lib/stores/sse-health.svelte.ts:253-254 | a run in which a client that leaves out an id of 0 loses the first event for good although the buffer still holds it |
| Cursors.StaleReturnSkipsAll | backend/app/services/event_bus.py:74-80 | a return with an id that the history has not passed skips every retained event that the client lacks, and nothing exactly when it has all there is |
| Cursors.RestartLosesAnEvent | backend/app/services/event_bus.py:34-38 | after a restart, a client with any earlier id loses the first event for good although the buffer holds it |
| SseText.SplitResumes | scripts/validate_taxonomy_emergence.py:55-59 | splitting at blank lines can stop anywhere and resume from the unfinished rest with the same blocks |
| SseText.Drain | scripts/validate_taxonomy_emergence.py:58-70 | the inner loop reads every complete block of the buffer and keeps the rest |
| SseText.Consume | scripts/validate_taxonomy_emergence.py:54-71 | the result depends on the concatenation of the chunks only, and is the last terminal event with a JSON payload |
| SseText.AbsorbIsLast | scripts/validate_taxonomy_emergence.py:60-71 | the variable overwritten block by block ends as the last message that can be a result |
| SseText.LastFinalIsLast | scripts/validate_taxonomy_emergence.py:69-71 | it is a terminal event with a JSON payload, and no such message comes after it |
| SseText.ReadPrinted | scripts/validate_taxonomy_emergence.py:60-62 | reading a printed frame gives back its event, up to blanks, and its data |
| SseText.RoundTrip | backend/app/routers/events.py:139-195 | printing any frames and reading the text gives a block for each in order, with nothing left over: for an event its own number in the id, its name and payload; for a sync message its number in the id and in the payload, and whether it is a keepalive |
| SseText.StreamIsRecovered | backend/app/routers/events.py:127-195 | end to end: however a connection's bytes are cut, the reader recovers exactly the delivered events between the sync messages |
| SseText.CursorIsRead | frontend/src/lib/api/client.ts:776-799 | the number that a client reads from the id line of the next block is the one that the protocol puts into its cursor, and an event that it reads is the next one received |
| SseText.ConcatExactly | scripts/validate_taxonomy_emergence.py:54-57 | the buffer grows by each chunk and by nothing else |
| SseText.LinesExactly | scripts/validate_taxonomy_emergence.py:60-62 | the lines and the line ends between them make up the text, and no line end is cut in two |
| SseText.StripExactly | scripts/validate_taxonomy_emergence.py:60-62 | stripping removes the white space at both ends and nothing else |
| SseText.FieldIsFirst | scripts/validate_taxonomy_emergence.py:60-62 | a field is what follows the prefix on the first line that has it |
| Capability.Middleware.PostArrives | backend/app/mcp_server.py:847-871 | the start of a POST: activity for a known sampling session, throttled touch of the file |
| Capability.Middleware.PostBody | backend/app/mcp_server.py:873-889 | a complete body: what an initialize message does, one whose client information or whose capabilities cannot be read, and any other body |
| Capability.Middleware.InspectInitialize | backend/app/mcp_server.py:1086-1149 | the four outcomes of an initialize handshake, with and without routing |
| Capability.Middleware.PostStatus | backend/app/mcp_server.py:891-904 | an initialize answered with 200 enters or leaves its session in the sampling set |
| Capability.Middleware.PostEnds | backend/app/mcp_server.py:906-909 | a 400 or 404 for a session invalidates it |
| Capability.Middleware.GetStatus | backend/app/mcp_server.py:928-961 | the response start of a GET: stream opened, session invalidated, or nothing |
| Capability.Middleware.GetChunk | backend/app/mcp_server.py:962-984 | a body chunk may reveal the session id and then registers a sampling stream |
| Capability.Middleware.GetEnds | backend/app/mcp_server.py:987-1017 | the close of a stream: counters, file, and which disconnect fires |
| Capability.Middleware.WriteOptimisticSession | backend/app/mcp_server.py:1046-1073 | a reconnection without an id keeps the current sampling value and marks the connection active |
| Capability.Middleware.InvalidateStaleSession | backend/app/mcp_server.py:1075-1084 | routing hears of it exactly when there was a file to remove |
| Capability.CountersAreExact | backend/app/mcp_server.py:928-1017 | in every reachable state the counter is the number of open streams and each tracked session has an open stream |
| Capability.CloseFires | backend/app/mcp_server.py:987-1017 | the counter never clips; a close fires the full disconnect exactly when no stream is left and the sampling disconnect exactly when it empties the tracked set while streams remain |
| Capability.StepSticky | backend/app/mcp_server.py:847-1149 | one step clears an established sampling capability exactly when it is a disconnect-firing close or a 400/404 for a session while the file exists |
| Capability.SamplingSticky | backend/app/mcp_server.py:847-1149 | over whole runs it stays established throughout exactly when no step is one of those |
| Capability.TrafficKeepsSampling | backend/app/mcp_server.py:1046-1149 | in particular no initializes, POSTs that return or raise, reconnections without an id or body chunks: nothing but the close of a stream or an answer of 400 or 404 |
| Capability.InitializeDecides | backend/app/mcp_server.py:1086-1147 | after an initialize sampling is established exactly when it was offered or established before |
| Capability.SamplingIdsChange | backend/app/mcp_server.py:891-903 | the set of sampling sessions changes exactly by a 200 for an initialize whose request carries a session id |
| Capability.HandshakeRegisters | backend/app/mcp_server.py:873-904 | a request for a session, from its arrival to its 200, whatever other requests do in between: the session is known to sample afterwards exactly if the body of that request offered it, not if its capabilities cannot be read, and as before for any other body |
| Capability.RoutingKnowsWhatItWasTold | backend/app/services/routing.py:415-639 | over any run, what routing knows of sampling and of the connection is what the last callback about it said |
| Capability.CallbackWrites | backend/app/services/routing.py:415-639 | what each callback leaves in the session file, and which are idle |
| Capability.TrackedExactly | backend/app/mcp_server.py:941-984 | which step makes a session tracked, under which of the ids of request, response and chunk, and that only the close of one of its streams ends it |
| Capability.FirstStatusDecides | backend/app/mcp_server.py:928-961 | only the first response start of a GET counts, and it opens a stream exactly with a 200 |
| Capability.StreamsWritten | backend/app/mcp_server.py:1046-1073 | when the file is written, and that the number of streams in it was that of the open streams then |
| Capability.FileStaysTrue | backend/app/services/routing.py:415-639 | once the session file says of sampling what routing says, no interleaving makes them disagree |
| Capability.EarlyFileOverwrite | backend/app/mcp_server.py:1046-1147 | before routing the file starts to deny sampling exactly when a GET without an id is answered, or a client without sampling initializes while no sampling session is tracked |
| Capability.EarlyFileKept | backend/app/mcp_server.py:1135-1147 | over a run before routing the file never denies sampling exactly when no step does one of these |
| Capability.EarlyFileLost | backend/app/mcp_server.py:1046-1073 | a run in which a GET without an id does it with a tracked sampling stream open |
| Capability.LateStreamOverwritten | backend/app/mcp_server.py:1135-1147 | a run in which an initialize does it with a sampling stream open that was opened before its handshake was answered |
| Capability.UnnamedStreamOverwritten | backend/app/mcp_server.py:1135-1147 | a run in which an initialize does it with the stream open of a client whose handshake carried no session id |
| Capability.ActivitySources | backend/app/mcp_server.py:811-820 | exactly which steps report activity |
| Capability.NonSamplingActivity | backend/app/mcp_server.py:1046-1058 | a run in which a client that never offered sampling reports it |
| Capability.PrematureDisconnect | backend/app/mcp_server.py:987-1013 | the sampling disconnect fires with a stream of a sampling session still open exactly when the closed stream's session is the only tracked one and such a stream is open |
| Capability.SharedSession | backend/app/mcp_server.py:993-1013 | a run to such a state with two streams of one session |
| Capability.LateSession | backend/app/mcp_server.py:891-903 | a run to such a state without a shared session: a stream opens before its session's initialize is answered |
| Capability.DisconnectIsRightExactly | backend/app/mcp_server.py:813-816 | while other streams stay open, the sampling disconnect comes when and only when the last sampling stream closes, exactly if the closing session is the only tracked one just when its stream is the last |
| Capability.MissedDisconnect | backend/app/mcp_server.py:987-1017 | the close of the last sampling stream reports nothing exactly when other streams stay open and its session is not the only tracked one; sampling then stays as it was with no sampling stream open |
| Capability.LateSessionMissed | backend/app/mcp_server.py:891-903 | a run to such a state: the stream opened before its session's initialize was answered |
| Capability.UnnamedHandshakeMissed | backend/app/mcp_server.py:891-903 | a run in which the handshake carried no session id and the close of the client's stream leaves sampling established |
| Capability.UnnamedNeverTracked | backend/app/mcp_server.py:891-903 | in any run in which no POST carries a session id nothing is ever tracked and the sampling disconnect never comes |
| Sessions.SessionManager.Begin | backend/app/mcp_server.py:122-138 | a request goes to its transport, to the lock or to 404 |
| Sessions.SessionManager.CreateTransport | backend/app/mcp_server.py:138-149 | the locked section registers a transport under its own id |
| Sessions.SessionManager.HandleOutsideLock | backend/app/mcp_server.py:178-185 | the lock is released before the request is handled |
| Sessions.SessionManager.ServerFinally | backend/app/mcp_server.py:172-176 | a server task removes its own entry unless it was terminated |
| Sessions.LockProtocol | backend/app/mcp_server.py:129-185 | in every reachable state one creator at most, it alone holds the lock, no task handling a request does, and keys are own ids |
| Sessions.RequestsGo | backend/app/mcp_server.py:122-138 | in every reachable state a registered id leads to the transport of that id, no id to the lock, and an unknown id to 404 |
| Sessions.CreatedIsOwn | backend/app/mcp_server.py:138-185 | a task that took the lock handles its request with the session it created, with the lock free again |
| Sessions.TerminatedStays | backend/app/mcp_server.py:172-176 | a terminated session is never removed by its server |
| Sessions.FailedStartStays | backend/app/mcp_server.py:146-180 | a start-up that fails frees the lock and leaves the session registered for good |
| Sessions.TasksCanEnd | backend/app/mcp_server.py:178-188 | every task can be cancelled or finish, and then does not hold the lock |
| Sessions.RemovedByItsOwnServer | backend/app/mcp_server.py:172-176 | an entry disappears exactly when its own, unterminated server task ends |
| Sessions.GoneMeansEnded | backend/app/mcp_server.py:148-176 | over runs, an entry that is gone belonged to a server that ended in the run, and was not terminated before that |
| Sessions.NoDeadlock | backend/app/mcp_server.py:135-185 | a waiting task can always get its session within five steps without any request in progress ending |
| TemplateMigration.RootDomainLabel | backend/alembic/versions/f1e2d3c4b5a6_template_entity.py:44-59 | the loop with its visited set computes the bounded climb to the root |
| TemplateMigration.RootDomainMeaning | backend/alembic/versions/f1e2d3c4b5a6_template_entity.py:44-59 | it is the label of the node without a parent at the end of the path, if that is a labelled domain fewer than 8 levels up, else "general" |
| TemplateMigration.CyclesAreGeneral | backend/alembic/versions/f1e2d3c4b5a6_template_entity.py:47-50 | a cluster on or below a cycle gets "general" |
| TemplateMigration.RootDomainStable | backend/alembic/versions/f1e2d3c4b5a6_template_entity.py:144-151 | the maps read before the loop stay good while the loop changes states |
| TemplateMigration.BestIsBest | backend/alembic/versions/f1e2d3c4b5a6_template_entity.py:164-168 | the chosen row of the cluster has a score if any has one, and none is greater; of the rows with that score, or of all if none has one, it is the newest |
| TemplateMigration.Tables.MigrateCluster | backend/alembic/versions/f1e2d3c4b5a6_template_entity.py:163-216 | one turn of the loop: the guarded insert and the state update |
| TemplateMigration.Tables.Run | backend/alembic/versions/f1e2d3c4b5a6_template_entity.py:144-225 | the whole loop and the recount |
| TemplateMigration.TemplatesExactly | backend/alembic/versions/f1e2d3c4b5a6_template_entity.py:163-211 | exactly which rows a run adds, whatever the order of clusters |
| TemplateMigration.RestartsConverge | backend/alembic/versions/f1e2d3c4b5a6_template_entity.py:62-70 | after any number of interruptions at any write, a complete run leaves the tables that one undisturbed run would have left |
| TemplateMigration.NoneWaits | backend/alembic/versions/f1e2d3c4b5a6_template_entity.py:227-234 | no cluster is left in state "template", so the final check never raises |
| TemplateMigration.BestHasLiveTemplate | backend/alembic/versions/f1e2d3c4b5a6_template_entity.py:163-211 | every former template cluster with an optimization has a live row for its best one, in that sense; a row that the run added carries its fields, the meta-patterns of its links in order, and the label of the root of the cluster |
| TemplateMigration.PatternIdsExactly | backend/alembic/versions/f1e2d3c4b5a6_template_entity.py:183-192 | the meta-patterns of exactly the links of the optimization that name one, in table order |
| TemplateMigration.UniqueExactly | backend/alembic/versions/f1e2d3c4b5a6_template_entity.py:105-113 | what the partial unique index says: of the live rows at most one for a cluster and an optimization |
| TemplateMigration.UniqueStays | backend/alembic/versions/f1e2d3c4b5a6_template_entity.py:105-113 | no write of any attempt violates the partial unique index |
| TemplateMigration.ClustersExactly | backend/alembic/versions/f1e2d3c4b5a6_template_entity.py:213-225 | other clusters keep their state, and every count is the number of positions in the table with a live row of that cluster |
| TemplateMigration.SecondRunIsNoOp | backend/alembic/versions/f1e2d3c4b5a6_template_entity.py:62-66 | a second run changes nothing |
| StartupMigration.Startup.Ensure | backend/app/services/project_service.py:89-132 | finds, reattaches or creates the project of a repository, and returns its id |
| StartupMigration.Startup.FetchMissing | backend/app/main.py:102-107 | a batch of at most 500 rows without a project, empty exactly when there are none |
| StartupMigration.Startup.FillBatch | backend/app/main.py:109-118 | fills what can be resolved; the number of rows without a project falls by exactly the number filled |
| StartupMigration.Startup.Backfill | backend/app/main.py:66-130 | the batch loop ends, and with a Legacy project has filled every row |
| StartupMigration.Startup.Run | backend/app/main.py:133-240 | the transaction commits exactly when no two domains collide at the root, and else changes nothing |
| StartupMigration.DetachFailsExactly | backend/alembic/versions/e7f8a9b0c1d2_fix_domain_label_unique_for_multi_project.py:25-31 | detaching violates the unique index exactly when two domains that are or get to the root share a label |
| StartupMigration.EveryOptimizationHasAProject | backend/app/main.py:66-130 | every optimization ends with a project: its own, that of the last linked row of its repository, or the first one labelled Legacy if no row of its repository is linked |
| StartupMigration.NoDomainUnderProject | backend/app/main.py:179-206 | no domain is left under a project, not even under one created by this run |
| StartupMigration.ClustersExactly | backend/app/main.py:153-206 | old cluster rows stay in place, changed only where a domain was under a project, and only new root projects are added |
| StartupMigration.NewProjectsExactly | backend/app/services/project_service.py:89-132 | a project is created only with the label Legacy or that of a repository with an unlinked row, and only when no project has that label |
| StartupMigration.IndexedExactly | backend/alembic/versions/e7f8a9b0c1d2_fix_domain_label_unique_for_multi_project.py:25-31 | what the unique index forbids: two domains with the same label and parent, or both without a parent |
| StartupMigration.LinkedExactly | backend/app/main.py:208-235 | the first row of each named repository, if it is unlinked, gets a project, the one labelled like it; every other row stays as it was |
| StartupMigration.SecondRowStaysUnlinked | backend/app/main.py:208-235 | an unlinked row behind a linked one for the same repository stays unlinked |
| StartupMigration.OnlyOneRowIsLinked | backend/app/main.py:208-235 | of two unlinked rows for one repository a run links the first only |
| StartupMigration.SecondRunIsNoOp | backend/app/main.py:146-146 | a second run changes nothing |
| StartupMigration.SecondRunCommits | backend/app/main.py:146-146 | and finds the index intact and no collision, so it commits as well |
| ResetTaxonomy.Taxonomy.SafeIds | scripts/reset_taxonomy.py:37-59 | the loop collects exactly the archived empty clusters that nothing refers to |
| ResetTaxonomy.Taxonomy.Run | scripts/reset_taxonomy.py:37-96 | the three deletes in sequence |
| ResetTaxonomy.NothingDangles | scripts/reset_taxonomy.py:77-94 | afterwards no meta-pattern and no link points at a missing cluster, and no link at a missing optimization, from any database |
| ResetTaxonomy.ResolvableStays | scripts/reset_taxonomy.py:61-94 | clusters and optimizations that rows could find before they still find, and no sound row is lost |
| ResetTaxonomy.MetaReferencesExactly | scripts/reset_taxonomy.py:61-67 | exactly which links end up with a missing meta-pattern |
| ResetTaxonomy.MetaReferenceLost | scripts/reset_taxonomy.py:61-67 | a sound link that the run leaves with a missing meta-pattern |
| ResetTaxonomy.OthersUntouched | scripts/reset_taxonomy.py:37-72 | a cluster survives exactly when it is not archived, not empty, or referenced by an optimization, a child or a link |
| ResetTaxonomy.RowsFall | scripts/reset_taxonomy.py:61-94 | a run that changes anything removes a row |
| ResetTaxonomy.Converges | scripts/reset_taxonomy.py:11-11 | repeated runs reach a fixpoint within as many runs as there are rows |
| ResetTaxonomy.FixpointMeaning | scripts/reset_taxonomy.py:37-94 | the fixpoints are the databases with nothing safe to delete and nothing dangling |
| ResetTaxonomy.SecondRunDeletes | scripts/reset_taxonomy.py:43-59 | exactly which clusters a second run deletes |
| ResetTaxonomy.IdempotentExactly | scripts/reset_taxonomy.py:11-11 | the script is idempotent exactly when this run unlocks no cluster |
| ResetTaxonomy.TwoRunsNeeded | scripts/reset_taxonomy.py:49-53 | a parent and child for which two runs differ |
| WarmPath.Timer.ApplyDirtyMarks | backend/app/main.py:31-63 | marks every non-empty id of an event and nothing else |
| WarmPath.Timer.OnEvent | backend/app/main.py:1135-1163 | which events mark clusters and set the flag, in one step |
| WarmPath.Timer.RunWarmPath | backend/app/services/taxonomy/engine.py:1037-1059 | a call by whichever caller: skipped when the lock is held; else it takes the lock and takes and clears the dirty set, except that the first cycle looks at everything |
| WarmPath.Timer.Wake | backend/app/main.py:1699-1712 | the flag is cleared and the debounce begins or begins again |
| WarmPath.Timer.Expire | backend/app/main.py:1713-1744 | a time-out without a signal makes an attempt to run |
| WarmPath.Timer.RunEnds | backend/app/services/taxonomy/engine.py:1053-1059 | the end of the run releases the lock |
| WarmPath.Timer.Finish | backend/app/main.py:1697-1702 | the timer waits again |
| WarmPath.StepInv | backend/app/main.py:1697-1744 | every step of the timer, the listener and the other callers keeps the invariant on clock, deadlines, flag, marks and attempts |
| WarmPath.WakeUpLostExactly | backend/app/services/taxonomy/engine.py:1040-1051 | a signal that no run has followed has the flag up or is being debounced, except exactly when the timer's latest attempt, for all the signals so far, was skipped by the lock; its marks stay, and the timer tries again at the end of the interval |
| WarmPath.NoLostWakeUp | backend/app/main.py:1697-1716 | so no wake-up is lost as long as no attempt finds the lock held |
| WarmPath.LockLosesAWakeUp | backend/app/services/taxonomy/engine.py:1463-1486 | a run in which a signal is debounced while another caller holds the lock, and its wake-up is lost |
| WarmPath.FirstRunTakesTheMarks | backend/app/services/taxonomy/engine.py:419-437 | the first run that starts after a signal, whoever starts it, takes all its marked clusters |
| WarmPath.MarksWait | backend/app/services/taxonomy/engine.py:419-437 | until a run follows the signal they are all dirty |
| WarmPath.DirtyExactly | backend/app/main.py:31-63 | one step: an id comes into the dirty set exactly by a mark or by an event that gets through and names it, and a run that is not the first takes all that are in it |
| WarmPath.FirstRunTakesTheEvent | backend/app/main.py:1135-1163 | from the event on: every non-empty id that it names is dirty until a run really starts, and the first one that does takes it or looks at every cluster |
| WarmPath.FullIsFirst | backend/app/services/taxonomy/engine.py:419-437 | only the first run that is not skipped looks at every cluster |
| WarmPath.LockExactly | backend/app/services/taxonomy/engine.py:1040-1059 | in every reachable state the timer holds the lock only while it runs; its attempt takes a free lock and leaves a held one |
| WarmPath.NeverStuck | backend/app/main.py:1697-1744 | in every reachable state the timer can go on, if only when its deadline has come |
| WarmPath.RunsHaveCauses | backend/app/main.py:1697-1716 | a debounced attempt is made exactly 30 seconds after the last disturbance of its wait and for a signal that no attempt has seen; one on the interval exactly at its end, when each signal has had a run or a skipped attempt |
| WarmPath.WithinTheIntervalExactly | backend/app/main.py:1653-1659 | an attempt is made within the interval exactly when its wait was undisturbed or its disturbances leave a gap of 30 seconds that is over by then |
| WarmPath.OverdueOnlyWhenRestless | backend/app/main.py:1704-1714 | a wait outlasts the interval only while its disturbances leave no such gap |
| WarmPath.EveryRunIsPaidFor | backend/app/main.py:1146-1163 | there are at most as many debounced attempts as signals, and only events let through by the filter are signals |
| WarmPath.OwnEventsThatHurry | backend/app/main.py:1146-1154 | which of the events of the warm and cold path pass the filter |
| WarmPath.ARunCausesAnother | backend/app/services/taxonomy/engine.py:4677-4690 | a run that discovers a domain causes another run |
| WarmPath.SignalsCanStarveTheRun | backend/app/main.py:1704-1714 | a signal every 29 seconds puts the run off |
| WarmPath.NoBoundOnWaiting | backend/app/main.py:1653-1659 | so no bound on the wait for a run holds |
| Retry.EstimatedWait | backend/app/providers/base.py:72-85 | the estimate is the whole seconds until the reset |
| Retry.CallProviderWithRetry | backend/app/providers/base.py:283-391 | the loop refines the recursive policy |
| Retry.PolicyMeaning | backend/app/providers/base.py:283-391 | calls end at the first stopping outcome or the last attempt, with that outcome, and the sleeps in between |
| Retry.RetryContract | backend/app/providers/base.py:283-391 | at most max_retries + 1 calls, none after a stopping outcome, and a rate-limit error escapes exactly when one publication was attempted |
| Retry.NextCallExactly | backend/app/providers/base.py:283-391 | a call is followed by another one exactly when attempts are left and it ended in an error that is not final, or in a rate limit of a known wait below 31 seconds, or given as at most 30 |
| Retry.SleepsExactly | backend/app/providers/base.py:348-369 | how long each sleep is, in terms of the delay, the reset and the clock |
| Retry.RateLimitSleep | backend/app/providers/base.py:313-361 | the sleep is at least the estimate and at most 30 s, so the next call is not before the reset, or less than 1 s early at an estimate of exactly 30 |
| Retry.TotalSleep | backend/app/providers/base.py:348-369 | total sleep is at most max_retries times the longer of 30 s and the delay |
| Retry.OrdinarySleep | backend/app/providers/base.py:348-381 | without rate limits the total is exactly one delay for each call but the last |
| ResetTime.DayCount | backend/app/providers/claude_cli.py:145-160 | counting year by year gives the closed form of the calendar with its leap days |
| ResetTime.OrdinalOrdered | backend/app/providers/claude_cli.py:155-158 | day numbers follow the order of dates |
| ResetTime.MonthsBegin | backend/app/providers/claude_cli.py:145-160 | on which day of the year each month begins, in common and in leap years |
| ResetTime.DatesExactly | backend/app/providers/claude_cli.py:145-160 | which dates there are |
| ResetTime.KnownDays | backend/app/providers/claude_cli.py:145-160 | the day numbers of 1 January 1970 and of the last day of the year 9999 |
| ResetTime.TimeOnlyIsNext | backend/app/providers/claude_cli.py:161-167 | a time alone gives the first instant after now with that time of day, within 24 hours |
| ResetTime.MidnightFollows | backend/app/providers/claude_cli.py:145-167 | the last microsecond of a day is followed by midnight of the next |
| ResetTime.NoSuchTime | backend/app/providers/claude_cli.py:124-138 | a time of day that does not exist has no answer on any date |
| ResetTime.TimeOnlyAnswer | backend/app/providers/claude_cli.py:124-167 | a time alone has an answer exactly when there is such a time of day and it is not over on the last day of the calendar |
| ResetTime.DatedIsLater | backend/app/providers/claude_cli.py:139-160 | a dated reset is after now, this year or at most 366 days away next year |
| ResetTime.DatedIsNext | backend/app/providers/claude_cli.py:139-160 | no moment with those fields in any year lies between now and the result |
| ResetTime.OrdinaryDateAnswer | backend/app/providers/claude_cli.py:148-160 | any date but 29 February has no answer exactly when it never exists or its next occurrence is past year 9999 |
| ResetTime.LeapDayAnswer | backend/app/providers/claude_cli.py:153-160 | 29 February has an answer exactly when the current year's is still to come, although another follows within 8 years |
| ResetTime.TwelveHourClock | backend/app/providers/claude_cli.py:124-129 | twelve-hour input names each hour of the day exactly once |
| ResetTime.UtcIsTheSameInstant | backend/app/providers/claude_cli.py:169-171 | the UTC answer is as far from now as the local one, and missing exactly when the shift leaves the years 1 to 9999 |
| ResetTime.UtcExists | backend/app/providers/claude_cli.py:169-171 | which happens in no year from 2 to 9997 |
| SqlGuard.IsWriteStatement | backend/app/database.py:193-215 | the stripping loop ends and gives the verdict on the core |
| SqlGuard.TriviaNeverMatter | backend/app/database.py:200-209 | prefixing white space and closed comments changes neither the core nor the verdict |
| SqlGuard.CoreIsBare | backend/app/database.py:200-210 | what is left begins with no white space and no complete comment, and stripping it again changes nothing |
| SqlGuard.BareExactly | backend/app/database.py:200-210 | text is bare exactly when it begins with no white space, no line comment and no block comment that is closed |
| SqlGuard.Decompose | backend/app/database.py:200-209 | what was removed is white space, closed comments, and at most an unfinished line comment |
| SqlGuard.WritesExactly | backend/app/database.py:193-215 | a statement is a write exactly when, behind closed trivia, it begins with INSERT, UPDATE, DELETE or REPLACE, or with WITH and has one of them as a word, in any case |
| AuditHook.ReadEngine.InstallHook | backend/app/database.py:223-298 | a second installation is refused and changes nothing |
| AuditHook.ReadEngine.UninstallHook | backend/app/database.py:301-314 | removes the installed hook, or does nothing |
| AuditHook.ReadEngine.Check | backend/app/database.py:244-294 | the verdict on a statement |
| AuditHook.OneListener | backend/app/database.py:218-314 | over any run the hook is registered once on its engine and nowhere else |
| AuditHook.InstallStands | backend/app/database.py:218-314 | an installation stands until the next removal, and a second one does not replace it |
| AuditHook.FlagsExactThroughout | backend/app/database.py:172-184 | the flags say throughout a run whether a scope is executing exactly when no scope is left inside another of its kind |
| AuditHook.VerdictsExactly | backend/app/database.py:244-294 | a statement is reported exactly when it is a write and no scope is executing; both kinds at once refuse every statement |
| AuditHook.NestedScopeIsExposed | backend/app/database.py:176-178 | a nested scope whose end exposes the outer one |
| ProbeRunMigration.Schema.RunUpgrade | backend/alembic/versions/58510d3f6b81_add_run_row_table_foundation_p3.py:58-150 | the guarded upgrade; it fails without change exactly when both tables or neither exist |
| ProbeRunMigration.Schema.RunDowngrade | backend/alembic/versions/58510d3f6b81_add_run_row_table_foundation_p3.py:153-241 | the downgrade; it fails without change unless only the new table exists |
| ProbeRunMigration.RoundTrip | backend/alembic/versions/58510d3f6b81_add_run_row_table_foundation_p3.py:58-241 | upgrading and downgrading again is the identity on the old table |
| ProbeRunMigration.UpgradeIsIdempotent | backend/alembic/versions/58510d3f6b81_add_run_row_table_foundation_p3.py:66-74 | a repeated upgrade changes nothing and no row is lost |
| ProbeRunMigration.DowngradeKeepsExactly | backend/alembic/versions/58510d3f6b81_add_run_row_table_foundation_p3.py:213-235 | exactly the probe rows are kept, with what was not NULL unchanged and the rest at its default |
| ProbeRunMigration.DownUp | backend/alembic/versions/58510d3f6b81_add_run_row_table_foundation_p3.py:126-145 | which row survives a downgrade and an upgrade; a second downgrade loses nothing more |
| ProbeRunMigration.DowngradeUpgrade | backend/alembic/versions/58510d3f6b81_add_run_row_table_foundation_p3.py:58-241 | the other round trip is the identity exactly when every row is of that kind |
| ActivityHistory.GetHistory | backend/app/services/taxonomy/event_logger.py:468-493 | a slice of the readable events of a day |
| ActivityHistory.Collect | backend/app/routers/clusters.py:463-474 | the walk over the days, newest first |
| ActivityHistory.RangePage | backend/app/routers/clusters.py:440-483 | one page, its total and has_more, and when a range is refused |
| ActivityHistory.PagesAreTheRange | backend/app/routers/clusters.py:462-483 | the pages together are the whole range, newest first and once each, exactly when no day stores more than limit + 1 events |
| ActivityHistory.HasMoreIsRight | backend/app/routers/clusters.py:476-483 | under exactly that condition has_more is right at every offset |
| ActivityHistory.NewestAreLost | backend/app/routers/clusters.py:467-474 | a crowded day loses its newest events |
| ActivityHistory.NewestOfThreeIsLost | backend/app/routers/clusters.py:467-474 | three events and a limit of 1: the newest is on no page |
| ActivityHistory.DayPage | backend/app/routers/clusters.py:485-499 | one page of a single day |
| ActivityHistory.DayPagesInOrder | backend/app/routers/clusters.py:489-494 | the pages of a day are in order exactly when there is one |
| ActivityHistory.OldestPageFirst | backend/app/routers/clusters.py:489-494 | two events and a limit of 1: the older comes first |

## Left out

- HTTP, subprocesses, files, logging, database sessions, JSON parsing and the regular-expression engine: the models
  start from what these deliver (chunks, rows, groups of a match, decoded messages).
- Timestamps, generated row ids and labels that no decision depends on.
- The asyncio cancellation paths other than the clean exit of a stream and the release of a lock.
- The debounced disconnect broadcast, the disconnect checker and the provider side of the routing manager
  (`backend/app/services/routing.py`): only its sampling and connection fields and its persisted file are modelled.
- The subscription to a single run: its filter and its replay of the last half second. Its queue is one of the
  subscribers' queues, of its own size.
- The write queue, the phases inside a warm-path run, and the scheduler that may put part of the dirty set back.
- `_extract_content`, the model tables, the effort gating and the window against duplicate extraction dispatch: case
  analysis or best effort.
- The schema steps of the migrations (tables, columns and indexes), except the uniqueness of live templates and of
  domain labels. `ProbeRunMigration` takes each revision as one transaction, as its own text does.
- Collections returned in no stated order: the model takes table order, and the template migration any order.
- Retry.TotalSleep: counts microseconds; floating-point rounding of `total_seconds` and of the delay is not modelled.
- ResetTime.TimeOnlyIsNext: a zone with a fixed offset; changes of daylight saving time are not modelled.
- SqlGuard.WritesExactly: ASCII white space and letters only.
- SseText.Consume: chunks are ASCII text; decoding of bytes and network errors are not modelled.
- Sessions.LockProtocol: the transports of terminated sessions, which another part of the library removes, stay
  registered in the model.
