# Verification of the log pipeline, the bulk insert, the live board and the chat hub

This Dafny project models the server's concurrent and stateful core and proves what it is
for. `dafny verify dfyconfig.toml` checks all of it.

**The log pipeline** (`Pipeline*.dfy`, `LogIngestor.dfy`, `Backoff.dfy`). `Pipeline` is a
transition system: any number of `Submit` calls, each in separate steps (check `stopping`,
send, count), the dispatcher, the workers with their two counter updates, `Stop`, and the
hard abort, interleaved one atomic action at a time; a `select` is a choice among the enabled
actions and a channel is its buffer. `PipelineInvariants` gives the invariant of all
reachable states, one concern per predicate, and shows it kept by every action.
`PipelineTheorems` states what follows over all interleavings: conservation, order, exact
drain, bounded memory, at-least-once under lost acknowledgements, counters, channel
discipline. `PipelineProgress` bounds every run, excludes deadlock, and gives the exact
condition under which an accepted entry can be left behind. `PipelineWitnesses` exhibits runs
that attain the bounds. `LogIngestorObject` is the ingestor in the source's own form, a class
whose fields the goroutines' loops update in place; between two actions any run of the other
goroutines may happen, and the object's `trace` is always a run of the transition system, so
everything proved of reachable states holds of the object. Its workers call the repository's
`BulkInsert` on the database object, whose table holds the ingestor's rows, marked, among those
of other sessions. The k-th attempt's delay is tied
to `Backoff`, which works on int64 with wrap-around. Because `Valid` says that the fields are
those of the state the trace leads to, a contract that names the trace fixes the whole new
state.

**The bulk insert** (`Sql.dfy`, `LogRepository.dfy`). The generated text gets an independent
meaning, by a parser of its column list and VALUES clause and a binder of `$n` to the argument
and of each value to the column named at its place; `BuildInsert`, a loop in a loop, is shown to produce text and arguments that mean exactly the entries.
`BulkInsert` runs against a database object whose calls may fail, or take effect and lose the
reply, while other sessions write; it refines one atomic append, the insertion that the
pipeline's workers rely on.

**Turns, watchers and the cache** (`Game.dfy`, `GameServer.dfy`, `Scoring.dfy`, `Ranking.dfy`). `GameModel`
is a transition system of overlapping Plays (AddPoints, SetPoints, then Notify signal by
signal under its lock) and Leaderboard streams. No update is lost to coalescing; the cache is
off the durable score by a bounded amount, and exactly when it can stay wrong is stated.
`GameServerObject` has the loops themselves, over the stores and the notifier they share, as
runs of that system. `Ranking` proves the selection loop against a definition that admits one
board only.

**Chat and log streams** (`Chat.dfy`, `ChatHandler.dfy`, `LogHandler.dfy`). The hub with its
32-message buffers: what each subscriber gets over any run, equal to what it would get alone.
The two stream handlers run against the hub and against the ingestor object.

## Where the code and its comments differ

The model follows the code.

- `Stop` is described as draining everything already accepted
  (internal/service/log_ingest.go:165-167), and `finish` as losing nothing. Both cases of
  Submit's second select can be ready, so a call that passed its check may still send after
  the drain has ended, and return nil. `PipelineProgress.StrandingExact` gives the exact
  condition. With RPCs stopped first, as in cmd/server/main.go:118-124, no call is between its
  selects and nothing is left behind.
- `Stop` on a pipeline that was never started returns nil with everything sent still queued
  (`PipelineTheorems.NeverStarted`, `PipelineWitnesses.UnstartedKeeps`).
- `Queued` is described as entries accepted but not yet written
  (internal/service/log_ingest.go:54). It can be negative, for two reasons: `accepted` is
  counted after the send (`PipelineWitnesses.QueuedNegative`), and it is loaded before
  `written` (`PipelineWitnesses.NegativeBetweenLoads`). `PipelineTheorems.QueuedReported` says
  exactly when.
- The delay doubles up to `MaxBackoff` for ever only if `MaxBackoff` is below 2^62
  nanoseconds; from there on doubling overflows int64 and the delay turns negative
  (`Backoff.DelayExact`).
- A stale leaderboard entry is said to come from a failed update and to be repaired by the
  next one (internal/service/game.go:48-50). Two overlapping turns of one user can also leave
  a wrong score with every call a success and no update to come
  (`GameModel.OverlapLeavesStale`); `GameModel.WrongExact` says exactly when.
- A warmed cache is said to be correct (internal/service/leaderboard.go:47-49). A name without
  a durable record that was cached before stays, because nothing is ever removed
  (`GameServerObject.WarmCache` says exactly when, `GameServerObject.WarmLeftover` exhibits it).
- A retry is said not to duplicate rows that already landed
  (internal/adapter/postgres/log_repository.go:37-41). That holds for errors that leave
  nothing committed; a batch whose deciding reply is lost is inserted again
  (`LogRepositoryObject.InsertAgain`, `PipelineWitnesses.RetryDuplicates`).
  `LogRepositoryObject.BulkInsert` says exactly when, `PipelineTheorems.ExactlyOnceIff` what it
  means for the drain, and `PipelineTheorems.AtLeastOnce` bounds it.

## Model

| member | source | states |
|---|---|---|
| Pipeline.Normalise | internal/service/log_ingest.go:92-119 | Any request becomes a usable configuration with the least sizes that are no smaller; a usable one is left alone |
| PipelineInvariants.InitInv | internal/service/log_ingest.go:112-118 | A new pipeline satisfies the invariant |
| PipelineInvariants.SubmitKept | internal/service/log_ingest.go:147-163 | Check, send, count and both refusals keep the invariant |
| PipelineInvariants.ControlKept | internal/service/log_ingest.go:123-188 | Start, Stop and the hard abort keep it |
| PipelineInvariants.DispatchKept | internal/service/log_ingest.go:206-280 | Every action of the dispatcher, flush and finish keeps it |
| PipelineInvariants.WorkKept | internal/service/log_ingest.go:283-335 | Every action of a worker keeps it |
| PipelineInvariants.StepInv | internal/service/log_ingest.go:123-335 | Every action of every goroutine keeps the invariant |
| PipelineInvariants.RunInv | internal/service/log_ingest.go:123-335 | It holds after every run from a state where it holds |
| PipelineTheorems.Conservation | internal/service/log_ingest.go:206-335 | Hard aborts included, the entries sent are, as multisets, those in each place of the pipeline, acknowledged, or given up; the table is the acknowledged rows and those whose acknowledgement was lost; nothing is given up before a hard abort |
| PipelineTheorems.OrderOfSends | internal/service/log_ingest.go:206-289 | The sends in order are the cut batches, the batch in the making, then the queue; without abort the cut batches are those received, in the channel, being handed over; nothing is sent that no Submit was given |
| PipelineTheorems.TableIsBatches | internal/service/log_ingest.go:283-313 | The table is whole batches, each contiguous and each one that was cut, so every row was sent; with honest errors they are distinct batches |
| PipelineTheorems.OneWorkerPrefix | internal/service/log_ingest.go:283-313 | With one worker, until a hard abort and with no acknowledgement lost, the table is a prefix of the sends |
| PipelineTheorems.DrainExact | internal/service/log_ingest.go:165-188 | When Stop returns nil, the table holds everything sent until the drain saw an empty queue, as often as sent, plus one copy of a batch of these entries per lost acknowledgement, at most one per retry; the rest is in the queue |
| PipelineTheorems.ExactlyOnceIff | internal/service/log_ingest.go:165-188 | When Stop returns nil the table holds what was taken out of the queue exactly once if and only if no acknowledgement was lost |
| PipelineTheorems.ExactlyOnce | internal/service/log_ingest.go:139-188 | With honest errors everything sent before Stop is in the table exactly once, the table holds nothing else than submissions, and only later sends can be missing |
| PipelineTheorems.NeverStarted | internal/service/log_ingest.go:165-188 | Stop without Start finds nothing running, nothing written and every send still queued |
| PipelineWitnesses.UnstartedKeeps | internal/service/log_ingest.go:147-188 | For every configuration some run has an entry accepted by a pipeline never started and left in the queue by Stop |
| PipelineTheorems.Backpressure | internal/service/log_ingest.go:291-298 | In every reachable state, sent minus written never exceeds QueueSize + BatchSize * (3 * Workers + 1) plus what was given up, which is nothing before a hard abort |
| PipelineTheorems.OutageBound | internal/service/log_ingest.go:139-146 | While no row is taken at most that many entries can be sent and not given up: 14,692 with the default tuning |
| PipelineWitnesses.CapacityReached | internal/service/log_ingest.go:291-298 | The bound is exact: for every configuration some run attains it |
| PipelineTheorems.AtLeastOnce | internal/service/log_ingest.go:299-334 | Only batches that were cut are attempted; acknowledged ones are in the table, none more often than attempted, and extra rows are at most BatchSize per failed attempt |
| PipelineTheorems.DrainAtLeastOnce | internal/service/log_ingest.go:165-188 | After the drain every batch cut is in the table, and rows exceed Written by at most BatchSize per retry |
| PipelineWitnesses.RetryDuplicates | internal/service/log_ingest.go:299-334 | For every configuration some run sends one batch and has it in the table twice, without any abort |
| PipelineTheorems.QueuedExact | internal/service/log_ingest.go:86-89 | In every reachable state accepted minus written is what is unwritten less the sends not yet counted |
| PipelineTheorems.QueuedReported | internal/service/log_ingest.go:190-201 | What Queued is for every run between the two loads it is the difference of, exactly when it is negative, and its value at rest |
| PipelineWitnesses.QueuedNegative | internal/service/log_ingest.go:154-157 | For every configuration some run makes the difference of the counters negative |
| PipelineWitnesses.NegativeBetweenLoads | internal/service/log_ingest.go:191-201 | For every configuration Queued can be reported negative with every send counted at both loads |
| PipelineTheorems.BatchesAndRows | internal/service/log_ingest.go:303-306 | Batches <= Written <= Batches * BatchSize whenever no worker is between its two updates |
| PipelineTheorems.CountersRiseRun | internal/service/log_ingest.go:86-89 | All four counters are monotone over every run |
| PipelineTheorems.ChannelDiscipline | internal/service/log_ingest.go:218-280 | No send on a closed channel and no second close; batch and channel sizes |
| PipelineTheorems.ClosedOnce | internal/service/log_ingest.go:234-280 | On every path the batches channel is closed exactly once, by the time the dispatcher has exited |
| PipelineTheorems.NothingAfterClose | internal/service/log_ingest.go:226-232 | Nothing is handed over after the close |
| PipelineTheorems.ShortCuts | internal/service/log_ingest.go:203-280 | Over every run the batches cut before they were full are at most the ticks, ends of the drain and hard aborts in it |
| PipelineTheorems.FewestBatches | internal/service/log_ingest.go:234-261 | Without ticks and aborts a finished drain has cut exactly ceil(entries / BatchSize) batches |
| PipelineProgress.StepUsesWork | internal/service/log_ingest.go:147-335 | Every step but a tick without a batch strictly lowers a potential, up to what new calls and failed inserts add |
| PipelineProgress.RunsEnd | internal/service/log_ingest.go:123-335 | From every reachable state, the potential there and what new calls and failed inserts add bound the steps of every run, stutters aside |
| PipelineProgress.DrainIsShort | internal/service/log_ingest.go:165-188 | The drain ends: after Stop a measure over Submits past their check, entries by stage, dispatcher phase and workers bounds the steps of every run, up to four for each failed insert, however many callers are refused meanwhile |
| PipelineProgress.AbortIsShort | internal/service/log_ingest.go:79-82 | After Stop and a hard abort such a measure bounds the steps of every run whatever the inserts do, so an abort ends with a dead database |
| PipelineProgress.RunsAreShort | internal/service/log_ingest.go:165-188 | The same from the start, with the number of workers for the potential |
| PipelineProgress.Progress | internal/service/log_ingest.go:206-289 | No deadlock: while stopping or aborted and any goroutine is alive, some goroutine of the pipeline can step |
| PipelineProgress.DrainRun | internal/service/log_ingest.go:165-188 | From every shutdown state the pipeline can reach its end on its own, with the queue drained |
| PipelineProgress.StrandingExact | internal/service/log_ingest.go:147-188 | After Stop an accepted entry can be left behind if and only if some Submit was between its two selects when Stop was called |
| PipelineProgress.NoneLeft | internal/service/log_ingest.go:147-188 | With no such call, over every continuation, Stop's return leaves nothing behind |
| PipelineProgress.Strand | internal/service/log_ingest.go:154-162 | With such a call, a concrete run that leaves its entry behind |
| Backoff.DelayIsCapped | internal/service/log_ingest.go:299-334 | Below 2^62 delay k is min(MinBackoff * 2^k, MaxBackoff), within bounds and never shrinking |
| Backoff.DelayExact | internal/service/log_ingest.go:105-110 | The delays are the capped doublings for ever if and only if MaxBackoff < 2^62 |
| PipelineTheorems.WaitIsCapped | internal/service/log_ingest.go:327-333 | In every reachable state a worker that waits after its k-th failed attempt waits for min(MinBackoff * 2^(k - 1), MaxBackoff) |
| Backoff.RideOutOutage | internal/service/log_ingest.go:299-334 | An outage of length T costs at most L + ceil(T / MaxBackoff) retries and the write lands before T + MaxBackoff |
| Backoff.DoublingsLeast | internal/service/log_ingest.go:333-333 | L is the least number of doublings that reach the cap |
| LogIngestorObject.UndisturbedRun | internal/service/log_ingest.go:123-335 | Whatever run the other goroutines make, a goroutine finds its own variables as they were |
| LogIngestorObject.LogIngestor.constructor | internal/service/log_ingest.go:92-119 | Any configuration and any database yield a valid, empty ingestor |
| LogIngestorObject.LogIngestor.Submit | internal/service/log_ingest.go:147-163 | It is exactly one call of its caller, and the entry has been sent, at a known place in the order of sends, if and only if nil is returned; a stopped pipeline refuses; it waits only while the queue is full and nobody stops it or cancels |
| LogIngestorObject.LogIngestor.Stats | internal/service/log_ingest.go:191-201 | With other goroutines between its loads: each counter is that of a state in between, Queued is what is unwritten at the second load less the sends the first could not see, negative exactly when these are more, and exact at rest |
| LogIngestorObject.LogIngestor.TakeEntry | internal/service/log_ingest.go:238-261 | Receiving an entry, in the loop or in the drain, cuts a batch exactly when it is full |
| LogIngestorObject.LogIngestor.HandOverOut | internal/service/log_ingest.go:226-231 | The batch becomes the newest in the channel, never closed at that moment, or a hard abort gives it up; it is kept only while the channel is full and nothing is aborted |
| LogIngestorObject.LogIngestor.Flush | internal/service/log_ingest.go:218-232 | An empty batch needs nothing; any other becomes the newest in the channel unless a hard abort gives it up |
| LogIngestorObject.LogIngestor.Finish | internal/service/log_ingest.go:234-250 | When it returns the channel is closed, and without abort everything sent before Stop has left the queue; until then it has just taken an entry or cannot hand a batch over |
| LogIngestorObject.LogIngestor.Turn | internal/service/log_ingest.go:252-279 | A turn of the loop takes the ready case that its select picks, or waits for the tick |
| LogIngestorObject.LogIngestor.Dispatch | internal/service/log_ingest.go:252-279 | For every sequence of picks and every interleaving each turn does; when the loop returns the channel is closed, and without abort everything sent before Stop has left the queue |
| LogIngestorObject.LogIngestor.Work | internal/service/log_ingest.go:283-289 | A worker leaves only when the channel is closed and empty, and idles only while it is open and empty |
| LogIngestorObject.LogIngestor.CallBulkInsert | internal/service/log_ingest.go:303-303 | Through the repository: among rows of others the database gets the whole batch or none of it, and it counts as written exactly when every database call worked |
| LogIngestorObject.LogIngestor.JudgeError | internal/service/log_ingest.go:314-319 | Only a hard abort gives a batch up |
| LogIngestorObject.LogIngestor.Retry | internal/service/log_ingest.go:314-333 | After an error: the same batch is attempted again with the next delay, or a hard abort ends it |
| LogIngestorObject.LogIngestor.Pause | internal/service/log_ingest.go:327-333 | The wait ends in another attempt with the next delay, or in a hard abort |
| LogIngestorObject.LogIngestor.WriteWithRetry | internal/service/log_ingest.go:299-335 | It ends with its batch acknowledged during the call, or after a hard abort; until then each failed attempt takes the delay one step of Backoff further |
| LogIngestorObject.LogIngestor.BeginStop | internal/service/log_ingest.go:168-169 | `stopping` is closed once, however often Stop is called |
| LogIngestorObject.LogIngestor.FinishStop | internal/service/log_ingest.go:177-182 | What our rows in the database and the queue are when Stop returns nil, and that its counters are final but for late sends |
| Sql.ValueOfItoa | internal/adapter/postgres/log_repository.go:97-97 | Decimal printing and reading are inverse on all naturals |
| Sql.ParseRowsInverse | internal/adapter/postgres/log_repository.go:86-102 | Parsing the printed rows of placeholders gives them back |
| Sql.HeaderNames | internal/adapter/postgres/log_repository.go:83-83 | The list of columns that the statement names is username, level, message, source, logged_at |
| Sql.TextOfTwo | internal/adapter/postgres/log_repository.go:77-80 | The text of the rows for two entries, letter by letter |
| Sql.ArgAt | internal/adapter/postgres/log_repository.go:85-102 | Argument 5r + c is column c of row r |
| Sql.DenoteBuilt | internal/adapter/postgres/log_repository.go:77-104 | Read by a parser of its column list and rows, which gives each value to the column named at its place, the statement for a list of entries means those entries in order, column for column; only the empty list has none |
| Sql.BuildInsert | internal/adapter/postgres/log_repository.go:81-104 | The loops produce such a statement, its text in full, with five arguments per entry |
| LogRepositoryObject.ChunksCover | internal/adapter/postgres/log_repository.go:13-24 | The chunks are the batch in order, none empty, at most 13107 rows and 65535 placeholders each, ceil(n / 13107) in number |
| LogRepositoryObject.CallsOf | internal/adapter/postgres/log_repository.go:42-75 | How many database calls a complete insert makes, by its length |
| LogRepositoryObject.BulkInsert | internal/adapter/postgres/log_repository.go:42-75 | For every pattern of faults: the whole batch appended or nothing, success exactly when every call works, and the batch in the table despite an error exactly when all calls but the last work and the last loses its reply |
| LogRepositoryObject.InsertInTransaction | internal/adapter/postgres/log_repository.go:57-75 | The same for the chunked path; the statements executed are the chunks in order, all of them on success |
| LogRepositoryObject.InsertAgain | internal/adapter/postgres/log_repository.go:37-41 | For every non-empty batch a database on which a failed call and its retry leave the batch twice |
| GameModel.StepInv | internal/transport/grpc/game_handler.go:106-129 | Every action of every Play and watcher keeps each watcher up to date, signalled, about to read, or owed a signal |
| GameModel.NoUpdateLost | internal/adapter/memory/leaderboard_notifier.go:22-55 | Over every interleaving, a watcher with nothing pending and nothing owed has sent the present board |
| GameModel.WatchersSeeDurable | internal/service/game.go:42-59 | When turns are serial, that board ranks the durable scores of exactly those users who were cached at the start or have played |
| GameModel.CacheLag | internal/service/game.go:42-53 | A cached score is a total the durable record has held, off by at most the number of later AddPoints, or an untouched one cached before the start under a name without a record |
| GameModel.CacheExact | internal/service/game.go:42-53 | With turns that do not overlap and no failed SetPoints, a user who has played is cached with the durable score; the cache holds nobody else but who was there at the start |
| GameModel.OverlapLeavesStale | internal/service/game.go:48-53 | Two overlapping turns leave the cache wrong with every call a success |
| GameModel.WrongExact | internal/service/game.go:48-53 | The turns under way can end with a wrong score cached if and only if one of them carries a score that is not the durable one, or none is under way and the cache is wrong |
| GameServerObject.UndisturbedRun | internal/adapter/memory/leaderboard_notifier.go:25-55 | Whatever the others do, a goroutine finds its own variables as they were, and under the lock the same subscribers |
| GameServerObject.UserStore.AddPoints | internal/adapter/postgres/user_repository.go:69-81 | The new total, or an error and no change |
| GameServerObject.WarmCache | internal/service/leaderboard.go:50-67 | Afterwards the leaderboard has every durable score, or is as it was; it is the durable scores if and only if it held no name without a record |
| GameServerObject.WarmLeftover | internal/service/leaderboard.go:47-67 | For all durable scores, a leaderboard on which such a name survives |
| GameServerObject.GameServer.constructor | internal/service/game.go:27-33 | On an empty or warmed cache, which may hold names without a record, the server starts in an initial state |
| GameServerObject.GameServer.AddToTotal | internal/service/game.go:42-46 | The durable total first; a failure refuses the turn |
| GameServerObject.GameServer.Mirror | internal/service/game.go:48-53 | The leaderboard takes the new total or not, and the turn goes on |
| GameServerObject.GameServer.Notify | internal/adapter/memory/leaderboard_notifier.go:46-55 | A turn is answered only after every subscriber under the lock has been signalled, in whatever order; meanwhile watchers may take their signals |
| Scoring.ScoreIsRight | internal/domain/game.go:13-31 | Every input is scored and answered as the rule says of it trimmed and in lower case, and asks for the score exactly when that is "status" |
| Scoring.LowerIs | internal/domain/game.go:14-14 | Which letters have a lower case |
| Scoring.SpacesAre | internal/domain/game.go:14-14 | Which characters are trimmed |
| Scoring.ScoreIgnoresForm | internal/domain/game.go:13-31 | White space around a word and the case of its letters change neither its score nor whether it asks for the score |
| GameServerObject.GameServer.Play | internal/service/game.go:39-62 | The answer is the one the rule gives to the input; a turn whose durable write works writes the leaderboard, whose failure does not fail it; the reported total is one the record held right after this turn's points were added; failure and success are exactly a refused and a completed turn |
| GameServerObject.GameServer.SendBoard | internal/transport/grpc/game_handler.go:131-146 | The board read is the one sent, exactly when the read and the send work; otherwise nothing is sent |
| GameServerObject.GameServer.WatchTurn | internal/transport/grpc/game_handler.go:116-127 | A signal found pending is taken and answered with a board unless the client has left or the read or the send fails; the select waits only when nothing is ready |
| GameServerObject.GameServer.Leaderboard | internal/transport/grpc/game_handler.go:106-129 | A call that ends is unsubscribed, because the client left or a board failed; one that watches has at its last look found nothing to do or answered a signal, and has sent the present ranking unless a signal is pending or owed |
| GameServerObject.GameServer.CaughtUp | internal/transport/grpc/game_handler.go:116-127 | In its select, with no signal pending and none owed, a watcher's last board is the present ranking |
| Ranking.BoardUnique | internal/service/fakes_test.go:135-157 | The definition of a ranked board admits one board only, so map order does not matter |
| Ranking.NameLessFirst | internal/service/fakes_test.go:149-149 | Names compare by the first place where they differ |
| Ranking.LeaderboardStore.SetMany | internal/service/fakes_test.go:126-133 | Every given score is stored, the others kept |
| Ranking.LeaderboardStore.Top | internal/service/fakes_test.go:135-157 | The loop yields that board: size, ranks, own scores, strict order, nobody omitted who outranks one included |
| Ranking.Top | internal/service/leaderboard.go:34-39 | The board of the clamped size |
| Chat.ChatBroadcaster.Subscribe | internal/adapter/memory/chat_broadcaster.go:34-53 | A new open channel with an empty buffer is registered |
| Chat.ChatBroadcaster.Unsubscribe | internal/adapter/memory/chat_broadcaster.go:42-51 | Removed and closed once; a second call does nothing |
| Chat.ChatBroadcaster.Publish | internal/adapter/memory/chat_broadcaster.go:59-68 | Whatever the order of the map, every registered buffer with room gets the message and no other changes |
| Chat.Isolation | internal/adapter/memory/chat_broadcaster.go:55-68 | In any run a subscriber's buffer is what it would be with no other subscriber |
| Chat.AccountedRun | internal/adapter/memory/chat_broadcaster.go:59-68 | Received then buffered is what found room; delivered and dropped add up to published |
| Chat.KeptIsSubsequence | internal/adapter/memory/chat_broadcaster.go:55-68 | What found room is an ordered subsequence, missing exactly what came to a full buffer |
| Chat.OfferedIsPublished | internal/adapter/memory/chat_broadcaster.go:34-68 | What was offered is what was published during the subscription |
| Chat.DeliveryExact | internal/adapter/memory/chat_broadcaster.go:34-68 | All of this for every subscriber over every run from its Subscribe on; a message is missing only if 32 were buffered |
| ChatHandler.SpeakerIsFirst | internal/transport/grpc/game_handler.go:86-103 | From the first accepted token on everything is published under its name, before it nothing |
| ChatHandler.SaidExactly | internal/transport/grpc/game_handler.go:94-102 | What each message publishes: its own text under that name |
| ChatHandler.ChatCall | internal/transport/grpc/game_handler.go:72-104 | The call's effect on the hub: subscribe, its messages among the events of others, unsubscribe |
| LogHandler.NameIsFirst | internal/transport/grpc/log_handler.go:62-71 | The first token names every entry of the stream |
| LogHandler.AcceptedTells | internal/transport/grpc/log_handler.go:73-94 | Each entry submitted has the resolved name, the message's own level, text and source, and its time if positive, else the server's |
| LogHandler.Ingest | internal/transport/grpc/log_handler.go:37-86 | The messages taken are each accepted by exactly one call, in order, under that name, as a subsequence of the pipeline's sends; the stream makes no other call but at most one that fails and sends nothing; each entry says what its message says; on end of stream Accepted is their number and the two deltas are the server-wide rise between the two Stats, not negative |

## Left out

- gRPC wiring, generated protobuf code, the command-line client, the load generator, configuration and the composition root: plumbing.
- Postgres, Redis and pgx themselves: the stores are objects that may fail at any call. Redis orders ties its own way; only the in-memory board's order is modelled, and the watcher results hold for any ranking.
- A statement that binds a wrong number of parameters is refused by Postgres; the model refuses only unbound and ill-typed ones. `BuildInsert` also gives the number of arguments.
- Registration, passwords, sessions and tokens: authentication is a parameter. That names are not empty is an assumption of `NameIsFirst` and `SpeakerIsFirst` only.
- The comparison of names by bytes: names compare by characters. Lower-casing of letters other than A to Z: none of them becomes a letter of the words that score.
- Mapping of errors to status codes, the greeter, the summary's message text, and log printing.
- Wall-clock time and fairness: ticks and the choices of a select are free, so no flush latency is claimed; only the backoff has a clock. A `BulkInsert` that hangs is a step that does not come.
- Stop's return with the caller's context error changes nothing but a log line; it may happen in any state and has no step.
- Several replicas: the notifier and the hub reach only this process.
- Go's direct hand-off between a blocked sender and a receiver is taken as a send into a buffer with room followed by a receive.
- The `attempt` printed in log lines is kept, the log lines are not.
- The calls that one BulkInsert makes of the database are one step of the pipeline; what other sessions, other workers included, commit between them is part of that step.
- LogIngestorObject.LogIngestor.Submit: its select waits, while nothing is ready, for at most `patience` looks after the first, where the source waits for ever; `Pending` is the answer of a call still waiting.
- LogIngestorObject.LogIngestor.Dispatch: takes as many turns as there are picks, because a loop that may run for ever has no total contract; that it does end after Stop is `DrainIsShort`, `AbortIsShort` and `Progress`. Finish takes at most `patience` entries after the first, and HandOverOut and Flush wait for at most that many looks.
- LogIngestorObject.LogIngestor.WriteWithRetry: follows a batch for at most `patience` attempts, and Work takes at most `patience` turns after the first. Each contract holds for every `patience`, so for every finite stretch of the source's loop.
- LogHandler.Ingest: takes the stream as the list of its messages, and each Submit in it waits for at most `patience` looks after the first.
- GameServerObject.GameServer.Notify: waits for the lock, while it is held, for at most `patience` looks after the first; the same holds of Play, and Leaderboard takes at most `patience` turns after the first.
- Between actions, `Interleave` stands for the other goroutines: its contract admits any run of theirs, and its body makes none.
- The second select value of a closed signal channel (internal/transport/grpc/game_handler.go:120-123) is left out: only the watcher itself closes its channel, on its way out.
