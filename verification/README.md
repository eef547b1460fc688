# Eventify: a verified model

Eventify takes in streams of events over gRPC, stores them in MongoDB through a queue, and keeps live metrics in
Redis. This project models the six stateful pieces of it that have properties over whole runs, and proves those
properties in Dafny 4.11. `dafny verify dfyconfig.toml` checks the whole project.

## What is modelled

- **Live metrics** (`redis_store`, `metrics_model`, `metrics_payload`, `metrics_window`, `metrics_commands`,
  `metrics_interleaving`, `metrics_keys`, `counters`, `ranking`, `metrics_service`, `metrics_dashboard`). Redis is a
  map from keys to values with an expiry time. A key is gone once the clock has passed its expiry time, reclaimed or
  not. A state pairs that map with the plain log of every recorded event; runs process events, let time pass and let
  Redis reclaim dead keys. `Ideal` recounts a key from the log, and `Agrees` says that every stored entry equals its
  recount and that a missing entry has outlived its time-to-live. Everything the dashboard shows is then stated on the
  log, and `MetricsPayload` says on the payloads what a recount counts. `MetricsInterleaving` resumes from any such
  state with any number of overlapping calls, one command at a time. `MetricsService` and `MetricsDashboard` are the
  imperative service: they send the source's commands to a flat keyspace of names, and read and merge hashes of
  decimal strings.
- **Protobuf `Struct`/`Value`/`ListValue`** (`struct_value`): the mutually recursive wrappers and unwrappers, with the
  loops of `Struct` written as loops.
- **API-key usage** (`api_key_usage`, `api_key_bounds`, `api_key_orderly`, `api_key_races`, `api_key_service`): the
  Redis counter, the per-process counters that decide when it is copied to Mongo, admission, and the initialisation.
  None of the callers wait, so the script call, the handling of its reply, the Mongo update and the two commands of an
  initialisation are steps of their own, in any order. `ApiKeyBounds` says what holds in all runs, `ApiKeyOrderly`
  when exactly the accounting is exact, `ApiKeyRaces` how it goes wrong; the services are in `ApiKeyService`.
- **Batchers** (`batchers`): the database buffer, the per-owner websocket buffers as heap arrays that a job may share,
  and the stream handler that feeds both.
- **Authentication** (`authentication`, `authentication_requests`, `redis_service`, on the same Redis): each request is
  a thread that runs from one `await` on shared state to the next, over one refresh slot per user and an expiring
  one-time code. `AuthenticationRequests` says what a request does that runs alone, and which requests whatever is in
  the state of any run goes back to.
- **Event queries** (`event_query`): filter building, sorting, skip and limit on a fixed snapshot. `stable_sort` is
  the sort that queries and ranked lists share.

## Where the code does not do what it seems to promise

- The previous window reaches ten minutes back, its buckets live for seven. `PreviousWindowCanMiss` is a run on which
  it loses an event; `PreviousTotalExactIff` and `PreviousUsersExactIff` say exactly when its total and its users are
  those of the log.
- The hourly buckets live for one hour, the chart shows twenty-four. `ChartCanMiss` and `ChartEntry` are the run and
  the exact condition.
- An event named `total_events` shares its field with the counter. `TotalCanExceed`, `ActiveTotalExactIff` and
  `DistributionAddsUp` say what that does to the total and to the percentages.
- Nobody waits for the usage hash, the replies of the script or the Mongo updates. `FirstStreamForgets`,
  `LateInitForgets`, `UpdatesOvertake`, `CountsFromZero` and `LossOvertaken` are runs on which the count goes wrong.
  `AdmissionBound` bounds by how much, in all runs but those in which updates overtake each other; `StepKeepsInvIff`
  is the exact condition, step by step, for the count to stay right.
- Two overlapping refreshes are both accepted with one id (`OverlapAcceptsTwice`); `AcceptedAgainIff` says that
  nothing else does that.

## Assumptions

- A recorded payload is a JSON object, or does not parse; its members are strings. No map key names a member of
  `Object.prototype`.
- `Date.now()` and the Redis clock are one clock that does not go back. Outside `MetricsInterleaving`, processing an
  event and reading the dashboard each happen at one moment.
- The commands of a process reach Redis, and their replies come, in the order in which they were sent. Queries break
  ties in storage order. E-mails are already normalised, and a user's id and e-mail stand for each other.
- The random country of the mock lookup is an arbitrary draw; bcrypt comparison is equality, SHA-256 an arbitrary
  function, refresh ids are drawn fresh and a refresh token that verifies was issued.

## Model

| member | source | states |
|---|---|---|
| Decimal.ParsePrinted | src/metrics/metrics-aggregation.service.ts:372-380 | `parseInt` undoes the printing of every integer |
| Decimal.Digits | src/metrics/metrics-aggregation.service.ts:372-380 | an integer prints as the digits of its value without leading zeros, after a minus sign if it is negative |
| Decimal.PrintingInjective | src/metrics/metrics-aggregation.service.ts:480-490 | distinct bucket numbers print differently |
| RedisStore.KeyProjection | src/metrics/metrics-aggregation.service.ts:103-119 | after any command list, a key holds what its own commands make of it, whatever was sent to other keys |
| MetricsModel.OpsForEvent | src/metrics/metrics-aggregation.service.ts:54-67 | an event sends to each bucket of its own minute, hour and day exactly that dimension's commands, and nothing to any other |
| MetricsModel.CounterOps | src/metrics/metrics-aggregation.service.ts:97-168 | one event's commands add its fields, once each, to a bucket that counts or collects them and renew its time-to-live |
| MetricsModel.LatencyOps | src/metrics/metrics-aggregation.service.ts:170-175 | push and trim keep the newest hundred response times |
| MetricsModel.StillLive | src/metrics/metrics-aggregation.service.ts:105-117 | no bucket expires while events still fall into it |
| MetricsModel.StepAgrees | src/metrics/metrics-aggregation.service.ts:34-75 | every step keeps each key equal to the recount of the log, or dead |
| MetricsModel.RunAgrees | src/metrics/metrics-aggregation.service.ts:34-75 | so does every run of events, clock advances and reclamations |
| MetricsPayload.GatherCounts | src/metrics/metrics-aggregation.service.ts:97-168 | a recount counts, for each user, session, conversion, event name, country, device and referrer, the events that carry it in their payload or its stand-in, and all events under `total_events` where that is counted |
| MetricsPayload.LatenciesCount | src/metrics/metrics-aggregation.service.ts:170-175 | the response times of a minute are the delays of its events, each as often as there are events with it |
| MetricsPayload.EventCounts | src/metrics/metrics-aggregation.service.ts:97-120 | the counts in which the totals are stated are numbers of events, and of events named `total_events` |
| MetricsPayload.VisibleIff | src/metrics/metrics-aggregation.service.ts:97-175 | a bucket can be seen exactly while some event that writes to it is at most seven minutes old, an hour for hourly volume and response times, a day for daily volume |
| MetricsPayload.ActivityVisibleIff | src/metrics/metrics-aggregation.service.ts:77-82 | the last activity time can be read exactly while some event is at most an hour old |
| MetricsWindow.AllOrNothing | src/metrics/metrics-aggregation.service.ts:268-278 | a read returns the bucket's full recount while its last write's time-to-live runs, and nothing afterwards |
| MetricsWindow.AllOrNothingLatencies | src/metrics/metrics-aggregation.service.ts:277 | the same for the list of response times |
| MetricsWindow.BucketAtOffset | src/metrics/metrics-aggregation.service.ts:311-336 | for any unit and time-to-live, a bucket i back is complete if (i+1) units fit the time-to-live and gone if it covers at most i-1 |
| MetricsWindow.ActiveWindowExact | src/metrics/metrics-aggregation.service.ts:253-309 | in every dimension, merging the five newest minutes gives exactly the recount of those minutes |
| MetricsWindow.WindowOfAnyRun | src/metrics/metrics-aggregation.service.ts:253-309 | the same for every run from an empty keyspace |
| MetricsWindow.PreviousWindow | src/metrics/metrics-aggregation.service.ts:311-336 | the previous window is exact at offsets 5 and 6, all or nothing at 7 and empty at 8 and 9 |
| MetricsWindow.PreviousTotalExactIff | src/metrics/metrics-aggregation.service.ts:311-336 | its total is the number of events of minutes 5 to 9 back exactly if the events named `total_events` that it counts twice make up for the events it does not see |
| MetricsWindow.PreviousTotalUnnamed | src/metrics/metrics-aggregation.service.ts:311-336 | if no event of the window carries that name, the total is a lower bound, and exact exactly if minutes 8 and 9 back were idle and minute 7 is idle or still live |
| MetricsWindow.PreviousUsersExactIff | src/metrics/metrics-aggregation.service.ts:311-336 | it shows the users of the minutes that can still be seen, and as many as there were exactly if everyone active in the minutes that cannot was also active in one of those |
| MetricsWindow.PreviousWindowCanMiss | src/metrics/metrics-aggregation.service.ts:108 | a run on which an active system shows none of the one event of the previous window |
| MetricsWindow.ChartEntry | src/metrics/metrics-aggregation.service.ts:383-403 | what an entry of the 24-hour chart shows, and that it is the number of the hour's events exactly if the hour is still shown and no event is named `total_events`, or it is not shown and there are none |
| MetricsWindow.ChartCanMiss | src/metrics/metrics-aggregation.service.ts:113 | a run on which an active system shows nothing for an hour with an event |
| MetricsWindow.ActiveTotalExactIff | src/metrics/metrics-aggregation.service.ts:293 | the total is the number of events of the window exactly if none is named `total_events` |
| MetricsWindow.TotalCanExceed | src/metrics/metrics-aggregation.service.ts:106-107 | a run on which one event is counted as two |
| MetricsWindow.LiveBucketSums | src/metrics/metrics-aggregation.service.ts:97-168 | in a live minute bucket each distribution adds up to the events, the total exceeds them by the events named like it, and users and conversions do not exceed them |
| MetricsWindow.ActiveIff | src/metrics/metrics-aggregation.service.ts:77-95 | the system is active exactly if some event was recorded in the last two minutes |
| MetricsWindow.ActiveHasEvents | src/metrics/metrics-aggregation.service.ts:205-247 | an active system has an event in its active window |
| MetricsInterleaving.ActKeeps | src/metrics/metrics-aggregation.service.ts:34-175 | whatever happens next, a call, a command of any pending call, time or a reclamation: each bucket is what its executed commands make of it until it first dies, does not die before its deadline, and never holds more than was executed |
| MetricsInterleaving.ActAllKeeps | src/metrics/metrics-aggregation.service.ts:34-175 | so does every run of interleaved calls |
| MetricsCommands.AddedByPermuted | src/metrics/metrics-aggregation.service.ts:58-67 | permuted commands add the same |
| MetricsInterleaving.InterleavingContents | src/metrics/metrics-aggregation.service.ts:34-75 | in every run from any state, a bucket shows what was executed, and that together with what is pending is the recount of the log, at least until its deadline |
| MetricsInterleaving.NeverOvercounts | src/metrics/metrics-aggregation.service.ts:34-75 | even later, no counter exceeds the recount and no set has a member that the log has not |
| MetricsInterleaving.InterleavedWindow | src/metrics/metrics-aggregation.service.ts:253-309 | under any overlap of calls, for any time, the active window is the recount but for the commands still pending |
| MetricsInterleaving.InterleavedLatencies | src/metrics/metrics-aggregation.service.ts:170-175 | the newest hundred response times of a minute are the newest hundred pushed, and pushed and pending together are those of the log |
| MetricsInterleaving.InterleavedActivity | src/metrics/metrics-aggregation.service.ts:77-95 | the system is active exactly if the activity time written last is recent, and then some event was |
| MetricsInterleaving.InterleavingIsSequential | src/metrics/metrics-aggregation.service.ts:34-75 | interleaved calls end as if they had been processed one after another, in any order and at any times within the same buckets |
| MetricsKeys.KeyNameInjective | src/metrics/metrics-aggregation.service.ts:106-172 | no two metrics keys share a name in the flat keyspace |
| MetricsKeys.MirrorsExec | src/metrics/metrics-aggregation.service.ts:106-172 | a command on a name does to the flat keyspace what the command on the key does to the typed store |
| Counters.MergeCounters | src/metrics/metrics-aggregation.service.ts:372-380 | merging printed counters is pointwise addition, in any order of the entries |
| Counters.AddCountsIsUnion | src/metrics/metrics-aggregation.service.ts:372-380 | pointwise addition counts the union of what was counted |
| Counters.Entries | src/metrics/metrics-aggregation.service.ts:405-447 | the parsed entries of a hash are its counters, each once |
| StableSort.SortCorrect | src/metrics/metrics-aggregation.service.ts:409 | for any total preorder, sorting yields a sorted permutation in which ties keep their order |
| Ranking.SortCorrect | src/metrics/metrics-aggregation.service.ts:409 | the sort by count is descending, a permutation and stable |
| Ranking.TopCorrect | src/metrics/metrics-aggregation.service.ts:405-447 | a top-n list has min(n, size) entries with distinct names and true counts, descending, and no entry left out beats a listed one |
| Ranking.SumIsSize | src/metrics/metrics-aggregation.service.ts:294 | counters add up to the number of recorded fields, in any order |
| MetricsService.MetricsAggregationService.UpdateVolumeMetrics | src/metrics/metrics-aggregation.service.ts:97-120 | sends exactly the volume commands of the three granularities |
| MetricsService.MetricsAggregationService.UpdateUserMetrics | src/metrics/metrics-aggregation.service.ts:122-145 | sends exactly the user, session and conversion commands; `GatherCounts` says on the payload what they count |
| MetricsService.MetricsAggregationService.UpdatePerformanceMetrics | src/metrics/metrics-aggregation.service.ts:170-175 | sends exactly the response-time commands |
| MetricsService.MetricsAggregationService.ProcessEvent | src/metrics/metrics-aggregation.service.ts:34-75 | takes the service from agreeing with its log to agreeing with the log and the event, and does nothing for an invalid date |
| MetricsService.MetricsAggregationService.AddToLiveEvents | src/metrics/metrics-aggregation.service.ts:177-193 | the live feed shows the fifty newest recorded events, newest first, each with its name, time, user, country and device or what stands in for them |
| MetricsDashboard.MergeWindow | src/metrics/metrics-aggregation.service.ts:263-291 | the read loop yields the printed counts of what the five buckets show |
| MetricsDashboard.UniqueUsers | src/metrics/metrics-aggregation.service.ts:288-289 | the loop collects the distinct users of the five buckets |
| MetricsDashboard.ResponseTimesOf | src/metrics/metrics-aggregation.service.ts:290 | the loop collects the newest hundred response times of every minute of the window |
| MetricsDashboard.PreviousWindowMetrics | src/metrics/metrics-aggregation.service.ts:311-336 | total and distinct users of what is still visible 5 to 9 minutes back |
| MetricsDashboard.HourlyVolume | src/metrics/metrics-aggregation.service.ts:383-403 | twenty-four entries, oldest first, each the visible total of its hour |
| MetricsDashboard.RankEvents | src/metrics/metrics-aggregation.service.ts:405-427 | top ten and full distribution of the event names without the counter's name |
| MetricsDashboard.RankAll | src/metrics/metrics-aggregation.service.ts:436-440 | all devices, ranked |
| MetricsDashboard.RoundedAverage | src/metrics/metrics-aggregation.service.ts:449-453 | the mean rounded to the nearest whole number, halves up, and zero of nothing |
| MetricsDashboard.PercentageChange | src/metrics/metrics-aggregation.service.ts:455-458 | whole hundredths within half a hundredth of the change in percent, halves up; after nothing, 100 for something and 0 for nothing |
| MetricsDashboard.ChangeSign | src/metrics/metrics-aggregation.service.ts:455-458 | a change is not negative for no fewer and not positive for no more than before |
| MetricsDashboard.GenerateDashboardMetrics | src/metrics/metrics-aggregation.service.ts:205-251 | the whole dashboard as a statement on the log, changes, shares and mean on the numbers; when inactive, and only then, nothing but zeros, empty lists and the constant uptime |
| MetricsDashboard.ActiveDashboardSane | src/metrics/metrics-aggregation.service.ts:228-250 | an active dashboard counts an event, its processing rate is its hourly rate, its users do not exceed its events, and its conversion rate lies in 0 to 100 |
| MetricsDashboard.DistributionAddsUp | src/metrics/metrics-aggregation.service.ts:413-427 | the percentages add up to exactly 100 if and only if no event of the window is named `total_events` |
| StructValue.WrapFailsIff | src/generated/google/protobuf/struct.ts:121-139 | wrapping fails exactly if some node at any depth has an unsupported type, and names the first such type |
| StructValue.WrapSays | src/generated/google/protobuf/struct.ts:121-139 | wrapping yields exactly the message that sets the one variant for the type of the value, or none for undefined, to that scalar, items or properties in order, at any nesting |
| StructValue.SaysIsCanonical | src/generated/google/protobuf/struct.ts:121-157 | that message is the one canonical message that unwraps to the value |
| StructValue.RoundTrip | src/generated/google/protobuf/struct.ts:93-177 | what was wrapped unwraps to itself, at any nesting |
| StructValue.CanonKeepsHighest | src/generated/google/protobuf/struct.ts:120-157 | of the variants that are set, a message that goes through a JavaScript value keeps the one of highest precedence and no other, with its scalar, its keys and its order, at every level |
| StructValue.UnwrapIsWrappable | src/generated/google/protobuf/struct.ts:141-177 | what any message unwraps to can be wrapped |
| StructValue.CanonCanonicalises | src/generated/google/protobuf/struct.ts:120-157 | re-wrapping keeps what unwrapping sees, is idempotent, and fixes exactly the messages with at most one variant per level and proper nulls |
| StructValue.ValueWrap | src/generated/google/protobuf/struct.ts:121-139 | the imperative wrapper computes the specification, error included |
| StructValue.StructWrap | src/generated/google/protobuf/struct.ts:94-103 | the loop over the keys of an object keeps them all, in order |
| StructValue.ListWrap | src/generated/google/protobuf/struct.ts:164-168 | every item is wrapped, in order |
| StructValue.StructUnwrap | src/generated/google/protobuf/struct.ts:105-113 | the loop over the fields of a message keeps them all, in order |
| ApiKeyBounds.StepKeepsCovered | src/api-key/api-key-usage.service.ts:21-75 | any step, in any order of the script calls, replies, updates, initialisations and losses, keeps every count that an initialised hash has and Mongo has not waiting somewhere, if Mongo's count does not go down |
| ApiKeyBounds.RunKeepsCovered | src/api-key/api-key-usage.service.ts:21-75 | so does every such run |
| ApiKeyBounds.LagBound | src/api-key/api-key-usage.service.ts:47-65 | Mongo is behind an initialised hash by at most what the processes have counted plus the replies and updates on their way |
| ApiKeyBounds.Conserved | src/api-key/api-key-usage.service.ts:21-75 | every increment is on record, lost with a hash, or forgotten around an initialisation |
| ApiKeyBounds.LostBounded | src/api-key/api-key-usage.service.ts:59-65 | at most 999 increments for each process, and what was on its way, are lost with each hash |
| ApiKeyBounds.ForgottenBounded | src/api-key/api-key-usage.service.ts:21-34 | only what ran while the hash was not initialised is forgotten, and what an outdated admission wrote too little |
| ApiKeyBounds.AdmissionBound | src/api-key/api-key.service.ts:27-44 | races and losses included, a stream is admitted only if the true usage is at most the limit less one, plus 999 k for now and for each loss, plus what is or was then on its way, what raced and what was outdated |
| ApiKeyOrderly.StepKeepsInvIff | src/api-key/api-key-usage.service.ts:21-75 | a step keeps the accounting exact if and only if it is free of three races: counting a hash that is not initialised, updates landing out of order, losing a hash with something on its way or with a stream admitted on an outdated count |
| ApiKeyOrderly.RunKeepsInv | src/api-key/api-key-usage.service.ts:21-75 | every run of such steps keeps it, with any number of processes, streams, re-initialisations and losses of the hash |
| ApiKeyOrderly.OrderlyCostsNothing | src/api-key/api-key-usage.service.ts:21-75 | in such a run nothing races, is outdated, or is on its way at a loss |
| ApiKeyOrderly.OrderlyBound | src/api-key/api-key.service.ts:27-44 | then Mongo is never ahead, nothing is forgotten, at most 999 k is lost with each hash, and the admission bound has no other terms |
| ApiKeyOrderly.OnceInitialised | src/events/interceptors/event.interceptor.ts:24-33 | once the hash is initialised, streams may be admitted, initialised and counted in any interleaving |
| ApiKeyOrderly.SingleProcessLag | src/api-key/api-key-usage.service.ts:59-65 | with one process and no loss, once the updates have landed, the lag is the replies on their way plus the replies seen modulo 1000 |
| ApiKeyRaces.FirstStreamForgets | src/events/interceptors/event.interceptor.ts:31 | a run on which the first stream's own initialisation overwrites the hash and forgets its first increment |
| ApiKeyRaces.LateInitForgets | src/api-key/api-key-usage.service.ts:21-34 | a run on which a second stream's initialisation does the same |
| ApiKeyRaces.UpdatesOvertake | src/api-key/api-key-usage.service.ts:62-65 | a run on which two updates land in the wrong order and Mongo stays a thousand behind with nothing on its way |
| ApiKeyRaces.CountsFromZero | src/api-key/api-key-usage.service.ts:21-34 | a run on which a loss leaves a hash without its key that counts from zero and is never initialised |
| ApiKeyRaces.LossOvertaken | src/api-key/api-key-usage.service.ts:50-63 | a run on which a hash is lost under a reply, whose update then puts Mongo a thousand ahead of the new hash |
| ApiKeyService.ApiKeyUsageService.IncrementUsage | src/api-key/api-key-usage.service.ts:47-54 | takes a key of the system one script call further and leaves other keys alone |
| ApiKeyService.ApiKeyUsageService.OnReply | src/api-key/api-key-usage.service.ts:56-65 | takes it one reply further: counter, synchronisation and update |
| ApiKeyService.ApiKeyUsageService.Exists | src/api-key/api-key-usage.service.ts:21-23 | the initialisation up to its `await` is the step that finds out whether the hash exists |
| ApiKeyService.ApiKeyUsageService.InitializeApiKeyUsage | src/api-key/api-key-usage.service.ts:25-33 | the rest of it is the step that writes the hash unless it was found |
| ApiKeyService.ApiKeyUsageService.ValidateApiKey | src/api-key/api-key.service.ts:27-44 | refuses exactly a missing, an inactive and an exhausted key, and admits the others with the count that the initialisation will write |
| Batchers.StreamEventBatcher.AddStreamEvent | src/events/stream-event-batcher.service.ts:21-29 | jobs and buffer together are the added events in order; the buffer goes out exactly when it reaches 10000 |
| Batchers.StreamEventBatcher.FlushBatch | src/events/stream-event-batcher.service.ts:31-39 | the buffer becomes the next job, unless it is empty |
| Batchers.JobsInOrder | src/events/stream-event-batcher.service.ts:21-39 | `receivedAt` never goes down from a job to a later one |
| Batchers.AddedSound | src/websocket/stream-websocket-batcher.service.ts:16-27 | adding an event conserves every owner's events |
| Batchers.FlushedSound | src/websocket/stream-websocket-batcher.service.ts:29-38 | flushing an owner conserves every owner's events and makes jobs of 1 to 5000 events |
| Batchers.StreamWebSocketBatcher.FlushUserBatch | src/websocket/stream-websocket-batcher.service.ts:29-38 | a non-empty buffer's own array goes into the job and a new array replaces it; nothing happens to an empty one |
| Batchers.StreamWebSocketBatcher.FlushAllBatches | src/websocket/stream-websocket-batcher.service.ts:40-44 | the loop over the live keys ends, with every buffer flushed |
| Batchers.StreamWebSocketBatcher.AddEvent | src/websocket/stream-websocket-batcher.service.ts:16-27 | all buffers go out exactly when the owner's reaches 5000; every job still holds what it was enqueued with, and each owner's events are conserved |
| Batchers.EventsService.OnEvent | src/events/events.service.ts:26-40 | an acknowledged event is counted for the API key of its stream, and is in both batchers and in the metrics queue |
| Batchers.EventsService.PipelinesAgree | src/events/events.service.ts:26-40 | for every owner, both pipelines carry exactly the acknowledged events, in order |
| Authentication.AcceptedAgainIff | src/iam/authentication/authentication.service.ts:152-158 | an id accepted before is accepted again exactly while an earlier acceptance has not deleted it |
| Authentication.SpentForever | src/iam/authentication/authentication.service.ts:174-194 | an id that was replaced or deleted never validates again |
| Authentication.AcceptedAtMostOnce | src/iam/authentication/authentication.service.ts:137-162 | if refreshes of a user do not overlap, each id is accepted at most once |
| Authentication.OverlapAcceptsTwice | src/iam/authentication/authentication.service.ts:137-162 | a run from the start, with sign-up, verification and sign-in, in which two overlapping refreshes are both accepted with the id that was issued |
| Authentication.RunKeepsIds | src/iam/authentication/authentication.service.ts:174-194 | in every run ids are stored once and slots hold issued ids only |
| Authentication.RunKeepsTraced | src/iam/authentication/authentication.service.ts:41-135 | in every run each recorded event is preceded by what must precede it |
| AuthenticationRequests.SignUpServed | src/iam/authentication/authentication.service.ts:41-60 | an undisturbed sign-up creates an unknown user, unverified and with the password given, and sets a first code; for a known user nothing happens |
| AuthenticationRequests.ResendServed | src/iam/authentication/authentication.service.ts:62-90 | it replaces the code of a known user who is not verified, and does nothing else |
| AuthenticationRequests.VerifyServed | src/iam/authentication/authentication.service.ts:92-121 | it verifies the user and uses up the code exactly if the code on hand is at most 600 seconds old and has the hash of the one given, and does nothing otherwise |
| AuthenticationRequests.SignInServed | src/iam/authentication/authentication.service.ts:123-135 | it puts a fresh id into the slot and issues tokens exactly to a known and verified user with the right password, and does nothing otherwise |
| AuthenticationRequests.RefreshServed | src/iam/authentication/authentication.service.ts:137-162 | it replaces the id and issues tokens exactly if the slot of a known user holds the id, and does nothing otherwise |
| AuthenticationRequests.SignUpCreatesFirst | src/iam/authentication/authentication.service.ts:49-52 | between its commands a sign-up shows the user and no new code |
| AuthenticationRequests.ResendClearsFirst | src/iam/authentication/authentication.service.ts:72-79 | between its commands a resend has deleted a live code and not yet set another |
| AuthenticationRequests.VerifyClearsFirst | src/iam/authentication/authentication.service.ts:112-115 | between its commands a verification has used the code up and not yet marked the user |
| AuthenticationRequests.TokensNeedPassword | src/iam/authentication/authentication.service.ts:123-135 | in any run, who has tokens was created with a password that some sign-in carried |
| AuthenticationRequests.WrongPasswordNeverIssues | src/iam/authentication/authentication.service.ts:123-135 | if no sign-in carries the password of a sign-up of the user, no tokens are ever issued |
| AuthenticationRequests.VerifiedNeedsCode | src/iam/authentication/authentication.service.ts:92-121 | in any run, a verification follows a match of a code that a request gave and that has the hash of a code drawn, the most recent one set, read at most 600 seconds after it was set |
| AuthenticationRequests.WrongCodeNeverVerifies | src/iam/authentication/authentication.service.ts:92-121 | if no code given for the user has the hash of one drawn, the user is never verified |
| AuthenticationRequests.TokensFollowVerification | src/iam/authentication/authentication.service.ts:92-162 | every issued pair, by sign-in or refresh, follows a verification with a code that was drawn and given, and goes back to a sign-in with the password of a sign-up |
| Authentication.VerifiedForever | src/iam/authentication/authentication.service.ts:112-115 | a verified user stays verified |
| RedisSlots.KeyNameInjective | src/integrations/redis/redis.service.ts:22-36 | token slots and codes of different users never share a key |
| RedisSlots.RedisService.Insert | src/integrations/redis/redis.service.ts:9-11 | replaces the user's slot and nothing else |
| RedisSlots.RedisService.Validate | src/integrations/redis/redis.service.ts:13-16 | true exactly if the slot holds this id |
| RedisSlots.RedisService.InValidate | src/integrations/redis/redis.service.ts:18-20 | empties the user's slot and nothing else |
| RedisSlots.RedisService.SetOtp | src/integrations/redis/redis.service.ts:22-24 | stores the code for 600 seconds |
| RedisSlots.RedisService.GetOtp | src/integrations/redis/redis.service.ts:26-28 | returns the code while it is live |
| RedisSlots.RedisService.InvalidateOtp | src/integrations/redis/redis.service.ts:30-32 | deletes the user's code and nothing else |
| EventQuery.GetEvents | src/events-http/events-http.service.ts:21-72 | answers with the requested page, the first of fifty by default, of the one answer to the query and the echo of its filters, and refuses exactly reversed dates; the answer is ordered by the times or texts of the field asked for, and newest first by default |
| EventQuery.StringLeqIsTextOrder | src/events-http/events-http.service.ts:44-46 | the order on names and severities is that of prefixes and of the first character that differs |
| EventQuery.FoundIsAnswer | src/events-http/repository/event-http.repository.ts:74-91 | find and sort yield each matching event as often as it is stored, ordered on the fields |
| EventQuery.PagesCoverAll | src/events-http/events-http.service.ts:40-60 | pages 1 to `totalPages` are the whole answer, all but the last are full, the last is not empty, and later pages are |
| EventQuery.PagesOfQuery | src/events-http/events-http.service.ts:40-72 | the replies for pages 1 to `totalPages` of one query are together exactly the events asked for, in order |

## Left out

- StepAgrees: a call of `processEvent` is one step at one moment; runs in which the commands of many calls interleave are the subject of `MetricsInterleaving`.
- RunAgrees: likewise.
- InterleavedLatencies: while trims are pending a list may be longer than a hundred; the statement is about its newest hundred.
- GenerateDashboardMetrics: the labels derived from dates are left out, and all reads happen at one moment.
- AddToLiveEvents: an entry has no random `id` and no `timeAgo` text.
- MergeWindow: reads one dimension at a time where the source's loop reads all of them per minute; a read is one moment, so the order does not show.
- OnReply: returns the count only; the limit and `limitExceeded` of the reply are unused by the stream handler.
- AdmissionBound: a process that restarts counts as another one, since it forgets its counter.
- AcceptedAtMostOnce: one direction; `AcceptedAgainIff` is the exact condition, step by step.
- Broadcasting the dashboard and the ten-second interval.
- Integer overflow of Redis counters and the rounding of floating-point percentages; percentages are rationals.
- `registerApiKey`, `resetUsage`, `deleteApiKeyUsage`, `getUsage` and the usage-tracker queue: nothing calls them on this path.
- `ListValue.unwrap` of something that is not a list message, `Struct.unwrap` of a message without fields, and the key `__proto__`.
- The authentication service has no class of its own: its requests are threads of a state machine, because every
  `await` is a point of interleaving; the order of two awaits that share no state is not varied.
- Queue failures and retries, swallowed exceptions, documents and users that are deleted, and changes of e-mail.
