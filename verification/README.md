# Router verification

A Dafny model of an LLM inference router: the circuit breaker of each replica, the token bucket
of each tenant, the streaming path from the mock replica through the router to its two clients,
tier routing and replica choice with retries, the tier lock of a conversation, and the usage
pipeline. Each object the program updates in place is a class proved against a plain function of
its history; the promises of the program are lemmas about those functions, over every run.

`dafny verify dfyconfig.toml` checks the whole project.

| file | models |
|---|---|
| SlidingWindow.dfy, Breaker.dfy, BreakerRuns.dfy, Registry.dfy | the lazily rotated outcome window, the three-state breaker, theorems about any run of calls, and the registry all requests share |
| TokenBucket.dfy | the token bucket and the `Retry-After` answer |
| SseText.dfy, StreamInterceptor.dfy | cutting a byte stream into events; the interceptor and its statistics |
| MockServer.dfy, SseClients.dfy, SseRoundTrip.dfy | the printer, the chat hook and the CLI, and the round trips |
| Relay.dfy, Watchdog.dfy, EndToEnd.dfy | peeking and copying a body, the stall watchdog, the whole streaming path |
| Routing.dfy, Scorer.dfy, RetryLoop.dfy, Requests.dfy | configuration check, flattening, tier choice; replica choice; the retry loop; a whole request from the first pick to the end of its stream |
| ShippedConfig.dfy | the tiers of config.yaml, what they route where, and the classifier service against them |
| ConversationPin.dfy | the expiring store, the tier lock, the classifier service's own clamp |
| Usage.dfy, BatchSink.dfy | tracker and usage table; the batching sink as an interleaved protocol |
| AuditTrail.dfy | the audit ring buffer |
| Arith.dfy, Options.dfy | products and quotients; an option type |

Times are integer nanoseconds, token counts, scores, rates and thresholds are reals. Each locked
method is one atomic step, and what other requests do to the shared breakers between two steps of
a request is an input. So are clocks, schedulers, upstream behaviour, health snapshots, the
classifier and JSON: arbitrary unless a lemma says otherwise.

## Where the code does not do what it says

These are kept as the code has them; each has the exact condition under which the promise holds,
and a lemma with a concrete case in which it does not.

- The breaker's window is not `window_size` wide. With buckets of width d it always counts what is
  at most 9d old and never what is more than 19d - 10 old, and both bounds are attained
  (`WindowBounds`, `WindowLowerBoundTight`, `WindowUpperBoundTight`).
- An open breaker whose cooldown has passed loses its probe when a status read, or a pick that
  chooses another replica, touches it first (`ProbeLostExactly`, `ProbeLost`,
  `PickTouchesEveryoneAsked`). With no request to the replica under way no outcome can arrive any
  more, and no later request is ever sent to it (`Stranded`, `StrandedForever`). Every served request
  ends with such a read of its own replica: it strands the replica, even after a stream that ended
  well, exactly when the breaker is open and cooled down at that moment (`ServedStrandsExactly`,
  `ServedStrandsForever`, `StatusReadStrands`).
- A failure recorded at the end of a bad stream is meant to keep later requests away from the
  replica for a cooldown. With no other call in between, they are kept away exactly when the failure
  opens the breaker or finds it open, and the cooldown either lasts still or was over already at the
  request's own status read (`BadStreamAvoidedExactly`, `BadEndAvoidedExactly`). A half-open probe
  that dies mid-stream has already closed the breaker at its headers, so the failure counts like any
  other: by itself it is enough only if `min_samples` is one, and even then a success in between can
  hide it (`LoneDeadProbe`, `MaskedDeadProbe`).
- `Pick` can return nothing although a replica is eligible, exactly when `miss_penalty` is at least
  one plus half the baseline weight, which the configuration check allows (`NeverOverlooksExactly`,
  `Overlooked`).
- The shipped configuration's tier "reasoning" is never chosen by the router's own routing, and the
  classifier service takes every classification task for code (`ShippedChoice`,
  `ClassificationIsCode`).
- The comment on `HigherTier` says that of two unknown tiers the second is returned; the code
  returns the first. The comment holds exactly when one of the two is configured or both are the
  same name (`HigherTierAsDocumentedExactly`, `HigherTierOfUnknowns`).
- The conversation pin does fall: on a turn that reads it after it has expired, or that overlaps
  another turn's write, exactly when what it read and what it was classified as both rank below it
  (`PinFallsExactly`, `ExpiredPinFalls`, `InterleavedFallsExactly`, `LostUpdate`). A turn that reads
  in time and overlaps no other write of its conversation never lowers it (`UndisturbedTurnKeeps`).
- The watchdog's "1.25 times the timeout" holds exactly from 199 999 996 ns up, counted from the
  last activity or from the creation of its ticker if that is later (`PromiseExactly`,
  `LateReport`); counted from an activity before that it holds for no timeout (`LateTicker`). Its
  `Stop` may be called again, but concurrent calls panic exactly when two of them look before the
  first has closed the channel (`StopPanicsExactly`, `StopPanics`).
- `first_seen` in the usage table is that of the row as it was first written: the earliest event of
  the first batch that mentioned the tenant, or what an earlier process left. It is the earliest of
  all only if no later batch brought an older event (`FirstSeenExactly`, `FirstSeenOfOldRow`,
  `FirstSeenTooLate`). A failed flush loses its batch, and requests that keep arriving can hold up
  the final drain for any number of steps (`DrainOutpaced`).
- The chat hook's guard against sending while a reply is coming in opens as soon as the events read
  so far have ended the stream, although the loop still reads (`SecondSendExactly`); the first loop
  then appends to, and ends, the second reply (`FirstReachesSecond`).

## Model

| member | source | states |
|---|---|---|
| Windows.RotateRing | internal/circuit/breaker.go:64-67 | one rotation of the ring turns the counts of outcomes fewer than ten rotations old after k rotations into those after k + 1, losing nothing else |
| Windows.RecordInRing | internal/circuit/breaker.go:71-79 | one more success or failure in the current bucket is one more counted outcome of that kind in the history, and no other |
| Windows.SlidingWindow.Touch | internal/circuit/breaker.go:55-69 | advancing the ring is advancing the history: the rotations performed, the new `lastTime`, and every bucket's counts |
| Windows.SlidingWindow.RecordOutcome | internal/circuit/breaker.go:71-79 | the ring stays the image of the full history with the outcome appended |
| Windows.SlidingWindow.Totals | internal/circuit/breaker.go:81-88 | the sums over the ring are the numbers of logged successes and failures fewer than ten rotations old |
| Breakers.Breaker.Allow | internal/circuit/breaker.go:118-136 | permits exactly when closed or cooled down, and leaves a cooled-down breaker half-open |
| Breakers.Breaker.RecordSuccess | internal/circuit/breaker.go:140-150 | a half-open breaker closes on an empty window; otherwise the success is logged |
| Breakers.Breaker.RecordFailure | internal/circuit/breaker.go:153-180 | logs the failure; a half-open breaker reopens, a closed one opens exactly when enough outcomes are counted and a threshold share are failures |
| Breakers.Breaker.GetState | internal/circuit/breaker.go:183-190 | reading the state moves a cooled-down breaker to half-open, like `Allow`, and changes nothing else |
| Breakers.Breaker.ErrorRate | internal/circuit/breaker.go:193-202 | the share of failures among the counted outcomes, zero when there are none |
| Registries.EntryThen | internal/circuit/breaker.go:242-258 | a replica's breaker is what its own calls, by whichever request, make of the one created at the first of them: later calls run on from earlier ones |
| Registries.Registry.GetOrCreate | internal/circuit/breaker.go:242-258 | returns the one breaker object of a replica, new on first use, which has the value of all calls on that replica so far |
| Registries.Registry.Allow | internal/circuit/breaker.go:260-263 | asks that object, answers as the calls so far decide, and adds one call to the shared history |
| Registries.Registry.RecordSuccess | internal/circuit/breaker.go:265-268 | adds a success to that replica's calls and changes no other breaker |
| Registries.Registry.RecordFailure | internal/circuit/breaker.go:270-273 | adds a failure to that replica's calls and changes no other breaker |
| Registries.Registry.Perform | internal/circuit/breaker.go:260-283 | any sequence of calls of other requests leaves every breaker at the value of its own calls |
| BreakerRuns.WindowBounds | internal/circuit/breaker.go:48-88 | at every query of every run at non-decreasing times, all outcomes of age at most 9d are counted and none older than 19d - 10 |
| BreakerRuns.WindowLowerBoundTight | internal/circuit/breaker.go:55-69 | for every bucket width some run loses an outcome of age 9d + 1 |
| BreakerRuns.WindowUpperBoundTight | internal/circuit/breaker.go:55-69 | for every bucket width some run still counts an outcome of age 19d - 10 |
| BreakerRuns.LogIsRecorded | internal/circuit/breaker.go:140-150 | the window's history is exactly what was recorded since the step that last closed the breaker from half-open |
| BreakerRuns.TotalsBetween | internal/circuit/breaker.go:81-88 | totals, overall and by kind, lie between the counts over the last 9d and over the last 19d - 10 |
| BreakerRuns.TripJustified | internal/circuit/breaker.go:153-180 | a closed breaker opens only with min_samples outcomes, and a threshold share of that number of failures, in the last 19d - 10 |
| BreakerRuns.TripShare | internal/circuit/breaker.go:160-175 | the outcomes a trip counted are all at most 19d - 10 old, at least min_samples, and failures in at least the threshold share |
| BreakerRuns.TripHappens | internal/circuit/breaker.go:153-180 | a closed breaker does open when the last 9d hold enough outcomes and their failures outweigh, in the threshold share, all successes of the last 19d - 10 |
| BreakerRuns.HalfOpenWaits | internal/circuit/breaker.go:131-132 | a half-open breaker refuses everyone and stays half-open until an outcome is recorded |
| BreakerRuns.ClosedPeriod | internal/circuit/breaker.go:118-180 | in every run a closed breaker permits everyone and stays closed until a failure trips it, and is open from that failure on |
| BreakerRuns.OpenUntilTouched | internal/circuit/breaker.go:138-190 | an open breaker stays open since the same moment, whatever successes and failures arrive, until a call touches it after its cooldown |
| BreakerRuns.OpenPeriod | internal/circuit/breaker.go:124-132 | until that touch it refuses everyone; the touch makes it half-open and is permitted exactly if it is a request |
| BreakerRuns.HalfOpenPeriod | internal/circuit/breaker.go:138-180 | a half-open breaker refuses everyone until the first outcome, which closes it on an empty window or opens it from that moment on |
| BreakerRuns.OneProbe | internal/circuit/breaker.go:116-136 | between two permitted calls with the breaker not closed at the first, an outcome was recorded |
| BreakerRuns.ProbesSpaced | internal/circuit/breaker.go:118-190 | two permitted calls with no closed period between them are at least a cooldown apart |
| BreakerRuns.ProbeBudget | internal/circuit/breaker.go:118-190 | over a stretch without a closed period, n permitted calls take at least n - 1 cooldowns |
| BreakerRuns.ProbeLostExactly | internal/circuit/breaker.go:182-190 | with no outcome recorded, the only call an open breaker can permit is the first touch after the cooldown, and it does so exactly when that touch is an `Allow` and not a state read |
| BreakerRuns.ProbeLost | internal/circuit/breaker.go:182-190 | a status read before the request on a cooled-down breaker: the request is refused, and without the read it is permitted |
| BreakerRuns.Stranded | internal/circuit/breaker.go:131-132 | if outcomes come only from permitted calls, a half-open breaker with nothing under way permits no call and receives no outcome in any run |
| BreakerRuns.AvoidedExactly | internal/circuit/breaker.go:153-180 | a failure keeps the next request away if and only if it opens the breaker or finds it open, and the cooldown has not passed |
| BreakerRuns.ReadAvoidedExactly | internal/proxy/handler.go:396-398 | after a status read the next request is refused if and only if the breaker was half-open, or open and either not cooled down yet or cooled down already at the read |
| BreakerRuns.BadEndAvoidedExactly | internal/proxy/handler.go:356-398 | the same over any past of the breaker, a failure at the end of a stream, any calls after it and the status read; and what the failure alone does: it opens a breaker that is half-open or trips, and leaves an open one as it was |
| BreakerRuns.LoneDeadProbe | internal/proxy/handler.go:331-398 | a half-open probe that dies mid-stream, with no other call before the status read: refused if and only if min_samples is at most one, the threshold at most one, and the cooldown lasts still or was over at the read |
| BreakerRuns.MaskedDeadProbe | internal/proxy/handler.go:331-398 | with min_samples one and threshold 0.9 one success in between leaves the replica of a dead probe permitted |
| BreakerRuns.StatusReadStrands | internal/proxy/handler.go:396-398 | a breaker opened by others and cooled down before a bad stream ends: the request's own status read leaves it half-open, and the next request, permitted without that read, is refused |
| TokenBuckets.TokenBucket.Allow | internal/ratelimit/bucket.go:39-57 | each call decides by the tokens of the reference recursion over all request times so far, and reports what is left |
| TokenBuckets.Registry.Allow | internal/ratelimit/bucket.go:90-116 | a tenant's request is decided by the times of that tenant's own requests alone, whatever the others ask |
| TokenBuckets.TokensAreTightestBudget | internal/ratelimit/bucket.go:43-50 | the tokens before a request are the minimum, attained, over all earlier starting points of capacity + rate * elapsed - admitted |
| TokenBuckets.RefusedExactly | internal/ratelimit/bucket.go:52-56 | a request is refused if and only if some stretch ending with it would exceed capacity + rate * elapsed |
| TokenBuckets.BucketConforms | internal/ratelimit/bucket.go:15-17 | no stretch of any run admits more than capacity + rate * elapsed |
| TokenBuckets.BucketIsOptimal | internal/ratelimit/bucket.go:37-57 | no limiter that keeps the limit has admitted more requests than the bucket at any point of any run |
| TokenBuckets.RetryAfterSuffices | internal/ratelimit/middleware.go:39-44 | in every run a refused client that comes back after `Retry-After` seconds finds that request or one in between admitted |
| TokenBuckets.RetryAfterExactly | internal/ratelimit/middleware.go:41 | for every checked configuration a whole number of seconds is always enough if and only if it is at least `Retry-After` |
| SseText.SplitAppend | internal/proxy/stream.go:50-52 | splitting what was left over plus new bytes yields the events and the left-over of the whole stream, for every cut |
| SseText.SplitThenJoin | internal/proxy/stream.go:79-90 | splitting loses no byte, and the left-over holds no blank line |
| SseText.JoinThenSplit | internal/proxy/stream.go:79-90 | splitting undoes the framing of any events without a blank line |
| Interceptor.StreamInterceptor.Write | internal/proxy/stream.go:39-55 | the client gets the accepted bytes; statistics and left-over are those of the whole stream written so far, whatever the cuts |
| Interceptor.StreamInterceptor.ParseSse | internal/proxy/stream.go:79-90 | the loop processes exactly the complete events of the buffer, in order, and keeps the rest |
| Interceptor.StreamInterceptor.ProcessEvent | internal/proxy/stream.go:103-147 | one event counts its first choice's content, remembers the terminator, and is otherwise ignored |
| Interceptor.FragmentationIndependent | internal/proxy/stream.go:39-90 | two ways of cutting one stream give the same token and chunk counts, terminator flag and left-over |
| Interceptor.EventMeaning | internal/proxy/stream.go:103-128 | an event, whatever white space surrounds it, is the terminator, the content of the first choice of a well-formed chunk, or nothing |
| Interceptor.TokensExactly | internal/proxy/stream.go:130-137 | a piece of n bytes is worth n / 4 tokens, rounded down, and at least one |
| Interceptor.ArrivalIsFirst | internal/proxy/stream.go:50-52 | a content piece is timed by the first write after which it is complete |
| Interceptor.StatsAreConsistent | internal/proxy/stream.go:103-147 | on an ordered clock the gap sum is last minus first content time, tokens come after the first byte, chunks <= tokens <= content length, and four times the tokens is within three a chunk of the content length |
| MockServer.HandleStream | cmd/mock/main.go:149-172 | the writes of a stream concatenate to the framed pieces sent before the client left, with the terminator exactly if it stayed to the end |
| MockServer.WriteSseChunk | cmd/mock/main.go:177-187 | its three writes are one framed event |
| MockServer.SplitTokens | cmd/mock/main.go:191-202 | no piece is empty, there is one per word, and the pieces joined read as the same words |
| MockServer.SentExactly | cmd/mock/main.go:149-172 | the i-th piece is sent exactly if the client stays for more than i, and the terminator exactly if it stays for more than all |
| MockServer.FieldsKeepText | cmd/mock/main.go:191-192 | the words of a text are all of it but its white space |
| SseClients.UseChat.Send | my-llm-ui/src/useChat.ts:91-187 | blank input or a running stream changes nothing; else the state is that of folding the actions of all complete events received, however they were cut, closed by the end, the stop button or the error that ended them |
| SseClients.SecondSendExactly | my-llm-ui/src/useChat.ts:92 | while a reply is being read, a second message passes the guard if and only if the events read so far ended the stream |
| SseClients.FirstReachesSecond | my-llm-ui/src/useChat.ts:148-174 | the first loop's later tokens then go to the second reply, and its final action ends it |
| SseClients.UseChat.ReadLoop | my-llm-ui/src/useChat.ts:127-171 | the split-and-pop loop dispatches the actions of exactly the complete events of all chunks together |
| SseClients.UseChat.ReadLine | my-llm-ui/src/useChat.ts:141-169 | one line dispatches its content, its stop, both or nothing |
| SseClients.LineMeaning | my-llm-ui/src/useChat.ts:141-169 | a line, whatever white space surrounds it, ends the stream exactly if it is the terminator or a chunk that says stop, and adds exactly the chunk's content |
| SseClients.FailedReply | my-llm-ui/src/useChat.ts:115-182 | a reply that fails keeps what was read, ends the stream and shows the error, which the next message clears |
| SseClients.SplitPartsAreEvents | my-llm-ui/src/useChat.ts:136-138 | split-and-pop finds the same events and left-over as the router's search loop |
| SseClients.StreamedThen | my-llm-ui/src/useChat.ts:64-72 | applying streamed actions one list after the other is applying them together, so only the concatenated token text matters |
| SseClients.ParseSseStream | cmd/cli/client.go:83-108 | the deltas emitted are those of the lines up to the terminator or the first that does not fit the scanner; an error is reported once, exactly when the terminator was not seen and a line did not fit or the stream broke |
| SseClients.DropCrExactly | cmd/cli/client.go:86-87 | one carriage return before the line feed is no part of a line, and nothing else is taken off |
| SseClients.LineLimit | cmd/cli/client.go:84-85 | the lines handed out are those before the first of a mebibyte or more |
| SseClients.CliLineMeaning | cmd/cli/client.go:88-103 | the CLI shows the content of every choice of a chunk, in order, only of lines that start with the marker, and nothing after the terminator |
| SseRoundTrip.RouterReadsStream | internal/proxy/stream.go:80-147 | of a mock stream cut arbitrarily, the interceptor sees exactly the pieces sent, in order, has seen the terminator exactly if it was sent, and keeps nothing |
| SseRoundTrip.ChatReadsStream | my-llm-ui/src/useChat.ts:127-174 | after reading a mock stream the chat has the user's message and one assistant message, the concatenation of the pieces |
| SseRoundTrip.ChatStopsByItself | my-llm-ui/src/useChat.ts:147-165 | a mock stream stops the chat's streaming before the connection closes exactly if the terminator was sent or a piece said stop |
| SseRoundTrip.CliReadsStream | cmd/cli/client.go:83-104 | the CLI's deltas of a mock stream whose lines fit the scanner are exactly the pieces sent |
| Relay.PeekFirstByte | internal/proxy/deadreplica.go:35-61 | succeeds exactly when the body's first byte arrives before the timer expires, and then the reader delivers the whole body with the peeked byte once, in front |
| Relay.Replay.Read | internal/proxy/deadreplica.go:55-57 | every read takes its bytes off the front of peeked byte plus body |
| Relay.StreamBody | internal/proxy/handler.go:491-505 | for all read sizes the client gets the body, all of it or, if it cut a write short, a proper prefix |
| Relay.CopyMore | internal/proxy/handler.go:494-500 | one more read keeps client and interceptor level with what was copied, or ends with a proper prefix at the client |
| Watchdogs.Watch | internal/proxy/deadreplica.go:78-112 | reports at most once: at the first quiet tick, if not stopped before it, and never without a timeout |
| Watchdogs.OneOutcome | internal/proxy/deadreplica.go:95-109 | at most one tick can be the one that reports or stops, so the loop's result is determined |
| Watchdogs.NeverEarly | internal/proxy/deadreplica.go:100-107 | when the stall is reported every write is at least the timeout old, and so is the start if there was none |
| Watchdogs.FiresInTime | internal/proxy/deadreplica.go:83-107 | silence for the timeout plus one tick, without a stop, is reported before it is over; it counts from the last activity, or from the ticker's creation if that is later |
| Watchdogs.StopExactly | internal/proxy/deadreplica.go:95-109 | a report is prevented exactly by a stop before its tick, or with it and taken first |
| Watchdogs.Latency | internal/proxy/deadreplica.go:83-107 | every report comes at or after the timeout, and less than timeout plus tick after the last activity or the ticker's creation |
| Watchdogs.TickExactly | internal/proxy/deadreplica.go:83-86 | the timeout is sampled four times over, or every 50ms if that is less often |
| Watchdogs.WorstCase | internal/proxy/deadreplica.go:83-107 | for every timeout a trace attains the bound: it is reported one nanosecond less than a tick late |
| Watchdogs.PromiseExactly | internal/proxy/deadreplica.go:63-67 | counted from the last activity, or from the ticker's creation if that is later, the 1.25 bound holds for all traces if and only if the timeout is at least 4 * (50ms - 1ns) |
| Watchdogs.LateTicker | internal/proxy/deadreplica.go:88-94 | for every timeout, a trace whose last activity precedes the ticker and is reported later than 1.25 times the timeout |
| Watchdogs.StallWatchdog.Stop | internal/proxy/deadreplica.go:114-122 | a call that overlaps no other leaves the channel closed and never panics, however often it is repeated |
| Watchdogs.StopPanicsExactly | internal/proxy/deadreplica.go:114-122 | in any interleaving of any number of calls, once all have returned one has panicked if and only if two or more had looked before the first closed the channel |
| Watchdogs.StopPanics | internal/proxy/deadreplica.go:114-122 | two calls that both look before either closes: the second panics |
| Watchdogs.LateReport | internal/proxy/deadreplica.go:83-86 | for every timeout below the bound, a trace whose stall is reported later than 1.25 times the timeout |
| EndToEnd.PiecesArriveEverywhere | internal/proxy/handler.go:324-350 | a mock stream relayed with any read sizes: the router counts the pieces and knows whether the stream finished, and the chat hook and CLI behind it read the same pieces |
| Routing.Validate | internal/config/config.go:334-404 | accepts exactly the valid tier lists, and any error it reports names a defect that is there |
| Routing.RangeIsInterval | internal/types/types.go:221-250 | a rule's range is a half-open interval, open-ended where it has no bound, and passes the check exactly when something lies in it |
| Routing.GoodRuleExactly | internal/config/config.go:370-386 | the check turns down exactly the rules that no classification could match |
| Routing.FoldsLetters | internal/types/types.go:254-261 | task types are compared letter by letter, case ignored |
| Routing.HasCodeExactly | internal/types/types.go:263-275 | a text has code exactly if one of seven marks stands somewhere in it |
| Routing.CheckTiers | internal/config/config.go:334-401 | the checking loop, with its priority, name and fallback bookkeeping, stops only at a real defect and otherwise ends on a valid list |
| Routing.ToReplicaList | internal/config/config.go:480-553 | the nested loops produce each tier's replicas, model by model, in the order of the sorted tiers |
| Routing.FlattenAt | internal/config/config.go:538-547 | the j-th model of the i-th sorted tier has its id, url, model, size, tier name, priority and routing at the position given by the models before it, and the list is as long as all models together |
| Routing.FlattenIsExact | internal/config/config.go:480-553 | whatever the sort, each model of each tier has its replica and each replica stands for a model |
| Routing.ReplicasAreComplete | internal/config/config.go:334-404 | in a valid configuration the list is not empty and every replica has an id, url, model and tier |
| Routing.FlattenRepresents | internal/config/config.go:480-553 | in the flat list every replica belongs to a tier, every tier has a replica, and priorities do not decrease |
| Routing.TierForClassification | internal/types/types.go:158-188 | on any non-empty list: the first tier, at its first replica, that matches and is no fallback, else the first fallback, else the largest replica's tier |
| Routing.LargestTier | internal/types/types.go:291-299 | no replica has a greater parameter count than one of the tier returned, which is that of the first such replica |
| Routing.FlatteningPreservesChoice | internal/types/types.go:158-188 | for every valid configuration, sort and classification the choice on the flat list is the matching non-fallback tier of lowest priority number, else the unique fallback, and no other name fits; the largest-replica escape is never taken |
| ShippedConfig.TiersAreValid | config.yaml:18-82 | the tiers of the shipped configuration pass the check |
| ShippedConfig.ShippedChoice | config.yaml:18-82 | on every classification they choose small, code, large or medium, each by the conditions given, and never reasoning: what matches it matches large, which comes first |
| Routing.WantedIsUnique | internal/config/config.go:352-369 | a valid configuration and a classification determine one tier |
| Routing.PriorityIsConfigured | internal/types/types.go:353-360 | on the flat list each tier has its configured priority and every other name has -1 |
| Routing.HigherTierSymmetric | internal/types/types.go:371-376 | with at least one configured tier the higher of two does not depend on their order |
| Routing.HigherTierAsDocumentedExactly | internal/types/types.go:369-376 | the result is the configured one of higher priority, or the second if neither is configured, if and only if one is configured or both are the same name |
| Routing.HigherTierOfUnknowns | internal/types/types.go:369-376 | a configuration and two unknown names of which the first is returned and not, as documented, the second |
| Scorer.Pick | internal/scorer/scorer.go:50-96 | the first of highest score among eligible replicas of the tier, else among the others, else none, whatever other requests do to the breakers meanwhile; each replica asked adds one call to the shared history |
| Scorer.NeverOverlooksExactly | internal/scorer/scorer.go:55-57 | picking nothing means no replica is eligible, for all queries, if and only if miss_penalty < 1 + baseline / 2 |
| Scorer.Overlooked | internal/scorer/scorer.go:55-57 | for every larger penalty, a single healthy and permitted but saturated replica that is passed over |
| Scorer.LowPenaltyFinds | internal/scorer/scorer.go:110-130 | under that bound nothing is picked exactly when no replica is healthy, untried and permitted |
| Scorer.LoadLowersScore | internal/scorer/scorer.go:117-123 | a longer queue or a fuller cache never raises the score |
| Scorer.ScoreIsIdleLessLoad | internal/scorer/scorer.go:110-130 | the score is that of an idle replica less its weighted load, which is linear in queue and cache up to their bounds and constant beyond |
| Scorer.LoadCostsEvenly | internal/scorer/scorer.go:117-123 | below the bounds each queued request costs its weight over the queue bound, and each share of the cache its weight |
| Scorer.LeastLoadedIsPicked | internal/scorer/scorer.go:71-79 | without a prefix, no candidate of the tier has less weighted load than the replica picked |
| Scorer.OtherTierLast | internal/scorer/scorer.go:71-95 | a replica of another tier is picked only if the tier has no candidate, and then again the least loaded |
| Scorer.EarlierWinsTies | internal/scorer/scorer.go:71-79 | of candidates that score the same a later one is never picked |
| Scorer.PickTouchesEveryoneAsked | internal/scorer/scorer.go:67-69 | a pick calls the breaker of each healthy untried replica exactly once, picked or not, and no other |
| Scorer.EligibleBefore | internal/scorer/scorer.go:59-69 | with distinct IDs, and nobody else at its breaker meanwhile, a replica is eligible exactly when its breaker would have permitted it before the pick |
| Scorer.AffinityDecidesExactly | internal/scorer/scorer.go:110-130 | a replica that has the prefix outscores every one that has not, whatever the loads, if and only if cache weight plus miss penalty exceeds the two load weights together |
| Scorer.AffinityIsPicked | internal/scorer/scorer.go:71-77 | then the eligible replica of the tier that has the prefix is the one picked |
| RetryLoop.Serve | internal/proxy/handler.go:207-286 | with other requests at the same breakers throughout: each attempt is the pick given all that happened before, on distinct replicas, at most 1 + max_retries; a failure records one failure, one cancel and closes its body, the winner one success and hands over its whole body; no winner means attempts ran out or nothing was picked; the breakers saw exactly the ledger's calls and the others' |
| RetryLoop.OneMoreAttempt | internal/proxy/handler.go:215-263 | an attempt that was picked and settled extends a sound ledger, on a replica not tried before |
| RetryLoop.NotTried | internal/scorer/scorer.go:64-66 | a pick never returns a replica that was tried before |
| RetryLoop.AttemptsPermitted | internal/proxy/handler.go:215-219 | every attempt's replica was healthy and permitted by its breaker at the moment it was asked, and that call precedes the attempt's outcome in the shared history |
| RetryLoop.GivesUpOnlyWhenNoneIsEligible | internal/proxy/handler.go:216-219 | giving up early means no replica was eligible, if miss_penalty < 1 + baseline / 2 |
| RetryLoop.NoMoreAttemptsThanReplicas | internal/proxy/handler.go:212-219 | a request is never sent more often than there are replicas |
| RetryLoop.TryReplica | internal/proxy/handler.go:221-284 | one attempt: its outcome, cancel and close counts settle as transport, status and first byte say, and it records one outcome |
| RetryLoop.BooksBalance | internal/proxy/handler.go:221-284 | over a request, exactly as many failures are recorded and contexts cancelled as attempts failed, one success for the other, and as many bodies closed as failed attempts had one |
| Requests.WinsExactly | internal/proxy/handler.go:224-256 | an attempt ends the request if and only if it has an answer of status at most 499 and, with stall detection, a first byte that beats the timer |
| Requests.HandleRequest | internal/proxy/handler.go:207-398 | the first attempt that succeeds is the last one; the client gets its body, or a proper prefix if it cut a write short, and no byte of any other; every context is cancelled and every body closed in the end; a stalled or unterminated stream is held against the winner; the breakers saw exactly these calls, the final status read and the others' |
| Requests.RequestOutcomes | internal/proxy/handler.go:233-398 | a request adds to what others record exactly one outcome for each replica it was sent to, and one failure more for a winner whose stream went bad |
| Requests.ServedAvoidedExactly | internal/proxy/handler.go:356-398 | after any served request, whatever others did, its replica is refused next if and only if its breaker was half-open at the status read, or open and either not cooled down yet or cooled down already at that read |
| Requests.BadStreamAvoidedExactly | internal/proxy/handler.go:356-398 | after a bad stream the breaker at that read is the one the failure leaves, run over the others' later calls; with none of these, the replica is refused next if and only if the failure opened the breaker or found it open, and the cooldown lasts still or was over at the read |
| Requests.ServedStrandsExactly | internal/proxy/handler.go:396-398 | a served request leaves its own replica's breaker half-open if and only if it was so, or was open and cooled down, at the status read |
| Requests.ServedStrandsForever | internal/proxy/handler.go:396-398 | in the second case no request of any later run is sent to that replica, unless another one records an outcome for it |
| Requests.StrandedRequest | internal/scorer/scorer.go:67-69 | a request never reaches a replica whose breaker is half-open when it comes and leaves it half-open, unless another request records an outcome for it |
| Requests.StrandedForever | internal/circuit/breaker.go:131-132 | so no request of any later run is sent to a replica whose breaker is half-open with nothing under way |
| ConversationPin.MemoryStore.GetConversation | internal/store/memory.go:54-62 | returns the state until and including its expiry, and nothing after |
| ConversationPin.MemoryStore.SetConversation | internal/store/memory.go:64-71 | the state is live up to now + ttl; other conversations are unaffected at all times |
| ConversationPin.MemoryStore.GetAffinity | internal/store/memory.go:35-43 | returns the replica until and including its expiry, and nothing after |
| ConversationPin.MemoryStore.SetAffinity | internal/store/memory.go:45-52 | the affinity is live up to now + ttl; other prefixes are unaffected at all times |
| ConversationPin.HandleTurn | internal/proxy/handler.go:152-394 | a turn routes to the higher of a live pin and the classified tier; when served it pins it and remembers the replica for the prefix until the ttl has passed, and a 503 leaves the store alone |
| ConversationPin.PinLives | internal/proxy/handler.go:388-394 | after a completed turn the pin is live exactly up to its write plus the ttl, and holds the tier routed to, the model that served, the score band and the turn count |
| ConversationPin.ExpiryFollows | internal/store/memory.go:64-71 | over any run a conversation's entry expires the ttl after its last completed turn's write, or as it did at the start |
| ConversationPin.ClassifierUp | internal/proxy/handler.go:157-200 | the classifier is told a live pin, and the pin moves exactly if the answer ranks higher |
| ConversationPin.ClassifierDown | internal/proxy/handler.go:166-173 | on a classifier error an unpinned conversation goes to small and a live pin stays unless it ranks below small |
| ConversationPin.PinIsHighest | internal/proxy/handler.go:183-200 | over every serial run whose reads come within the ttl of the last pin write, the pin is the first of the highest among the initial pin and the tiers named on completed turns |
| ConversationPin.PinNeverFalls | internal/proxy/handler.go:152-154 | along such a run the pin's priority never falls |
| ConversationPin.PinFallsExactly | internal/store/memory.go:54-62 | a turn lowers the pin if and only if it completes, read the pin after expiry and was classified lower |
| ConversationPin.ExpiredPinFalls | internal/store/memory.go:54-62 | a pin to the higher of two tiers, read after its expiry by a turn classified lower, falls |
| ConversationPin.InterleavedFallsExactly | internal/proxy/handler.go:388-394 | in every interleaving of the reads and writes of any turns, a write lowers the stored pin if and only if both the pin its turn had read and its classified tier rank below it |
| ConversationPin.UndisturbedTurnKeeps | internal/proxy/handler.go:183-200 | a turn that reads in time and overlaps no other write of its conversation never lowers the pin, however other conversations interleave |
| ConversationPin.LostUpdate | internal/proxy/handler.go:388-394 | two turns that both read before either writes, and the pin of the first is lost |
| ConversationPin.PinUnchanged | internal/proxy/handler.go:288-304 | over a whole run a conversation whose turns all end in a 503 keeps its entry as it was, whatever other conversations do |
| ConversationPin.PinStaysConfigured | internal/types/types.go:371-376 | in a valid configuration a pin on a configured tier stays on one, except exactly on a completed turn that reads it after its expiry and is classified as an unknown tier |
| ConversationPin.ClampRaisesToPin | internal/classifier/app/model_select.py:76-82 | the service's clamp answers the pin exactly when that tier has a model and ranks above the base choice in its table |
| ShippedConfig.ServiceAgainstConfig | internal/classifier/app/model_select.py:38-73 | where neither sees code or a simple question, service and configuration send the same requests to large, and the rest to reasoning and medium |
| ShippedConfig.ClassificationIsCode | internal/classifier/app/model_select.py:51-62 | the service takes every classification task for code, "class" being one of its code signals, so that its branch for them is never reached |
| ShippedConfig.QuestionsAgree | internal/classifier/app/model_select.py:62-66 | on plain questions both choose small exactly when score and reasoning are below 0.15 |
| ShippedConfig.TextMakesCode | internal/classifier/app/model_select.py:56-60 | asked with the text, a question is taken for code exactly if its score is below 0.60 and one of four marks stands in it |
| ConversationPin.ClampInvisibleExactly | internal/classifier/app/model_select.py:76-96 | the router's clamp makes the service's superfluous for all pins and signals if and only if the router ranks small <= code <= large <= reasoning |
| ConversationPin.ClampNeverShows | internal/classifier/app/main.py:22-30 | under that ranking a whole run stores the same conversations with and without the service's clamp |
| Usages.Tracker.Record | internal/usage/tracker.go:46-68 | the entry of every tenant is the sum, first and last time of its records, negative counts as zero |
| Usages.Tracker.Reset | internal/usage/tracker.go:95-108 | the tracker is as if the tenant's (or everyone's) records had never been made; returns the number of entries removed |
| Usages.OthersUnchanged | internal/usage/tracker.go:103-106 | forgetting one tenant leaves every other tenant's totals and times alone |
| Usages.UsageTable.UpsertUsage | internal/usage/postgres.go:79-114 | collapsing a batch and merging in any order gives the table with each tenant merged once |
| Usages.UsageTable.MergeTenants | internal/usage/postgres.go:102-112 | the rows are merged once per tenant whatever the order of the map |
| Usages.TableIsExact | internal/usage/postgres.go:30-37 | whatever the table starts with and however events are batched, each row holds what it started with plus the exact totals, and the latest time; its first time is the old row's, else the earliest of the first batch that mentioned the tenant |
| Usages.FirstSeenExactly | internal/usage/postgres.go:33-37 | for a row made by this process `first_seen` is the earliest event if and only if no later batch has one older than the first batch's |
| Usages.FirstSeenOfOldRow | internal/usage/postgres.go:33-37 | for a row left by an earlier process it precedes all events if and only if none is older than that row's |
| Usages.FirstSeenTooLate | internal/usage/postgres.go:33-37 | two batches of which the second is older: `first_seen` is not the earliest |
| BatchSinks.BatchSink.Enqueue | internal/usage/sink.go:73-80 | the object follows the protocol's step: a full channel drops the event and counts it, any other accepts it at the end |
| BatchSinks.BatchSink.Close | internal/usage/sink.go:88-92 | the stop signal is the protocol's step and touches nothing else |
| BatchSinks.BatchSink.AwaitDone | internal/usage/sink.go:88-92 | `Close` returns only once the worker has exited |
| BatchSinks.BatchSink.Select | internal/usage/sink.go:117-127 | each branch of the worker's select follows the protocol's step |
| BatchSinks.BatchSink.DrainOne | internal/usage/sink.go:128-136 | each turn of the drain takes the oldest event or starts the final flush |
| BatchSinks.BatchSink.EndFlush | internal/usage/sink.go:105-115 | a flush discards its batch whether it succeeded or not |
| BatchSinks.EveryRunKeeps | internal/usage/sink.go:73-139 | in every interleaving accepted events are flushed, batched and waiting in order; no flush is empty and none but the final one exceeds batchSize; tracker totals are conserved |
| BatchSinks.HistoriesAreSteps | internal/usage/sink.go:73-115 | in every run the uses tracked are those recorded, in order; each is waiting to be offered, accepted or dropped, once; every flush has the result it came back with |
| BatchSinks.DroppedExactly | internal/usage/sink.go:71-80 | as many events are dropped as were offered to a full channel, and every other one is accepted |
| BatchSinks.FlushedByTick | internal/usage/sink.go:123-125 | from any moment of any run: once as many events as were waiting have been received, a tick has come and the worker is no longer flushing, every event accepted up to that moment is in a flush, without `Close` |
| BatchSinks.CanFlushAll | internal/usage/sink.go:117-125 | from any moment at which it selects, the worker can get there by its own steps, with nothing received or waiting left |
| BatchSinks.TrackerAccountedFor | internal/proxy/handler.go:453-470 | at any moment what a tenant's row started with plus its tracked totals are its row plus failed flushes, batch, channel, drops and requests between recording and enqueueing |
| BatchSinks.TableAgreesWithTracker | internal/usage/sink.go:86-92 | when `Close` returns, nothing having been dropped, failed, left pending or enqueued since the worker saw the stop, each row has gained exactly the tracker's totals |
| BatchSinks.DrainTerminates | internal/usage/sink.go:126-136 | the drain takes at most one step per waiting event, one per event that still arrives, and two more; it never gets stuck and never holds more than these |
| BatchSinks.FinalFlushBounded | internal/usage/sink.go:126-136 | the final flush holds at most batchSize - 1 + bufferSize events and those that arrived after the stop was seen |
| BatchSinks.DrainOutpaced | internal/usage/sink.go:126-136 | for every n some run is still draining after n events, because requests kept enqueueing |
| Audit.Trail.Record | internal/audit/trail.go:23-31 | the ring stays the image of the history with the record appended |
| Audit.Trail.Recent | internal/audit/trail.go:36-53 | the last min(n, recorded, capacity) records of the whole history, newest first |
| Audit.SlotMoves | internal/audit/trail.go:25-26 | recording moves every kept record one place down and overwrites none of them |
| Audit.NewestIsSuffix | internal/audit/trail.go:33-35 | read backwards the newest records are the end of the history, and one more adds the next older |

## Left out

- SlidingWindow: needs a window of at least ten nanoseconds; the configuration check accepts one to nine, for which the bucket width is zero and the program divides by zero.
- Pick: float rounding of scores is not modelled, scores are reals; the same holds for error rates, token counts and classifier signals.
- Validate: covers the model tiers; the scalar checks on weights, limits, thresholds and sizes after line 404 of internal/config/config.go appear as preconditions where they matter.
- EligibleBefore: assumes distinct replica IDs, as does `PickTouchesEveryoneAsked`; the configuration check does not enforce them.
- ToReplicaList: takes any stable or unstable sort by priority as given; the per-tier maximum size and the code and reasoning flags it computes are not used by routing and are not modelled; sizes read off model names by a regular expression are an arbitrary function.
- TierForClassification: case folding and lower-casing are ASCII only; `SmallestTier` and the lookup helpers next to it are not modelled.
- Serve: the circuit registry is always present; request timeouts and header handling are not modelled, a request context that ends is an attempt that fails; a breaker is created at the clock reading of its first call.
- HandleRequest: whether the watchdog reported a stall is an input, and so is what a body delivers after its upstream was cancelled.
- Watch: the ticker delivers every tick on time and the loop's own work takes none; a write at the Unix epoch, which the program cannot tell from no write, does not occur.
- Write: bytes are characters, so UTF-8 is not modelled and the tokens-per-byte estimate counts characters; the white space that is trimmed is the ASCII one; JSON is an arbitrary decoding function, of which the round trips assume only that it undoes the encoder on the pieces sent and that encoded text is one line without outer white space.
- Send: runs to its end before the next one; of a second send that the guard lets through meanwhile only the lemmas named above speak. Whether the reply is an HTTP error, cannot be read, is stopped or breaks off is an input, with the text of the error.
- ParseSseStream: the scanner's reads are not modelled, only which lines it hands out.
- Recent: a negative count, for which the program panics, and a trail of capacity zero, which the configuration check rules out, are not modelled.
- HandleTurn: the Redis store is not modelled, only the in-memory one; conversation hashes are taken as given, and the score band is an input.
- EveryRunKeeps: a flush succeeds or fails as a whole; a partial failure of a database batch, an unbuffered channel and a second call of `Close` are not modelled.
- Record: the per-tenant integers are unbounded, 64-bit wrap-around is not modelled.
- HTTP servers and clients, authentication, metrics, logging, health polling, YAML, Redis and Postgres access, the machine-learning classifier behind its signals, and all rendering are outside the model.
