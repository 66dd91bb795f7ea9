# Forge, modelled and proved in Dafny

Forge is a background service for a clan site. It drains a queue of hiscores lookups against Jagex under one global
rate limit, drains a queue of Discord messages under one rate limit per webhook, and accepts pushes from a game plugin.
Each part is short code whose meaning is in its runs: workers, sweepers, enqueuers, crashes and the clock, interleaved.

What is modelled, module by module:

- `TokenBucket`, `KeyedLimiter`, `KeyedRuns`, `KeyedIsolation`, `EvictionSeen`: the keyed rate limiter. A class does
  what the Go methods do to the map of buckets; every run of waits, holds, cancellations, sweeps and ticks is compared
  with a limiter that never evicts and knows one key. The two agree, and the rate is kept, exactly when the ttl covers a
  stated span, and `EvictionSeen` builds the run that breaks both whenever it does not.
- `SqlOrder`, `FetchQueue`, `FetchFairness`, `FetchRuns`, `FetchStarvation`: the four-stage claim query as a selection,
  how long a row can wait, every run of claim transactions that lock, take and commit row by row, and the run in which a
  row waits for ever.
- `Pool`, `SweepTick`, `SweepRun`, `Lease`, `LeaseExact`, `JagexBudget`: the worker pool under both queues, its
  termination and its accounts; tick after tick of one process; the batch against the clock and the exact lease it
  needs; the requests that reach Jagex through limiter, workers and retries together.
- `Webhook`: the Discord workers on the keyed limiter, the posts that reach one webhook, and the pause after a 429.
- `HiscoresClient`, `Rsn`: one lookup with its retries, and the two readings of a player's name.
- `Delivery`, `DeliveryRuns`, `DeliveryRetries`, `DeliveryTakes`, `DeliveryLost`: the five-status life of a Discord
  message over all runs, its retries in time, how often Discord takes it when answers get lost, and what becomes of it
  when its worker does, as written and with the claim filter repaired.
- `EdgeTags`, `EdgeIngest`: If-None-Match, and batches replayed after errors.

Time is a whole number of ticks since Go's zero time, and a tick is so fine that one token refills in a whole number of
them; rates are exact. A limiter's `Wait` reserves first and then sleeps to its slot; a cancelled wait keeps its token
spent. A Postgres statement sees the latest committed rows and changes each row under that row's lock. `now()` of a
claim is the start of its transaction.

Five places where the code does less than its comments or defaults suggest, each with a lemma:

- A late-joiner burst "can slow the competition lane, never stop it": with a claim limit of one it stops it
  (`LimitOneStarves`); from two on it cannot (`RestServedExactly`, `BoundedWaiting`).
- A crashed worker's messages "become due again": the claim filter leaves out `delivering`, so they never do
  (`LossHappens`, `LostIsStuck`). With the filter repaired they do, but Complete, which checks no status, can then take a
  delivered message back to pending (`RepairAdmitsUndoing`).
- A replayed event "cannot double-post to Discord", but a retry can: a POST that Discord takes and whose answer is lost
  is posted again (`TakenTwice`), and only such a one (`TakenAgainExactly`).
- Evicting an idle bucket is meant to change nothing; a hold longer than the ttl is forgotten, and the rate exceeded
  (`HoldKeptExactly`, `EvictionUnseenExactly`, `RateKeptExactly`).
- Nothing checks that the hiscores burst is at least one; with zero, a batch larger than the pool hangs
  (`DeadlockFreeExactly`).

## Model

| member | source | states |
|---|---|---|
| TokenBucket.Limiter.Reserve | internal/ratelimit/keyed.go:67 | the limiter that Wait blocks on: refill to the burst, take one, sleep off the debt |
| TokenBucket.TakeKeepsLedger | internal/ratelimit/keyed.go:40-50 | after any reservation: every later debt beyond a burst has a sleeper, every sleeper a debt, and no window exceeds burst + rate * length |
| TokenBucket.TakeWaitsBehindSleepers | internal/sweep/runner.go:88 | a newcomer waits at most one refill for itself and one for each sleeper |
| KeyedLimiter.Keyed.constructor | internal/ratelimit/keyed.go:42-50 | no buckets; burst at least one; ttl ten minutes unless positive |
| KeyedLimiter.Keyed.EnsureLocked | internal/ratelimit/keyed.go:102-110 | the live bucket or a new full one, marked used now; no other key changes |
| KeyedLimiter.Keyed.Get | internal/ratelimit/keyed.go:94-99 | the pointer that a waiter keeps, and the time left of the hold |
| KeyedLimiter.Keyed.ReserveFor | internal/ratelimit/keyed.go:79-91 | a hold is only ever extended; a non-positive one changes nothing |
| KeyedLimiter.Keyed.Sweep | internal/ratelimit/keyed.go:113-125 | drops exactly the buckets idle longer than the ttl and counts them; their limiters live on for whoever holds them |
| KeyedRuns.SimRun | internal/ratelimit/keyed.go:53-125 | over every orderly run the live bucket, or its absence, is indistinguishable from the never-evicted reference |
| KeyedRuns.ReferenceNeverEvicts | internal/ratelimit/keyed.go:112-125 | the reference is the limiter with every sweep left out, in all runs and under no condition |
| KeyedRuns.EvictionInvisible | internal/ratelimit/keyed.go:53-125 | same slots, same order, same waiters as the same run without its sweeps, when max(burst time, hold + lateness) + waiters refills is within the ttl and a tick |
| KeyedRuns.KeysDoNotInterfere | internal/ratelimit/keyed.go:15-22 | under the side condition, in orderly runs, what a key is given depends on its own events and the clock only |
| KeyedIsolation.KeysAreIsolated | internal/ratelimit/keyed.go:15-22 | in all runs and under no condition, what a key is given depends on its own events, the clock and the sweeps only |
| KeyedRuns.EvictionKeepsRate | internal/ratelimit/keyed.go:112-125 | under the side condition, in orderly runs, eviction never lets a key exceed burst + rate * T in a window of length T |
| EvictionSeen.RateKeptExactly | internal/ratelimit/keyed.go:112-125 | no orderly run exceeds burst + rate * T if and only if the side condition holds |
| KeyedRuns.HoldSilencesKey | internal/ratelimit/keyed.go:70-99 | after a hold of at most the ttl and a tick whoever begins to wait at any later time, having waited before or not, gets no slot before the hold ends, in any continuation |
| KeyedRuns.HoldKeptExactly | internal/ratelimit/keyed.go:70-124 | in every reachable state a hold keeps that promise in all continuations if and only if it is no longer than the ttl and a tick |
| KeyedRuns.HoldsLeaveLatest | internal/ratelimit/keyed.go:77-90 | racing holds leave the latest of their deadlines and the one before, whenever each gets the lock |
| KeyedRuns.HoldsCommute | internal/ratelimit/keyed.go:77-90 | so their order does not matter |
| EvictionSeen.TokensShow | internal/ratelimit/keyed.go:113-124 | a ttl that burst plus waiters outlast: an orderly run whose tokens are forgotten and which exceeds the rate |
| EvictionSeen.HoldShows | internal/ratelimit/keyed.go:113-124 | a hold longer than the ttl: an orderly run in which a waiter gets its slot at ttl + 1, before the hold ends |
| EvictionSeen.LatenessShows | internal/ratelimit/keyed.go:53-67 | waiters held or late on an evicted bucket: an orderly run that adds a fresh burst to their tokens and exceeds the rate |
| EvictionSeen.EvictionUnseenExactly | internal/ratelimit/keyed.go:53-125 | the side condition is exact: leaving the sweeps out changes no orderly run if and only if it holds |
| EvictionSeen.DiscordHolds | internal/discord/sender.go:18-21 | with the shipped Discord limits eviction stays unseen, and the rate kept, exactly while holds and lateness stay within 14 min 52 s |
| FetchQueue.ShareLeavesRoom | internal/store/store.go:74-84 | a fifth rounded down, and at least one; leaves room for the other lanes if and only if the limit is two or more |
| FetchQueue.PipelineRefines | internal/store/store.go:92-120 | whatever ties it breaks, the four-stage query selects late joiners up to their share, then the rest up to the limit, each part maximal, in lane order |
| FetchQueue.PipelineReaches | internal/store/store.go:92-120 | and every such selection is one that the query can make |
| FetchQueue.LateJoinersFirst | internal/store/store.go:119-120 | within a claim late joiners come first |
| FetchQueue.ClaimedFirst | internal/store/store.go:91-111 | on the rows' own fields: a claimed row is of lower priority number, or of the same and no younger, than any due and free row of its lane that is left |
| FetchQueue.ClaimedInOrder | internal/store/store.go:120 | rows come in order of priority and age, over both lanes |
| FetchQueue.ClaimedCounts | internal/store/store.go:91-112 | min(JumpShare, late joiners due) late joiners, and as many others as there is then room for |
| FetchQueue.Query | internal/store/store.go:91-120 | the stages in turn meet that specification for every table, locks and limit |
| FetchQueue.Store.Claim | internal/store/store.go:90-135 | all of that for the returned rows, on the fields of the table before; they were due and free, and are returned as they were; nothing changes but their claim times; a negative limit is an error that changes nothing |
| FetchQueue.Store.Complete | internal/store/store.go:138-157 | first write wins; which four fields of which row take what; empty body and error become null; a dry run writes nothing |
| FetchFairness.PassedOver | internal/store/store.go:74-120 | a claim that passes a row over spends all the room late joiners leave on rows ahead of it |
| FetchFairness.BoundedWaiting | internal/store/store.go:69-84 | limit two or more: with p rows ahead, claimed within p / (limit - share) + 1 claims, however many late joiners arrive |
| FetchFairness.RestServedExactly | internal/store/store.go:69-84 | a claim serves the ordinary lanes whenever they have a row due if and only if the limit is two or more; with one, only while no late joiner is due; with none, never |
| FetchStarvation.LimitOneStarves | internal/store/store.go:79-83 | limit one: for any number of claims and any time between them there is a run from the empty queue, with one late joiner queued, claimed and fetched per claim, in which a competition row is always due and first of its lanes and never taken |
| FetchFairness.LateLaneDrains | internal/store/store.go:75-99 | a backlog of late joiners shrinks by exactly one share per claim |
| FetchRuns.ClaimIsRun | internal/store/store.go:91-120 | every execution of the claim query, whatever it locks and however it breaks ties, is a run of single locks and takes |
| FetchRuns.ClaimsExclude | internal/store/store.go:91-120 | two claims of one row are from transactions that start more than a lease apart, over all runs |
| FetchRuns.OverlapSharesExactly | internal/store/store.go:91-120 | transactions open at the same time can claim the same row, and do so exactly with starts more than a lease apart |
| FetchRuns.LocksExclude | internal/store/store.go:93-107 | open transactions never hold the same row |
| FetchRuns.FetchedIsFinal | internal/store/store.go:149-152 | a fetched row is never claimed, completed or changed again, however late a stale worker reports |
| FetchRuns.UnfetchedComesBack | internal/store/store.go:86-96 | an unfetched row is eligible again once its lease lapses, whoever crashed holding it |
| FetchRuns.LeaseProtects | internal/store/store.go:91-120 | while a claim is within its lease the row is claimed by nobody else |
| Pool.NeverStuck | internal/sweep/runner.go:81-123 | until all have joined some step other than cancelling is possible, unless the producer offers an item and every worker has left |
| Pool.DeadlockFreeExactly | internal/sweep/runner.go:85-123 | in no interleaving is there an unjoined state from which only a canceller can move, if and only if the limiter has a burst of at least one, or there are no more items than workers for it to turn away |
| Pool.EveryRunEnds | internal/sweep/runner.go:81-123 | every interleaving of N items on W workers ends within 5 N + W + 2 steps, and one that has not joined can go on in the cases that cannot deadlock |
| Pool.JoinedAccount | internal/sweep/runner.go:85-123 | no item is recorded twice, tallies equal records, what is unrecorded is with one worker that left on cancellation or was turned away, and a guarded pool records no fetch cut short |
| Pool.UncancelledIsComplete | internal/discord/worker.go:77-132 | never cancelled, and with any burst at all, every item is recorded exactly once |
| Pool.CancelledRecordsNothing | internal/sweep/runner.go:92-107 | guarded, nothing is tallied once the context has ended, and nothing recorded but what was being recorded then |
| Pool.CancelledIsNotRecorded | internal/sweep/runner.go:88-94 | a row waited for, fetched or just answered when the context ends is not recorded in any continuation, however good its answer |
| Pool.UnguardedFinishes | internal/discord/worker.go:86-117 | unguarded, a message being sent or answered when the context ends is recorded by the time the pool joins |
| Pool.RecordsAreAnswers | internal/sweep/runner.go:91-107 | every record carries the verdict of an answer |
| Pool.Tick | internal/sweep/runner.go:80-123 | under any scheduler that picks possible moves the pool ends in a state of some run, joined whenever it cannot deadlock |
| SweepTick.TickAccounts | internal/sweep/runner.go:96-134 | fetched + unranked + errors is the number of Completes, and of claims when never cancelled |
| SweepRun.NoOverlapWithin | internal/sweep/runner.go:51-124 | of all the workers one process ever starts, no two are at work on one row at a time, be the lease as short as it may |
| Lease.HandWaits | internal/sweep/runner.go:85-91 | with W workers on a limiter nobody waits more than W refills |
| Lease.BatchMakespan | internal/sweep/runner.go:81-123 | a batch of N is over within ceil(N / W) * (W / rate + F) in every interleaving |
| Lease.NoFetchOutlivesLease | internal/store/store.go:95 | when that is within the lease no claim of any process can find a row of the batch while it is in flight |
| Lease.NextTickBegins | internal/sweep/runner.go:51-60 | a joined tick leaves the limiter as the next needs it, so the bound holds batch after batch |
| LeaseExact.LeaseCoversExactly | internal/store/store.go:95 | for given tokens at hand: no claim finds a row of the batch in any interleaving if and only if the lease lasts to the end of the plan in which every fetch takes all of its time |
| LeaseExact.NoSecondClaim | internal/store/store.go:91-120 | with such a lease: no run of the queue claims a row of the batch a second time while the batch is in flight |
| LeaseExact.ShortLeaseClaimsTwice | internal/store/store.go:91-120 | with a shorter lease: a tick with the batch in flight and a run of the queue that claims the row a second time at that instant |
| LeaseExact.EndBounds | internal/sweep/runner.go:81-123 | whatever tokens are at hand, that end is between ceil(N / W) * F and ceil(N / W) * (W / rate + F) after the start |
| LeaseExact.DefaultsFit | internal/config/config.go:82-85 | 20 rows on 4 workers at one a second are safe under the five-minute lease exactly when five fetches and the time that the bucket takes to fill come to at most 298 seconds; so with fetches of up to 59.2 seconds whatever tokens are at hand |
| JagexBudget.RequestsBounded | internal/sweep/runner.go:87-91 | in any window at most max(1, Retries) * (burst + rate * T + workers) requests reach Jagex |
| JagexBudget.OneSlotManyRequests | internal/sweep/runner.go:88-91 | one slot really pays for as many requests as the client has attempts |
| Webhook.MoveIsOrderly | internal/discord/worker.go:77-98 | nothing that W workers do breaks the order that the limiter supposes: never more waiters of a key than workers, no hold longer than Discord asks |
| Webhook.PostsBounded | internal/discord/worker.go:83-98 | under the side condition at most burst + rate * T + W posts reach one webhook in any window, however the replies fall out |
| Webhook.PauseIsAsked | internal/discord/worker.go:86-98 | a run in which the first message is answered with a 429 and its worker has the bucket to hold off |
| Webhook.RetryAfterHeeded | internal/discord/worker.go:90-98 | once a 429 has held its bucket off, for at most the ttl and a tick, no message to that webhook whose Wait begins at any time after that is posted before the pause is over, in all runs and whoever was on the webhook when the answer came |
| HiscoresClient.Fetch | internal/hiscores/client.go:122-203 | by the responses themselves: no request for an implausible name or unknown mode; every round but the last is a failure other than a 404 that the context outlives; a 404 ends it as unranked; the first stats body ends it as ok, byte for byte up to one MiB; anything else ends it as transient, on cancellation or with the attempts used up, and with which error |
| Rsn.SanitizeRsn | internal/hiscores/rsn.go:21-37 | the loop and trim give the words joined by single spaces |
| Rsn.NormalizeRsn | internal/hiscores/rsn.go:47-64 | the loop and trims give the lowercase words, split at spaces and underscores, joined by single spaces |
| Rsn.SpacesAre | internal/hiscores/rsn.go:26 | which runes are spaces |
| Rsn.SameKey | internal/hiscores/rsn.go:39-46 | two names share a key if and only if their lowercase words agree |
| Rsn.KeyIgnoresUnderscores | internal/hiscores/rsn.go:41-44 | an underscore for a space leaves the key as it is |
| Rsn.KeyIgnoresCase | internal/hiscores/rsn.go:39-48 | so does lower case |
| Rsn.NoBreakSpaceIsSpace | internal/hiscores/rsn.go:18-20 | a no-break space is a space to both readings |
| Rsn.DisplayKeepsUnderscores | internal/hiscores/rsn.go:21-37 | but sanitising does not take an underscore for a space |
| Rsn.PlausibleExactly | internal/hiscores/rsn.go:13-74 | one to twelve letters, digits, spaces, underscores or hyphens |
| Rsn.WordsOfJoin | internal/hiscores/rsn.go:39-64 | splitting undoes joining |
| Rsn.KeyIsIdempotent | internal/hiscores/rsn.go:47-64 | normalising twice is normalising once |
| Rsn.SanitizeIsIdempotent | internal/hiscores/rsn.go:21-37 | sanitising twice is sanitising once |
| Rsn.SanitizeKeepsKey | internal/hiscores/rsn.go:21-64 | sanitising fixes a normalised name |
| Rsn.KeyOfSanitized | internal/hiscores/rsn.go:21-64 | sanitising first does not change the key |
| Delivery.BackoffGrows | internal/discord/sender.go:170-186 | positive, monotone, at most 15 minutes |
| Delivery.FateOfSend | internal/discord/sender.go:105-137 | which answers lead to delivered, dead, failed or pending, whatever the row was, and the exact due time of a retry |
| Delivery.Queue.Enqueue | internal/discord/queue.go:44-60 | zero exactly if a row has the key, which an empty key never has; otherwise one pending row more, with what it was given, due at once |
| Delivery.Queue.Claim | internal/discord/queue.go:67-97 | on the rows' own fields: the rows returned were due and free, and of higher priority, or the same and due no later, than any that is left; as many as the limit if any is left; each once, leased and counted; nothing else changes; a negative limit is an error |
| Delivery.Queue.Complete | internal/discord/queue.go:100-148 | which fields of the row take what for each verdict, by the attempts handed out and whatever its status; no other row changes |
| Delivery.Queue.Prune | internal/discord/queue.go:182-190 | afterwards no row delivered longer ago than the retention is left, and every other is as it was; how many went |
| DeliveryRuns.ClaimByRows | internal/discord/queue.go:68-82 | a statement that claims many rows is a run of single claims |
| DeliveryRuns.Lifecycle | internal/discord/queue.go:67-148 | in every reachable state: pending has at most 5 attempts, delivering 1 to 6 and at most one owner, failed is due at infinity |
| DeliveryTakes.SixSends | internal/discord/sender.go:188-190 | at most six sends of a message; Discord takes it at most once more than the times its answer was lost |
| DeliveryTakes.HeardIsFinal | internal/discord/queue.go:100-107 | once the worker has heard a 2xx, Discord takes nothing more of that row, nor of its key within the retention |
| DeliveryRuns.EndedIsFinal | internal/discord/queue.go:100-148 | delivered, failed and dead rows never change again; only a delivered row, kept long enough, goes |
| DeliveryRuns.OneLiveRowPerKey | internal/discord/queue.go:46-51 | one live row per key |
| DeliveryTakes.OncePerKey | internal/discord/queue.go:42-60 | two deliveries recorded under one key are of different rows and more than the retention apart |
| DeliveryTakes.TakenAgainExactly | internal/discord/sender.go:94-97 | in every reachable state: a message that Discord takes now can be taken again within the retention, as the same row or under its key, if and only if the worker is told to retry, has an attempt left, and the delay is no longer than that |
| DeliveryTakes.TakenTwice | internal/discord/sender.go:94-97 | it happens: taken, answer lost, taken again five seconds later under the same key |
| DeliveryLost.LossHappens | internal/discord/worker.go:86-88 | a run in which a worker claims a message and is lost |
| DeliveryRuns.LostIsStuck | internal/discord/queue.go:64-75 | a delivering row whose worker is lost is never claimed again, in any continuation; nor is a dead or failed one |
| DeliveryLost.ClaimedAgainExactly | internal/discord/queue.go:64-75 | in every reachable state a delivering row is ever claimed again if and only if its worker is still there, has no final answer, and an attempt is left |
| DeliveryRuns.ParkedSilencesKey | internal/discord/queue.go:42-60 | nor does Discord take, or the queue record, anything under its key again |
| DeliveryRetries.AskedDelayHolds | internal/discord/queue.go:136-146 | after a retry the row is untouched until a claim no earlier than the delay Discord asked for, or else the backoff |
| DeliveryRetries.RetriesKeepSchedule | internal/discord/sender.go:170-190 | with no server-given delay the second to sixth claims are 5, 35, 155, 455 and 1355 s or more after the first |
| DeliveryRetries.ScheduleInSeconds | internal/discord/sender.go:173-186 | the backoffs add up to exactly that |
| DeliveryLost.LostComesBackExactlyIfRepaired | internal/discord/queue.go:64-75 | some continuation claims a lost row again, and within a lease, if and only if the filter is repaired |
| DeliveryLost.RepairAdmitsUndoing | internal/discord/queue.go:127-146 | repaired, for every lease some run takes a delivered row back to pending |
| EdgeTags.MatchesETag | internal/edge/server.go:291-307 | the loop finds a piece that is a star or weakly equals the tag; an empty header or tag never matches |
| EdgeTags.SplitUndoesPrinting | internal/edge/server.go:295 | splitting at commas undoes joining comma-free parts |
| EdgeTags.ListMatches | internal/edge/server.go:287-307 | for any spacing, true if and only if a member is a star or weakly equals a non-empty current tag |
| EdgeTags.TagsMatchWeakly | internal/edge/server.go:300-304 | for lists of entity tags: if and only if some opaque part is the current one (RFC 9110, section 8.8.3.2) |
| EdgeTags.EchoMatches | internal/edge/server.go:287-307 | a tag sent back is recognised if and only if it has no comma, or a piece of it is a star |
| EdgeIngest.Server.Ingest | internal/edge/store.go:145-160 | a row added unless its key is there; whether it was |
| EdgeIngest.Server.HandleIngest | internal/edge/server.go:194-231 | the batch is the events, or the lone one; 400 exactly at the first event without a kind, 500 exactly at the first store error, with exactly the events before it stored; else 202 with accepted the rows added and duplicates the others, in the reply and in the counters |
| EdgeIngest.RowsAreEvents | internal/edge/server.go:205-209 | every row added is one of the events, its payload as sent, or an empty object if none was |
| EdgeIngest.KeylessIsKept | internal/edge/store.go:146-155 | an event without a key adds its row every time |
| EdgeIngest.StoredKeys | internal/edge/store.go:151-155 | a batch adds exactly its keys, and keys stay unique |
| EdgeIngest.StoredAppends | internal/edge/store.go:152-155 | the table only grows at its end |
| EdgeIngest.ReplayAdds | internal/edge/server.go:199-220 | a batch resumed from the start after reaching k: one clean run plus the keyless events before k once more |
| EdgeIngest.ReplayIsSafeExactlyWithKeys | internal/edge/store.go:143-144 | a retry ends as one clean run would if and only if every event its first attempt reached has a key |
| EdgeIngest.RetriesLeaveNoTrace | internal/edge/server.go:199-220 | any number of broken attempts at a keyed batch, then a success: the rows of one clean run |
| EdgeIngest.AloneIsStored | internal/edge/server.go:199-220 | inserts with nobody else in between are what the handler stores |
| EdgeIngest.EachKeyOnce | internal/edge/store.go:151-155 | with other writers in between, insert by insert, and whatever broken attempts offered before, each key of a batch that got through has one row |

## Left out

- KeyedLimiter.Keyed.constructor: a rate limit of zero, which never refills, has no interval here; an interval of zero is rate.Inf, and the results about runs suppose a positive one.
- KeyedRuns.EvictionInvisible: supposes that a waiter is scheduled within `late` of the end of its pause, which no line of the source enforces, and that at most `waiters` Waits of the key are blocked, which the number of workers does (`MoveIsOrderly`); `EvictionUnseenExactly` shows that both bounds are needed.
- KeyedRuns.HoldSilencesKey: a Wait that has begun before the hold may still go through during it, as in the source.
- FetchRuns.ClaimsExclude: speaks of starts, since `now()` is a transaction's start and a transaction may stay open for longer than the lease; `OverlapSharesExactly` says what then happens.
- Lease.BatchMakespan: takes the bound `fetch` on one lookup and its Complete as given, and workers that take up a row without delay.
- Lease.NoFetchOutlivesLease: takes the instant of the claim as given; the lease must also cover the claim query itself.
- LeaseExact.ShortLeaseClaimsTwice: the tick and the run of the queue are two machines that agree on the clock and on the instants of the claims; what the row holds besides is left open.
- Webhook.PostsBounded: as many workers as waiters, delays of at most `hold`, waiters scheduled within `late`, and no cancellation, which ends the process and its limiters.
- JagexBudget.RequestsBounded: a request may be made at its slot or any time later, which is why the workers' slots appear in the bound.
- Pool.JoinedAccount: an error from Complete is not modelled there; the row then comes back after its lease, as after a crash.
- Rsn.NormalizeRsn: lowercasing is any rune-by-rune map that keeps separators apart from the rest and is idempotent; names are valid UTF-8, so the invalid bytes that Go reads as U+FFFD are not covered.
- HiscoresClient.Fetch: the address that is asked, and so which table belongs to a mode, is not modelled; whether a body decodes to a stats object is an oracle, and so are the network and the context.
- Delivery.Queue.Claim: payloads, buckets and error texts do not steer the queue and are not kept in rows.
- DeliveryRetries.RetriesKeepSchedule: each statement acts at one instant, with its `now()`.
- DeliveryTakes.TakenAgainExactly: whether Discord took a message whose answer was lost, or was an error, is left open; a 2xx always means that it did.
- EdgeTags.ListMatches: opaque tags that contain commas are outside it; `EchoMatches` says what becomes of those.
- EdgeIngest.Server.HandleIngest: authentication and JSON decoding come before it and are not modelled; received and consumed times are not kept in rows.
- Cancellation refunds and floating-point rounding in golang.org/x/time/rate, which is not part of this model beyond a textbook bucket.
- The retry-after parser: a 429 carries an arbitrary delay.
- Worker fairness between webhooks: one busy bucket can occupy every worker, and nothing is claimed about it.
- The drain loop of the Discord worker around claim batches, and the tick and idle timers of both runners.
- Backlog, Stats, RecordRun, Heartbeat, TouchSeen, payload lookup, bearer and gzip parsing, health endpoints, logging, configuration parsing: single statements or single branches.
- HTTP transport, TLS, SHA-256 and the inside of Postgres.
