# s3-cache, verified

s3-cache answers GET requests for S3 objects. It cuts the requested span into aligned chunks,
fetches them concurrently under a memory budget that all requests share, lets identical fetches
share one upstream GET, keeps chunks in a directory that an evictor trims, and streams the chunks
to the client in order. This project models those parts in Dafny and proves what the code's
comments promise of them. `dafny verify dfyconfig.toml` checks everything.

## The protocol

`Protocol` is one stepwise system: any number of requests, each with its dispatcher, chunk
goroutines, claim goroutines and consumer; the shared flights with their leaders; the budget; the
cache directory as names, inodes and partly written files; and an upstream store whose objects are
replaced at any time and which answers conditional reads. A step is one channel operation, lock
region or atomic together with the goroutine-local work that follows it, so every interleaving of
such steps is a run. Timeouts, cancellations, failed downloads, failed cache writes, failed client
writes, evictions, re-uploads and process crashes may happen at any point.

`Invariants` says what every reachable state satisfies, `RequestSafety`, `ResponseSafety`,
`References`, `Safety` and `FlightSafety` prove that each step keeps it, `Progress` and
`Termination` prove that nothing gets stuck and nothing runs for ever, and `Theorems`, `Success`,
`Flush` and `Warm` (what the cache is good for) draw the conclusions over all runs. `EndToEnd` shows that each request does what
`serveAligned` would do as one thread (`Serving`), chunk after chunk. `Guards` turns off the dispatcher's two guards, one
at a time, and exhibits what then goes wrong: without the admission wait a budget of one unit
deadlocks on a two-chunk request, without the cancel check a cancelled request starts a chunk out
of order. The two configuration flags exist for that purpose only; all theorems are about the code
as written, with both guards on.

The remaining modules are the algorithms around it: `Tiling`, `Range`, `Serving` and `EndToEnd`
(from Range header to response bytes), `WriteGuard`, `Budget`, `Flights`, `Cache`, `Names`,
`Shards`, `Eviction`, `Readahead`, with `Base` and `Decimal` as shared vocabulary. Objects that the
program updates in place are classes whose methods are proved against the specification functions
that the lemmas are about.

## Assumptions

- SHA-1 confuses no two of the keys, and no two of the chunk names, that are in use. Only then is
  a cache file what the protocol takes it for, the file of one chunk id (`Names.PathsAreIds`).
- No ETag in use extends another, in the sense of `Names.Extends`. Only then is the protocol's map
  from chunk ids to calls the code's map from strings (`Names.KeysAreIds`), and with it
  `Theorems.NoVersionMixing` a statement about the code. Tags as RFC 9110 section 8.8.3 writes them
  never extend each other (`Names.WellTaggedDoNotExtend`).
- `chunkSize` stays the same over the cache's life, and it and the budget are at least 1
  (`services/fetcher.go:128-138` refuses anything else).
- A non-empty ETag identifies the bytes of an object; HEAD and the conditional GET report it
  truthfully.
- An object's size and one chunk together fit int64.
- A crash is a crash of the process: what was written to a file stays written.
- Files of a shard are named once in a walk, and what the walk saw is what the sweep goes by.

## Where the code and a reading of it differ

- `README.md:106-108` says that there is no invalidation by ETag, and `services/cache.go:53-55`
  names files by offset only. The code names chunks by ETag as well (`services/cache.go:67-73`,
  `services/cache.go:125-139`), and so does the model.
- "The body is the whole span exactly when `serveAligned` returns nil" fails in one direction: all
  bytes may have been written when the last flush fails, and an error is returned.
  `Flush.WholeBodyWithError` exhibits such a request and `Flush.NilExactlyWhenWhole` shows that this
  flush is the only exception.
- A Range header of the standard with a single range gets the standard's answer exactly if its unit
  is written in small letters, it has no comma and its positions fit int64 (`Range.RangeResolution`).
  Unit names do not depend on case (RFC 9110 section 14.1) and recipients ignore empty list elements
  (section 5.6.1.2), so `Bytes=0-0` and `bytes=0-0,` are such headers (`Range.OtherFormsAreRefused`);
  last positions beyond the object are clamped however large (`Range.HugeLastPosIsRefused`). All of
  these get 400, as do, by design, `bytes=-0` and a last position before the first. Beyond the
  grammar a sign in front of a number is accepted (`Range.AcceptedExactly`).
- The chunk name alone is ambiguous (`Names.NameAloneIsAmbiguous`); with the key's directory paths
  are injective for all keys and tags, up to collisions of SHA-1.
- Flight keys of different chunks can be equal, exactly if one chunk's ETag ends, after a slash or at
  its beginning, with an offset, a slash and the other's ETag (`Names.KeysCollideExactly`). ETags
  without quotes can do that (`Names.BareTagsCollide`).
- `itoa` renders the smallest int64 as a bare sign; no chunk offset is negative.

## Model

| member | source | states |
|---|---|---|
| Theorems.DeadlockFreedom | services/fetcher.go:298-353 | In every reachable state, whatever the requests, their sharing of chunks and the budget, either everything is finished or a step is enabled that is no timeout, cancellation or failed write; once finished all units and bytes are back and no call is registered. |
| Progress.NoDeadlock | services/fetcher.go:298-306 | The step that is enabled in an unfinished state, from the invariant alone. |
| Progress.QueueMoves | services/budget.go:30-44 | While a fetch waits for a unit, a unit is free or somebody who holds one can go on, even if no client reads. |
| Theorems.StalledClientsCannotStarve | services/write_guard.go:12-32 | With the write guard working, clients that stop reading cannot keep a fetch waiting for budget: when no step is left that needs no reading client, no fetch is in the queue. |
| Termination.StepUsesMeasure | services/fetcher.go:272-430 | Each step of the system, timeouts and cancellations included, uses up part of a measure that is never negative; evictions and uploads leave it alone. |
| Theorems.RunsAreBounded | services/fetcher.go:444-579 | Without new requests every run has at most as many steps of the system's own as the measure says. |
| Theorems.MaximalRunsFinish | services/fetcher.go:298-306 | However timeouts, cancellations, failures, evictions and uploads fall between the steps, a run that goes on until no healthy step is left ends with every request finished and every unit and byte back, within the measure. |
| Theorems.RunsToCompletion | services/fetcher.go:302-306 | From every state healthy steps alone finish every request and return every unit. |
| Success.HealthyRunsAnswerAll | services/fetcher.go:264-271 | Every maximal run without failures, with any evictions, uploads of other versions and new requests between its steps, answers every request in full with a success status and returns all units; without new requests within the measure. |
| Success.SomeRunAnswersAll | services/fetcher.go:264-271 | From the empty state any finite list of requests for existing spans, one version to a key, can be answered in full, however small the budget. |
| Guards.WithoutAdmissionWaitDeadlocks | services/fetcher.go:347-351 | Drop the wait for admission and some reachable state is stuck for good. |
| Guards.WithoutCancelCheckOutOfOrder | services/fetcher.go:317-321 | Drop the cancel check and some reachable state has a later chunk started while an earlier one waits for budget. |
| Theorems.AdmissionOrder | services/fetcher.go:307-352 | If chunk j of a request has been started, no earlier chunk of it is on a flight that waits for budget; cancellations included. |
| Theorems.FetchesStayInWindow | services/fetcher.go:283-291 | Fetches run ahead of the consumer by max(4, workers) chunks at most, and the dispatcher waits for a slot only when they do; the chunks for which a request holds a handle or a buffer lie within such a window from the one it is writing. |
| Theorems.CancelledStartsNothing | services/fetcher.go:462-465 | Along every run, a cancelled request joins no fetch for a chunk for which it has joined none, and starts no chunk that it has not started. |
| FlightSafety.StepInv | services/fetcher.go:432-579 | Every step of every part keeps the system's invariant. |
| Theorems.ReachableInv | services/fetcher.go:432-579 | Hence every state of every run satisfies it. |
| Safety.ReqStepInv | services/fetcher.go:355-430 | A step of a request's goroutines keeps the invariant, with the reference it may drop. |
| FlightSafety.JoinInv | services/singleflight.go:34-44 | Joining a call, or leading a new one, keeps the invariant: one call per key, every caller counted. |
| FlightSafety.LeadInv | services/fetcher.go:517-579 | Every step of a leader keeps the invariant on all its ways out. |
| Theorems.ResponseRefinement | services/fetcher.go:355-430 | The body is a prefix of the resolved version's span; it is the whole span when nil is returned, and otherwise only after a failed write; the error returned is the one met; success is announced only after chunk 0 arrived, an error status only with nothing sent. |
| Flush.NilExactlyWhenWhole | services/write_guard.go:94-107 | In the life of any process, after crashes too: for a returned request, nil is equivalent to a whole body if and only if no flush failed after its last byte. |
| Flush.WholeBodyWithError | services/write_guard.go:97-102 | A reachable state with a request that has sent its whole span and returned an error. |
| Theorems.NoVersionMixing | services/fetcher.go:476-479 | A chunk name, a filled buffer, a result in circulation and a response only ever yield the bytes of their own object version. |
| FlightSafety.LeadFs | services/cache.go:295-310 | Create, partial writes, rename and removal of temporary files by any leader keep every chunk name on a complete inode that nobody writes. |
| Warm.CachedChunksHit | services/fetcher.go:448-457 | Once a fetch of a chunk has been cached, and until the chunk is evicted, every lookup of it hits and reads its bytes, across crashes and whatever has become of the object upstream. |
| Warm.OnlyEvictionUnnames | services/cache.go:57-58 | An eviction takes a chunk's name away, and nothing else does. |
| Warm.CrashKeepsFiles | services/cache.go:57-58 | A crash takes requests, fetches and units, and leaves every name with the bytes written under it. |
| Warm.NoTempsLeft | services/cache.go:295-309 | While a process lives it leaves no temporary file behind, whatever fails. |
| Warm.ReopenedIsPrivate | services/chunk.go:54-69 | A caller that can reopen the cache file keeps nothing of the flight; only one that cannot reads the pinned handle. |
| Warm.WorkingCacheCutsNobody | services/write_guard.go:28-31 | While cache writes succeed, whatever else fails, no request is handed a buffer, the guard counts none and no client is put under a deadline. |
| Theorems.FlightLifetime | services/singleflight.go:46-57 | One joinable call per key; the references published are those in existence; release has begun exactly when there are none left; nothing reads a released flight. |
| Theorems.ReleasedOnce | services/chunk.go:34-38 | Release starts with the step that drops the last reference and never starts again. |
| Theorems.BudgetConservation | services/fetcher.go:537-578 | Units taken are those of leaders at work and of buffers not released; bytes in use stay under units and budget; both are zero when no flight is live. |
| Theorems.ExactlyOnceClose | services/chunk.go:78-80 | Every successful result is somewhere or closed, never closed twice, and closed when the request is over; after the drain no channel holds one. |
| Theorems.WriteGuardInProtocol | services/fetcher.go:340-345 | The guard's count is that of buffered chunks delivered and not yet written and is not negative before the abort; a deadline is armed exactly during writes made while it is positive. |
| WriteGuard.GuardedInEveryInterleaving | services/write_guard.go:47-92 | For every sequence of hold, begin and end: the count is exact, and while it does not go negative a deadline is armed exactly during writes made with buffers held. |
| WriteGuard.NeverArmedWithoutBuffers | services/write_guard.go:28-31 | A request that is handed no buffered chunk is never put under a deadline. |
| WriteGuard.Guard.HoldBuffer | services/write_guard.go:50-57 | hold on the object is the specification's step and keeps the guard's property. |
| WriteGuard.Guard.BeginWrite | services/write_guard.go:59-66 | The same for begin; without buffers held no deadline is set. |
| WriteGuard.Guard.EndWrite | services/write_guard.go:69-80 | The same for end; no deadline is left on the connection. |
| Tiling.SlicesTileTheSpan | services/chunk.go:116-144 | The slices of the touched chunks concatenate to the requested span and sum to the advertised length. |
| Tiling.SliceOfChunk | services/chunk.go:116-144 | The slice of each touched chunk is not empty and is the object's bytes between two consecutive bounds. |
| Tiling.ChunkInObject | services/fetcher.go:322-327 | Every touched chunk, clamped to the object's end, is not empty and at most one chunk long. |
| Tiling.OffsetsFitInt64 | services/fetcher.go:273-327 | No offset that the dispatcher computes leaves int64. |
| Serving.SendAll | services/fetcher.go:398-421 | For any outcomes of the fetches and any client: the consumer's loop sends whole parts in order up to the first failed fetch, short write or failed flush, and nothing after. |
| Serving.ServeAligned | services/fetcher.go:355-430 | Read as one thread, for any outcomes of the fetches and any client: the whole span when nothing fails, otherwise a prefix of it, and the whole only if the last flush failed; success is announced exactly when chunk 0 arrives. |
| EndToEnd.RefinesOneThread | services/fetcher.go:355-430 | In every run each returned request has done what that one thread does with some outcomes and client: it stopped at the same chunk with the same body, answer and status, and sent part of that chunk only after a failed write. |
| EndToEnd.HeaderToBody | services/web.go:116-167 | A request without a Range header, or with one of the standard's grammar, that returns nil has sent exactly the positions asked for, each with its byte of the one resolved version. |
| Range.RangeResolution | services/fetcher.go:230-257 | For every header of RFC 9110 section 14.1.2 with a single range, in any letters and with any empty list elements: the answer is the standard's if and only if the unit is in small letters, there is no comma and the positions fit int64, and 416 exactly when the first position is past the end; the rest is 400. |
| Range.GrammarParses | services/web.go:61-102 | What the parser makes of every such header. |
| Range.AcceptedExactly | services/web.go:61-102 | Exactly which headers of any kind are not refused. |
| Range.AcceptedIsInBounds | services/web.go:57-60 | An accepted header gives positions in order and inside int64, in one of the two forms. |
| Range.PlainGet | services/fetcher.go:243-258 | Without a Range header the whole object is served, an empty one with an empty 200, and never 416. |
| Range.AcceptableMeans | services/web.go:61-102 | The numbers that an accepted header is read as. |
| Range.AcceptedResolution | services/fetcher.go:230-257 | For every header that is not refused, exactly the positions it asks for are served, and 416 is answered exactly when there are none. |
| Range.ServedSpanIsInObject | services/fetcher.go:238-257 | For any header the served span lies inside the object. |
| Range.ServedSpanReparses | services/fetcher.go:379-385 | The span served, printed as a range and asked for again, is served again. |
| Range.HugeLastPosIsRefused | services/web.go:94-97 | A last position just beyond int64, which the standard clamps, gets 400. |
| Range.OtherFormsAreRefused | services/web.go:65-71 | The unit in other letters, and an empty list element, get 400. |
| Names.PathUnderRoot | services/cache.go:114-139 | A chunk's file lies under the shard root of its key, at a fixed depth. |
| Names.SamePath | services/cache.go:114-139 | Two chunks have one path exactly if the hashes of their keys and of their chunk names agree. |
| Names.PathsInjective | services/cache.go:114-139 | For arbitrary keys and tags, different chunks share a path only by a collision of the hash on their keys or on their names. |
| Names.PathsAreIds | services/cache.go:114-139 | Over any chunks in use without such collisions, paths are equal exactly for equal key, offset and ETag. |
| Names.NameAloneIsAmbiguous | services/cache.go:133-138 | Without the key's directory two chunks could share a name. |
| Names.KeysCollideExactly | services/fetcher.go:478 | For any two tags: chunks with these tags can have one flight key if and only if one tag extends the other by an offset. |
| Names.KeysAreIds | services/fetcher.go:478 | Over any chunks in use whose tags do not extend each other, flight keys are equal exactly for equal key, offset and ETag. |
| Names.FlightKeysInjective | services/fetcher.go:478 | In particular when tags are absent or entity tags of RFC 9110 section 8.8.3, slashes or not. |
| Names.SameTagInjective | services/readahead.go:104 | With equal tags, of any form, the keys determine key and offset. |
| Names.BareTagsCollide | services/fetcher.go:478 | Two chunks with tags without quotes and one flight key. |
| Flights.Group.Join | services/singleflight.go:34-44 | The registered call with one more caller, or a new one with its leader; no other call changes. |
| Flights.Group.Finish | services/singleflight.go:49-57 | Ends the joining and publishes a flight with exactly the callers' references. |
| Flights.ChunkFlight.Claim | services/chunk.go:46-70 | Each caller's reference is dropped at once or carried by its result, and the count stays exact. |
| Flights.ChunkResult.Close | services/chunk.go:99-110 | Drops the carried reference once; the flight is released exactly when no caller and no result is left. |
| Flights.ChunkResult.WriteSlice | services/chunk.go:116-144 | The client receives the chunk's slice, or what it takes of it. |
| Flights.ShareOnce | services/chunk.go:44-45 | Any number of callers join, claim and then close, reopening the cache file or not: the flight is released once no open result reads what it shares, and not before. |
| Budget.FirstComeFirstServed | services/budget.go:14-18 | In every interleaving: callers wait only while all units are taken, and those granted, followed by those waiting, are the callers that did not time out in order of arrival. |
| Budget.UnitsConserved | services/budget.go:30-44 | In every interleaving the units taken are those granted less those given back. |
| Budget.NoOvertaking | services/budget.go:30-44 | A caller that need not wait passes nobody and is served whenever a unit is free; one that gives up leaves the line; a release frees a unit or hands it to the oldest waiting caller. |
| Budget.HighWaterMark | services/budget.go:46-58 | In every interleaving of allocs and releases peak never falls, stays under the budget and under what inUse reached, and equals it when no alloc is under way. |
| Budget.AllocsMakeProgress | services/budget.go:51-56 | Each load and swap of the loops ends an alloc or brings one nearer its end, so without new allocs all of them end. |
| Budget.BytesConserved | services/budget.go:46-68 | Units held and buffers counted are those taken less those given back. |
| Budget.ChunkBudget.Acquire | services/budget.go:31-44 | The object's acquire is the specification's step: a unit, or the end of the line. |
| Budget.ChunkBudget.GiveUp | services/budget.go:41-43 | A caller whose context ends leaves the line, and the order of the others stays. |
| Budget.ChunkBudget.Alloc | services/budget.go:47-58 | Whatever other allocs raise the mark to between load and swap, the loop ends with the highest of the old mark, theirs and the bytes in use. |
| Budget.ChunkBudget.Release | services/budget.go:62-68 | Bytes go back, and the unit goes to the oldest waiting caller if there is one. |
| Cache.DiskCache.MarkerTime | services/cache.go:153-206 | A remembered time, unknown included, stays; the first use of a shard root answers the time that its marker holds, or writes now into a missing one if it can, and otherwise answers unknown; a marker on disk that holds a time is never changed. |
| Cache.DiskCache.NextProcessAgrees | services/cache.go:75-79 | A later process on the same files uses the marker time that an earlier one knew. |
| Cache.DiskCache.Get | services/cache.go:230-269 | The version's own chunk or, exactly when it has none and the marker time or the modification time is unknown or the latter is earlier, the one from before versioning - never with a readable marker and a reported time at or after it; a hit moves the file to the young end of the eviction order. |
| Cache.DiskCache.Put | services/cache.go:278-311 | Wherever the attempt fails or the process dies, names keep what they had; only success puts the whole chunk under its name, and only death leaves a temporary file. |
| Eviction.ShardDir.SweepShard | services/eviction.go:111-175 | Tries counted files oldest first and stops at the first moment at which the total is at the target; removals fail for stuck files and for those that left by themselves before their try; stale temporary files are removed. |
| Eviction.SortByTime | services/eviction.go:153 | A permutation of the files in order of modification time. |
| Eviction.SweepConserves | services/eviction.go:153-168 | Freed and remaining bytes add up to the initial total, and the reported total is what remains. |
| Eviction.SweepReachesTarget | services/eviction.go:149-168 | An over-full shard ends at nine tenths of the cap or with every file tried; at nine tenths whenever no try fails; what files leave by themselves only makes it smaller. |
| Eviction.SweepIsOldestFirst | services/eviction.go:153-163 | No removed file is newer than a file left without a failed try. |
| Eviction.SweepIsMinimal | services/eviction.go:156-159 | Without its last removal the sweep would have ended above the target. |
| Eviction.SweepSpares | services/eviction.go:127-137 | The marker, fresh temporary files and unseen files stay; stale temporary files go. |
| Shards.DistributeByHash | services/cache.go:365-381 | The loop returns the shard at min(num/interval, n-1). |
| Shards.Monotone | services/cache.go:372-380 | Larger hash prefixes never go to an earlier shard. |
| Shards.ShareOf | services/cache.go:372-380 | The number of prefixes of each shard, for any number of shards. |
| Shards.SharesBalanced | services/cache.go:362-364 | With up to a thousand shards the shares differ by at most two prefixes. |
| Readahead.Kick | services/readahead.go:75-96 | Schedules consecutive chunks from the given one on, all inside the object and none empty, fewer than configured only at the object's end. |
| Readahead.KickContinues | services/fetcher.go:426-428 | The first prefetched chunk begins where the last served chunk ends. |
| Readahead.PrefetchesBounded | services/readahead.go:104-146 | In every interleaving no more prefetches run than there are slots, no two for one chunk and version, and when all are gone no entry and no slot is left. |
| Readahead.PrefetchesEnd | services/readahead.go:114-133 | Until a prefetch is gone a step of it is enabled, and every such step brings the prefetches nearer to their ends. |
| Readahead.RunsIfSlotFree | services/readahead.go:114-124 | A prefetch runs exactly if there was a slot when it asked. |
| Readahead.Prefetcher.Schedule | services/readahead.go:90-127 | Starts exactly a chunk that is not cached, not reserved and has a slot; otherwise leaves nothing behind. |
| Readahead.Prefetcher.Finish | services/readahead.go:128-133 | The slot and the entry go back. |
| Readahead.Itoa | services/readahead.go:149-171 | Decimal notation within twenty bytes for every int64 above the minimum; the minimum gives a bare sign. |
| Readahead.ItoaParsesBack | services/readahead.go:149-171 | What is rendered parses back to the number. |
| Readahead.DedupKey | services/readahead.go:104 | The prefetch entry of a chunk is its flight key. |

## Left out

- The HTTP server, the S3 client, TLS, configuration flags, logging, metrics and shutdown; a download is a step that yields all the bytes of a current version, or an error.
- The HEAD cache: a request may carry any version of any object at any time, so every stale HEAD is covered; its size limit and TTL are not.
- Wall-clock claims: timeouts, the half-length write deadline, the age of temporary files and TTLs are steps or parameters that may come at any moment.
- Objects without an ETag: their reads are not conditional and their chunk names not versioned, so no version claim holds; the protocol has none. Chunks from before versioning are in `Cache` only.
- Readahead inside the protocol: a prefetch acts on flights like a request for one chunk that ends early, and is not a separate kind of goroutine there; `Readahead` has its own bounds.
- Reading a file between open and close is one read of an inode; kernel offsets and sendfile are not modelled, and neither is the loss of written data when the machine goes down.
- Removal of empty directories, directory listing, hexadecimal rendering and the mapping of S3 errors to status codes.
- Concurrent work on a shard during a sweep other than files that leave: a file written or touched after the walk keeps the size and age that the walk saw; the protocol allows the removal of any file at any time.
- Serving.SendAll: takes what the fetches yield and how the client behaves as inputs, and has no guard, slots or cancellation; the protocol has them, and `EndToEnd.RefinesOneThread` ties the two together.
- Serving.ServeAligned: likewise one thread over given fetches and a given client.
- The methods of the classes run one at a time; interleavings are those of `Protocol`, `WriteGuard`, `Budget` and `Readahead`, whose steps the methods take.
