# mrdl: a model of the download engine

mrdl fetches one file in chunks from several mirrors. This project models the path of a byte from a
mirror's response to the verified file, and the concurrent protocol around it, and proves what that
path guarantees, for every input, every interleaving and every run.

The parts that work step by step are classes and methods with loops, each proved against a
specification: the fetch loop and its reused buffer (`Fetcher`), the two disk writers (`Writer`), the
worker (`WorkerPool`), the hasher (`Hasher`), the token bucket (`Throttle`), the progress counter
(`Progress`), mirror bans (`Health`) and the downloader's lifecycle (`Lifecycle`). The concurrency is
modelled as state machines whose actions are the steps between two points at which another coroutine
or thread may run:

- `Store`: fetch attempts, the bounded write queue and the writer thread with its partial writes, or
  the memory-mapped writer. `StoreSafety` proves that every step keeps its invariant.
- `Pool`: workers, the shared priority queue, bans, retries, join, the verdict of `run`. `PoolSafety`.
- `Engine`: both together, with the causes of the threads' stop flag; every interleaving of their
  steps is a run. `EngineSafety`, `Runs`.
- `Handshake`: the condition variable between writer and hasher, instruction by instruction.
- `Verified`: any number of steps of a run between two looks of the hasher.
- `Turns`: what the workers' turns do with bans and retries over whole runs, in terms of the ban times.
- `Accounting`: the progress counter under the calls of fetches that run side by side.
- `Outcome`: the lifecycle over a run of the engine and its hasher: what COMPLETED means for the file.
- `Resume`: any number of sessions, each cut off anywhere.

A `History` is a sound start and the steps taken since; the results of `Runs` are about every history.
Lemmas that require the engine's invariant hold in every state of every run: `Runs.Begin` and
`Runs.After`, which build those states, ensure it.

The specification functions of the machines and of the classes are the same ones: `WorkerPool` is
proved to make exactly the pool machine's steps, and `DiskWriter` those of the store machine, turn by
turn; what `Fetcher` hands to the writer is proved to be what the store machine's attempts may do, and
each run of the engine is proved to satisfy what the hasher relies on. Bytes are numbers below 256, the
file is a sequence of bytes, amounts of tokens and times are exact reals.

Assumptions about the world outside: a mirror that is asked for the bytes from `a` on sends the bytes
from `a` on (byte ranges, section 14.1.2 of RFC 9110); `honest` in a setup switches this on, and only
results that speak of the mirrors' bytes use it. Nobody else writes to the file. Clocks do not go back.
The event loop runs its callbacks in the order in which they were queued; so a stop() that queued its
callback before `run` was woken is seen by `run`. The threads' flag stays set once it is set: nobody
calls `start` again while a download runs, which would clear it (`Lifecycle.Downloader.Start`).

## What the code does not guarantee

These are proved of the model, with the exact condition where there is one.

- A completed chunk need not be on disk. `write` and `mark_complete` discard silently once the
  thread's stop flag is set, and the writer thread abandons its queue. `Runs.CompletedButNotOnDisk`
  says exactly when a chunk is missing, `Runs.DiskBehindVerdict` exactly when one is although `run()`
  returned True. Two runs show the two causes: an I/O error (`LostMark.FaultBehindSuccess`) and a
  `stop()` that comes behind the verdict while `run` still waits for its workers
  (`LostMark.StopBehindSuccess`). The writer has no error in the second, and the table has a transition
  from PAUSED to COMPLETED, so a download without a checksum reports COMPLETED over a missing chunk
  (`Outcome.StoppedTooLate`). `Outcome.Download` says what COMPLETED does mean: with a checksum, always, that
  the file's bytes up to the download's size match it; without one, that all chunks are on disk exactly
  when no mark was left in the queue.
- PAUSED has no transition to FAILED. A writer error or a wrong checksum met while paused, and a
  writer error behind a completed pool, leave `start` as InvalidStateTransition instead of a result; in
  the last case the saved state may be cleared already (`Lifecycle.Undisturbed`, proved of `Finish`).
- The progress counter stays too high after a mirror is given up as slow in the middle of a block, by
  the rest of that block, and after a short read, by all its bytes (`Accounting.LeakBounds`, with the
  inputs `Accounting.SlowFetchLeaks` and `Accounting.ShortReadLeaks`). The first cannot happen for chunks
  of at most 16 MiB (`Accounting.SmallChunksDoNotLeak`).
- A `start` that the table refuses has by then cleared the threads' flag and, with overwrite, removed
  the file and the saved state (`Lifecycle.Downloader.Start`).
- A failure may shorten a mirror's ban (`Health.BanMovesTo`, `Health.BanCanShrink`).
- `fallocate` does not shorten a longer local file, so a remote file that shrank leaves a tail
  (`Session.PreparedLength`); the streaming verdict is on the download's size, the one-shot verdict on
  the whole file (`Hasher.StreamingAgreesWithOneShot`).

## Model

| member | source | states |
|---|---|---|
| Tiling.TotalChunks | src/mrdl/session.py:33-45 | The number of chunks is the least that covers the file, and one when the size is unknown. |
| Tiling.LengthsAgree | src/mrdl/fetcher.py:118-121 | The inclusive range of the fetcher and the length formula of hasher and progress counter give the same length for every chunk, which is positive, at most the chunk size, and inside the file; only the last chunk may be shorter. |
| Tiling.TilesExactly | src/mrdl/session.py:33-45 | Every byte of the file lies in the range of exactly one chunk: the ranges are disjoint and leave no gap. |
| Tiling.LengthsSum | src/mrdl/hasher.py:163-165 | The lengths of the first k chunks sum to the start of chunk k, and those of all chunks to the file's size. |
| Disk.PatchAbsorbsPart | src/mrdl/writer.py:155-162 | Redoing a whole write over any part of it that a partial pwrite already did gives the same file as doing it once. |
| Disk.PatchSplits | src/mrdl/writer.py:155-162 | Two consecutive writes equal one write of the joined bytes, also past the end of the file. |
| Writer.DiskWriter.ReadFlag | src/mrdl/writer.py:79-84 | The head of the producers' loop is the store machine's step for it: with the flag set the call returns, and the command, and with a mark its chunk, is lost. |
| Writer.DiskWriter.TryPut | src/mrdl/writer.py:79-84 | The put is the machine's step: the command goes to the end of the queue, or with a full queue the loop goes round, whatever has happened since the flag was read. |
| Writer.DiskWriter.LoopHead | src/mrdl/writer.py:145-147 | The thread's turn at the head of its loop is the machine's step: it abandons the queue exactly when the flag is set. |
| Writer.DiskWriter.GetItem | src/mrdl/writer.py:146-170 | The turn behind queue.get is the machine's step: empty-handed, or the next command in order, of which a mark takes effect at once and the sentinel ends the thread. |
| Writer.DiskWriter.WritePiece | src/mrdl/writer.py:158-162 | One pwrite is the machine's step: the bytes it takes land at their place, and a count of zero or an OSError sets error and flag and leaves the command incomplete. |
| Writer.DiskWriter.WriteAll | src/mrdl/writer.py:155-162 | For any results of pwrite the loop ends, with all the data in place and every other byte unchanged, or with the error, the flag and a proper prefix of the data, and then some pwrite took nothing or raised. |
| Writer.DiskWriter.RunItem | src/mrdl/writer.py:154-173 | One command off the queue has exactly its effect on file and on-disk set, or, when a pwrite took nothing or raised, the error and the stop flag are set, a proper prefix is in the file and nothing is marked. |
| Writer.DiskWriter.Run | src/mrdl/writer.py:142-173 | The commands taken take effect in queue order; the marks executed are exactly those in front of the point where the thread stopped; it stops only on the sentinel, the flag, an error or an empty queue, and nothing behind a failed write is executed. |
| Writer.MarksMember | src/mrdl/writer.py:163-165 | A chunk is among the marks of some commands exactly when its mark command is among them. |
| Writer.MmapDiskWriter.Write | src/mrdl/mmap_writer.py:48-57 | The mapped writer's assignment is the queued writer's write carried out at once; it fails, changing nothing, before start and when the bytes do not fit the mapping. |
| Writer.MmapDiskWriter.MarkComplete | src/mrdl/mmap_writer.py:59-69 | The mapped writer's mark has the effect that the queued mark has on the on-disk set. |
| Writer.MmapDiskWriter.ReadChunk | src/mrdl/mmap_writer.py:94-101 | A chunk inside the mapping is read back as the file's bytes at its place; nothing is returned before start. |
| StoreSafety.Step | src/mrdl/writer.py:71-98 | Every step of every attempt, of the bounded queue and of the writer thread, in any interleaving, also after a stop, an I/O error or a cancelled worker, keeps the invariant: a finished chunk is right on disk and out of reach, or its mark waits in the queue at a place where it will be. Chunks on disk keep their bytes. |
| StoreSafety.OnDiskIsRight | src/mrdl/writer.py:142-170 | A marked chunk's whole range holds the bytes of the one attempt that finished it, whatever earlier attempts wrote, and no queued command and no attempt in progress can touch that range. |
| StoreSafety.PromisedBegins | src/mrdl/fetcher.py:253-254 | Queueing a chunk's mark behind commands whose combined effect makes its range right settles the chunk: this is where FIFO order is used. |
| StoreSafety.WriteLanded | src/mrdl/writer.py:155-162 | A partial pwrite, whatever it accepts, does not change what the file will be once everything pending is carried out. |
| StoreSafety.UnmarkedIsPending | src/mrdl/writer.py:163-165 | A finished chunk that is not on disk has its mark command still pending. |
| ChunkQueue.NothingDueBehind | src/mrdl/worker_pool.py:139-152 | In the priority queue no item is due when its head is not. |
| ChunkQueue.InsertKeepsItems | src/mrdl/worker_pool.py:150 | A put adds exactly its item and loses none. |
| PoolSafety.PutBackHidesNothing | src/mrdl/worker_pool.py:148-152 | When a worker finds its item not yet due, nothing in the queue is due, and the put-back keeps every item with its time, index and retries. |
| PoolSafety.ConservedStep | src/mrdl/worker_pool.py:135-169 | Every step keeps each chunk in exactly one place: queued, held by one worker, completed, or gone from the protocol; gone happens only together with the stop flag. |
| PoolSafety.OnePlace | src/mrdl/worker_pool.py:187-190 | A queued chunk is neither completed nor held, and a held one is held by nobody else and neither queued nor completed: a chunk is never refetched behind its success. |
| PoolSafety.UnfinishedStep | src/mrdl/worker_pool.py:144-169 | The count that join waits for is always the queue's length plus the workers between get and task_done, those that already put their item back included. |
| PoolSafety.JoinMeansAll | src/mrdl/worker_pool.py:93-102 | When join can return and the stop flag is unset, every chunk is completed. |
| PoolSafety.BudgetStep | src/mrdl/worker_pool.py:222-235 | The sum over unfinished chunks of the fetches they have left strictly drops with every fetch that ends, and does not change when an item is put back. |
| PoolSafety.Step | src/mrdl/worker_pool.py:124-169 | Every step of every worker, of join, of the verdict, of a stop and of a cancellation keeps the whole pool invariant. |
| PoolSafety.BackoffDoubles | src/mrdl/worker_pool.py:224 | The wait before a retry starts at one second and doubles with every retry, up to thirty seconds. |
| PoolSafety.TurnMeans | src/mrdl/worker_pool.py:145-167 | What the machine decides for an item, told from the ban times alone. |
| Turns.TurnsInRun | src/mrdl/worker_pool.py:144-167 | Over every run, each turn that takes a chunk starts a fetch exactly when the chunk is due and the worker's mirror is not banned, aborts the pool exactly when it is due and all mirrors are banned, its own included, and puts the chunk back, with every item as it was, in all other cases. |
| Turns.BansInRun | src/mrdl/mirror_health.py:42-54 | Over every run a failed fetch sets its mirror's ban end to 120 s from then for a slow mirror, to the number a 429 asks for or 120 s without one, and to 60 s for anything else; no other step changes a ban. |
| Turns.NoFetchDuringBan | src/mrdl/worker_pool.py:154-165 | Over every run no fetch from a failed mirror starts before that ban is over, unless the mirror fails once more in between. |
| Turns.RetriesAreSpaced | src/mrdl/worker_pool.py:223-225 | Over every run no fetch of a failed chunk starts again before 1, 2, 4, 8 or 16 s, by the number of its retries, have passed since the failure. |
| WorkerPool.WorkerPool.TakeTurn | src/mrdl/worker_pool.py:139-167 | The worker's code from get to the next await is exactly one step of the pool machine: a fetch starts exactly for a chunk that is due while the mirror's ban end is past; the worker gives up, with error and thread flag, exactly when the chunk is due and every mirror's ban end is to come; in all other cases a chunk goes back; and a worker leaves only on the sentinel or by giving up. |
| WorkerPool.WorkerPool.ProcessChunk | src/mrdl/worker_pool.py:186-207 | The code behind fetch is exactly the machine's step for success, stop or failure; the last error and the thread flag are set exactly on a sixth failure without a stop. |
| WorkerPool.WorkerPool.HandleChunkFailure | src/mrdl/worker_pool.py:222-235 | A failed chunk is queued again with its backoff and one more retry, exactly when nothing was stopped and retries remain; else it leaves, and the fifth retry's failure sets both flags and the error. |
| WorkerPool.WorkerPool.Conclude | src/mrdl/worker_pool.py:92-109 | run reports completion exactly when join was seen done and the stop flag is unset at that moment, and queues one sentinel per worker. |
| WorkerPool.WorkerPool.Cancelled | src/mrdl/worker_pool.py:114-119 | A worker that is cancelled at its await makes exactly the machine's step: its item is reported as done and its chunk leaves uncompleted. |
| WorkerPool.WorkerPool.EveryMirrorBanned | src/mrdl/worker_pool.py:155 | The loop over the mirrors finds that all are banned exactly when each is. |
| Health.MirrorHealthTracker.GetActiveCount | src/mrdl/mirror_health.py:29-33 | The loop counts the entries of the mirror list that are not banned. |
| Health.MirrorHealthTracker.RecordFailure | src/mrdl/mirror_health.py:35-54 | The failed mirror's ban end is overwritten by 120 s from now for a slow mirror, the number a 429 asks for or 120 s, and 60 s otherwise; no other mirror's is; and the mirror is banned from now on unless the server asked for no wait. |
| Health.NoneActive | src/mrdl/worker_pool.py:155 | The number of active mirrors is zero exactly when the pool's test finds all of them banned. |
| Health.BanMovesTo | src/mrdl/mirror_health.py:53-54 | A failure during a ban leaves it at least as long exactly when the ban's rest is at most the new duration. |
| Health.BanCanShrink | src/mrdl/mirror_health.py:53-54 | An ordinary failure right behind a ban for slowness ends that ban earlier. |
| Engine.StartsFresh | src/mrdl/worker_pool.py:167 | The pool only ever starts a fetch of a chunk that no attempt, not even that of a cancelled worker, is at work on, and that has not been finished or lost. |
| EngineSafety.NoAttemptsLeft | src/mrdl/worker_pool.py:92-102 | When run has reported completion, no fetch attempt is left that could still hand over a command. |
| EngineSafety.CauseLinkStep | src/mrdl/downloader.py:293-304 | In every interleaving a set flag has a cause (an I/O error, stop() or cancel() behind their callback, the pool's giving up, or start() behind the verdict), and behind a verdict of completion only an I/O error can have made mark_complete discard a mark. |
| EngineSafety.Step | src/mrdl/worker_pool.py:124-207 | Every step of every interleaving of pool, fetches, queue and writer thread keeps the joint invariant, freezes what is on disk, and uncompletes nothing. |
| Runs.BeginInv | src/mrdl/downloader.py:185-215 | A sound resume state, whatever it contains, starts the engine in its invariant: completed and queued chunks are an exact partition. |
| Runs.OnDiskForGood | src/mrdl/writer.py:142-170 | In every state of every run a chunk on disk has the bytes of the attempt that finished it, no pending command and no attempt can reach them, and every continuation of the run leaves them as they are. |
| Runs.Frozen | src/mrdl/writer.py:142-170 | Over any run the on-disk set only grows, chunks on disk keep their bytes, and completed chunks stay completed. |
| Runs.PoolVerdict | src/mrdl/worker_pool.py:92-102 | In every state of every run each chunk is in one place, and a completed verdict, or join's count at zero without a stop, means that all chunks are completed. |
| Runs.BoundedWork | src/mrdl/worker_pool.py:222-235 | Over every run each chunk is fetched at most six times, a queued item's retry number is the number of that chunk's failed fetches in the run, and at most six times the number of chunks of all steps end a fetch. |
| Runs.EachChunkOnce | src/mrdl/worker_pool.py:187-190 | Over every run each chunk is fetched with success at most once, and never when an earlier session had completed it. |
| Runs.CompletedButNotOnDisk | src/mrdl/writer.py:92-98 | In every state of every run a completed chunk is missing from the disk exactly when its mark_complete read the flag as set in that run, or its mark is still pending. |
| Runs.MappedCompletedOnDisk | src/mrdl/mmap_writer.py:48-69 | With the mapped writer every completed chunk is on disk in every reachable state. |
| Runs.DiskBehindVerdict | src/mrdl/writer.py:145-173 | For all runs with a completed verdict whose thread is over: all chunks are on disk exactly when the thread took the sentinel, or read the flag as set at the head of its loop with no mark left in the queue (or there is no thread); an I/O error always misses a chunk, and mark_complete has discarded a mark only behind one. |
| Runs.AllOnDiskIsSource | src/mrdl/fetcher.py:118-124 | When every chunk is on disk, the file's bytes up to the total size are the mirrors' bytes. |
| Runs.EndToEnd | src/mrdl/downloader.py:217-250 | From any sound resume state, over any run: pool success, no writer error and a drained queue mean that every chunk is on disk and the file is the mirrors' file, also when a stop came in between. |
| LostMark.FaultBehindSuccess | src/mrdl/writer.py:171-173 | A run from a fresh start: the thread fails on the only write, mark_complete reads the flag it has set, and run() returns True over an empty disk. |
| LostMark.StopBehindSuccess | src/mrdl/worker_pool.py:102-115 | A run from a fresh start: a stop() behind is_complete lets the thread abandon write and mark, so run() has returned True, the disk is empty, and the writer has no error. |
| Outcome.Download | src/mrdl/downloader.py:217-276 | start() over a run and its hasher: COMPLETED with a checksum means that the digest of the file's bytes is the expected one up to the case of letters, and with honest mirrors that the bytes are theirs; COMPLETED without one means that all chunks are on disk exactly when no mark was left in the queue. |
| Outcome.StoppedTooLate | src/mrdl/downloader.py:293-298 | A download without a checksum that is stopped behind the verdict reports COMPLETED although its chunk is not on disk and the writer had no error. |
| Fetcher.ChunkFetcher.constructor | src/mrdl/fetcher.py:80-82 | The buffer is allocated once, with the smaller of the flush threshold and the chunk size. |
| Fetcher.ChunkFetcher.Fetch | src/mrdl/fetcher.py:104-255 | For every response and every partition into blocks: where and how the fetch ends is the one end that response, stop event and flush times allow; a transport error counts only while bytes are missing, and success means exactly the chunk's bytes, the Content-Length, or the whole stream; it is given up as slow exactly behind the first full buffer at which it lags behind, never for a lone or last mirror or without a minimum; the writer gets the first bytes of the stream, re-blocked into writes of the buffer's size, as many as that end implies, and the mark only for all of them; the calls of progress.update are one per block and then the rollback or the chunk that belongs to the outcome. |
| Fetcher.SlowMeans | src/mrdl/fetcher.py:89-97 | Too slow behind n bytes means: at least two mirrors, at least two active ones if bans are tracked, more network time than the grace period, and fewer than minimum times 1024 times that time bytes. |
| Fetcher.SlowExit | src/mrdl/fetcher.py:201-224 | A fetch ends as slow exactly behind the first full buffer at which that holds, and only where another mirror can take over and there is a minimum to keep. |
| Fetcher.EndsOnce | src/mrdl/fetcher.py:161-227 | Each end has its own cause and excludes the others: enough bytes or the stream's end with no earlier stop and no slow flush, the first block at which the stop event is seen, or the first flush that is too slow, with the block in which it falls. |
| Fetcher.UndisturbedTakesAll | src/mrdl/fetcher.py:229-255 | Without a stop at a block that is needed, an early transport error or a slow flush among those that happen, the fetch takes everything and succeeds exactly when that is as much as is expected. |
| Fetcher.ChunkFetcher.Close | src/mrdl/fetcher.py:229-255 | Behind the loop: what was handed over stays as it was after an exception, the rest of the buffer goes out otherwise, and a count that is short fails without a mark and without a rollback. |
| Fetcher.ChunkFetcher.TakeBlock | src/mrdl/fetcher.py:187-224 | The copy loop over one block hands over full buffers and keeps the rest in the buffer, the buffer index never passes its length, and it ends early exactly behind the first of its flushes that is too slow. |
| Fetcher.ChunkFetcher.CopyIn | src/mrdl/fetcher.py:208-211 | The bytes that wait in the buffer are exactly those taken and not yet written; writes already issued are not changed by reusing the buffer. |
| Fetcher.ChunkFetcher.Stream | src/mrdl/fetcher.py:161-227 | The loop ends at the end that the response and the flushes determine, with the bytes taken and reported being the first bytes of the stream, as many as are expected; a slow flush leaves untaken what its block holds behind it. |
| Fetcher.ChopContiguous | src/mrdl/fetcher.py:194-217 | The writes are contiguous from the chunk's start, none is empty or larger than the buffer, and each carries the stream's bytes of its place. |
| Fetcher.ChopIsOneWrite | src/mrdl/fetcher.py:194-233 | Re-blocking is invisible: carrying out the writes gives the file that one write of the whole data gives. |
| Fetcher.FetchIsAttempt | src/mrdl/fetcher.py:187-254 | What a fetch of known size hands over is a sequence of calls that the store machine's attempts make, so the results on interleavings hold of interleaved fetches. |
| Fetcher.LogIsAttempt | src/mrdl/fetcher.py:118-124 | In particular the log of a fetch whose mirror serves the bytes of its range is one of an attempt under honest mirrors. |
| Hasher.HashChunk | src/mrdl/hasher.py:196-214 | For any short reads and any changes elsewhere in the file, the bytes fed are the first bytes of a range that is stable from here on: all of it, unless the stop event was seen. |
| Hasher.StreamingHasher.HashSingleChunk | src/mrdl/hasher.py:153-179 | From the tiled prefix of the file up to this chunk the hasher gets to the prefix including it, through the mapping or through reads, or the stop event is set. |
| Hasher.StreamingHasher.HashAllChunks | src/mrdl/hasher.py:128-151 | Under any interleaving with the writers, a verdict is set only when exactly the whole file was fed, and it is the verdict on those bytes; otherwise no digest is published. When all chunks are on disk at some look, the thread comes to a verdict unless the flag is set. |
| Hasher.StreamingHasher.VerifyHash | src/mrdl/hasher.py:181-194 | The verdict is true exactly without an expected digest, or when digest and expected have one length and differ at every index at most in the case of an ASCII letter. |
| Hasher.LowerHexIsExact | src/mrdl/hasher.py:194 | So an expected digest in lower-case hexadecimal is met only by that very digest. |
| Hasher.StreamingHasher.Finalize | src/mrdl/hasher.py:96-112 | With a checksum, True means that the digest of the file's bytes, from the end of the hashing on and for good, is the expected one up to the case of letters, False that it is not, and IncompleteHashError that the thread came to no verdict. |
| Hasher.HashWholeFile | src/mrdl/hasher.py:252-263 | The fallback loop feeds exactly the file, for every chunk size, file size (zero included) and pattern of short reads. |
| Hasher.VerifyFile | src/mrdl/hasher.py:217-277 | Both branches of the one-shot verification give the digest of the whole file, and valid exactly without an expected digest or when the two differ at most in the case of ASCII letters. |
| Hasher.PrefixStable | src/mrdl/hasher.py:136-141 | Once the first chunks are on disk, the file's prefix that they make up never changes again. |
| Hasher.StreamingAgreesWithOneShot | src/mrdl/hasher.py:128-214 | The bytes fed are the finished file's first bytes, so streaming and one-shot verdicts agree whenever that file has the download's size. |
| Verified.RunIsLater | src/mrdl/writer.py:142-170 | Between any two points of any run the writers keep what the hasher relies on. |
| Verified.VerdictIsOnFinishedFile | src/mrdl/hasher.py:128-151 | When the hasher, looking at any points of a run, has fed all chunks, then what it fed is the final file's content up to the total size, and with honest mirrors the mirrors' file, also in a run that was stopped or failed. |
| Handshake.NoLostWakeup | src/mrdl/hasher.py:143-146 | In every interleaving, whenever the hasher sleeps although its chunk is on disk, the marker still owes a notify_all, and at most two steps of its own, which are possible at once, wake the hasher. |
| Handshake.OwedUntilPaid | src/mrdl/writer.py:163-168 | No step of anyone loses an owed wake-up: the hasher is woken by it or the wake-up is still owed. |
| Throttle.TokenBucketThrottle.DoConsume | src/mrdl/throttle.py:74-104 | The call takes its bytes from what was there and has accrued since the last one, cut at the capacity, and waits exactly the time that earns its debt; a call of no bytes or without a rate changes nothing. |
| Throttle.TokenBucketThrottle.DoUpdateRate | src/mrdl/throttle.py:36-65 | From one rate to another the tokens are the least of the new capacity, the old one, and what was there plus the old rate times the time since; from none to one they are a full burst; a rate that is not positive is refused and changes nothing. |
| Throttle.WaitNonNegative | src/mrdl/throttle.py:87-91 | The wait is never negative and earns exactly the debt that the call leaves. |
| Throttle.ReleasesInOrder | src/mrdl/throttle.py:84-91 | At a fixed rate, release times (call time plus wait) never go back, and two calls are released at one instant only if neither waits. |
| Throttle.ReleasedByTime | src/mrdl/throttle.py:74-104 | From a full bucket at t0 the bytes released by t are at most capacity + rate * (t - t0), for every sequence of calls. |
| Throttle.ReleasedInWindow | src/mrdl/throttle.py:74-104 | The bytes released in any window (s, t] are at most max(capacity, largest request) + rate * (t - s). |
| Throttle.NeverIdleTime | src/mrdl/throttle.py:74-104 | A consumer that never idles and starts with a full bucket takes exactly max(0, total - capacity) / rate. |
| Throttle.NoTokensFromRateChanges | src/mrdl/throttle.py:36-65 | Over any sequence of consume and update_rate calls, bytes taken plus tokens left, accrued up to the last call, are at most the tokens at the start, the rates that were set times the times between the calls, and a fresh burst for each change from uncapped to capped; tokens never exceed the capacity. |
| Progress.WeightsSum | src/mrdl/progress.py:676-681 | The weights of the ticks sum to one minus the product of the decays. |
| Progress.SpeedIsAverage | src/mrdl/progress.py:657-688 | After any sequence of redraws, speed times one minus the product of the decays is the decayed sum of the per-tick speeds. |
| Progress.SpeedWithinSamples | src/mrdl/progress.py:657-688 | The shown speed lies between the slowest and the fastest tick, and after one tick it is that tick's speed. |
| Progress.SamplesAddUp | src/mrdl/progress.py:665-674 | Over any redraws the ticks' samples, each times the time it covers, add up to the bytes counted from the start to the last tick, and the times to the time between the two. |
| Progress.TicksCoverIntervals | src/mrdl/progress.py:665-674 | A tick covers at least the update interval and decays by the time it covers, and no redraw that is due is left without one. |
| Accounting.JobNet | src/mrdl/fetcher.py:185-254 | The calls of update of one fetch add up to its chunk's size on success, to nothing when it is stopped or the transport fails, to the bytes counted while it is in flight, and to its leak otherwise; it reports its chunk exactly on success. |
| Accounting.LeakBounds | src/mrdl/fetcher.py:206 | A slow mirror leaks less than the block of the slow flush, and nothing exactly when the flush was at the block's end; a short read leaks all that came; nothing else leaks. |
| Accounting.SmallChunksDoNotLeak | src/mrdl/fetcher.py:80 | With chunks of at most 16 MiB a slow mirror leaks nothing. |
| Accounting.SlowFetchLeaks | src/mrdl/fetcher.py:194-206 | A fetch of a chunk of 16 MiB and one byte, in one block from a slow mirror, leaves one byte counted. |
| Accounting.ShortReadLeaks | src/mrdl/fetcher.py:243-248 | Every fetch of a one-chunk file that gets fewer bytes than the chunk has, in one block, leaves all of them counted. |
| Accounting.OrderDoesNotMatter | src/mrdl/progress.py:567-577 | In whatever order the lock lets the workers' calls in, the counter moves by the sum of what each worker reports. |
| Accounting.CounterBalances | src/mrdl/progress.py:567-577 | Over any interleaving of fetches, from the resume formula on, the counter is the sizes of the chunks completed by now plus the bytes in flight plus the leaks, and the chunks reported are those fetched with success. |
| Accounting.CountFetches | src/mrdl/progress.py:511-577 | The counter's own start and update, driven by such calls, end at that value and that set. |
| Progress.CompletedSizeFull | src/mrdl/progress.py:534-539 | The resume formula over all chunks gives the file's size. |
| Progress.BuiltinProgress.Start | src/mrdl/progress.py:511-552 | The loop over the resumed chunks starts the counter at the sum of their sizes, and the first tick is measured from there. |
| Progress.BuiltinProgress.UpdateDynamicState | src/mrdl/progress.py:650-688 | A redraw computes the specification's estimate while downloading, the plain average while verifying, zero before any time has passed, and a remaining time that the speed turns into the bytes still missing, none of them negative. |
| Session.TakenUpExactly | src/mrdl/persistence.py:57-104 | A saved state is taken up exactly when its total size and its chunk size are the session's and no validator differs that both sides know as a non-empty string; in every other case nothing is completed and the state is a fresh one. |
| Session.SaveThenLoad | src/mrdl/persistence.py:57-104 | Saving and loading are inverse exactly while the chunk size is the same and the remote file's size and known validators are those recorded in the state; otherwise the next session starts from a fresh state. |
| Session.PrepareFile | src/mrdl/session.py:92-114 | The prepared file is at least as long as the download and keeps the bytes it had. |
| Session.PreparedLength | src/mrdl/session.py:103-110 | It has exactly the download's size unless fallocate was given a longer file. |
| Session.FallbackIsOnePiece | src/mrdl/downloader.py:306-311 | A file of unknown size or without ranges is fetched by one worker, from the first mirror, in one chunk; any other file with the threads, mirrors and chunk size asked for. |
| Session.PendingItems | src/mrdl/session.py:204-219 | The queue holds exactly the chunks that are not completed, due at once and without retries, in order. |
| Session.BuildChunkQueue | src/mrdl/session.py:204-219 | The loop of puts builds that queue. |
| Resume.SoundStart | src/mrdl/session.py:116-144 | A saved state that the file honours in the chunk size it was saved with, fitting or not, broken or not, gives a sound start in the prepared file, whatever the session's chunk size. |
| Resume.SessionStaysSound | src/mrdl/downloader.py:339-345 | With the mapped writer a session, cut off anywhere and saved anywhere before, leaves a saved state that its file honours. |
| Resume.ResumeIsSafe | src/mrdl/session.py:116-144 | Across any number of such sessions, each with a chunk size of its own, every chunk that the next one takes as completed is in the file, and the queue it builds holds exactly the others. |
| Lifecycle.TerminalAbsorbs | src/mrdl/types.py:21-29 | In any trace that follows the table, COMPLETED, FAILED and CANCELLED can only be the last state. |
| Lifecycle.EnteredFrom | src/mrdl/types.py:21-29 | The table read backwards: COMPLETED is entered only from DOWNLOADING or PAUSED, FAILED only from PROBING or DOWNLOADING, PAUSED only from DOWNLOADING, IDLE never, and each of these entries is allowed. |
| Lifecycle.CompletedWasDownloading | src/mrdl/types.py:21-29 | Every trace from IDLE to COMPLETED begins with PROBING and DOWNLOADING. |
| Lifecycle.Downloader.TransitionTo | src/mrdl/downloader.py:313-317 | A transition happens exactly when the table has it; otherwise it raises and changes nothing. |
| Lifecycle.Downloader.Call | src/mrdl/downloader.py:280-304 | Pause and stop of a DOWNLOADING download leave it PAUSED, resume brings a PAUSED one back, each does nothing else to the state; the threads' flag is set by stop in these two states and by a cancel that does not raise; a cancel raises exactly in a terminal state, and a call that raises changes nothing. |
| Lifecycle.Downloader.Interfere | src/mrdl/downloader.py:280-304 | Any calls of pause, resume, stop and cancel follow the table, leave terminal states alone, and lead neither to COMPLETED nor to FAILED. |
| Lifecycle.Downloader.Settle | src/mrdl/downloader.py:220-249 | What the clauses around the pool's run make of the state, under any calls from outside between each test and its transition: a writer error that does not raise leaves no way to COMPLETED, and the threads' flag is set unless the finally clause itself raises. |
| Lifecycle.Downloader.Finish | src/mrdl/downloader.py:217-276 | Under any calls from outside, a COMPLETED result means pool success, no writer error at the check and an accepted hash; the saved state is cleared only for an accepted hash; without calls from outside the exit is determined, for a paused download too. |
| Lifecycle.Downloader.Probe | src/mrdl/downloader.py:163-175 | Between the first two transitions: DOWNLOADING exactly with a successful probe when nobody interferes, FAILED as the result of a failed one, and a refused transition changes nothing. |
| Lifecycle.Downloader.Start | src/mrdl/downloader.py:146-276 | From start to exit the states follow the table under any interleaving; a COMPLETED result implies everything up to the accepted hash; a busy destination, a failed probe and a failed setup end as they do in the code; a second start is refused, but only behind clearing the flag and, with overwrite, removing file and saved state. |

## Left out

- HTTP sessions, headers, status codes, timeouts and probing: a response is a sequence of blocks that ends or breaks; probing is a parameter of `Start`.
- A Content-Length that is not a number, and the choice between 200 and 206 responses.
- The command line, rendering and log output.
- The hash algorithms: a digest is any function of the bytes.
- JSON, fsync, os.replace, page flushing and power loss: the state file is a value, the file a sequence of bytes.
- Staggered start, the two seconds that run gives its workers, timeouts of get: scheduling is nondeterministic choice. get and the decision about its item are one step, since nothing suspends in between when an item is there.
- Unknown sizes beyond what `Fetch` itself does: the hasher's length and later metadata do not line up there, so the machines and the hasher take a size above zero.
- Binary floating point: amounts, times and speeds are exact reals, and `exp` is any function with the laws of the exponential below zero.
- Metadata other than the total size that the first response of an unknown-size file fills in.
- Writer.DiskWriter.Run: takes what is queued at its start, with nobody in between; `LoopHead`, `GetItem`, `WritePiece`, `ReadFlag` and `TryPut` are the turns that interleave.
- Writer.DiskWriter.GetItem: an ftruncate that raises, which only a file of unknown size can have, is left out.
- Runs.EndToEnd: requires that the thread ended on the sentinel, or that nothing is pending; `stop` waits at most one and five seconds for that, and the code does not look whether it did.
- WorkerPool.WorkerPool.Conclude: ends with the sentinels; the wait for the workers is any further steps, and the cancellation of one that is left is `Cancelled`.
- Hasher.StreamingHasher.HashAllChunks: gives up when a chunk is still missing at a look as late as one likes, where the thread would wait for ever.
- Health.MirrorHealthTracker.RecordFailure: the Retry-After header arrives as a number, and the slow-mirror check and the ban that follows it are not one atomic step.
- Throttle.TokenBucketThrottle.DoConsume: is atomic; an update_rate from another thread in the middle of it, and the fallback rate of one in that case, are not modelled.
- Accounting.CounterBalances: counts a cancelled worker's bytes as in flight, since fetch does not roll back for a cancellation; that no chunk succeeds twice is taken from `Runs.EachChunkOnce`.
- Progress.BuiltinProgress.UpdateDynamicState: the display fields apart from speed, elapsed time and remaining time are left out.
- Fetcher.ChunkFetcher.Fetch: takes a grace period that is not negative, as the default is; throttling enters only through the network time it is given.
- Lifecycle.Downloader.Start: exceptions of the pool other than cancellation, and errors of closing files and sessions, are left out.
- Session.SaveThenLoad: the list keeps its order and its repetitions; a state file that cannot be read counts as none.
- `HashSpec.parse`, the protocol declarations, the exception classes and the examples.
