/** Runs of the whole download from a fresh or resumed start, and the results about all of them. */
module Runs {
  import opened Tiling
  import opened Disk
  import opened Engine
  import CQ = ChunkQueue
  import S = Store
  import P = Pool
  import SS = StoreSafety
  import PS = PoolSafety
  import ES = EngineSafety
  import Session

  // ---- the start ----

  /** The bytes of a chunk as the file has them now. */
  function ChunkBytes(d: S.Setup, file: seq<byte>, k: nat): seq<byte>
    requires d.totalSize > 0 && d.chunkSize > 0 && k < d.Chunks() && |file| >= d.totalSize
  {
    LengthsAgree(k, d.totalSize, d.chunkSize);
    file[d.Base(k)..d.Base(k) + d.Len(k)]
  }

  /** Every chunk in the resume state really has its bytes in the file. */
  ghost predicate SoundResume(c: Setup, file: seq<byte>, completed: set<int>)
    requires c.Valid() && |file| >= c.disk.totalSize
  {
    forall k: nat | k < c.pool.chunks && k in completed :: c.disk.Genuine(k, ChunkBytes(c.disk, file, k))
  }

  function Resumed(c: Setup, completed: set<int>): set<nat> {
    set k: nat | k < c.pool.chunks && k in completed
  }

  /** The state in which pool.run begins: the prepared file, the loaded completed set, the queue built from it. */
  ghost function StartState(c: Setup, file: seq<byte>, completed: set<int>, now: real): Engine
    requires c.Valid() && |file| >= c.disk.totalSize
  {
    var queue := Session.PendingItems(c.pool.chunks, completed);
    Engine(
      P.Pool(queue, seq(|c.pool.owner|, _ => P.Ready), completed, {}, |queue|, false, false, P.Undecided, now,
             map[], map[], map[], 0),
      S.Store(file, [], S.Resting, Resumed(c, completed), false, map[],
              map k: nat | k < c.pool.chunks && k in completed :: ChunkBytes(c.disk, file, k), {}),
      false, false)
  }

  lemma PendingNext(n: nat, completed: set<int>)
    ensures Session.PendingItems(0, completed) == []
    ensures Session.PendingItems(n + 1, completed)
         == Session.PendingItems(n, completed) + if n in completed then [] else [CQ.Item(0.0, n, 0)]
  {
  }

  lemma SumOnce(q: seq<CQ.Item>, it: CQ.Item, k: int)
    ensures CQ.Sum(q + [it], P.IsChunk(k)) == CQ.Sum(q, P.IsChunk(k)) + if it.chunk == k then 1 else 0
    ensures CQ.Sum([], P.IsChunk(k)) == 0
  {
    Session.SumSnoc(q, it, P.IsChunk(k));
  }

  lemma {:induction false} PendingOnce(n: nat, completed: set<int>, k: int)
    ensures CQ.Sum(Session.PendingItems(n, completed), P.IsChunk(k)) == if 0 <= k < n && k !in completed then 1 else 0
  {
    hide Session.PendingItems, CQ.Sum, CQ.Sorted, P.IsChunk;
    PendingNext(if n > 0 then n - 1 else 0, completed);
    SumOnce(Session.PendingItems(if n > 0 then n - 1 else 0, completed), CQ.Item(0.0, n - 1, 0), k);
    if n > 0 {
      PendingOnce(n - 1, completed, k);
      if n - 1 in completed {
        assert Session.PendingItems(n - 1, completed) + [] == Session.PendingItems(n - 1, completed);
      }
    }
  }

  lemma {:induction false} NobodyHolds(ws: seq<P.Phase>, f: P.Phase -> int)
    requires forall w | 0 <= w < |ws| :: ws[w] == P.Ready
    requires f(P.Ready) == 0
    ensures P.WorkerSum(ws, f) == 0
  {
    if ws != [] {
      NobodyHolds(ws[1..], f);
    }
  }

  lemma BeginPool(c: Setup, file: seq<byte>, completed: set<int>, now: real)
    requires c.Valid() && |file| >= c.disk.totalSize
    ensures P.Inv(c.pool, StartState(c, file, completed, now).pool)
  {
    var p := StartState(c, file, completed, now).pool;
    forall k | 0 <= k < c.pool.chunks ensures P.Places(p, k) == 1 {
      PendingOnce(c.pool.chunks, completed, k);
      NobodyHolds(p.workers, P.HoldsChunk(k));
    }
    NobodyHolds(p.workers, P.IsBusy());
    NobodyHolds(p.workers, P.HeldChances());
    Session.SumPendingBound(c.pool.chunks, completed, P.QueuedChances(), P.MAX_RETRIES + 1);
  }

  lemma BeginStore(c: Setup, file: seq<byte>, completed: set<int>, now: real)
    requires c.Valid() && |file| >= c.disk.totalSize && SoundResume(c, file, completed)
    ensures S.Inv(c.disk, StartState(c, file, completed, now).store)
  {
    var s := StartState(c, file, completed, now).store;
    forall k | k in s.finished
      ensures S.FinishedInv(c.disk, s.file, s.Pending(), k in s.disk, k, s.finished[k])
    {
      LengthsAgree(k, c.disk.totalSize, c.disk.chunkSize);
      HoldsSlice(s.file, c.disk.Base(k), s.finished[k]);
    }
  }

  /** Whatever was saved before, a sound start satisfies the invariant. */
  lemma BeginInv(c: Setup, file: seq<byte>, completed: set<int>, now: real)
    requires c.Valid() && |file| >= c.disk.totalSize && SoundResume(c, file, completed)
    ensures Inv(c, StartState(c, file, completed, now))
  {
    BeginPool(c, file, completed, now);
    BeginStore(c, file, completed, now);
  }

  ghost function Begin(c: Setup, file: seq<byte>, completed: set<int>, now: real): (e: Engine)
    requires c.Valid() && |file| >= c.disk.totalSize && SoundResume(c, file, completed)
    ensures Inv(c, e)
  {
    BeginInv(c, file, completed, now);
    StartState(c, file, completed, now)
  }

  // ---- runs ----

  ghost predicate Possible(c: Setup, e: Engine, steps: seq<Action>)
    requires Inv(c, e)
    decreases |steps|
  {
    steps == [] || (Enabled(c, e, steps[0]) && (ES.Step(c, e, steps[0]); Possible(c, Apply(c, e, steps[0]), steps[1..])))
  }

  ghost function After(c: Setup, e: Engine, steps: seq<Action>): (f: Engine)
    requires Inv(c, e) && Possible(c, e, steps)
    ensures Inv(c, f)
    decreases |steps|
  {
    if steps == [] then e
    else
      ES.Step(c, e, steps[0]);
      After(c, Apply(c, e, steps[0]), steps[1..])
  }

  lemma GuaranteeStarts(p: S.Setup, s: S.Store)
    ensures S.Guarantee(p, s, s)
  {
  }

  lemma GuaranteeChains(p: S.Setup, s: S.Store, t: S.Store, u: S.Store)
    requires S.Guarantee(p, s, t) && S.Guarantee(p, t, u)
    ensures S.Guarantee(p, s, u)
  {
  }

  /** Over any run, what is on disk stays on disk unchanged, and completed chunks stay completed. */
  lemma {:induction false} Frozen(c: Setup, e: Engine, steps: seq<Action>)
    requires Inv(c, e) && Possible(c, e, steps)
    ensures S.Guarantee(c.disk, e.store, After(c, e, steps).store)
    ensures e.pool.completed <= After(c, e, steps).pool.completed
    decreases |steps|
  {
    hide Inv, Enabled, Apply, S.Guarantee;
    if steps == [] {
      GuaranteeStarts(c.disk, e.store);
    } else {
      ES.Step(c, e, steps[0]);
      var f := Apply(c, e, steps[0]);
      Frozen(c, f, steps[1..]);
      var g := After(c, f, steps[1..]);
      assert e.pool.completed <= f.pool.completed <= g.pool.completed;
      GuaranteeChains(c.disk, e.store, f.store, g.store);
    }
  }

  /** A run can be cut anywhere into a run and what follows it. */
  lemma {:induction false} PossiblePrefix(c: Setup, e: Engine, steps: seq<Action>, i: nat)
    requires Inv(c, e) && Possible(c, e, steps) && i <= |steps|
    ensures Possible(c, e, steps[..i]) && Possible(c, After(c, e, steps[..i]), steps[i..])
    ensures After(c, After(c, e, steps[..i]), steps[i..]) == After(c, e, steps)
    decreases i
  {
    hide Inv, Enabled, Apply;
    if i == 0 {
      assert steps[..0] == [] && steps[0..] == steps;
    } else {
      ES.Step(c, e, steps[0]);
      PossiblePrefix(c, Apply(c, e, steps[0]), steps[1..], i - 1);
      assert steps[..i][1..] == steps[1..][..i - 1] && steps[..i][0] == steps[0];
      assert steps[1..][i - 1..] == steps[i..];
    }
  }

  /** The beginning of a session and the steps taken since. */
  datatype History = History(file: seq<byte>, completed: set<int>, begun: real, steps: seq<Action>)

  /** The session began in a sound state and its steps are possible ones, in any interleaving. */
  ghost predicate IsRun(c: Setup, h: History) {
    && c.Valid() && |h.file| >= c.disk.totalSize && SoundResume(c, h.file, h.completed)
    && Possible(c, Begin(c, h.file, h.completed, h.begun), h.steps)
  }

  ghost function First(c: Setup, h: History): (e: Engine)
    requires IsRun(c, h)
    ensures Inv(c, e)
  {
    Begin(c, h.file, h.completed, h.begun)
  }

  ghost function Last(c: Setup, h: History): (e: Engine)
    requires IsRun(c, h)
    ensures Inv(c, e)
  {
    After(c, First(c, h), h.steps)
  }

  // ---- what happened in a run ----

  function EndedFetches(steps: seq<Action>): nat {
    if steps == [] then 0
    else (if steps[0].FetchDone? || steps[0].FetchFailed? || steps[0].FetchStopped? then 1 else 0) + EndedFetches(steps[1..])
  }

  /** How often a fetch of chunk k began. */
  ghost function Fetches(c: Setup, e: Engine, steps: seq<Action>, k: int): nat
    requires Inv(c, e) && Possible(c, e, steps)
    decreases |steps|
  {
    if steps == [] then 0
    else
      ES.Step(c, e, steps[0]);
      (if steps[0].StartFetch? && e.pool.queue[0].chunk == k then 1 else 0)
      + Fetches(c, Apply(c, e, steps[0]), steps[1..], k)
  }

  /** How often a fetch of chunk k failed. */
  ghost function Failures(c: Setup, e: Engine, steps: seq<Action>, k: int): nat
    requires Inv(c, e) && Possible(c, e, steps)
    decreases |steps|
  {
    if steps == [] then 0
    else
      ES.Step(c, e, steps[0]);
      (if steps[0].FetchFailed? && e.pool.workers[steps[0].w].item.chunk == k then 1 else 0)
      + Failures(c, Apply(c, e, steps[0]), steps[1..], k)
  }

  /** How often a fetch of chunk k returned with success. */
  ghost function Successes(c: Setup, e: Engine, steps: seq<Action>, k: int): nat
    requires Inv(c, e) && Possible(c, e, steps)
    decreases |steps|
  {
    if steps == [] then 0
    else
      ES.Step(c, e, steps[0]);
      (if steps[0].FetchDone? && e.pool.workers[steps[0].w].item.chunk == k then 1 else 0)
      + Successes(c, Apply(c, e, steps[0]), steps[1..], k)
  }

  /** mark_complete(k) reads the threads' flag as set, and returns. */
  ghost predicate DiscardsMark(e: Engine, a: Action, k: nat) {
    && a.StoreStep? && a.s.Drop? && a.s.w in e.store.attempts
    && e.store.attempts[a.s.w].call == S.Offered(Mark(k))
  }

  ghost predicate Discarded(c: Setup, e: Engine, steps: seq<Action>, k: nat)
    requires Inv(c, e) && Possible(c, e, steps)
    decreases |steps|
  {
    steps != [] && (DiscardsMark(e, steps[0], k) || (ES.Step(c, e, steps[0]); Discarded(c, Apply(c, e, steps[0]), steps[1..], k)))
  }

  /** One step's part in the pool's history. */
  lemma StepCounts(c: Setup, e: Engine, a: Action, k: int)
    requires Inv(c, e) && Enabled(c, e, a)
    ensures var p, q := e.pool, Apply(c, e, a).pool;
            && q.spent == p.spent + EndedFetches([a])
            && P.Count(q.starts, k) == P.Count(p.starts, k) + (if a.StartFetch? && p.queue[0].chunk == k then 1 else 0)
            && P.Count(q.fails, k) == P.Count(p.fails, k) + (if a.FetchFailed? && p.workers[a.w].item.chunk == k then 1 else 0)
  {
    hide S.Inv, P.Inv, Links, S.Apply, P.Apply, S.Enabled;
    PartsEnabled(c, e, a);
    assert EndedFetches([a]) == (if a.FetchDone? || a.FetchFailed? || a.FetchStopped? then 1 else 0) + EndedFetches([]);
    if OnPool(a) {
      PS.AfterSets(c.pool, e.pool, PoolPart(a));
      PS.AfterCounts(c.pool, e.pool, PoolPart(a));
    }
  }

  lemma {:induction false} RunCounts(c: Setup, e: Engine, steps: seq<Action>, k: int)
    requires Inv(c, e) && Possible(c, e, steps)
    ensures var f := After(c, e, steps);
            && f.pool.spent == e.pool.spent + EndedFetches(steps)
            && P.Count(f.pool.starts, k) == P.Count(e.pool.starts, k) + Fetches(c, e, steps, k)
            && P.Count(f.pool.fails, k) == P.Count(e.pool.fails, k) + Failures(c, e, steps, k)
    decreases |steps|
  {
    hide Inv, Enabled, Apply;
    if steps != [] {
      ES.Step(c, e, steps[0]);
      StepCounts(c, e, steps[0], k);
      assert EndedFetches([steps[0]]) == EndedFetches(steps) - EndedFetches(steps[1..]);
      RunCounts(c, Apply(c, e, steps[0]), steps[1..], k);
    }
  }

  /** A fetch that returns completes a chunk that was not complete. */
  lemma StepSucceeds(c: Setup, e: Engine, a: Action, k: int)
    requires Inv(c, e) && Enabled(c, e, a) && 0 <= k < c.pool.chunks
    ensures var done := a.FetchDone? && e.pool.workers[a.w].item.chunk == k;
            && (done ==> k !in e.pool.completed)
            && (k in Apply(c, e, a).pool.completed <==> k in e.pool.completed || done)
  {
    hide S.Inv, P.Accounted, P.ItemsInv, P.FlagsInv, Links, S.Apply, P.Apply, S.Enabled;
    PartsEnabled(c, e, a);
    PS.OnePlace(c.pool, e.pool, k);
    if OnPool(a) {
      PS.AfterSets(c.pool, e.pool, PoolPart(a));
    }
  }

  lemma {:induction false} RunSucceeds(c: Setup, e: Engine, steps: seq<Action>, k: int)
    requires Inv(c, e) && Possible(c, e, steps) && 0 <= k < c.pool.chunks
    ensures Successes(c, e, steps, k) == if k in After(c, e, steps).pool.completed && k !in e.pool.completed then 1 else 0
    decreases |steps|
  {
    hide Inv, Enabled, Apply;
    if steps != [] {
      ES.Step(c, e, steps[0]);
      StepSucceeds(c, e, steps[0], k);
      var f := Apply(c, e, steps[0]);
      RunSucceeds(c, f, steps[1..], k);
      Frozen(c, f, steps[1..]);
    }
  }

  lemma StepLoses(c: Setup, e: Engine, a: Action, k: nat)
    requires Inv(c, e) && Enabled(c, e, a)
    ensures k in Apply(c, e, a).store.lost <==> k in e.store.lost || DiscardsMark(e, a, k)
  {
    hide P.Inv, Links, P.Apply, S.AllFinished, S.AllCommands, S.Exclusive, Tiling.Start, Tiling.Length, ExecAll, Patch, Resize, Holds;
    PartsEnabled(c, e, a);
    if a.StoreStep? && a.s.Drop? {
      assert S.AttemptInv(c.disk, e.store.Taken(), e.store.stop, e.store.Image(), e.store.attempts[a.s.w]);
    }
  }

  lemma {:induction false} RunLoses(c: Setup, e: Engine, steps: seq<Action>, k: nat)
    requires Inv(c, e) && Possible(c, e, steps)
    ensures k in After(c, e, steps).store.lost <==> k in e.store.lost || Discarded(c, e, steps, k)
    decreases |steps|
  {
    hide Inv, Enabled, Apply, DiscardsMark;
    if steps != [] {
      ES.Step(c, e, steps[0]);
      StepLoses(c, e, steps[0], k);
      RunLoses(c, Apply(c, e, steps[0]), steps[1..], k);
    }
  }

  // ---- the main results ----

  /**
   * Chunk integrity. In every state of a run, also after a stop, a failure or a cancelled worker, a
   * chunk marked on disk has in its whole range the bytes of the attempt that finished it, no
   * pending command and no attempt can reach that range, and every continuation leaves it as it is.
   */
  lemma OnDiskForGood(c: Setup, h: History, more: seq<Action>, k: nat)
    requires IsRun(c, h) && Possible(c, Last(c, h), more) && k in Last(c, h).store.disk
    ensures var s := Last(c, h).store;
            && k in s.finished && |s.finished[k]| == c.disk.Len(k)
            && Holds(s.file, c.disk.Base(k), s.finished[k])
            && (forall cmd | cmd in s.Pending() :: !Touches(cmd, c.disk.Base(k), c.disk.Base(k) + c.disk.Len(k)))
            && (forall w | w in s.attempts && !s.attempts[w].call.Marked? :: s.attempts[w].chunk != k)
    ensures var t := After(c, Last(c, h), more).store;
            k in t.disk && Holds(t.file, c.disk.Base(k), Last(c, h).store.finished[k])
  {
    hide IsRun;
    var e := Last(c, h);
    SS.OnDiskIsRight(c.disk, e.store, k);
    Frozen(c, e, more);
  }

  /**
   * Chunk conservation. In every state of a run each chunk is in exactly one place, and once run()
   * has reported completion, or join can return without a stop, every chunk is completed.
   */
  lemma PoolVerdict(c: Setup, h: History)
    requires IsRun(c, h)
    ensures var p := Last(c, h).pool;
            && (forall k | 0 <= k < c.pool.chunks :: P.Places(p, k) == 1)
            && (p.verdict == P.Decided(true) || (p.unfinished == 0 && !p.stop) ==> P.AllCompleted(c.pool, p))
  {
    hide IsRun, Last;
    var e := Last(c, h);
    if e.pool.unfinished == 0 && !e.pool.stop {
      PS.JoinMeansAll(c.pool, e.pool);
    }
  }

  /**
   * Bounded work: over a whole run no chunk is fetched more than six times, a waiting chunk's retry
   * number is the number of its failed fetches, and at most six fetches per chunk end.
   */
  lemma BoundedWork(c: Setup, h: History)
    requires IsRun(c, h)
    ensures forall k :: Fetches(c, First(c, h), h.steps, k) <= 6
    ensures forall it | it in Last(c, h).pool.queue && it.chunk != CQ.STOP_SENTINEL ::
              it.retries == Failures(c, First(c, h), h.steps, it.chunk)
    ensures EndedFetches(h.steps) <= 6 * c.pool.chunks
  {
    var e, f := First(c, h), Last(c, h);
    hide IsRun, Last, After, Fetches, Failures, Possible;
    assert f == After(c, e, h.steps) by { LastIsAfter(c, h); }
    forall k ensures Fetches(c, e, h.steps, k) <= 6 {
      RunCounts(c, e, h.steps, k);
    }
    forall it | it in f.pool.queue && it.chunk != CQ.STOP_SENTINEL ensures it.retries == Failures(c, e, h.steps, it.chunk) {
      RunCounts(c, e, h.steps, it.chunk);
      assert P.QueuedInv(c.pool, f.pool, it);
    }
    RunCounts(c, e, h.steps, 0);
    BudgetNonNegative(c, f);
  }

  /** No chunk is fetched with success twice, or when an earlier session had completed it. */
  lemma EachChunkOnce(c: Setup, h: History, k: nat)
    requires IsRun(c, h) && k < c.pool.chunks
    ensures Successes(c, First(c, h), h.steps, k) == if k in Last(c, h).pool.completed && k !in h.completed then 1 else 0
  {
    LastIsAfter(c, h);
    hide IsRun, Last, First, After, Successes, Possible;
    RunSucceeds(c, First(c, h), h.steps, k);
  }

  lemma LastIsAfter(c: Setup, h: History)
    requires IsRun(c, h)
    ensures Possible(c, First(c, h), h.steps) && Last(c, h) == After(c, First(c, h), h.steps)
    ensures First(c, h).pool.completed == h.completed
    ensures First(c, h).store.lost == {} && !First(c, h).store.stop
    ensures First(c, h).pool.starts == map[] && First(c, h).pool.fails == map[] && First(c, h).pool.spent == 0
  {
  }

  lemma {:induction false} QueueChancesNonNegative(c: Setup, e: Engine, q: seq<CQ.Item>)
    requires forall it | it in q :: P.QueuedInv(c.pool, e.pool, it)
    ensures CQ.Sum(q, P.QueuedChances()) >= 0
  {
    if q != [] {
      assert P.QueuedInv(c.pool, e.pool, q[0]);
      QueueChancesNonNegative(c, e, q[1..]);
    }
  }

  lemma {:induction false} HeldChancesNonNegative(c: Setup, e: Engine, ws: seq<P.Phase>)
    requires forall w | 0 <= w < |ws| && ws[w].Fetching? :: P.HeldInv(c.pool, e.pool, ws[w].item)
    ensures P.WorkerSum(ws, P.HeldChances()) >= 0
  {
    if ws != [] {
      assert ws[0].Fetching? ==> P.HeldInv(c.pool, e.pool, ws[0].item);
      HeldChancesNonNegative(c, e, ws[1..]);
    }
  }

  lemma BudgetNonNegative(c: Setup, e: Engine)
    requires Inv(c, e)
    ensures P.Budget(e.pool) >= 0
  {
    QueueChancesNonNegative(c, e, e.pool.queue);
    HeldChancesNonNegative(c, e, e.pool.workers);
  }

  /** A completed chunk is on disk unless its mark was discarded or waits. */
  lemma CompletedState(c: Setup, e: Engine, k: nat)
    requires Inv(c, e) && k < c.pool.chunks && k in e.pool.completed
    ensures k !in e.store.disk <==> k in e.store.lost || Mark(k) in e.store.Pending()
  {
    if k in e.store.disk {
      SS.OnDiskIsRight(c.disk, e.store, k);
    } else if k !in e.store.lost {
      SS.UnmarkedIsPending(c.disk, e.store, k);
    }
  }

  /**
   * When a completed chunk is not on disk: exactly when its mark_complete read the threads' flag as
   * set and discarded the mark, or its mark is still queued.
   */
  lemma CompletedButNotOnDisk(c: Setup, h: History, k: nat)
    requires IsRun(c, h) && k < c.pool.chunks && k in Last(c, h).pool.completed
    ensures k !in Last(c, h).store.disk
       <==> Discarded(c, First(c, h), h.steps, k) || Mark(k) in Last(c, h).store.Pending()
  {
    LastIsAfter(c, h);
    hide IsRun, Last, First, After, Discarded, Possible, Inv;
    RunLoses(c, First(c, h), h.steps, k);
    CompletedState(c, Last(c, h), k);
  }

  lemma MappedState(c: Setup, e: Engine)
    requires Inv(c, e) && c.disk.mmap
    ensures forall k: nat | k < c.pool.chunks && k in e.pool.completed :: k in e.store.disk
  {
    forall k: nat | k < c.pool.chunks && k in e.pool.completed ensures k in e.store.disk {
      CompletedState(c, e, k);
    }
  }

  /** With the synchronous writer a completed chunk is on disk in every state of a run. */
  lemma MappedCompletedOnDisk(c: Setup, h: History)
    requires IsRun(c, h) && c.disk.mmap
    ensures forall k: nat | k < c.pool.chunks && k in Last(c, h).pool.completed :: k in Last(c, h).store.disk
  {
    MappedState(c, Last(c, h));
  }

  ghost predicate DiskComplete(c: Setup, e: Engine) {
    forall k: nat | k < c.pool.chunks :: k in e.store.disk
  }

  /** The writer thread is over, or there is none. */
  predicate ThreadEnded(c: Setup, e: Engine) {
    c.disk.mmap || e.store.phase.Drained? || e.store.phase.Abandoned? || e.store.phase.Failed?
  }

  /** The command that an I/O error left undone belongs to a chunk that will never be on disk. */
  lemma FaultMissesAChunk(c: Setup, e: Engine)
    requires Inv(c, e) && e.store.phase.Failed?
    ensures !DiskComplete(c, e)
  {
    hide P.Inv, Links, ExecAll;
    var s := e.store;
    var cmd := s.phase.left;
    assert s.Pending()[0] == cmd;
    assert S.CommandInv(c.disk, s.finished.Keys, s.Pending()[0]);
    var k: nat :| k < c.disk.Chunks() && c.disk.Base(k) <= cmd.offset
                  && cmd.offset + |cmd.data| <= c.disk.Base(k) + c.disk.Len(k);
    if k in s.disk {
      SS.OnDiskIsRight(c.disk, s, k);
    }
  }

  /** Behind a verdict of completion a chunk is missing exactly when an I/O error lost it or its mark is queued. */
  lemma VerdictState(c: Setup, e: Engine, k: nat)
    requires Inv(c, e) && e.pool.verdict == P.Decided(true) && k < c.pool.chunks
    ensures k !in e.store.disk <==> k in e.store.lost || Mark(k) in e.store.Pending()
    ensures k in e.store.lost ==> e.store.phase.Failed?
    ensures e.store.phase.Drained? || c.disk.mmap ==> Mark(k) !in e.store.Pending() && e.store.lost == {}
  {
    CompletedState(c, e, k);
  }

  /**
   * When run() reports completion and the writer thread is over, what the disk holds is decided by
   * how the thread ended: all is on disk exactly when it took the sentinel, or found the flag set at
   * the head of its loop with no mark left in the queue. An I/O error always misses a chunk, and
   * mark_complete discards a mark only behind one.
   */
  lemma DiskBehindVerdict(c: Setup, h: History)
    requires IsRun(c, h) && Last(c, h).pool.verdict == P.Decided(true) && ThreadEnded(c, Last(c, h))
    ensures var e := Last(c, h);
            DiskComplete(c, e) <==> (c.disk.mmap || e.store.phase.Drained?
                                     || (e.store.phase.Abandoned? && forall cmd | cmd in e.store.queue :: !cmd.Mark?))
    ensures forall k: nat | Discarded(c, First(c, h), h.steps, k) :: Last(c, h).store.phase.Failed?
  {
    LastIsAfter(c, h);
    hide IsRun, First, Last, After, Discarded, Possible;
    var e := Last(c, h);
    forall k: nat ensures Discarded(c, First(c, h), h.steps, k) ==> k in e.store.lost {
      RunLoses(c, First(c, h), h.steps, k);
    }
    QueuedMarksAreOfChunks(c, e);
    forall k: nat | k < c.pool.chunks
      ensures k !in e.store.disk <==> k in e.store.lost || Mark(k) in e.store.Pending()
      ensures k in e.store.lost ==> e.store.phase.Failed?
      ensures e.store.phase.Drained? || c.disk.mmap ==> Mark(k) !in e.store.Pending() && e.store.lost == {}
    {
      VerdictState(c, e, k);
    }
    if e.store.phase.Failed? {
      FaultMissesAChunk(c, e);
    }
  }

  lemma QueuedMarksAreOfChunks(c: Setup, e: Engine)
    requires Inv(c, e)
    ensures forall cmd | cmd in e.store.Pending() && cmd.Mark? :: cmd.chunk < c.pool.chunks
    ensures c.disk.mmap ==> e.store.phase.Resting?
  {
    hide P.Inv, Links, ExecAll;
    var s := e.store;
    forall cmd | cmd in s.Pending() && cmd.Mark? ensures cmd.chunk < c.pool.chunks {
      assert S.CommandInv(c.disk, s.finished.Keys, cmd);
      assert S.FinishedInv(c.disk, s.file, s.Pending(), cmd.chunk in s.disk, cmd.chunk, s.finished[cmd.chunk]);
    }
  }

  /** A byte of a chunk on disk is the mirrors' byte. */
  lemma ByteIsSource(c: Setup, e: Engine, b: nat)
    requires Inv(c, e) && c.disk.honest && b < c.disk.totalSize && DiskComplete(c, e)
    ensures b < |e.store.file| && e.store.file[b] == c.disk.source[b]
  {
    hide P.Inv, Links, ExecAll, Patch, Resize, S.Promised, S.AllAttempts, S.AllCommands, S.Exclusive, S.PhaseInv;
    var d := c.disk;
    TilesExactly(b, d.totalSize, d.chunkSize);
    var k := b / d.chunkSize;
    assert InChunk(b, k, d.totalSize, d.chunkSize);
    LengthsAgree(k, d.totalSize, d.chunkSize);
    assert S.FinishedInv(d, e.store.file, e.store.Pending(), k in e.store.disk, k, e.store.finished[k]);
    assert e.store.finished[k][b - d.Base(k)] == e.store.file[d.Base(k) + (b - d.Base(k))];
  }

  /** Every byte of the file is the mirrors' byte once every chunk is on disk. */
  lemma AllOnDiskIsSource(c: Setup, e: Engine)
    requires Inv(c, e) && c.disk.honest && DiskComplete(c, e)
    ensures |e.store.file| >= c.disk.totalSize && e.store.file[..c.disk.totalSize] == c.disk.source
  {
    hide S.AllFinished, S.AllAttempts, S.AllCommands, S.Exclusive, P.Inv, Links, DiskComplete;
    forall b: nat | b < c.disk.totalSize ensures b < |e.store.file| && e.store.file[b] == c.disk.source[b] {
      ByteIsSource(c, e, b);
    }
  }

  /**
   * End to end: from a sound resume state, over any run, when run() reports completion, the writer
   * has no error and its queue is drained, every chunk is on disk, and with mirrors that serve the
   * requested ranges of one file, the file is that file.
   */
  lemma EndToEnd(c: Setup, h: History)
    requires IsRun(c, h)
    requires var e := Last(c, h);
             e.pool.verdict == P.Decided(true) && !e.store.phase.Failed? && (e.store.phase.Drained? || e.store.Pending() == [])
    ensures DiskComplete(c, Last(c, h))
    ensures c.disk.honest ==> |Last(c, h).store.file| >= c.disk.totalSize && Last(c, h).store.file[..c.disk.totalSize] == c.disk.source
  {
    hide IsRun, Last;
    var e := Last(c, h);
    forall k: nat | k < c.pool.chunks ensures k in e.store.disk {
      VerdictState(c, e, k);
    }
    if c.disk.honest {
      AllOnDiskIsSource(c, e);
    }
  }
}
