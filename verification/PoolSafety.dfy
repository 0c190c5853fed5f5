/** Every step of the pool conserves chunks, keeps the count behind join, and spends the retry budget. */
module PoolSafety {
  import opened ChunkQueue
  import opened Health
  import opened Pool

  lemma PlaceCounts(s: Pool, k: int)
    ensures Sum(s.queue, IsChunk(k)) >= 0 && WorkerSum(s.workers, HoldsChunk(k)) >= 0
    ensures forall it | it in s.queue && it.chunk == k :: Sum(s.queue, IsChunk(k)) >= 1
    ensures forall w | 0 <= w < |s.workers| && s.workers[w].Fetching? && s.workers[w].item.chunk == k ::
              WorkerSum(s.workers, HoldsChunk(k)) >= 1
    ensures forall v, w | 0 <= v < w < |s.workers| && s.workers[v].Fetching? && s.workers[w].Fetching?
              && s.workers[v].item.chunk == k && s.workers[w].item.chunk == k :: WorkerSum(s.workers, HoldsChunk(k)) >= 2
  {
    SumNonNegative(s.queue, IsChunk(k));
    WorkerSumBounds(s.workers, HoldsChunk(k));
    forall it | it in s.queue && it.chunk == k ensures Sum(s.queue, IsChunk(k)) >= 1 {
      SumAtLeast(s.queue, it, IsChunk(k));
    }
    forall w | 0 <= w < |s.workers| && s.workers[w].Fetching? && s.workers[w].item.chunk == k
      ensures WorkerSum(s.workers, HoldsChunk(k)) >= 1
    {
      assert HoldsChunk(k)(s.workers[w]) == 1;
    }
    forall v, w | 0 <= v < w < |s.workers| && s.workers[v].Fetching? && s.workers[w].Fetching?
      && s.workers[v].item.chunk == k && s.workers[w].item.chunk == k
      ensures WorkerSum(s.workers, HoldsChunk(k)) >= 2
    {
      assert HoldsChunk(k)(s.workers[v]) == 1 && HoldsChunk(k)(s.workers[w]) == 1;
    }
  }

  /** A chunk in the queue is nowhere else, and one that a worker holds is nowhere else. */
  lemma OnePlace(c: Setup, s: Pool, k: int)
    requires Conserved(c, s) && 0 <= k < c.chunks
    ensures (exists it :: it in s.queue && it.chunk == k) ==>
              k !in s.completed && k !in s.gone
              && forall w | 0 <= w < |s.workers| && s.workers[w].Fetching? :: s.workers[w].item.chunk != k
    ensures forall w | 0 <= w < |s.workers| && s.workers[w].Fetching? && s.workers[w].item.chunk == k ::
              && k !in s.completed && k !in s.gone
              && (forall it | it in s.queue :: it.chunk != k)
              && (forall v | 0 <= v < |s.workers| && v != w && s.workers[v].Fetching? :: s.workers[v].item.chunk != k)
  {
    PlaceCounts(s, k);
    assert Places(s, k) == 1;
  }

  /** A completed chunk is not gone and no worker holds it. */
  lemma CompletedIsDone(c: Setup, s: Pool, k: int)
    requires Conserved(c, s) && 0 <= k < c.chunks && k in s.completed
    ensures k !in s.gone
    ensures forall w | 0 <= w < |s.workers| && s.workers[w].Fetching? :: s.workers[w].item.chunk != k
  {
    PlaceCounts(s, k);
    assert Places(s, k) == 1;
  }

  // ---- how each step moves the sums ----

  predicate ByWorker(a: Action) {
    a.Pull? || a.Leave? || a.Ok? || a.Fail? || a.Halt? || a.Release? || a.Cancel?
  }

  predicate Ends(a: Action) { a.Ok? || a.Fail? || a.Halt? }

  /** The item a failed fetch goes back with. */
  function Again(s: Pool, it: Item): Item { Item(s.now + Backoff(it.retries), it.chunk, it.retries + 1) }

  predicate Requeues(s: Pool, a: Action) {
    a.Fail? && a.w < |s.workers| && s.workers[a.w].Fetching? && !s.stop && s.workers[a.w].item.retries < MAX_RETRIES
  }

  function PhaseAfter(c: Setup, s: Pool, a: Action): Phase
    requires Enabled(c, s, a) && ByWorker(a)
  {
    match a
    case Pull(w) =>
      (match TurnOf(c, s, w)
       case StartFetch => Fetching(s.queue[0])
       case PutBack => Releasing
       case _ => Exited)
    case Leave(_) => Exited
    case Cancel(_) => Exited
    case Release(_) => Ready
    case _ => Releasing
  }

  /** The chunk that leaves the protocol with this step, if any. */
  function Dropped(c: Setup, s: Pool, a: Action): set<int>
    requires Enabled(c, s, a)
  {
    match a
    case Pull(w) => if TurnOf(c, s, w).GiveUp? then {s.queue[0].chunk} else {}
    case Fail(w, _) => if Requeues(s, a) then {} else {s.workers[w].item.chunk}
    case Halt(w) => {s.workers[w].item.chunk}
    case Cancel(w) => if s.workers[w].Fetching? then {s.workers[w].item.chunk} else {}
    case _ => {}
  }

  lemma AfterPull(c: Setup, s: Pool, w: nat)
    requires Enabled(c, s, Pull(w))
    ensures var t := PullItem(c, s, w); var turn := TurnOf(c, s, w);
            && t.queue == (if turn.PutBack? then Insert(s.queue[1..], s.queue[0]) else s.queue[1..])
            && t.workers == s.workers[w := PhaseAfter(c, s, Pull(w))]
            && t.completed == s.completed && t.gone == s.gone + Dropped(c, s, Pull(w))
            && t.unfinished == s.unfinished + (if turn.PutBack? then 1 else if turn.StartFetch? then 0 else -1)
            && t.stop == (s.stop || turn.GiveUp?) && t.spent == s.spent && t.joined == s.joined && t.verdict == s.verdict
            && t.fails == s.fails
            && t.starts == (if turn.StartFetch? then s.starts[s.queue[0].chunk := Count(s.starts, s.queue[0].chunk) + 1] else s.starts)
  {
    hide Insert, AllBanned, IsBanned, Count, Pow2, Sum, WorkerSum;
    match TurnOf(c, s, w)
    case LeaveOnSentinel =>
    case PutBack =>
    case GiveUp =>
    case StartFetch =>
  }

  lemma AfterFail(c: Setup, s: Pool, w: nat, e: Failure)
    requires Enabled(c, s, Fail(w, e))
    ensures var t := FailItem(c, s, w, e); var it := s.workers[w].item; var again := Requeues(s, Fail(w, e));
            && t.queue == (if again then Insert(s.queue, Again(s, it)) else s.queue)
            && t.workers == s.workers[w := Releasing]
            && t.completed == s.completed && t.gone == s.gone + Dropped(c, s, Fail(w, e))
            && t.unfinished == s.unfinished + (if again then 1 else 0)
            && (if again then t.stop == s.stop else t.stop)
            && t.spent == s.spent + 1 && t.joined == s.joined && t.verdict == s.verdict
            && t.starts == s.starts && t.fails == s.fails[it.chunk := Count(s.fails, it.chunk) + 1]
  {
    hide Insert, Backoff, Recorded, Count;
  }

  lemma AfterQueue(c: Setup, s: Pool, a: Action)
    requires Enabled(c, s, a)
    ensures Apply(c, s, a).queue
         == if a.Pull? then (if TurnOf(c, s, a.w).PutBack? then Insert(s.queue[1..], s.queue[0]) else s.queue[1..])
            else if Requeues(s, a) then Insert(s.queue, Again(s, s.workers[a.w].item))
            else if a.Decide? then InsertMany(s.queue, Item(0.0, STOP_SENTINEL, 0), |s.workers|)
            else s.queue
    ensures |Apply(c, s, a).workers| == |s.workers|
    ensures Apply(c, s, a).workers == if ByWorker(a) then s.workers[a.w := PhaseAfter(c, s, a)] else s.workers
  {
    hide Insert, InsertMany, TurnOf, PullItem, FailItem, Backoff;
    if a.Pull? {
      AfterPull(c, s, a.w);
    } else if a.Fail? {
      AfterFail(c, s, a.w, a.e);
    }
  }

  lemma AfterSets(c: Setup, s: Pool, a: Action)
    requires Enabled(c, s, a)
    ensures Apply(c, s, a).completed == s.completed + if a.Ok? then {s.workers[a.w].item.chunk} else {}
    ensures Apply(c, s, a).gone == s.gone + Dropped(c, s, a)
    ensures Apply(c, s, a).spent == s.spent + if Ends(a) then 1 else 0
  {
    hide Insert, InsertMany, TurnOf, PullItem, FailItem, Backoff;
    if a.Pull? {
      AfterPull(c, s, a.w);
    } else if a.Fail? {
      AfterFail(c, s, a.w, a.e);
    }
  }

  lemma QueueSum(c: Setup, s: Pool, a: Action, g: Item -> int)
    requires Enabled(c, s, a)
    ensures Sum(Apply(c, s, a).queue, g)
         == Sum(s.queue, g)
          + if a.Pull? then (if TurnOf(c, s, a.w).PutBack? then 0 else -g(s.queue[0]))
            else if Requeues(s, a) then g(Again(s, s.workers[a.w].item))
            else if a.Decide? then |s.workers| * g(Item(0.0, STOP_SENTINEL, 0))
            else 0
  {
    hide Insert, InsertMany, Apply, PullItem, Backoff, TurnOf;
    AfterQueue(c, s, a);
    if a.Pull? {
      SumInsert(s.queue[1..], s.queue[0], g);
    } else if Requeues(s, a) {
      SumInsert(s.queue, Again(s, s.workers[a.w].item), g);
    } else if a.Decide? {
      SumInsertMany(s.queue, Item(0.0, STOP_SENTINEL, 0), |s.workers|, g);
    }
  }

  lemma HeldSum(c: Setup, s: Pool, a: Action, f: Phase -> int)
    requires Enabled(c, s, a)
    ensures WorkerSum(Apply(c, s, a).workers, f)
         == WorkerSum(s.workers, f) + if ByWorker(a) then f(PhaseAfter(c, s, a)) - f(s.workers[a.w]) else 0
  {
    hide Apply, WorkerSum, Backoff, PhaseAfter;
    AfterQueue(c, s, a);
    if ByWorker(a) {
      WorkerSumUpdate(s.workers, a.w, PhaseAfter(c, s, a), f);
    }
  }

  lemma PlacesKept(c: Setup, s: Pool, a: Action, k: int)
    requires Inv(c, s) && Enabled(c, s, a) && 0 <= k < c.chunks
    ensures Places(Apply(c, s, a), k) == 1
  {
    hide Sum, WorkerSum, Insert, InsertMany, Backoff, Sorted, ItemsInv, Accounted, FlagsInv, AllBanned, IsBanned, Apply;
    assert Places(s, k) == 1;
    AfterSets(c, s, a);
    QueueSum(c, s, a, IsChunk(k));
    HeldSum(c, s, a, HoldsChunk(k));
    PlaceCounts(s, k);
  }

  /** Chunk conservation, step by step, before and after a stop alike. */
  lemma ConservedStep(c: Setup, s: Pool, a: Action)
    requires Inv(c, s) && Enabled(c, s, a)
    ensures Conserved(c, Apply(c, s, a))
  {
    forall k | 0 <= k < c.chunks ensures Places(Apply(c, s, a), k) == 1 {
      PlacesKept(c, s, a, k);
    }
  }

  /** The retry budget: every fetch that ends costs at least one, a put-back costs nothing. */
  lemma BudgetStep(c: Setup, s: Pool, a: Action)
    requires Inv(c, s) && Enabled(c, s, a)
    ensures Apply(c, s, a).spent == s.spent + if Ends(a) then 1 else 0
    ensures if Ends(a) then Budget(Apply(c, s, a)) < Budget(s)
            else if Dropped(c, s, a) == {} then Budget(Apply(c, s, a)) == Budget(s)
            else Budget(Apply(c, s, a)) <= Budget(s)
  {
    hide Sum, WorkerSum, Insert, InsertMany, Backoff, Sorted, Conserved, Accounted, FlagsInv, AllBanned, IsBanned, Apply;
    AfterSets(c, s, a);
    QueueSum(c, s, a, QueuedChances());
    HeldSum(c, s, a, HeldChances());
    if a.Pull? {
      assert QueuedInv(c, s, s.queue[0]);
    } else if a.Decide? {
      assert QueuedChances()(Item(0.0, STOP_SENTINEL, 0)) == 0;
    }
  }

  lemma AfterCount(c: Setup, s: Pool, a: Action)
    requires Enabled(c, s, a)
    ensures Apply(c, s, a).unfinished - s.unfinished
         == match a
            case Pull(w) => (match TurnOf(c, s, w) case PutBack => 1 case StartFetch => 0 case _ => -1)
            case Fail(_, _) => if Requeues(s, a) then 1 else 0
            case Decide(_) => |s.workers|
            case Release(_) => -1
            case Cancel(w) => if s.workers[w].Fetching? || s.workers[w].Releasing? then -1 else 0
            case _ => 0
  {
    hide Insert, InsertMany, TurnOf, PullItem, FailItem, Backoff;
    if a.Pull? {
      AfterPull(c, s, a.w);
    } else if a.Fail? {
      AfterFail(c, s, a.w, a.e);
    }
  }

  /** join's count is the queue plus the workers between get and task_done. */
  lemma UnfinishedStep(c: Setup, s: Pool, a: Action)
    requires Inv(c, s) && Enabled(c, s, a)
    ensures var t := Apply(c, s, a); t.unfinished == |t.queue| + WorkerSum(t.workers, IsBusy())
  {
    hide Sum, WorkerSum, Insert, InsertMany, Backoff, Sorted, ItemsInv, Conserved, FlagsInv, AllBanned, IsBanned, Apply;
    AfterQueue(c, s, a);
    AfterCount(c, s, a);
    HeldSum(c, s, a, IsBusy());
  }

  lemma AfterCounts(c: Setup, s: Pool, a: Action)
    requires Enabled(c, s, a)
    ensures var t := Apply(c, s, a);
            && t.starts == (if a.Pull? && TurnOf(c, s, a.w).StartFetch?
                            then s.starts[s.queue[0].chunk := Count(s.starts, s.queue[0].chunk) + 1] else s.starts)
            && t.fails == (if a.Fail? then s.fails[s.workers[a.w].item.chunk := Count(s.fails, s.workers[a.w].item.chunk) + 1] else s.fails)
            && t.verdict.Decided? == (s.verdict.Decided? || a.Decide?)
  {
    hide Insert, InsertMany, TurnOf, PullItem, FailItem, Backoff, Count;
    if a.Pull? {
      AfterPull(c, s, a.w);
    } else if a.Fail? {
      AfterFail(c, s, a.w, a.e);
    }
  }

  lemma QueuedStep(c: Setup, s: Pool, a: Action, it: Item)
    requires Inv(c, s) && Enabled(c, s, a) && it in Apply(c, s, a).queue
    ensures QueuedInv(c, Apply(c, s, a), it)
  {
    hide Sum, WorkerSum, Insert, InsertMany, Backoff, Sorted, Conserved, Accounted, FlagsInv, AllBanned, IsBanned, Apply, TurnOf;
    AfterQueue(c, s, a);
    AfterCounts(c, s, a);
    if a.Pull? {
      assert QueuedInv(c, s, s.queue[0]);
      if s.queue[0].chunk != STOP_SENTINEL {
        PulledOnce(c, s);
      }
    } else if a.Fail? {
      assert HeldInv(c, s, s.workers[a.w].item);
      OnePlace(c, s, s.workers[a.w].item.chunk);
    }
    if it in s.queue {
      assert QueuedInv(c, s, it);
    }
  }

  lemma HeldStep(c: Setup, s: Pool, a: Action, w: nat)
    requires Inv(c, s) && Enabled(c, s, a)
    requires w < |Apply(c, s, a).workers| && Apply(c, s, a).workers[w].Fetching?
    ensures HeldInv(c, Apply(c, s, a), Apply(c, s, a).workers[w].item)
  {
    hide Sum, WorkerSum, Insert, InsertMany, Backoff, Sorted, Conserved, Accounted, FlagsInv, AllBanned, IsBanned, Apply, TurnOf;
    AfterQueue(c, s, a);
    AfterCounts(c, s, a);
    if a.Pull? {
      assert QueuedInv(c, s, s.queue[0]);
      if s.queue[0].chunk != STOP_SENTINEL {
        OnePlace(c, s, s.queue[0].chunk);
      }
      if TurnOf(c, s, a.w).StartFetch? {
        TurnStarts(c, s, a.w);
      }
    } else if a.Fail? {
      OnePlace(c, s, s.workers[a.w].item.chunk);
    }
  }

  lemma TurnStarts(c: Setup, s: Pool, w: nat)
    requires Enabled(c, s, Pull(w)) && TurnOf(c, s, w).StartFetch?
    ensures s.queue[0].chunk != STOP_SENTINEL && s.queue[0].due <= s.now
  {
  }

  lemma ItemsStep(c: Setup, s: Pool, a: Action)
    requires Inv(c, s) && Enabled(c, s, a)
    ensures ItemsInv(c, Apply(c, s, a))
  {
    hide Sum, WorkerSum, Insert, InsertMany, Backoff, Sorted, Conserved, Accounted, FlagsInv, Apply, TurnOf;
    var t := Apply(c, s, a);
    AfterCounts(c, s, a);
    forall it | it in t.queue ensures QueuedInv(c, t, it) {
      QueuedStep(c, s, a, it);
    }
    forall w | 0 <= w < |t.workers| && t.workers[w].Fetching? ensures HeldInv(c, t, t.workers[w].item) {
      HeldStep(c, s, a, w);
    }
    if a.Pull? && TurnOf(c, s, a.w).StartFetch? {
      assert QueuedInv(c, s, s.queue[0]);
      TurnStarts(c, s, a.w);
    }
  }

  /** The head's chunk does not occur again in the queue. */
  lemma PulledOnce(c: Setup, s: Pool)
    requires Conserved(c, s) && s.queue != [] && 0 <= s.queue[0].chunk < c.chunks
    ensures forall it | it in s.queue[1..] :: it.chunk != s.queue[0].chunk
  {
    var k := s.queue[0].chunk;
    PlaceCounts(s, k);
    assert Places(s, k) == 1;
    forall it | it in s.queue[1..] ensures it.chunk != k {
      if it.chunk == k {
        SumAtLeast(s.queue[1..], it, IsChunk(k));
        assert false;
      }
    }
  }

  lemma AfterFlags(c: Setup, s: Pool, a: Action)
    requires Enabled(c, s, a)
    ensures var t := Apply(c, s, a);
            && (s.stop || a.SetStop? || (Dropped(c, s, a) != {} && !a.Halt? && !a.Cancel?) ==> t.stop)
            && t.joined == (s.joined || a.Join?)
            && t.verdict == (if a.Decide? then Decided(a.seen && !s.stop) else s.verdict)
            && (a.Decide? ==> t.stop == s.stop)
  {
    hide Insert, InsertMany, TurnOf, PullItem, FailItem, Backoff, Count;
    if a.Pull? {
      AfterPull(c, s, a.w);
    } else if a.Fail? {
      AfterFail(c, s, a.w, a.e);
    }
  }

  lemma FlagsStep(c: Setup, s: Pool, a: Action)
    requires Inv(c, s) && Enabled(c, s, a)
    ensures FlagsInv(c, Apply(c, s, a))
  {
    hide Sum, WorkerSum, Insert, InsertMany, Backoff, Sorted, Count, AllBanned, IsBanned, Apply, TurnOf;
    AfterSets(c, s, a);
    AfterFlags(c, s, a);
    if a.Join? {
      WorkerSumBounds(s.workers, IsBusy());
      forall k | 0 <= k < c.chunks && !s.stop ensures k in s.completed {
        NoneHeld(s, k);
        assert Places(s, k) == 1;
      }
    } else if a.Cancel? && s.workers[a.w].Fetching? && s.verdict.Decided? && s.verdict.complete {
      OnePlace(c, s, s.workers[a.w].item.chunk);
    }
  }

  /** With nothing queued and nobody between get and task_done, no worker holds a chunk. */
  lemma NoneHeld(s: Pool, k: int)
    requires s.queue == [] && WorkerSum(s.workers, IsBusy()) == 0
    ensures Sum(s.queue, IsChunk(k)) == 0 && WorkerSum(s.workers, HoldsChunk(k)) == 0
  {
    WorkerSumBounds(s.workers, IsBusy());
    forall w | 0 <= w < |s.workers| ensures !s.workers[w].Fetching? {
      assert IsBusy()(s.workers[w]) <= 0;
    }
    HeldByNone(s.workers, k);
  }

  lemma {:induction false} HeldByNone(ws: seq<Phase>, k: int)
    requires forall w | 0 <= w < |ws| :: !ws[w].Fetching?
    ensures WorkerSum(ws, HoldsChunk(k)) == 0
  {
    if ws != [] {
      HeldByNone(ws[1..], k);
    }
  }

  lemma {:induction false} PowerAtLeastOne(n: nat)
    ensures Pow2(n) >= 1.0
  {
    if n > 0 {
      PowerAtLeastOne(n - 1);
    }
  }

  /** The wait before a retry starts at one second and doubles up to half a minute. */
  lemma BackoffDoubles(n: nat)
    ensures Backoff(0) == 1.0 && 1.0 <= Backoff(n) <= 30.0
    ensures Backoff(n + 1) == if 2.0 * Backoff(n) < 30.0 then 2.0 * Backoff(n) else 30.0
  {
    PowerAtLeastOne(n);
  }

  lemma SortedStep(c: Setup, s: Pool, a: Action)
    requires Inv(c, s) && Enabled(c, s, a)
    ensures Sorted(Apply(c, s, a).queue)
  {
    hide Sum, WorkerSum, Insert, InsertMany, Backoff, Conserved, Accounted, FlagsInv, ItemsInv, Apply, PullItem;
    AfterQueue(c, s, a);
    if a.Pull? {
      InsertSorted(s.queue[1..], s.queue[0]);
    } else if Requeues(s, a) {
      InsertSorted(s.queue, Again(s, s.workers[a.w].item));
    } else if a.Decide? {
      InsertManySorted(s.queue, Item(0.0, STOP_SENTINEL, 0), |s.workers|);
    }
  }

  /** Every step of every worker, of join, of the verdict and of a stop keeps the pool's invariant. */
  lemma Step(c: Setup, s: Pool, a: Action)
    requires Inv(c, s) && Enabled(c, s, a)
    ensures Inv(c, Apply(c, s, a))
  {
    hide Conserved, ItemsInv, FlagsInv, Apply, Sorted;
    SortedStep(c, s, a);
    ConservedStep(c, s, a);
    BudgetStep(c, s, a);
    UnfinishedStep(c, s, a);
    ItemsStep(c, s, a);
    FlagsStep(c, s, a);
    AfterQueue(c, s, a);
  }

  /** join returning with the stop flag unset means that every chunk is completed. */
  lemma JoinMeansAll(c: Setup, s: Pool)
    requires Inv(c, s) && s.unfinished == 0 && !s.stop
    ensures AllCompleted(c, s)
  {
    FlagsStep(c, s, Join);
  }

  /** The mirror's ban, if it ever had one, is over. */
  ghost predicate Free(bans: map<string, real>, mirror: string, now: real) {
    (if mirror in bans then bans[mirror] else 0.0) <= now
  }

  lemma FreeMeans(bans: Bans, mirror: string, sources: seq<string>, now: real)
    ensures IsBanned(bans, mirror, now) <==> !Free(bans, mirror, now)
    ensures AllBanned(bans, sources, now) <==> !exists i :: 0 <= i < |sources| && Free(bans, sources[i], now)
  {
  }

  /** The turn in terms of the ban times. */
  lemma TurnMeans(c: Setup, s: Pool, w: nat)
    requires Enabled(c, s, Pull(w))
    ensures var mine := Free(s.bans, c.owner[w], s.now);
            var some := exists i :: 0 <= i < |c.sources| && Free(s.bans, c.sources[i], s.now);
            TurnOf(c, s, w) == if s.queue[0].chunk == -1 then LeaveOnSentinel
                                 else if s.now < s.queue[0].due then PutBack
                                 else if mine then StartFetch
                                 else if some then PutBack
                                 else GiveUp
  {
  }

  /** A worker that puts back an item as not yet due leaves a queue in which nothing is due. */
  lemma PutBackHidesNothing(c: Setup, s: Pool, w: nat)
    requires Inv(c, s) && Enabled(c, s, Pull(w))
    requires s.queue[0].chunk != STOP_SENTINEL && s.now < s.queue[0].due
    ensures forall it | it in PullItem(c, s, w).queue :: s.now < it.due
    ensures multiset(PullItem(c, s, w).queue) == multiset(s.queue)
  {
    NothingDueBehind(s.queue, s.now);
    InsertKeepsItems(s.queue[1..], s.queue[0]);
    assert s.queue == [s.queue[0]] + s.queue[1..];
  }
}
