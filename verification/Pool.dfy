/**
 * The worker pool as a state machine. One action is what a worker does between two awaits:
 * get never suspends once an item is there, so taking an item and deciding about it is one step.
 */
module Pool {
  import opened ChunkQueue
  import opened Health

  /** Give up on a chunk once this many retries have failed too. */
  const MAX_RETRIES := 5

  datatype Phase =
    | Ready                 // top of the loop, or waiting in get
    | Fetching(item: Item)  // inside _process_chunk
    | Releasing             // item put back or dealt with, task_done still to come
    | Exited

  datatype Verdict = Undecided | Decided(complete: bool)

  datatype Setup = Setup(chunks: nat, sources: seq<string>, owner: seq<string>)

  /**
   * `gone` are chunks that left the protocol uncompleted. `starts` and `fails` count fetches of
   * each chunk and `spent` all that have ended: history for the statements below.
   */
  datatype Pool = Pool(queue: seq<Item>, workers: seq<Phase>, completed: set<int>, gone: set<int>,
                       unfinished: int, stop: bool, joined: bool, verdict: Verdict, now: real, bans: Bans,
                       starts: map<int, nat>, fails: map<int, nat>, spent: nat)

  datatype Action =
    | Pull(w: nat)
    | Leave(w: nat)
    | Ok(w: nat)
    | Fail(w: nat, e: Failure)
    | Halt(w: nat)
    | Release(w: nat)
    | Cancel(w: nat)
    | Join
    | Decide(seen: bool)
    | SetStop
    | Tick(d: real)

  function Count(m: map<int, nat>, k: int): nat { if k in m then m[k] else 0 }

  function Pow2(n: nat): real { if n == 0 then 1.0 else 2.0 * Pow2(n - 1) }

  function Backoff(retries: nat): real {
    var b := Pow2(retries);
    if b < 30.0 then b else 30.0
  }

  predicate Enabled(c: Setup, s: Pool, a: Action) {
    match a
    case Pull(w) => w < |s.workers| && w < |c.owner| && s.workers[w].Ready? && s.queue != []
    case Leave(w) => w < |s.workers| && s.workers[w].Ready? && s.stop
    case Ok(w) => w < |s.workers| && s.workers[w].Fetching?
    case Fail(w, e) => w < |s.workers| && w < |c.owner| && s.workers[w].Fetching?
    case Halt(w) => w < |s.workers| && s.workers[w].Fetching? && s.stop
    case Release(w) => w < |s.workers| && s.workers[w].Releasing?
    case Cancel(w) => w < |s.workers| && (s.stop || s.verdict.Decided?)
    case Join => s.unfinished == 0
    case Decide(seen) => s.verdict.Undecided? && (seen ==> s.joined) && (seen || s.stop)
    case SetStop => true
    case Tick(d) => d >= 0.0
  }

  datatype Turn = LeaveOnSentinel | PutBack | GiveUp | StartFetch

  /** What the worker does with the head of the queue. */
  function TurnOf(c: Setup, s: Pool, w: nat): Turn
    requires Enabled(c, s, Pull(w))
  {
    if s.queue[0].chunk == STOP_SENTINEL then LeaveOnSentinel
    else if s.now < s.queue[0].due then PutBack
    else if !IsBanned(s.bans, c.owner[w], s.now) then StartFetch
    else if AllBanned(s.bans, c.sources, s.now) then GiveUp
    else PutBack
  }

  /** The worker's turn from get to the next await. */
  function PullItem(c: Setup, s: Pool, w: nat): Pool
    requires Enabled(c, s, Pull(w))
  {
    var item, rest := s.queue[0], s.queue[1..];
    match TurnOf(c, s, w)
    case LeaveOnSentinel =>
      s.(queue := rest, workers := s.workers[w := Exited], unfinished := s.unfinished - 1)
    case PutBack =>
      s.(queue := Insert(rest, item), workers := s.workers[w := Releasing], unfinished := s.unfinished + 1)
    case GiveUp =>
      s.(queue := rest, workers := s.workers[w := Exited], unfinished := s.unfinished - 1,
         gone := s.gone + {item.chunk}, stop := true)
    case StartFetch =>
      s.(queue := rest, workers := s.workers[w := Fetching(item)],
         starts := s.starts[item.chunk := Count(s.starts, item.chunk) + 1])
  }

  /** A failed fetch: ban the mirror, then queue the chunk again, or abort. */
  function FailItem(c: Setup, s: Pool, w: nat, e: Failure): Pool
    requires Enabled(c, s, Fail(w, e))
  {
    var item := s.workers[w].item;
    var t := s.(workers := s.workers[w := Releasing], bans := Recorded(s.bans, c.owner[w], e, s.now),
                fails := s.fails[item.chunk := Count(s.fails, item.chunk) + 1], spent := s.spent + 1);
    if s.stop then t.(gone := s.gone + {item.chunk})
    else if item.retries < MAX_RETRIES then
      t.(queue := Insert(s.queue, Item(s.now + Backoff(item.retries), item.chunk, item.retries + 1)),
         unfinished := s.unfinished + 1)
    else t.(gone := s.gone + {item.chunk}, stop := true)
  }

  /** The worker is cancelled (asyncio); the finally clause still reports an item as done. */
  function CancelWorker(s: Pool, w: nat): Pool
    requires w < |s.workers|
  {
    var t := s.(workers := s.workers[w := Exited]);
    match s.workers[w]
    case Fetching(item) => t.(gone := s.gone + {item.chunk}, unfinished := s.unfinished - 1)
    case Releasing => t.(unfinished := s.unfinished - 1)
    case _ => t
  }

  function Apply(c: Setup, s: Pool, a: Action): Pool
    requires Enabled(c, s, a)
  {
    match a
    case Pull(w) => PullItem(c, s, w)
    case Leave(w) => s.(workers := s.workers[w := Exited])
    case Ok(w) =>
      s.(workers := s.workers[w := Releasing], completed := s.completed + {s.workers[w].item.chunk}, spent := s.spent + 1)
    case Fail(w, e) => FailItem(c, s, w, e)
    case Halt(w) =>
      s.(workers := s.workers[w := Releasing], gone := s.gone + {s.workers[w].item.chunk}, spent := s.spent + 1)
    case Release(w) => s.(workers := s.workers[w := Ready], unfinished := s.unfinished - 1)
    case Cancel(w) => CancelWorker(s, w)
    case Join => s.(joined := true)
    case Decide(seen) =>
      s.(verdict := Decided(seen && !s.stop), unfinished := s.unfinished + |s.workers|,
         queue := InsertMany(s.queue, Item(0.0, STOP_SENTINEL, 0), |s.workers|))
    case SetStop => s.(stop := true)
    case Tick(d) => s.(now := s.now + d)
  }

  // ---- sums over the workers ----

  function WorkerSum(ws: seq<Phase>, f: Phase -> int): int {
    if ws == [] then 0 else f(ws[0]) + WorkerSum(ws[1..], f)
  }

  lemma {:induction false} WorkerSumUpdate(ws: seq<Phase>, w: nat, ph: Phase, f: Phase -> int)
    requires w < |ws|
    ensures WorkerSum(ws[w := ph], f) == WorkerSum(ws, f) - f(ws[w]) + f(ph)
  {
    if w > 0 {
      assert ws[w := ph][1..] == ws[1..][w - 1 := ph];
      WorkerSumUpdate(ws[1..], w - 1, ph, f);
    } else {
      assert ws[w := ph][1..] == ws[1..];
    }
  }

  lemma {:induction false} WorkerSumBounds(ws: seq<Phase>, f: Phase -> int)
    requires forall ph :: f(ph) >= 0
    ensures WorkerSum(ws, f) >= 0
    ensures forall w | 0 <= w < |ws| :: f(ws[w]) <= WorkerSum(ws, f)
    ensures forall v, w | 0 <= v < w < |ws| :: f(ws[v]) + f(ws[w]) <= WorkerSum(ws, f)
  {
    if ws != [] {
      WorkerSumBounds(ws[1..], f);
      forall w | 0 <= w < |ws| ensures f(ws[w]) <= WorkerSum(ws, f) {
        assert w > 0 ==> ws[w] == ws[1..][w - 1];
      }
      forall v, w | 0 <= v < w < |ws| ensures f(ws[v]) + f(ws[w]) <= WorkerSum(ws, f) {
        assert ws[w] == ws[1..][w - 1];
        assert v > 0 ==> ws[v] == ws[1..][v - 1];
      }
    }
  }

  // ---- what is counted ----

  function IsChunk(k: int): Item -> int { (it: Item) => if it.chunk == k then 1 else 0 }
  function HoldsChunk(k: int): Phase -> int { (ph: Phase) => if ph.Fetching? && ph.item.chunk == k then 1 else 0 }

  /** Between get and task_done. */
  function IsBusy(): Phase -> int { (ph: Phase) => if ph.Fetching? || ph.Releasing? then 1 else 0 }

  /** Fetches that may still end for this item. */
  function Chances(it: Item): int { if it.chunk == STOP_SENTINEL then 0 else MAX_RETRIES + 1 - it.retries }
  function QueuedChances(): Item -> int { (it: Item) => Chances(it) }
  function HeldChances(): Phase -> int { (ph: Phase) => if ph.Fetching? then Chances(ph.item) else 0 }

  /** In how many places chunk k is: queued, held by workers, completed, gone. */
  function Places(s: Pool, k: int): int {
    Sum(s.queue, IsChunk(k)) + WorkerSum(s.workers, HoldsChunk(k))
    + (if k in s.completed then 1 else 0) + (if k in s.gone then 1 else 0)
  }

  /** The sum over unfinished chunks of the fetches each has left. */
  function Budget(s: Pool): int {
    Sum(s.queue, QueuedChances()) + WorkerSum(s.workers, HeldChances())
  }

  predicate AllCompleted(c: Setup, s: Pool) {
    forall k | 0 <= k < c.chunks :: k in s.completed
  }

  predicate QueuedInv(c: Setup, s: Pool, it: Item) {
    if it.chunk == STOP_SENTINEL then s.verdict.Decided?
    else 0 <= it.chunk < c.chunks && it.retries <= MAX_RETRIES
         && Count(s.starts, it.chunk) == it.retries && Count(s.fails, it.chunk) == it.retries
  }

  predicate HeldInv(c: Setup, s: Pool, it: Item) {
    && 0 <= it.chunk < c.chunks && it.retries <= MAX_RETRIES
    && Count(s.starts, it.chunk) == it.retries + 1 && Count(s.fails, it.chunk) == it.retries
  }

  ghost predicate Conserved(c: Setup, s: Pool) {
    forall k | 0 <= k < c.chunks :: Places(s, k) == 1
  }

  ghost predicate Accounted(c: Setup, s: Pool) {
    && s.unfinished == |s.queue| + WorkerSum(s.workers, IsBusy())
    && s.spent + Budget(s) <= (MAX_RETRIES + 1) * c.chunks
  }

  ghost predicate ItemsInv(c: Setup, s: Pool) {
    && (forall it | it in s.queue :: QueuedInv(c, s, it))
    && (forall w | 0 <= w < |s.workers| :: s.workers[w].Fetching? ==> HeldInv(c, s, s.workers[w].item))
    && (forall k | k in s.starts :: s.starts[k] <= MAX_RETRIES + 1)
  }

  ghost predicate FlagsInv(c: Setup, s: Pool) {
    && (s.gone != {} ==> s.stop)
    && (s.joined ==> s.stop || AllCompleted(c, s))
    && (s.verdict.Decided? ==> if s.verdict.complete then AllCompleted(c, s) else s.stop)
  }

  ghost predicate Inv(c: Setup, s: Pool) {
    && |s.workers| == |c.owner|
    && Sorted(s.queue)
    && ItemsInv(c, s)
    && Conserved(c, s)
    && Accounted(c, s)
    && FlagsInv(c, s)
  }
}
