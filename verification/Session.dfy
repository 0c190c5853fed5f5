/** What happens before the workers start: the saved state, the destination file, the chunk queue. */
module Session {
  import opened Tiling
  import opened Disk
  import opened ChunkQueue

  datatype Option<+T> = None | Some(value: T)

  datatype Metadata = Metadata(totalSize: int, acceptsRanges: bool, etag: Option<string>, lastModified: Option<string>)

  /** The `completed` entry of a state file need not be a list. */
  datatype CompletedEntry = NotAList | Chunks(list: seq<int>)

  datatype SavedState = SavedState(totalSize: Option<int>, chunkSize: Option<int>, completed: CompletedEntry,
                                   etag: Option<string>, lastModified: Option<string>)

  /** Both sides know the validator (an empty string counts as unknown) and they differ. */
  predicate Differ(a: Option<string>, b: Option<string>) {
    a.Some? && a.value != "" && b.Some? && b.value != "" && a != b
  }

  function ValidateForResume(saved: SavedState, meta: Metadata, chunkSize: int): bool {
    if saved.totalSize != Some(meta.totalSize) then false
    else if saved.chunkSize != Some(chunkSize) then false
    else if Differ(saved.etag, meta.etag) then false
    else !Differ(saved.lastModified, meta.lastModified)
  }

  function BuildFreshState(meta: Metadata, chunkSize: int): SavedState {
    SavedState(Some(meta.totalSize), Some(chunkSize), Chunks([]), meta.etag, meta.lastModified)
  }

  /** The state saved while downloading: the session's state with the completed chunks put in. */
  function Saving(state: SavedState, completed: seq<int>): SavedState {
    state.(completed := Chunks(completed))
  }

  /** Resume from the saved state if it fits, else from a fresh one; a broken list is an empty one. */
  function LoadResumeState(saved: Option<SavedState>, meta: Metadata, chunkSize: int): (SavedState, set<int>) {
    var state := if saved.Some? && ValidateForResume(saved.value, meta, chunkSize) then saved.value
                 else BuildFreshState(meta, chunkSize);
    var list := match state.completed case Chunks(l) => l case NotAList => [];
    (Saving(state, list), set x | x in list)
  }

  /**
   * A saved state is taken up exactly when its total size and its chunk size are the session's and no
   * validator differs that both sides know as a non-empty string. In every other case the session
   * starts from nothing.
   */
  lemma TakenUpExactly(saved: SavedState, meta: Metadata, chunkSize: int)
    ensures var (state, completed) := LoadResumeState(Some(saved), meta, chunkSize);
            if saved.totalSize == Some(meta.totalSize) && saved.chunkSize == Some(chunkSize)
               && (saved.etag.None? || meta.etag.None? || saved.etag.value == "" || meta.etag.value == ""
                   || saved.etag.value == meta.etag.value)
               && (saved.lastModified.None? || meta.lastModified.None?
                   || saved.lastModified.value == "" || meta.lastModified.value == ""
                   || saved.lastModified.value == meta.lastModified.value)
            then
              && (saved.completed.Chunks? ==> state == saved && completed == set x | x in saved.completed.list)
              && (saved.completed.NotAList? ==> state == saved.(completed := Chunks([])) && completed == {})
            else StartsAfresh(state, completed, meta, chunkSize)
  {
    assert (set x: int | x in []) == {};
  }

  /** Without a saved state, too. */
  lemma NothingSaved(meta: Metadata, chunkSize: int)
    ensures var (state, completed) := LoadResumeState(None, meta, chunkSize); StartsAfresh(state, completed, meta, chunkSize)
  {
    assert (set x: int | x in []) == {};
  }

  /** Nothing is completed, and the state describes the remote file and the chunk size as they are now. */
  predicate StartsAfresh(state: SavedState, completed: set<int>, meta: Metadata, chunkSize: int) {
    && completed == {} && state.completed == Chunks([])
    && state.totalSize == Some(meta.totalSize) && state.chunkSize == Some(chunkSize)
    && state.etag == meta.etag && state.lastModified == meta.lastModified
  }

  /** Whether a later probe may be the same remote file as an earlier one. */
  predicate Compatible(m: Metadata, m': Metadata) {
    m.totalSize == m'.totalSize && !Differ(m.etag, m'.etag) && !Differ(m.lastModified, m'.lastModified)
  }

  /** The remote file as the session's state describes it; a resumed state keeps its first validators. */
  function Recorded(state: SavedState, m: Metadata): Metadata {
    m.(etag := state.etag, lastModified := state.lastModified)
  }

  /**
   * Saving and loading are inverse exactly while the remote file looks like the recorded one and the
   * chunk size is the same: then the next session starts from the chunks that were saved, and
   * otherwise from none.
   */
  lemma SaveThenLoad(prior: Option<SavedState>, m: Metadata, m': Metadata, chunkSize: int, chunkSize': int, completed: seq<int>)
    ensures var state := LoadResumeState(prior, m, chunkSize).0;
            var next := LoadResumeState(Some(Saving(state, completed)), m', chunkSize');
            && (if Compatible(Recorded(state, m), m') && chunkSize == chunkSize' then next == (Saving(state, completed), set x | x in completed)
                else next == (BuildFreshState(m', chunkSize'), {}))
            && (prior.None? ==> Recorded(state, m) == m)
  {
    var state := LoadResumeState(prior, m, chunkSize).0;
    assert state.totalSize == Some(m.totalSize) && state.chunkSize == Some(chunkSize);
    if !Compatible(Recorded(state, m), m') || chunkSize != chunkSize' {
      assert BuildFreshState(m', chunkSize').completed == Chunks([]);
      assert (set x: int | x in []) == {};
    }
  }

  /**
   * prepare_file: fallocate only ever extends a file; ftruncate, where fallocate is missing or
   * fails, also cuts it.
   */
  function PrepareFile(file: seq<byte>, totalSize: int, fallocate: bool): (r: seq<byte>)
    ensures totalSize > 0 ==> |r| >= totalSize
    ensures forall i | 0 <= i < |file| && i < |r| :: r[i] == file[i]
  {
    if totalSize <= 0 || (fallocate && totalSize <= |file|) then file else Resize(file, totalSize)
  }

  /** The prepared file has the remote size unless fallocate was given a longer file. */
  lemma PreparedLength(file: seq<byte>, totalSize: int, fallocate: bool)
    requires totalSize > 0
    ensures |PrepareFile(file, totalSize, fallocate)| == totalSize <==> !fallocate || |file| <= totalSize
  {
  }

  const FALLBACK_UNKNOWN_SIZE_CHUNK: nat := 1024 * 1024 * 1024

  /** _apply_probe_fallback: with no size or no ranges, one worker on the first mirror and one big chunk. */
  function ProbeFallback(meta: Metadata, threads: nat, urls: seq<string>, chunkSize: nat): (nat, seq<string>, nat)
    requires urls != []
  {
    if meta.totalSize == 0 || !meta.acceptsRanges then
      (1, [urls[0]], if meta.totalSize > 0 then meta.totalSize else FALLBACK_UNKNOWN_SIZE_CHUNK)
    else (threads, urls, chunkSize)
  }

  /**
   * So a file that cannot be fetched in ranges is never fetched in more than one piece, and any
   * other as it was asked for.
   */
  lemma FallbackIsOnePiece(meta: Metadata, threads: nat, urls: seq<string>, chunkSize: nat)
    requires urls != [] && chunkSize > 0
    ensures var (threads', urls', chunkSize') := ProbeFallback(meta, threads, urls, chunkSize);
            if meta.totalSize == 0 || !meta.acceptsRanges then
              chunkSize' > 0 && TotalChunks(meta.totalSize, chunkSize') == 1 && threads' * |urls'| == 1 && urls' <= urls
            else threads' == threads && urls' == urls && chunkSize' == chunkSize
  {
    var size := ProbeFallback(meta, threads, urls, chunkSize).2;
    if meta.totalSize > 0 && !meta.acceptsRanges {
      DivisionBounds(meta.totalSize + size - 1, size);
      var n := TotalChunks(meta.totalSize, size);
      if n >= 2 {
        MulMonotone(1, n - 1, size);
      }
    }
  }

  /** The queue a session starts with: every chunk below n that is not completed, in order. */
  function PendingItems(n: nat, completed: set<int>): (q: seq<Item>)
    ensures forall it :: it in q <==> 0 <= it.chunk < n && it.chunk !in completed && it.due == 0.0 && it.retries == 0
    ensures Sorted(q)
  {
    if n == 0 then []
    else if n - 1 in completed then PendingItems(n - 1, completed)
    else
      assert Item(0.0, n - 1, 0) in [Item(0.0, n - 1, 0)];
      PendingItems(n - 1, completed) + [Item(0.0, n - 1, 0)]
  }

  lemma {:induction false} InsertLast(q: seq<Item>, x: Item)
    requires forall y | y in q :: !AtMost(x, y)
    ensures Insert(q, x) == q + [x]
  {
    if q != [] {
      InsertLast(q[1..], x);
    }
  }

  method BuildChunkQueue(totalChunks: nat, completed: set<int>) returns (queue: seq<Item>)
    ensures queue == PendingItems(totalChunks, completed)
  {
    queue := [];
    for i := 0 to totalChunks
      invariant queue == PendingItems(i, completed)
    {
      if i !in completed {
        InsertLast(queue, Item(0.0, i, 0));
        queue := Insert(queue, Item(0.0, i, 0));
      }
    }
  }

  lemma {:induction false} SumSnoc(q: seq<Item>, x: Item, f: Item -> int)
    ensures Sum(q + [x], f) == Sum(q, f) + f(x)
  {
    if q == [] {
      assert q + [x] == [x];
      assert Sum([x], f) == f(x) + Sum([], f);
    } else {
      assert (q + [x])[1..] == q[1..] + [x];
      SumSnoc(q[1..], x, f);
    }
  }

  lemma {:induction false} SumPendingBound(n: nat, completed: set<int>, f: Item -> int, v: nat)
    requires forall i: int | i >= 0 :: f(Item(0.0, i, 0)) == v
    ensures Sum(PendingItems(n, completed), f) <= v * n
  {
    if n > 0 {
      SumPendingBound(n - 1, completed, f, v);
      assert v * n == v * (n - 1) + v;
      if n - 1 !in completed {
        SumSnoc(PendingItems(n - 1, completed), Item(0.0, n - 1, 0), f);
      }
    }
  }
}
