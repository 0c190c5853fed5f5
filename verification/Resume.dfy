/** Resuming over any number of sessions: what is saved is in the file. */
module Resume {
  import opened Tiling
  import opened Disk
  import opened Engine
  import opened Runs
  import opened Session
  import CQ = ChunkQueue
  import S = Store
  import SS = StoreSafety

  /** In chunks of this size, the range of the k-th holds the remote file's bytes. */
  ghost predicate ChunkRight(source: seq<byte>, chunkSize: nat, file: seq<byte>, k: nat) {
    forall i | Start(k, chunkSize) <= i < Start(k, chunkSize) + Length(k, |source|, chunkSize) && 0 <= i < |source| ::
      i < |file| && file[i] == source[i]
  }

  /** Every chunk of the set, in chunks of this size, is in the file. */
  ghost predicate SoundSet(source: seq<byte>, chunkSize: nat, file: seq<byte>, completed: set<int>) {
    forall k: nat | k in completed && chunkSize > 0 && k < TotalChunks(|source|, chunkSize) :: ChunkRight(source, chunkSize, file, k)
  }

  /** The saved state, read in the chunk size that it was saved with, promises nothing that the file does not hold. */
  ghost predicate SavedSound(source: seq<byte>, file: seq<byte>, saved: Option<SavedState>) {
    saved.Some? && saved.value.totalSize == Some(|source|) && saved.value.chunkSize.Some? && saved.value.chunkSize.value > 0
    && saved.value.completed.Chunks? ==>
      SoundSet(source, saved.value.chunkSize.value, file, set x | x in saved.value.completed.list)
  }

  /** A session's setup for one remote file; its chunk size, and all else, is its own. */
  ghost predicate Serves(c: Setup, source: seq<byte>) {
    c.Valid() && c.disk.honest && c.disk.source == source
  }

  /** A sound saved state gives a sound start, resumed or fresh, in the prepared file. */
  lemma SoundStart(c: Setup, source: seq<byte>, file: seq<byte>, saved: Option<SavedState>, meta: Metadata, fallocate: bool)
    requires Serves(c, source) && meta.totalSize == |source| && SavedSound(source, file, saved)
    ensures var file0 := PrepareFile(file, c.disk.totalSize, fallocate);
            |file0| >= c.disk.totalSize && SoundResume(c, file0, LoadResumeState(saved, meta, c.disk.chunkSize).1)
  {
    var d := c.disk;
    var file0 := PrepareFile(file, d.totalSize, fallocate);
    var completed := LoadResumeState(saved, meta, d.chunkSize).1;
    TakenIsSound(c, source, file, saved, meta);
    forall k: nat | k < c.pool.chunks && k in completed ensures d.Genuine(k, ChunkBytes(d, file0, k)) {
      LengthsAgree(k, d.totalSize, d.chunkSize);
      assert ChunkRight(source, d.chunkSize, file, k);
      var bytes := ChunkBytes(d, file0, k);
      forall i | 0 <= i < |bytes| ensures d.source[d.Base(k) + i] == bytes[i] {
        var at := d.Base(k) + i;
        assert at < |file| && file[at] == source[at];
        assert file0[at] == file[at];
      }
    }
  }

  /** What a session takes as completed is in the file: only a state of its own chunk size is taken up. */
  lemma TakenIsSound(c: Setup, source: seq<byte>, file: seq<byte>, saved: Option<SavedState>, meta: Metadata)
    requires Serves(c, source) && meta.totalSize == |source| && SavedSound(source, file, saved)
    ensures SoundSet(source, c.disk.chunkSize, file, LoadResumeState(saved, meta, c.disk.chunkSize).1)
  {
    hide ValidateForResume, LoadResumeState, ChunkRight;
    if saved.None? {
      NothingSaved(meta, c.disk.chunkSize);
    } else {
      TakenUpExactly(saved.value, meta, c.disk.chunkSize);
    }
  }

  /** Chunks on disk are right, so a set of completed chunks that are on disk may be saved. */
  lemma OnDiskIsSound(c: Setup, source: seq<byte>, e: Engine, completed: set<int>)
    requires Inv(c, e) && Serves(c, source)
    requires forall k: nat | k < c.pool.chunks && k in completed :: k in e.store.disk
    ensures SoundSet(source, c.disk.chunkSize, e.store.file, completed)
  {
    forall k: nat | k < c.disk.Chunks() && k in completed ensures ChunkRight(source, c.disk.chunkSize, e.store.file, k) {
      DiskChunkRight(c, source, e, k);
    }
  }

  lemma DiskChunkRight(c: Setup, source: seq<byte>, e: Engine, k: nat)
    requires Inv(c, e) && Serves(c, source) && k < c.pool.chunks && k in e.store.disk
    ensures ChunkRight(source, c.disk.chunkSize, e.store.file, k)
  {
    hide ExecAll, Patch, Resize, S.Promised, S.AllAttempts, S.AllCommands, S.Exclusive, S.PhaseInv;
    var d := c.disk;
    LengthsAgree(k, d.totalSize, d.chunkSize);
    SS.OnDiskIsRight(d, e.store, k);
    assert S.FinishedInv(d, e.store.file, e.store.Pending(), k in e.store.disk, k, e.store.finished[k]);
    var data := e.store.finished[k];
    forall i | d.Base(k) <= i < d.Base(k) + d.Len(k) ensures i < |e.store.file| && e.store.file[i] == source[i] {
      assert e.store.file[d.Base(k) + (i - d.Base(k))] == data[i - d.Base(k)];
      assert source[d.Base(k) + (i - d.Base(k))] == data[i - d.Base(k)];
    }
  }

  /**
   * One session: its setup and probe, the steps of its run, and the step behind which the state was
   * saved last.
   */
  datatype Run = Run(setup: Setup, meta: Metadata, fallocate: bool, begun: real, steps: seq<Action>, savedAfter: nat, list: seq<int>)

  /** The session fetches the same remote file, with the mapped writer; its chunk size is free. */
  ghost predicate Fits(run: Run, source: seq<byte>) {
    Serves(run.setup, source) && run.setup.disk.mmap && run.meta.totalSize == |source|
  }

  ghost function StartOf(run: Run, source: seq<byte>, file: seq<byte>, saved: Option<SavedState>): (e: Engine)
    requires Fits(run, source) && SavedSound(source, file, saved)
    ensures Inv(run.setup, e)
  {
    SoundStart(run.setup, source, file, saved, run.meta, run.fallocate);
    Begin(run.setup, PrepareFile(file, run.setup.disk.totalSize, run.fallocate),
          LoadResumeState(saved, run.meta, run.setup.disk.chunkSize).1, run.begun)
  }

  /** The session may happen like this; its saved list is the completed set as of the save, in any order. */
  ghost predicate Happens(run: Run, source: seq<byte>, file: seq<byte>, saved: Option<SavedState>)
    requires Fits(run, source) && SavedSound(source, file, saved)
  {
    var e := StartOf(run, source, file, saved);
    && Possible(run.setup, e, run.steps) && run.savedAfter <= |run.steps|
    && (PossiblePrefix(run.setup, e, run.steps, run.savedAfter);
        (set x | x in run.list) == After(run.setup, e, run.steps[..run.savedAfter]).pool.completed)
  }

  ghost function EndOf(run: Run, source: seq<byte>, file: seq<byte>, saved: Option<SavedState>): (e: Engine)
    requires Fits(run, source) && SavedSound(source, file, saved) && Happens(run, source, file, saved)
    ensures Inv(run.setup, e)
  {
    After(run.setup, StartOf(run, source, file, saved), run.steps)
  }

  function SavedBy(run: Run, saved: Option<SavedState>): Option<SavedState> {
    Some(Saving(LoadResumeState(saved, run.meta, run.setup.disk.chunkSize).0, run.list))
  }

  /** What was saved in the middle of a session is still completed at its end. */
  lemma SavedIsCompleted(run: Run, source: seq<byte>, file: seq<byte>, saved: Option<SavedState>)
    requires Fits(run, source) && SavedSound(source, file, saved) && Happens(run, source, file, saved)
    ensures (set x | x in run.list) <= EndOf(run, source, file, saved).pool.completed
  {
    hide Inv, SavedSound, StartOf, Fits;
    var e := StartOf(run, source, file, saved);
    PossiblePrefix(run.setup, e, run.steps, run.savedAfter);
    Frozen(run.setup, After(run.setup, e, run.steps[..run.savedAfter]), run.steps[run.savedAfter..]);
  }

  /** A session saves the chunk size that it ran with. */
  lemma SavesItsChunkSize(run: Run, source: seq<byte>, saved: Option<SavedState>)
    requires Fits(run, source)
    ensures SavedBy(run, saved).value.totalSize == Some(|source|)
    ensures SavedBy(run, saved).value.chunkSize == Some(run.setup.disk.chunkSize)
    ensures SavedBy(run, saved).value.completed == Chunks(run.list)
  {
    hide ValidateForResume, LoadResumeState;
    if saved.None? {
      NothingSaved(run.meta, run.setup.disk.chunkSize);
    } else {
      TakenUpExactly(saved.value, run.meta, run.setup.disk.chunkSize);
    }
  }

  /**
   * With the synchronous writer a session, wherever it is cut off, leaves a saved state that its
   * file honours, even if the state was saved early and the run went on.
   */
  lemma SessionStaysSound(run: Run, source: seq<byte>, file: seq<byte>, saved: Option<SavedState>)
    requires Fits(run, source) && SavedSound(source, file, saved) && Happens(run, source, file, saved)
    ensures SavedSound(source, EndOf(run, source, file, saved).store.file, SavedBy(run, saved))
  {
    SavedIsCompleted(run, source, file, saved);
    SavesItsChunkSize(run, source, saved);
    hide Inv, LoadResumeState, SoundSet;
    var end := EndOf(run, source, file, saved);
    MappedState(run.setup, end);
    OnDiskIsSound(run.setup, source, end, set x | x in run.list);
  }

  /** Any number of sessions one after the other, each from what the one before left behind. */
  ghost predicate Sessions(source: seq<byte>, file: seq<byte>, saved: Option<SavedState>, runs: seq<Run>)
    requires SavedSound(source, file, saved)
    decreases |runs|
  {
    runs == []
    || (Fits(runs[0], source) && Happens(runs[0], source, file, saved)
        && (SessionStaysSound(runs[0], source, file, saved);
            Sessions(source, EndOf(runs[0], source, file, saved).store.file, SavedBy(runs[0], saved), runs[1..])))
  }

  ghost function LeftBehind(source: seq<byte>, file: seq<byte>, saved: Option<SavedState>, runs: seq<Run>)
    : (seq<byte>, Option<SavedState>)
    requires SavedSound(source, file, saved) && Sessions(source, file, saved, runs)
    decreases |runs|
  {
    if runs == [] then (file, saved)
    else
      SessionStaysSound(runs[0], source, file, saved);
      LeftBehind(source, EndOf(runs[0], source, file, saved).store.file, SavedBy(runs[0], saved), runs[1..])
  }

  /**
   * Resume safety: across any number of sessions with the mapped writer, each with a chunk size of its
   * own and cut off anywhere, every chunk that the next session takes as completed, whatever its
   * writer and its chunk size, is in the file, and the queue it builds holds exactly the others.
   */
  lemma {:induction false} ResumeIsSafe(source: seq<byte>, file: seq<byte>, saved: Option<SavedState>, runs: seq<Run>,
                                        c: Setup, next: Metadata, fallocate: bool)
    requires SavedSound(source, file, saved) && Sessions(source, file, saved, runs)
    requires Serves(c, source) && next.totalSize == |source|
    ensures var (file', saved') := LeftBehind(source, file, saved, runs);
            var completed := LoadResumeState(saved', next, c.disk.chunkSize).1;
            && SoundResume(c, PrepareFile(file', c.disk.totalSize, fallocate), completed)
            && forall k: nat | k < c.pool.chunks ::
                 (CQ.Item(0.0, k, 0) in PendingItems(c.pool.chunks, completed)) != (k in completed)
    decreases |runs|
  {
    hide Fits, Happens, SavedSound, LoadResumeState;
    if runs == [] {
      SoundStart(c, source, file, saved, next, fallocate);
    } else {
      SessionStaysSound(runs[0], source, file, saved);
      ResumeIsSafe(source, EndOf(runs[0], source, file, saved).store.file, SavedBy(runs[0], saved), runs[1..], c, next, fallocate);
    }
  }
}
