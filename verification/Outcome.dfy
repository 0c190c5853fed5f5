/** What a COMPLETED result means for the file: the lifecycle over a run of the engine and its hasher. */
module Outcome {
  import opened Disk
  import opened Engine
  import opened Hasher
  import opened Lifecycle
  import opened LostMark
  import opened Runs
  import opened Session
  import opened Verified
  import P = Pool

  /** What start() looks at when the pool has ended: run()'s result and the writer's error. */
  ghost predicate Meets(env: Env, e: Engine) {
    && (env.pool.Complete? <==> e.pool.verdict == P.Decided(true))
    && (env.writerError <==> e.store.phase.Failed?)
  }

  /** The hasher has watched the run, from any moments, and may have come to its verdict by the t-th. */
  ghost predicate Watched(c: Setup, run: History, h: StreamingHasher, at: nat -> nat, worlds: Worlds, t: nat)
    requires IsRun(c, run)
    reads h
  {
    && Watches(c, First(c, run), run.steps, at, worlds) && h.Ready(worlds)
    && h.totalSize == c.disk.totalSize && h.chunkSize == c.disk.chunkSize && h.Settled(worlds, t)
  }

  /** Behind a verdict of completion and without an error of the writer, a missing chunk is one whose mark is queued. */
  lemma QueuedMarksAreMissing(c: Setup, e: Engine)
    requires Inv(c, e) && e.pool.verdict == P.Decided(true) && !e.store.phase.Failed?
    ensures DiskComplete(c, e) <==> forall cmd | cmd in e.store.queue :: !cmd.Mark?
    ensures DiskComplete(c, e) && c.disk.honest ==>
              |e.store.file| >= c.disk.totalSize && e.store.file[..c.disk.totalSize] == c.disk.source
  {
    PendingIsQueue(c, e);
    QueuedMarksAreOfChunks(c, e);
    hide Inv;
    forall k: nat | k < c.pool.chunks ensures k !in e.store.disk <==> Mark(k) in e.store.queue {
      VerdictState(c, e, k);
    }
    if DiskComplete(c, e) && c.disk.honest {
      AllOnDiskIsSource(c, e);
    }
  }

  lemma PendingIsQueue(c: Setup, e: Engine)
    requires Inv(c, e) && !e.store.phase.Failed?
    ensures forall cmd: Command | cmd.Mark? :: cmd in e.store.Pending() <==> cmd in e.store.queue
  {
  }

  /** The bytes of the final file when the hasher has come to a verdict. */
  lemma VerdictOnFile(c: Setup, run: History, h: StreamingHasher, at: nat -> nat, worlds: Worlds, t: nat)
    requires IsRun(c, run) && Watched(c, run, h, at, worlds, t) && h.verified.Verified?
    ensures var file := Last(c, run).store.file;
            && |file| >= h.totalSize && h.fed == file[..h.totalSize] && h.verified == Verified(Matches(h.spec.value, file[..h.totalSize]))
            && (c.disk.honest ==> file[..h.totalSize] == c.disk.source)
  {
    LastIsAfter(c, run);
    VerdictIsOnFinishedFile(c, First(c, run), run.steps, at, worlds, h, t);
  }

  /**
   * start() over a run. With a checksum, COMPLETED means that the file's bytes match it, whatever was
   * stopped or abandoned. Without one, it means that every chunk is on disk exactly when no mark was
   * left in the queue.
   */
  method Download(d: Downloader, h: StreamingHasher, env: Env, ghost c: Setup, ghost run: History,
                  ghost at: nat -> nat, ghost worlds: Worlds, ghost t: nat)
    returns (exit: Exit)
    requires d.Valid() && env.Sane() && IsRun(c, run) && Meets(env, Last(c, run))
    requires h.spec.Some? ==> Watched(c, run, h, at, worlds, t)
    modifies d
    ensures exit.Returned? && exit.status.Completed? && h.spec.Some? ==>
              var file := Last(c, run).store.file;
              && |file| >= c.disk.totalSize
              && (h.spec.value.expected.Some? ==>
                  SameUpToCase(h.spec.value.digest(file[..c.disk.totalSize]), h.spec.value.expected.value))
              && (c.disk.honest ==> file[..c.disk.totalSize] == c.disk.source)
    ensures exit.Returned? && exit.status.Completed? && h.spec.None? ==>
              var e := Last(c, run);
              && (DiskComplete(c, e) <==> forall cmd | cmd in e.store.queue :: !cmd.Mark?)
              && (DiskComplete(c, e) && c.disk.honest ==>
                  |e.store.file| >= c.disk.totalSize && e.store.file[..c.disk.totalSize] == c.disk.source)
  {
    hide IsRun, Inv, Undisturbed;
    var finalized := h.Finalize(worlds, t);
    exit := d.Start(env.(finalized := finalized));
    if exit.Returned? && exit.status.Completed? {
      QueuedMarksAreMissing(c, Last(c, run));
      if h.spec.Some? {
        assert |worlds(t).file| >= h.totalSize;
        VerdictOnFile(c, run, h, at, worlds, t);
        MatchesMeans(h.spec.value, h.fed);
      }
    }
  }

  /** The run: its verdict is completion, the writer has no error, and the only chunk is missing. */
  lemma LateStop() returns (run: History)
    ensures IsRun(OneByte(), run)
    ensures var e := Last(OneByte(), run);
            && e.pool.verdict == P.Decided(true) && !e.store.phase.Failed? && ThreadEnded(OneByte(), e)
            && !DiskComplete(OneByte(), e) && e.store.file == [0]
  {
    hide IsRun, Inv, Last;
    run := StopBehindSuccess();
    OneByteChunk();
    assert 0 < OneByte().pool.chunks && 0 !in Last(OneByte(), run).store.disk;
  }

  /** The downloader: stop() has made it PAUSED, and the table has a way from there to COMPLETED. */
  method StoppedBehindVerdict() returns (exit: Exit)
    ensures exit == Returned(Completed, true)
  {
    var d := new Downloader();
    var ok := d.TransitionTo(Probing);
    ok := d.TransitionTo(Downloading);
    var raised := d.Call(Stop);
    var h := new StreamingHasher(1, 1, 1, None);
    var finalized := h.Finalize(_ => World([], {}, false), 0);
    exit := d.Finish(Env(false, false, false, false, true, true, PoolEnd.Complete, false, finalized, _ => []));
  }

  /**
   * A download without a checksum that is stopped just behind run()'s verdict reports COMPLETED,
   * although its only chunk is not on disk and the writer had no error.
   */
  method StoppedTooLate() returns (exit: Exit, ghost run: History)
    ensures exit == Returned(Completed, true)
    ensures IsRun(OneByte(), run)
    ensures var e := Last(OneByte(), run);
            && e.pool.verdict == P.Decided(true) && !e.store.phase.Failed? && ThreadEnded(OneByte(), e)
            && !DiskComplete(OneByte(), e) && e.store.file == [0]
  {
    hide IsRun, Inv, Last, OneByte;
    run := LateStop();
    exit := StoppedBehindVerdict();
  }
}
