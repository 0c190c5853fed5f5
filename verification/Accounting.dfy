/** The progress counter while fetches run side by side: what their calls of update add up to. */
module Accounting {
  import opened Tiling
  import opened Disk
  import opened Session
  import opened Fetcher
  import opened Progress

  // ---- sums of reports ----

  function Net(reports: seq<Report>): int {
    if reports == [] then 0 else Net(reports[..|reports| - 1]) + reports[|reports| - 1].n
  }

  function Chunks(reports: seq<Report>): set<nat> {
    set r | r in reports && r.chunk.Some? :: r.chunk.value
  }

  lemma {:induction false} NetConcat(a: seq<Report>, b: seq<Report>)
    ensures Net(a + b) == Net(a) + Net(b)
    decreases |b|
  {
    if b == [] {
      assert a + b == a;
    } else {
      var n := |b| - 1;
      assert (a + b)[..|a + b| - 1] == a + b[..n];
      NetConcat(a, b[..n]);
    }
  }

  lemma NetOne(r: Report)
    ensures Net([r]) == r.n
  {
    assert [r][..0] == [];
  }

  lemma RollbackNet(n: nat)
    ensures Net(Rollback(n)) + n == 0 && Chunks(Rollback(n)) == {}
  {
    if n > 0 {
      NetOne(Report(-(n as int), None));
    }
  }

  lemma ChunkReported(k: nat)
    ensures Net([Report(0, Some(k))]) == 0 && Chunks([Report(0, Some(k))]) == {k}
    ensures Net([]) == 0 && Chunks([]) == {}
  {
    NetOne(Report(0, Some(k)));
    assert Report(0, Some(k)) in [Report(0, Some(k))];
  }

  lemma ChunksConcat(a: seq<Report>, b: seq<Report>)
    ensures Chunks(a + b) == Chunks(a) + Chunks(b)
  {
  }

  // ---- one fetch ----

  /** One call of fetch(chunk): how many blocks it has taken, and how its loop ended if it has. */
  datatype Job = Job(chunk: nat, response: Response, pace: nat -> Pace, blocks: nat, end: Option<StreamEnd>)

  /** A download of known size whose fetchers share a configuration. */
  datatype Plan = Plan(config: Config, totalSize: nat) {
    ghost predicate Valid() { config.chunkSize > 0 && config.speedGracePeriod >= 0.0 && totalSize > 0 }
    function ChunkLength(chunk: nat): int { Length(chunk, totalSize, config.chunkSize) }
  }

  function Due(p: Plan, job: Job): Option<nat>
    requires p.Valid() && job.chunk < TotalChunks(p.totalSize, p.config.chunkSize)
  {
    Expected(job.chunk, p.totalSize, p.config.chunkSize, if job.response.Refused? then 0 else job.response.contentLength)
  }

  /** The job is one that Fetch does, or has done so far. */
  ghost predicate Happens(p: Plan, job: Job)
    requires p.Valid()
  {
    && job.chunk < TotalChunks(p.totalSize, p.config.chunkSize)
    && if job.response.Refused? then job.blocks == 0
       else
         && job.blocks <= |job.response.blocks|
         && (job.end.Some? ==> Ends(p.config, job.response, Due(p, job), job.pace, job.blocks, job.end.value))
  }

  /** The bytes that the job has counted block by block. */
  ghost function CountedBy(p: Plan, job: Job): nat
    requires p.Valid() && Happens(p, job)
  {
    if job.response.Refused? then 0 else |Counted(job.response, Due(p, job), job.blocks)|
  }

  ghost function Result(p: Plan, job: Job): Outcome
    requires p.Valid() && Happens(p, job) && job.end.Some?
  {
    if job.response.Refused? then FailedTransport
    else OutcomeOf(job.response, Due(p, job), job.blocks, job.end.value)
  }

  /** Its calls of progress.update so far, as Fetch makes them. */
  ghost function ReportsOf(p: Plan, job: Job): seq<Report>
    requires p.Valid() && Happens(p, job)
  {
    (if job.response.Refused? then [] else BlockReports(job.response, Due(p, job), job.blocks))
    + if job.end.None? then []
      else LastReports(Result(p, job), job.chunk, CountedBy(p, job),
                       if job.end.value.Slow? then p.config.Flushed(job.end.value.flush) else CountedBy(p, job))
  }

  ghost predicate Succeeds(p: Plan, job: Job)
    requires p.Valid() && Happens(p, job)
  {
    job.end.Some? && Result(p, job).Fetched?
  }

  /** The bytes of a job that is not over, or that a cancellation cut off. */
  ghost function Flight(p: Plan, job: Job): nat
    requires p.Valid() && Happens(p, job)
  {
    if job.end.None? then CountedBy(p, job) else 0
  }

  /**
   * What a job that is over without success leaves counted: behind a slow flush the rest of the block
   * in which it was, and everything after a short read.
   */
  ghost function Leak(p: Plan, job: Job): int
    requires p.Valid() && Happens(p, job)
  {
    if job.end.None? then 0
    else match Result(p, job)
      case FailedSlow => CountedBy(p, job) - if job.end.value.Slow? then p.config.Flushed(job.end.value.flush) else 0
      case FailedShort => CountedBy(p, job)
      case _ => 0
  }

  lemma NothingCounted(response: Response, expected: Option<nat>)
    requires response.Response?
    ensures Counted(response, expected, 0) == []
  {
    assert response.blocks[..0] == [];
  }

  lemma EmptyBlock(response: Response, expected: Option<nat>, i: nat)
    requires response.Response? && i < |response.blocks|
    ensures response.blocks[i].data == [] ==> Counted(response, expected, i + 1) == Counted(response, expected, i)
  {
    FlattenSnoc(response.blocks, i);
  }

  lemma {:induction false} BlockReportsNet(response: Response, expected: Option<nat>, i: nat)
    requires response.Response? && i <= |response.blocks|
    ensures Net(BlockReports(response, expected, i)) == |Counted(response, expected, i)|
    ensures Chunks(BlockReports(response, expected, i)) == {}
  {
    hide Counted;
    if i == 0 {
      NothingCounted(response, expected);
    } else {
      BlockReportsNet(response, expected, i - 1);
      EmptyBlock(response, expected, i - 1);
      var n := |Counted(response, expected, i)| - |Counted(response, expected, i - 1)|;
      if response.blocks[i - 1].data == [] {
        NetConcat(BlockReports(response, expected, i - 1), []);
        ChunksConcat(BlockReports(response, expected, i - 1), []);
        assert BlockReports(response, expected, i) == BlockReports(response, expected, i - 1) + [];
      } else {
        NetConcat(BlockReports(response, expected, i - 1), [Report(n, None)]);
        NetOne(Report(n, None));
        ChunksConcat(BlockReports(response, expected, i - 1), [Report(n, None)]);
      }
    }
  }

  /**
   * What one fetch does to the counter: its chunk's size on success, nothing when it is stopped or
   * the transport fails, and its leak otherwise. It reports its chunk exactly on success.
   */
  lemma JobNet(p: Plan, job: Job)
    requires p.Valid() && Happens(p, job)
    ensures Net(ReportsOf(p, job)) == (if Succeeds(p, job) then p.ChunkLength(job.chunk) else 0) + Flight(p, job) + Leak(p, job)
    ensures Chunks(ReportsOf(p, job)) == if Succeeds(p, job) then {job.chunk} else {}
  {
    hide Ends, BlockReports, Counted, Clamp, Start, Net, Chunks, Rollback;
    LengthsAgree(job.chunk, p.totalSize, p.config.chunkSize);
    var blocks: seq<Report> := if job.response.Refused? then [] else BlockReports(job.response, Due(p, job), job.blocks);
    if job.response.Response? {
      BlockReportsNet(job.response, Due(p, job), job.blocks);
      CountedPrefix(job.response, Due(p, job), job.blocks);
    }
    if job.end.Some? {
      var n := CountedBy(p, job);
      var sent := if job.end.value.Slow? then p.config.Flushed(job.end.value.flush) else n;
      var last := LastReports(Result(p, job), job.chunk, n, sent);
      NetConcat(blocks, last);
      RollbackNet(n);
      RollbackNet(sent);
      ChunksConcat(blocks, last);
      ChunkReported(job.chunk);
    } else {
      ChunkReported(0);
      assert blocks + [] == blocks;
    }
  }

  /**
   * A leak is what the last block holds behind the slow flush: none exactly when the flush was at
   * the block's end; and a short read leaks everything, so none exactly when nothing came.
   */
  lemma LeakBounds(p: Plan, job: Job)
    requires p.Valid() && Happens(p, job) && job.end.Some?
    ensures Result(p, job).FailedSlow? && job.response.Response? ==>
              && job.end.value.Slow? && job.blocks > 0
              && 0 <= Leak(p, job) < |job.response.blocks[job.blocks - 1].data|
              && (Leak(p, job) == 0 <==> CountedBy(p, job) == p.config.Flushed(job.end.value.flush))
    ensures Result(p, job).FailedShort? ==> 0 <= Leak(p, job) < p.ChunkLength(job.chunk)
    ensures !Result(p, job).FailedSlow? && !Result(p, job).FailedShort? ==> Leak(p, job) == 0
  {
    hide Start;
    LengthsAgree(job.chunk, p.totalSize, p.config.chunkSize);
    if job.response.Response? && job.end.value.Slow? {
      FlattenSnoc(job.response.blocks, job.blocks - 1);
    }
  }

  /** Up to a chunk size of 16 MiB a slow mirror leaks nothing: a chunk is never more than one buffer. */
  lemma SmallChunksDoNotLeak(p: Plan, job: Job)
    requires p.Valid() && Happens(p, job) && job.end.Some? && Result(p, job).FailedSlow?
    requires p.config.chunkSize <= FLUSH_THRESHOLD
    ensures Leak(p, job) == 0
  {
    hide Start;
    LengthsAgree(job.chunk, p.totalSize, p.config.chunkSize);
    if job.response.Response? {
      CountedPrefix(job.response, Due(p, job), job.blocks);
      MulMonotone(1, job.end.value.flush + 1, p.config.Threshold());
    }
  }

  /** A slow mirror that leaks: a chunk one byte larger than the buffer, in one block. */
  method SlowFetchLeaks() returns (outcome: Outcome, net: int)
    ensures outcome.FailedSlow? && net == 1
  {
    var size := FLUSH_THRESHOLD + 1;
    var config := Config(size, 1000.0, 0.0, Some(2), true);
    var response := Response(size, [Block(seq(size, _ => 0), false)], false);
    var pace: nat -> Pace := _ => Pace(1000000.0, 2);
    var fetcher := new ChunkFetcher(config, size, true);
    var log, reports;
    ghost var sent, i, end;
    SlowInput(config, response, pace);
    outcome, log, reports, sent, i, end := fetcher.Fetch(0, response, pace);
    EndsOnce(config, response, Some(size), pace, i, end, 1, Slow(0));
    net := Net(reports);
    ghost var job := Job(0, response, pace, 1, Some(Slow(0)));
    JobNet(Plan(config, size), job);
  }

  lemma SlowInput(config: Config, response: Response, pace: nat -> Pace)
    requires config == Config(FLUSH_THRESHOLD + 1, 1000.0, 0.0, Some(2), true) && pace(0) == Pace(1000000.0, 2)
    requires response == Response(FLUSH_THRESHOLD + 1, [Block(seq(FLUSH_THRESHOLD + 1, _ => 0), false)], false)
    ensures TotalChunks(FLUSH_THRESHOLD + 1, config.chunkSize) == 1
    ensures Expected(0, FLUSH_THRESHOLD + 1, config.chunkSize, response.contentLength) == Some(FLUSH_THRESHOLD + 1)
    ensures Ends(config, response, Some(FLUSH_THRESHOLD + 1), pace, 1, Slow(0))
    ensures |Counted(response, Some(FLUSH_THRESHOLD + 1), 1)| == FLUSH_THRESHOLD + 1 && config.Flushed(0) == FLUSH_THRESHOLD
  {
    assert response.blocks[..0] == [] && response.blocks[..1] == response.blocks;
    assert Flatten(response.blocks) == response.blocks[0].data by {
      FlattenSnoc(response.blocks, 0);
    }
  }

  /** Every short read in one block leaks all of it, for a file of one chunk. */
  method ShortReadLeaks(size: nat, data: seq<byte>) returns (outcome: Outcome, net: int)
    requires 0 < |data| < size
    ensures outcome.FailedShort? && net == |data|
  {
    var config := Config(size, 0.0, 0.0, None, false);
    var response := Response(|data|, [Block(data, false)], false);
    var pace: nat -> Pace := _ => Pace(0.0, 1);
    var fetcher := new ChunkFetcher(config, size, true);
    var log, reports;
    ghost var sent, i, end;
    ShortInput(config, response, data, pace);
    outcome, log, reports, sent, i, end := fetcher.Fetch(0, response, pace);
    EndsOnce(config, response, Some(size), pace, i, end, 1, StreamEnd.Done);
    BlockReportsNet(response, Some(size), 1);
    assert reports == BlockReports(response, Some(size), 1) + [];
    NetConcat(BlockReports(response, Some(size), 1), []);
    net := Net(reports);
  }

  lemma ShortInput(config: Config, response: Response, data: seq<byte>, pace: nat -> Pace)
    requires config.speedGracePeriod == 0.0 && forall k: nat :: pace(k).networkElapsed == 0.0
    requires 0 < |data| < config.chunkSize && response == Response(|data|, [Block(data, false)], false)
    ensures TotalChunks(config.chunkSize, config.chunkSize) == 1
    ensures Expected(0, config.chunkSize, config.chunkSize, |data|) == Some(config.chunkSize)
    ensures Ends(config, response, Some(config.chunkSize), pace, 1, StreamEnd.Done)
    ensures |Counted(response, Some(config.chunkSize), 1)| == |data|
  {
    var size := config.chunkSize;
    assert response.blocks[..0] == [] && response.blocks[..1] == response.blocks;
    assert Flatten(response.blocks) == data by {
      FlattenSnoc(response.blocks, 0);
    }
    assert TotalChunks(size, size) == 1 by {
      if TotalChunks(size, size) >= 2 {
        MulMonotone(1, TotalChunks(size, size) - 1, size);
      }
    }
    assert Counted(response, Some(size), 0) == [] && Counted(response, Some(size), 1) == data;
    hide Counted, Flatten, Clamp, TotalChunks;
    forall k: nat ensures !config.SlowFlush(k, pace) {
    }
  }

  // ---- fetches side by side ----

  /** A call of update by worker w. */
  datatype Call = Call(w: nat, report: Report)

  function Of(calls: seq<Call>, w: nat): seq<Report> {
    if calls == [] then []
    else Of(calls[..|calls| - 1], w) + if calls[|calls| - 1].w == w then [calls[|calls| - 1].report] else []
  }

  function NetCalls(calls: seq<Call>): int {
    if calls == [] then 0 else NetCalls(calls[..|calls| - 1]) + calls[|calls| - 1].report.n
  }

  function ChunksOf(calls: seq<Call>): set<nat> {
    set c | c in calls && c.report.chunk.Some? :: c.report.chunk.value
  }

  /** Everything that the first m workers report. */
  function NetOf(calls: seq<Call>, m: nat): int {
    if m == 0 then 0 else NetOf(calls, m - 1) + Net(Of(calls, m - 1))
  }

  lemma {:induction false} NetOfSnoc(calls: seq<Call>, c: Call, m: nat)
    ensures NetOf(calls + [c], m) == NetOf(calls, m) + if c.w < m then c.report.n else 0
  {
    if m > 0 {
      NetOfSnoc(calls, c, m - 1);
      assert (calls + [c])[..|calls|] == calls;
      if c.w == m - 1 {
        NetConcat(Of(calls, m - 1), [c.report]);
        NetOne(c.report);
      } else {
        assert Of(calls, m - 1) + [] == Of(calls, m - 1);
      }
    }
  }

  lemma {:induction false} NobodyReports(m: nat)
    ensures NetOf([], m) == 0
  {
    if m > 0 {
      NobodyReports(m - 1);
    }
  }

  /** In whatever order the workers' calls fall, the counter moves by the sum of what each reports. */
  lemma {:induction false} OrderDoesNotMatter(calls: seq<Call>, m: nat)
    requires forall c | c in calls :: c.w < m
    ensures NetCalls(calls) == NetOf(calls, m)
    decreases |calls|
  {
    if calls == [] {
      NobodyReports(m);
    } else {
      var n := |calls| - 1;
      OrderDoesNotMatter(calls[..n], m);
      NetOfSnoc(calls[..n], calls[n], m);
      assert calls[..n] + [calls[n]] == calls;
    }
  }

  lemma {:induction false} OfMember(calls: seq<Call>, c: Call)
    ensures c in calls <==> c.report in Of(calls, c.w)
    decreases |calls|
  {
    if calls != [] {
      var n := |calls| - 1;
      OfMember(calls[..n], c);
      assert calls == calls[..n] + [calls[n]];
    }
  }

  /** What one worker's fetches report, one after the other. */
  ghost function AllReports(p: Plan, jobs: seq<Job>): seq<Report>
    requires p.Valid() && forall j | j in jobs :: Happens(p, j)
  {
    if jobs == [] then [] else AllReports(p, jobs[..|jobs| - 1]) + ReportsOf(p, jobs[|jobs| - 1])
  }

  function Flat(jobs: seq<seq<Job>>): seq<Job> {
    if jobs == [] then [] else Flat(jobs[..|jobs| - 1]) + jobs[|jobs| - 1]
  }

  lemma {:induction false} FlatMember(jobs: seq<seq<Job>>, w: nat)
    requires w < |jobs|
    ensures forall j | j in jobs[w] :: j in Flat(jobs)
    decreases |jobs|
  {
    if w < |jobs| - 1 {
      FlatMember(jobs[..|jobs| - 1], w);
    }
  }

  ghost predicate AllHappen(p: Plan, jobs: seq<Job>)
    requires p.Valid()
  {
    forall j | j in jobs :: Happens(p, j)
  }

  /** The sizes of the chunks that the jobs fetched, their bytes in flight, and their leaks, summed. */
  ghost function FetchedBytes(p: Plan, jobs: seq<Job>): int
    requires p.Valid() && AllHappen(p, jobs)
  {
    if jobs == [] then 0
    else FetchedBytes(p, jobs[..|jobs| - 1])
         + if Succeeds(p, jobs[|jobs| - 1]) then p.ChunkLength(jobs[|jobs| - 1].chunk) else 0
  }

  ghost function FlightBytes(p: Plan, jobs: seq<Job>): nat
    requires p.Valid() && AllHappen(p, jobs)
  {
    if jobs == [] then 0 else FlightBytes(p, jobs[..|jobs| - 1]) + Flight(p, jobs[|jobs| - 1])
  }

  ghost function LeakedBytes(p: Plan, jobs: seq<Job>): int
    requires p.Valid() && AllHappen(p, jobs)
  {
    if jobs == [] then 0 else LeakedBytes(p, jobs[..|jobs| - 1]) + Leak(p, jobs[|jobs| - 1])
  }

  ghost function DoneChunks(p: Plan, jobs: seq<Job>): set<nat>
    requires p.Valid() && AllHappen(p, jobs)
  {
    set j | j in jobs && Succeeds(p, j) :: j.chunk
  }

  /** No chunk is fetched with success twice, or again after an earlier session: the pool's conservation. */
  ghost predicate EachOnce(p: Plan, jobs: seq<Job>, resumed: set<nat>)
    requires p.Valid() && AllHappen(p, jobs)
  {
    && (forall i, k | 0 <= i < k < |jobs| && Succeeds(p, jobs[i]) && Succeeds(p, jobs[k]) :: jobs[i].chunk != jobs[k].chunk)
    && (forall j | j in jobs && Succeeds(p, j) :: j.chunk !in resumed)
  }

  lemma {:induction false} WorkerNet(p: Plan, jobs: seq<Job>)
    requires p.Valid() && AllHappen(p, jobs)
    ensures Net(AllReports(p, jobs)) == FetchedBytes(p, jobs) + FlightBytes(p, jobs) + LeakedBytes(p, jobs)
    ensures Chunks(AllReports(p, jobs)) == DoneChunks(p, jobs)
    decreases |jobs|
  {
    hide Happens, ReportsOf, Succeeds, Flight, Leak;
    if jobs != [] {
      var n := |jobs| - 1;
      assert jobs == jobs[..n] + [jobs[n]];
      WorkerNet(p, jobs[..n]);
      JobNet(p, jobs[n]);
      NetConcat(AllReports(p, jobs[..n]), ReportsOf(p, jobs[n]));
      assert Chunks(AllReports(p, jobs)) == Chunks(AllReports(p, jobs[..n])) + Chunks(ReportsOf(p, jobs[n]));
    }
  }

  lemma {:induction false} SumsConcat(p: Plan, a: seq<Job>, b: seq<Job>)
    requires p.Valid() && AllHappen(p, a) && AllHappen(p, b)
    ensures FetchedBytes(p, a + b) == FetchedBytes(p, a) + FetchedBytes(p, b)
    ensures FlightBytes(p, a + b) == FlightBytes(p, a) + FlightBytes(p, b)
    ensures LeakedBytes(p, a + b) == LeakedBytes(p, a) + LeakedBytes(p, b)
    decreases |b|
  {
    hide Happens, Succeeds, Flight, Leak;
    if b == [] {
      assert a + b == a;
    } else {
      var n := |b| - 1;
      assert (a + b)[..|a + b| - 1] == a + b[..n];
      SumsConcat(p, a, b[..n]);
    }
  }

  /** The calls are those of the workers' fetches, in any interleaving. */
  ghost predicate Interleaved(p: Plan, calls: seq<Call>, jobs: seq<seq<Job>>)
    requires p.Valid()
  {
    && AllHappen(p, Flat(jobs)) && (forall w | 0 <= w < |jobs| :: AllHappen(p, jobs[w]))
    && (forall c | c in calls :: c.w < |jobs|)
    && (forall w: nat | w < |jobs| :: Of(calls, w) == AllReports(p, jobs[w]))
  }

  lemma {:induction false} NetOfJobs(p: Plan, calls: seq<Call>, jobs: seq<seq<Job>>, m: nat)
    requires p.Valid() && Interleaved(p, calls, jobs) && m <= |jobs|
    ensures AllHappen(p, Flat(jobs[..m]))
    ensures NetOf(calls, m) == FetchedBytes(p, Flat(jobs[..m])) + FlightBytes(p, Flat(jobs[..m])) + LeakedBytes(p, Flat(jobs[..m]))
    decreases m
  {
    hide Happens, Succeeds, Flight, Leak, AllReports;
    if m > 0 {
      NetOfJobs(p, calls, jobs, m - 1);
      assert jobs[..m][..m - 1] == jobs[..m - 1];
      WorkerNet(p, jobs[m - 1]);
      SumsConcat(p, Flat(jobs[..m - 1]), jobs[m - 1]);
    }
  }

  /** The chunks reported as complete are those that were fetched with success. */
  lemma ReportedIsDone(p: Plan, calls: seq<Call>, jobs: seq<seq<Job>>)
    requires p.Valid() && Interleaved(p, calls, jobs)
    ensures ChunksOf(calls) == DoneChunks(p, Flat(jobs))
  {
    hide Happens, Succeeds;
    forall k: nat ensures k in ChunksOf(calls) <==> k in DoneChunks(p, Flat(jobs)) {
      if k in ChunksOf(calls) {
        var c :| c in calls && c.report.chunk == Some(k);
        OfMember(calls, c);
        WorkerNet(p, jobs[c.w]);
        assert k in Chunks(AllReports(p, jobs[c.w]));
        FlatMember(jobs, c.w);
      }
      if k in DoneChunks(p, Flat(jobs)) {
        var j :| j in Flat(jobs) && Succeeds(p, j) && j.chunk == k;
        var w := OwnerOf(jobs, j);
        WorkerNet(p, jobs[w]);
        assert k in Chunks(AllReports(p, jobs[w]));
        var r :| r in Of(calls, w) && r.chunk == Some(k);
        OfMember(calls, Call(w, r));
      }
    }
  }

  lemma {:induction false} OwnerOf(jobs: seq<seq<Job>>, j: Job) returns (w: nat)
    requires j in Flat(jobs)
    ensures w < |jobs| && j in jobs[w]
    decreases |jobs|
  {
    var n := |jobs| - 1;
    if j in jobs[n] {
      w := n;
    } else {
      w := OwnerOf(jobs[..n], j);
    }
  }

  /** Each fetched chunk adds its size to those completed before. */
  lemma {:induction false} FetchedIsCompleted(p: Plan, jobs: seq<Job>, resumed: set<nat>, n: nat)
    requires p.Valid() && AllHappen(p, jobs) && EachOnce(p, jobs, resumed) && n == TotalChunks(p.totalSize, p.config.chunkSize)
    ensures CompletedSize(resumed + DoneChunks(p, jobs), n, p.totalSize, p.config.chunkSize)
         == CompletedSize(resumed, n, p.totalSize, p.config.chunkSize) + FetchedBytes(p, jobs)
    decreases |jobs|
  {
    hide Succeeds, CompletedSize, Length;
    if jobs == [] {
      assert resumed + DoneChunks(p, jobs) == resumed;
    } else {
      var m := |jobs| - 1;
      assert jobs == jobs[..m] + [jobs[m]];
      FetchedIsCompleted(p, jobs[..m], resumed, n);
      var before := resumed + DoneChunks(p, jobs[..m]);
      if Succeeds(p, jobs[m]) {
        assert resumed + DoneChunks(p, jobs) == before + {jobs[m].chunk};
        assert Happens(p, jobs[m]);
        CompletedSizeInsert(before, n, jobs[m].chunk, p.totalSize, p.config.chunkSize);
      } else {
        assert resumed + DoneChunks(p, jobs) == before;
      }
    }
  }

  /**
   * The counter balances. In any interleaving of fetches, starting from the sizes of the resumed
   * chunks, the counter is the sizes of the chunks completed by now, the bytes of the fetches in
   * flight, and the leaks of those that are over.
   */
  lemma CounterBalances(p: Plan, calls: seq<Call>, jobs: seq<seq<Job>>, resumed: set<nat>)
    requires p.Valid() && Interleaved(p, calls, jobs) && EachOnce(p, Flat(jobs), resumed)
    ensures var n, size := TotalChunks(p.totalSize, p.config.chunkSize), p.config.chunkSize;
            && CompletedSize(resumed, n, p.totalSize, size) + NetCalls(calls)
               == CompletedSize(resumed + ChunksOf(calls), n, p.totalSize, size) + FlightBytes(p, Flat(jobs)) + LeakedBytes(p, Flat(jobs))
            && ChunksOf(calls) == DoneChunks(p, Flat(jobs))
  {
    hide Interleaved, EachOnce, CompletedSize;
    OrderDoesNotMatter(calls, |jobs|) by { CallsAreOfWorkers(p, calls, jobs); }
    NetOfJobs(p, calls, jobs, |jobs|);
    assert jobs[..|jobs|] == jobs;
    ReportedIsDone(p, calls, jobs);
    FetchedIsCompleted(p, Flat(jobs), resumed, TotalChunks(p.totalSize, p.config.chunkSize));
  }

  lemma CallsAreOfWorkers(p: Plan, calls: seq<Call>, jobs: seq<seq<Job>>)
    requires p.Valid() && Interleaved(p, calls, jobs)
    ensures forall c | c in calls :: c.w < |jobs|
  {
  }

  /**
   * The counter's own code: start with the resumed chunks, then every call of update in the order in
   * which the lock lets them in.
   */
  method CountFetches(progress: BuiltinProgress, p: Plan, resumed: set<nat>, calls: seq<Call>, ghost jobs: seq<seq<Job>>, now: real)
    requires p.Valid() && Interleaved(p, calls, jobs) && EachOnce(p, Flat(jobs), resumed)
    requires forall k | k in resumed :: k < TotalChunks(p.totalSize, p.config.chunkSize)
    modifies progress
    ensures progress.completedChunks == resumed + DoneChunks(p, Flat(jobs))
    ensures progress.completedBytes
         == CompletedSize(progress.completedChunks, TotalChunks(p.totalSize, p.config.chunkSize), p.totalSize, p.config.chunkSize)
            + FlightBytes(p, Flat(jobs)) + LeakedBytes(p, Flat(jobs))
  {
    hide Interleaved, EachOnce, CompletedSize;
    ghost var n := TotalChunks(p.totalSize, p.config.chunkSize);
    progress.Start(p.totalSize, p.config.chunkSize, resumed, false, now, n);
    for i := 0 to |calls|
      invariant progress.completedBytes
             == CompletedSize(resumed, n, p.totalSize, p.config.chunkSize) + NetCalls(calls[..i])
      invariant progress.completedChunks == resumed + ChunksOf(calls[..i])
    {
      assert calls[..i + 1] == calls[..i] + [calls[i]];
      assert calls[..i + 1][..i] == calls[..i];
      progress.UpdateBytes(calls[i].report.n, calls[i].report.chunk);
      ChunksOfSnoc(calls[..i], calls[i]);
    }
    assert calls[..|calls|] == calls;
    CounterBalances(p, calls, jobs, resumed);
  }

  lemma ChunksOfSnoc(calls: seq<Call>, c: Call)
    ensures ChunksOf(calls + [c]) == ChunksOf(calls) + if c.report.chunk.Some? then {c.report.chunk.value} else {}
  {
  }
}
