/** One fetch of a chunk: clamping the response, re-blocking it through a reused buffer, accounting for it. */
module Fetcher {
  import opened Tiling
  import opened Disk
  import opened Session
  import S = Store

  const FLUSH_THRESHOLD: nat := 16 * 1024 * 1024

  /** A block as iter_any yields it, and whether the stop event is set by then. */
  datatype Block = Block(data: seq<byte>, stopSeen: bool)

  /** The stream ends, or raises a transport error, after its blocks; or the request itself fails. */
  datatype Response = Refused | Response(contentLength: int, blocks: seq<Block>, broken: bool)

  /** At one flush: seconds since the fetch began without throttling waits, and mirrors not banned. */
  datatype Pace = Pace(networkElapsed: real, active: nat)

  datatype Outcome = Fetched(n: nat) | Stopped | FailedTransport | FailedSlow | FailedShort

  datatype Config = Config(chunkSize: nat, minSpeedKbps: real, speedGracePeriod: real,
                           sources: Option<nat>, tracksHealth: bool)
  {
    function Threshold(): nat { if FLUSH_THRESHOLD < chunkSize then FLUSH_THRESHOLD else chunkSize }

    predicate ShouldRaiseSlowMirror(speedKbps: real, active: nat) {
      if speedKbps >= minSpeedKbps then false
      else if sources.None? || sources.value <= 1 then false
      else !(tracksHealth && active <= 1)
    }

    /** The check behind a flush that brings the bytes written to n. */
    predicate TooSlow(n: nat, pace: Pace)
      requires speedGracePeriod >= 0.0
    {
      && pace.networkElapsed > speedGracePeriod
      && ShouldRaiseSlowMirror(n as real / 1024.0 / pace.networkElapsed, pace.active)
    }

    /** The bytes written behind flush k, counted from zero: every flush is a full buffer. */
    function Flushed(k: nat): nat { (k + 1) * Threshold() }

    /** The check behind flush k finds the mirror too slow. */
    predicate SlowFlush(k: nat, pace: nat -> Pace)
      requires speedGracePeriod >= 0.0
    {
      TooSlow(Flushed(k), pace(k))
    }
  }

  /**
   * What too slow means: behind n bytes, past the grace period, the download is slower than the
   * minimum, and another mirror could take over.
   */
  ghost predicate LagsBehind(config: Config, n: nat, pace: Pace) {
    && config.sources.Some? && config.sources.value >= 2
    && (config.tracksHealth ==> pace.active >= 2)
    && pace.networkElapsed > config.speedGracePeriod
    && n as real < config.minSpeedKbps * 1024.0 * pace.networkElapsed
  }

  lemma SlowMeans(config: Config, n: nat, pace: Pace)
    requires config.speedGracePeriod >= 0.0
    ensures config.TooSlow(n, pace) <==> LagsBehind(config, n, pace)
  {
    if pace.networkElapsed > config.speedGracePeriod {
      SpeedBelow(n as real, pace.networkElapsed, config.minSpeedKbps);
    }
  }

  lemma SpeedBelow(n: real, time: real, minimum: real)
    requires time > 0.0
    ensures n / 1024.0 / time < minimum <==> n < minimum * 1024.0 * time
  {
    var speed := n / 1024.0 / time;
    assert speed * time == n / 1024.0;
    assert speed * time * 1024.0 == n;
    if speed < minimum {
      ProductLess(speed, minimum, time);
    } else {
      if minimum < speed {
        ProductLess(minimum, speed, time);
      }
    }
    assert minimum * 1024.0 * time == minimum * time * 1024.0;
  }

  lemma ProductLess(a: real, b: real, w: real)
    requires a < b && w > 0.0
    ensures a * w < b * w
  {
  }

  /** One call of progress.update. */
  datatype Report = Report(n: int, chunk: Option<nat>)

  function Flatten(blocks: seq<Block>): seq<byte> {
    if blocks == [] then [] else Flatten(blocks[..|blocks| - 1]) + blocks[|blocks| - 1].data
  }

  /** The first bytes of the stream, as many as are expected; all of it when that is unknown. */
  function Clamp(stream: seq<byte>, expected: Option<nat>): seq<byte> {
    if expected.Some? && expected.value < |stream| then stream[..expected.value] else stream
  }

  /** Consecutive writes of `size` bytes each, the last one shorter. */
  function Chop(start: nat, data: seq<byte>, size: nat): seq<Command>
    requires size > 0
    decreases |data|
  {
    if data == [] then []
    else if |data| <= size then [Write(start, data)]
    else [Write(start, data[..size])] + Chop(start + size, data[size..], size)
  }

  /** What is still expected, given the metadata and, for an unknown size, the response. */
  function Expected(chunk: nat, totalSize: int, chunkSize: nat, contentLength: int): Option<nat>
    requires chunkSize > 0 && chunk < TotalChunks(totalSize, chunkSize)
  {
    if totalSize > 0 then
      LengthsAgree(chunk, totalSize, chunkSize);
      Some(FetchLength(chunk, totalSize, chunkSize))
    else if contentLength > 0 then Some(contentLength)
    else None
  }

  // ---- re-blocking is invisible ----

  lemma {:induction false} ChopSnoc(start: nat, data: seq<byte>, k: nat, size: nat, more: seq<byte>)
    requires size > 0 && |data| == k * size && 0 < |more| <= size
    ensures Chop(start, data + more, size) == Chop(start, data, size) + [Write(start + |data|, more)]
    decreases k
  {
    if k == 0 {
      assert data + more == more;
    } else {
      assert |data| == (k - 1) * size + size;
      MulMonotone(0, k - 1, size);
      var all := data + more;
      assert all[..size] == data[..size] && all[size..] == data[size..] + more;
      ChopSnoc(start + size, data[size..], k - 1, size, more);
      if |data| == size {
        assert data[size..] == [] && data[..size] == data;
      }
    }
  }

  /** Carrying out the chopped writes is one write of everything. */
  lemma {:induction false} ChopIsOneWrite(file: seq<byte>, start: nat, data: seq<byte>, size: nat)
    requires size > 0
    ensures ExecAll(file, Chop(start, data, size)) == Patch(file, start, data)
    decreases |data|
  {
    hide Patch;
    if data == [] {
    } else if |data| <= size {
      assert Exec(file, Write(start, data)) == Patch(file, start, data);
      assert [Write(start, data)][1..] == [];
      assert ExecAll(Exec(file, Write(start, data)), []) == Patch(file, start, data);
    } else {
      var head, tail := data[..size], data[size..];
      ChopIsOneWrite(Patch(file, start, head), start + size, tail, size);
      assert Chop(start, data, size)[1..] == Chop(start + size, tail, size);
      assert head + tail == data;
      PatchSplits(file, start, head, tail);
    }
  }

  lemma HoldsHead(data: seq<byte>, n: nat)
    requires n <= |data|
    ensures Holds(data, 0, data[..n])
  {
  }

  lemma HoldsBehind(data: seq<byte>, n: nat, at: nat, piece: seq<byte>)
    requires n <= |data| && Holds(data[n..], at, piece)
    ensures Holds(data, n + at, piece)
  {
    forall i | 0 <= i < |piece| ensures data[n + at + i] == piece[i] {
      assert data[n..][at + i] == piece[i];
    }
  }

  /** The writes are contiguous from start, none is empty or larger than the buffer. */
  lemma {:induction false} ChopContiguous(start: nat, data: seq<byte>, size: nat, i: nat)
    requires size > 0 && i < |Chop(start, data, size)|
    ensures var w := Chop(start, data, size)[i];
            && w.Write? && 0 < |w.data| <= size && w.offset == start + i * size
            && w.offset + |w.data| <= start + |data| && Holds(data, w.offset - start, w.data)
    decreases |data|
  {
    hide Holds;
    if i == 0 {
      HoldsHead(data, if |data| <= size then |data| else size);
      assert data[..|data|] == data;
    } else {
      ChopContiguous(start + size, data[size..], size, i - 1);
      assert i * size == (i - 1) * size + size;
      var w := Chop(start, data, size)[i];
      assert w == Chop(start + size, data[size..], size)[i - 1];
      HoldsBehind(data, size, w.offset - start - size, w.data);
    }
  }

  /** A sequence of calls into the writer that an attempt of the store's state machine makes. */
  ghost predicate Calls(p: S.Setup, a: S.Attempt, cmds: seq<Command>)
    requires p.Valid()
    decreases |cmds|
  {
    cmds == [] ||
    match cmds[0]
    case Write(offset, data) =>
      && offset == p.Base(a.chunk) + |a.sent| && S.NextBytes(p, a, data)
      && Calls(p, a.(sent := a.sent + data), cmds[1..])
    case Mark(c) => c == a.chunk && |a.sent| == p.Len(a.chunk) && |cmds| == 1
    case _ => false
  }

  lemma HoldsSplits(source: seq<byte>, at: nat, data: seq<byte>, n: nat)
    requires n <= |data| && Holds(source, at, data)
    ensures Holds(source, at, data[..n]) && Holds(source, at + n, data[n..])
  {
    forall i | 0 <= i < |data| - n ensures source[at + n + i] == data[n..][i] {
      assert source[at + (n + i)] == data[n + i];
    }
  }

  lemma CallsCons(p: S.Setup, a: S.Attempt, data: seq<byte>, rest: seq<Command>)
    requires p.Valid() && S.NextBytes(p, a, data) && Calls(p, a.(sent := a.sent + data), rest)
    ensures Calls(p, a, [Write(p.Base(a.chunk) + |a.sent|, data)] + rest)
  {
    var all := [Write(p.Base(a.chunk) + |a.sent|, data)] + rest;
    assert all[1..] == rest;
  }

  lemma CallsEnd(p: S.Setup, a: S.Attempt)
    requires p.Valid()
    ensures Calls(p, a, [])
    ensures |a.sent| == p.Len(a.chunk) ==> Calls(p, a, [Mark(a.chunk)])
  {
  }

  lemma ChopHead(start: nat, data: seq<byte>, size: nat)
    requires size > 0 && data != []
    ensures var n := if |data| <= size then |data| else size;
            Chop(start, data, size) == [Write(start, data[..n])] + Chop(start + n, data[n..], size)
  {
    if |data| <= size {
      assert data[..|data|] == data && data[|data|..] == [];
    }
  }

  /**
   * What fetch hands to the writer for a file of known size is what an attempt may do: the store's
   * results about every interleaving of attempts hold of interleaved fetches.
   */
  lemma {:induction false} FetchIsAttempt(p: S.Setup, a: S.Attempt, data: seq<byte>, marked: bool)
    requires p.Valid() && a.chunk < p.Chunks() && |a.sent| + |data| <= p.Len(a.chunk)
    requires p.honest ==> Holds(p.source, p.Base(a.chunk) + |a.sent|, data)
    requires marked ==> |a.sent| + |data| == p.Len(a.chunk)
    ensures Calls(p, a, Chop(p.Base(a.chunk) + |a.sent|, data, p.flush) + if marked then [Mark(a.chunk)] else [])
    decreases |data|
  {
    hide Start, Length, Holds, Calls;
    var at := p.Base(a.chunk) + |a.sent|;
    var tail := if marked then [Mark(a.chunk)] else [];
    if data == [] {
      assert Chop(at, data, p.flush) + tail == tail;
      CallsEnd(p, a);
    } else {
      var n := if |data| <= p.flush then |data| else p.flush;
      var head, rest := data[..n], data[n..];
      if p.honest {
        HoldsSplits(p.source, at, data, n);
      }
      FetchIsAttempt(p, a.(sent := a.sent + head), rest, marked);
      ChopHead(at, data, p.flush);
      var later := Chop(at + n, rest, p.flush) + tail;
      assert Chop(at, data, p.flush) + tail == [Write(at, head)] + later;
      CallsCons(p, a, head, later);
    }
  }

  /** The response serves the bytes of its range, and maybe more behind them. */
  ghost predicate Serves(p: S.Setup, chunk: nat, response: Response)
    requires p.Valid()
  {
    response.Response? ==>
      forall i | 0 <= i < |Flatten(response.blocks)| && i < p.Len(chunk) && p.Base(chunk) + i < |p.source| ::
        Flatten(response.blocks)[i] == p.source[p.Base(chunk) + i]
  }

  lemma ServedBytes(p: S.Setup, chunk: nat, response: Response, sent: seq<byte>)
    requires p.Valid() && p.honest && chunk < p.Chunks() && response.Response? && Serves(p, chunk, response)
    requires sent <= Flatten(response.blocks) && |sent| <= p.Len(chunk)
    ensures Holds(p.source, p.Base(chunk), sent)
  {
    LengthsAgree(chunk, p.totalSize, p.chunkSize);
    forall i | 0 <= i < |sent| ensures p.source[p.Base(chunk) + i] == sent[i] {
      assert sent[i] == Flatten(response.blocks)[i];
    }
  }

  /** The log of fetch(chunk) is one that an attempt of the store may make. */
  lemma LogIsAttempt(p: S.Setup, config: Config, chunk: nat, response: Response, sent: seq<byte>, marked: bool)
    requires p.Valid() && chunk < p.Chunks() && p.chunkSize == config.chunkSize && p.flush == config.Threshold()
    requires response.Response? && (p.honest ==> Serves(p, chunk, response))
    requires sent <= Clamp(Flatten(response.blocks), Expected(chunk, p.totalSize, p.chunkSize, response.contentLength))
    requires marked ==> |sent| == FetchLength(chunk, p.totalSize, p.chunkSize)
    ensures var log := Chop(Start(chunk, config.chunkSize), sent, config.Threshold()) + if marked then [Mark(chunk)] else [];
            Calls(p, S.Attempt(chunk, [], S.Idle, false, true), log)
  {
    hide Flatten, Calls, Chop, Holds;
    LengthsAgree(chunk, p.totalSize, p.chunkSize);
    if p.honest {
      ServedBytes(p, chunk, response, sent);
    }
    hide Start, Length, FetchLength, TotalChunks;
    FetchIsAttempt(p, S.Attempt(chunk, [], S.Idle, false, true), sent, marked);
  }

  // ---- the fetch ----

  lemma FlattenSnoc(blocks: seq<Block>, i: nat)
    requires i < |blocks|
    ensures Flatten(blocks[..i + 1]) == Flatten(blocks[..i]) + blocks[i].data
  {
    assert blocks[..i + 1][..i] == blocks[..i];
  }

  lemma {:induction false} FlattenPrefix(blocks: seq<Block>, i: nat)
    requires i <= |blocks|
    ensures Flatten(blocks[..i]) <= Flatten(blocks)
    decreases |blocks| - i
  {
    if i == |blocks| {
      assert blocks[..i] == blocks;
    } else {
      FlattenSnoc(blocks, i);
      FlattenPrefix(blocks, i + 1);
    }
  }

  lemma ClampPrefix(a: seq<byte>, b: seq<byte>, expected: Option<nat>)
    requires a <= b
    ensures Clamp(a, expected) <= Clamp(b, expected)
  {
  }

  // ---- where a fetch ends ----

  /** The stream's bytes that count for this fetch, over its first i blocks. */
  ghost function Counted(response: Response, expected: Option<nat>, i: nat): seq<byte>
    requires response.Response? && i <= |response.blocks|
  {
    Clamp(Flatten(response.blocks[..i]), expected)
  }

  predicate Enough(n: nat, expected: Option<nat>) { expected.Some? && n >= expected.value }

  /**
   * The loop gets past the first i blocks: it has not had enough before, the stop event was not seen
   * at any of them, and no buffer that they filled was flushed too slowly.
   */
  ghost predicate Passes(config: Config, response: Response, expected: Option<nat>, pace: nat -> Pace, i: nat)
    requires config.speedGracePeriod >= 0.0 && response.Response?
  {
    && i <= |response.blocks|
    && (forall j: nat | j < i :: !response.blocks[j].stopSeen && !Enough(|Counted(response, expected, j)|, expected))
    && (forall k: nat | config.Flushed(k) <= |Counted(response, expected, i)| :: !config.SlowFlush(k, pace))
  }

  /** How the loop ends, and behind how many blocks: `flush` is the one that was too slow. */
  datatype StreamEnd = Done | Stop | Slow(ghost flush: nat)

  ghost predicate Ends(config: Config, response: Response, expected: Option<nat>, pace: nat -> Pace, i: nat, end: StreamEnd)
    requires config.speedGracePeriod >= 0.0 && response.Response?
  {
    match end
    case Done =>
      && Passes(config, response, expected, pace, i)
      && (Enough(|Counted(response, expected, i)|, expected) || i == |response.blocks|)
    case Stop =>
      && Passes(config, response, expected, pace, i)
      && !Enough(|Counted(response, expected, i)|, expected) && i < |response.blocks| && response.blocks[i].stopSeen
    case Slow(k) =>
      && 0 < i <= |response.blocks| && Passes(config, response, expected, pace, i - 1)
      && !Enough(|Counted(response, expected, i - 1)|, expected) && !response.blocks[i - 1].stopSeen
      && |Counted(response, expected, i - 1)| < config.Flushed(k) <= |Counted(response, expected, i)|
      && config.SlowFlush(k, pace) && forall j: nat | j < k :: !config.SlowFlush(j, pace)
  }

  lemma {:induction false} CountedGrows(response: Response, expected: Option<nat>, i: nat, j: nat)
    requires response.Response? && i <= j <= |response.blocks|
    ensures Counted(response, expected, i) <= Counted(response, expected, j)
    decreases j - i
  {
    if i < j {
      FlattenSnoc(response.blocks, j - 1);
      ClampPrefix(Flatten(response.blocks[..j - 1]), Flatten(response.blocks[..j]), expected);
      CountedGrows(response, expected, i, j - 1);
    }
  }

  lemma CountedPrefix(response: Response, expected: Option<nat>, i: nat)
    requires response.Response? && i <= |response.blocks|
    ensures Counted(response, expected, i) <= Clamp(Flatten(response.blocks), expected)
    ensures i == |response.blocks| || (expected.Some? && |Counted(response, expected, i)| >= expected.value)
            ==> Counted(response, expected, i) == Clamp(Flatten(response.blocks), expected)
    ensures expected.Some? ==> |Counted(response, expected, i)| <= expected.value
  {
    FlattenPrefix(response.blocks, i);
    ClampPrefix(Flatten(response.blocks[..i]), Flatten(response.blocks), expected);
    assert response.blocks[..|response.blocks|] == response.blocks;
  }

  /** A slow end is that behind the first full buffer at which the mirror lags behind; no other end has one. */
  lemma SlowExit(config: Config, response: Response, expected: Option<nat>, pace: nat -> Pace, i: nat, end: StreamEnd)
    requires config.speedGracePeriod >= 0.0 && response.Response? && i <= |response.blocks|
    requires Ends(config, response, expected, pace, i, end)
    ensures end.Slow? ==> LagsBehind(config, config.Flushed(end.flush), pace(end.flush))
    ensures forall k: nat | (end.Slow? && k < end.flush)
                            || (!end.Slow? && config.Flushed(k) <= |Counted(response, expected, i)|) ::
              !LagsBehind(config, config.Flushed(k), pace(k))
    ensures end.Slow? ==>
              && config.sources.Some? && config.sources.value >= 2 && config.minSpeedKbps > 0.0
              && (config.tracksHealth ==> pace(end.flush).active >= 2)
  {
    hide Counted, LagsBehind, Config.TooSlow;
    forall k: nat ensures config.SlowFlush(k, pace) <==> LagsBehind(config, config.Flushed(k), pace(k)) {
      SlowMeans(config, config.Flushed(k), pace(k));
    }
    if end.Slow? {
      LaggingNeedsAMinimum(config, config.Flushed(end.flush), pace(end.flush));
    }
  }

  lemma LaggingNeedsAMinimum(config: Config, n: nat, pace: Pace)
    requires config.speedGracePeriod >= 0.0 && LagsBehind(config, n, pace)
    ensures config.sources.Some? && config.sources.value >= 2 && config.minSpeedKbps > 0.0
    ensures config.tracksHealth ==> pace.active >= 2
  {
    if config.minSpeedKbps <= 0.0 {
      NotPositive(config.minSpeedKbps, pace.networkElapsed);
    }
  }

  lemma NotPositive(a: real, w: real)
    requires a <= 0.0 && w > 0.0
    ensures a * 1024.0 * w <= 0.0
  {
    if a < 0.0 {
      ProductLess(a, 0.0, w);
    }
    assert a * 1024.0 * w == (a * w) * 1024.0;
  }

  lemma DoneOutcome(config: Config, response: Response, expected: Option<nat>, pace: nat -> Pace, i: nat, end: StreamEnd)
    requires config.speedGracePeriod >= 0.0 && response.Response? && i <= |response.blocks|
    requires Ends(config, response, expected, pace, i, end)
    ensures var missing := expected.None? || |Flatten(response.blocks)| < expected.value;
            var outcome := OutcomeOf(response, expected, i, end);
            && (outcome.Stopped? <==> end.Stop?) && (outcome.FailedSlow? <==> end.Slow?)
            && (outcome.FailedTransport? <==> end.Done? && missing && response.broken)
            && (outcome.FailedShort? <==> end.Done? && missing && !response.broken && expected.Some?)
  {
    CountedPrefix(response, expected, i);
    hide Flatten, Config.SlowFlush;
  }

  /** How many bytes a fetch that succeeds has taken. */
  lemma FetchedLength(chunk: nat, totalSize: int, chunkSize: nat, response: Response, i: nat, end: StreamEnd)
    requires chunkSize > 0 && chunk < TotalChunks(totalSize, chunkSize) && response.Response? && i <= |response.blocks|
    requires var expected := Expected(chunk, totalSize, chunkSize, response.contentLength);
             OutcomeOf(response, expected, i, end).Fetched? && Counted(response, expected, i) == Clamp(Flatten(response.blocks), expected)
    ensures var sent := Counted(response, Expected(chunk, totalSize, chunkSize, response.contentLength), i);
            && sent <= Flatten(response.blocks)
            && (if totalSize > 0 then
                  |sent| == if chunkSize < totalSize - chunk * chunkSize then chunkSize else totalSize - chunk * chunkSize
                else if response.contentLength > 0 then |sent| == response.contentLength
                else sent == Flatten(response.blocks))
  {
    hide Counted, Flatten;
    if totalSize > 0 {
      LengthsAgree(chunk, totalSize, chunkSize);
    }
  }

  /** The response and the pace decide how and where the loop ends. */
  lemma EndsOnce(config: Config, response: Response, expected: Option<nat>, pace: nat -> Pace,
                 i: nat, end: StreamEnd, j: nat, end': StreamEnd)
    requires config.speedGracePeriod >= 0.0 && response.Response? && config.chunkSize > 0
    requires Ends(config, response, expected, pace, i, end) && Ends(config, response, expected, pace, j, end')
    ensures i == j && end == end'
  {
    if i < j || (i == j && end.Slow? && !end'.Slow?) {
      CountedGrows(response, expected, i, if end'.Slow? then j - 1 else j);
    } else if j < i || (i == j && end'.Slow? && !end.Slow?) {
      CountedGrows(response, expected, j, if end.Slow? then i - 1 else i);
    }
  }

  /** The calls of progress.update for the first i blocks: one per block that is not empty. */
  ghost function BlockReports(response: Response, expected: Option<nat>, i: nat): seq<Report>
    requires response.Response? && i <= |response.blocks|
  {
    if i == 0 then []
    else
      BlockReports(response, expected, i - 1)
      + if response.blocks[i - 1].data == [] then []
        else [Report(|Counted(response, expected, i)| - |Counted(response, expected, i - 1)|, None)]
  }

  /**
   * Nothing gets in the way: no stop event at a block that is still needed, no transport error
   * before there is enough, and no flush that happens is too slow.
   */
  ghost predicate Undisturbed(config: Config, response: Response, expected: Option<nat>, pace: nat -> Pace)
    requires config.speedGracePeriod >= 0.0 && response.Response?
  {
    var all := |Clamp(Flatten(response.blocks), expected)|;
    && (forall j: nat | j < |response.blocks| && !Enough(|Counted(response, expected, j)|, expected) :: !response.blocks[j].stopSeen)
    && (response.broken ==> Enough(all, expected))
    && (forall k: nat | config.Flushed(k) <= all :: !config.SlowFlush(k, pace))
  }

  /** An undisturbed fetch takes everything, and succeeds exactly when that is as much as is expected. */
  lemma UndisturbedTakesAll(config: Config, response: Response, expected: Option<nat>, pace: nat -> Pace, i: nat, end: StreamEnd)
    requires config.speedGracePeriod >= 0.0 && response.Response? && i <= |response.blocks|
    requires Undisturbed(config, response, expected, pace) && Ends(config, response, expected, pace, i, end)
    ensures var all := |Clamp(Flatten(response.blocks), expected)|;
            OutcomeOf(response, expected, i, end) == if expected.None? || Enough(all, expected) then Fetched(all) else FailedShort
  {
    CountedPrefix(response, expected, i);
    CountedPrefix(response, expected, |response.blocks|);
  }

  /** What becomes of a fetch whose loop ended like this. */
  ghost function OutcomeOf(response: Response, expected: Option<nat>, i: nat, end: StreamEnd): Outcome
    requires response.Response? && i <= |response.blocks|
  {
    var n := |Counted(response, expected, i)|;
    match end
    case Stop => Stopped
    case Slow(_) => FailedSlow
    case Done =>
      if Enough(n, expected) then Fetched(n)
      else if response.broken then FailedTransport
      else if expected.Some? then FailedShort
      else Fetched(n)
  }

  /** The calls behind the loop: the mark on success, a rollback where the code has one. */
  function LastReports(outcome: Outcome, chunk: nat, counted: nat, sent: nat): seq<Report> {
    match outcome
    case Fetched(_) => [Report(0, Some(chunk))]
    case Stopped => Rollback(counted)
    case FailedTransport => Rollback(counted)
    case FailedSlow => Rollback(sent)
    case FailedShort => []
  }

  /** The call that takes back n bytes. */
  function Rollback(n: nat): seq<Report> { if n > 0 then [Report(0 - n, None)] else [] }

  class ChunkFetcher {
    const config: Config
    const buffer: array<byte>
    const acceptsRanges: bool
    var totalSize: int

    constructor (config: Config, totalSize: int, acceptsRanges: bool)
      requires config.chunkSize > 0
      ensures this.config == config && this.totalSize == totalSize && this.acceptsRanges == acceptsRanges
      ensures fresh(buffer) && buffer.Length == config.Threshold()
    {
      this.config, this.totalSize, this.acceptsRanges := config, totalSize, acceptsRanges;
      buffer := new byte[if FLUSH_THRESHOLD < config.chunkSize then FLUSH_THRESHOLD else config.chunkSize];
    }

    /**
     * Between blocks: `taken` are the clamped bytes so far, of which `written` have been handed over
     * in `flushes` full buffers and the last `pos` wait in the buffer.
     */
    ghost predicate InFlight(start: nat, taken: seq<byte>, written: nat, pos: nat, flushes: nat, log: seq<Command>)
      reads buffer
    {
      var size := config.Threshold();
      && size > 0 && buffer.Length == size && pos <= size
      && written + pos == |taken| && written == flushes * size
      && buffer[..pos] == taken[written..]
      && log == Chop(start, taken[..written], size)
    }

    /** The writer gets a copy of the full buffer. */
    method Flush(start: nat, ghost taken: seq<byte>, written: nat, flushes: nat, log: seq<Command>)
      returns (written': nat, flushes': nat, log': seq<Command>)
      requires InFlight(start, taken, written, config.Threshold(), flushes, log)
      ensures written' == |taken| == config.Flushed(flushes) && flushes' == flushes + 1
      ensures InFlight(start, taken, written', 0, flushes', log')
    {
      var size := config.Threshold();
      log' := log + [Write(start + written, buffer[..size])];
      written', flushes' := written + size, flushes + 1;
      ChopSnoc(start, taken[..written], flushes, size, taken[written..]);
      assert taken[..written] + taken[written..] == taken == taken[..written'];
      assert buffer[..0] == taken[written'..];
      assert (flushes + 1) * size == flushes * size + size;
    }

    /** The slice assignment into the buffer. */
    method CopyIn(start: nat, ghost taken: seq<byte>, ghost written: nat, pos: nat, ghost flushes: nat,
                  ghost log: seq<Command>, piece: seq<byte>)
      requires InFlight(start, taken, written, pos, flushes, log) && pos + |piece| <= buffer.Length
      modifies buffer
      ensures InFlight(start, taken + piece, written, pos + |piece|, flushes, log)
    {
      hide Chop;
      for i := 0 to |piece|
        invariant buffer[..pos] == old(buffer[..pos])
        invariant buffer[pos..pos + i] == piece[..i]
      {
        buffer[pos + i] := piece[i];
        assert buffer[pos..pos + i + 1] == buffer[pos..pos + i] + [piece[i]];
        assert piece[..i + 1] == piece[..i] + [piece[i]];
      }
      assert buffer[..pos + |piece|] == buffer[..pos] + buffer[pos..pos + |piece|];
      assert (taken + piece)[written..] == taken[written..] + piece;
      assert (taken + piece)[..written] == taken[..written];
    }

    /**
     * The copy loop over one block: full buffers are flushed, and behind a flush a slow mirror ends
     * the fetch, in the middle of the block or at its end. `copied` bytes of the block were taken.
     */
    method TakeBlock(start: nat, ghost before: seq<byte>, data: seq<byte>, written0: nat, pos0: nat, flushes0: nat,
                     log0: seq<Command>, pace: nat -> Pace)
      returns (slow: bool, copied: nat, written: nat, pos: nat, flushes: nat, log: seq<Command>)
      requires config.speedGracePeriod >= 0.0
      requires InFlight(start, before, written0, pos0, flushes0, log0) && pos0 < config.Threshold() == buffer.Length
      modifies buffer
      ensures copied <= |data| && InFlight(start, before + data[..copied], written, pos, flushes, log)
      ensures flushes0 <= flushes
      ensures forall k: nat | flushes0 <= k < flushes :: config.SlowFlush(k, pace) <==> slow && k == flushes - 1
      ensures slow ==> pos == 0 && flushes0 < flushes && copied > 0
      ensures !slow ==> copied == |data| && pos < config.Threshold()
    {
      hide InFlight, Config.TooSlow;
      slow, copied, written, pos, flushes, log := false, 0, written0, pos0, flushes0, log0;
      var size := config.Threshold();
      assert before + data[..0] == before;
      while copied < |data|
        invariant copied <= |data| && pos <= size && (copied == 0 ==> pos < size)
        invariant InFlight(start, before + data[..copied], written, pos, flushes, log)
        invariant flushes0 <= flushes && forall k: nat | flushes0 <= k < flushes :: !config.SlowFlush(k, pace)
      {
        var avail := size - pos;
        if avail <= 0 {
          written, flushes, log := Flush(start, before + data[..copied], written, flushes, log);
          pos := 0;
          avail := size;
          if config.TooSlow(written, pace(flushes - 1)) {
            slow := true;
            return;
          }
        }
        var toCopy := if |data| - copied < avail then |data| - copied else avail;
        var piece := data[copied..copied + toCopy];
        CopyIn(start, before + data[..copied], written, pos, flushes, log, piece);
        assert before + data[..copied] + piece == before + data[..copied + toCopy];
        pos := pos + toCopy;
        copied := copied + toCopy;
      }
      assert data[..copied] == data;
      if pos >= size {
        written, flushes, log := Flush(start, before + data, written, flushes, log);
        pos := 0;
        if config.TooSlow(written, pace(flushes - 1)) {
          slow := true;
        }
      }
    }

    /** The bytes that did not fill a buffer go out behind the stream. */
    method FlushRest(start: nat, ghost taken: seq<byte>, written: nat, pos: nat, flushes: nat, log: seq<Command>)
      returns (written': nat, log': seq<Command>)
      requires InFlight(start, taken, written, pos, flushes, log)
      ensures written' == |taken| && log' == Chop(start, taken, config.Threshold())
    {
      written', log' := written, log;
      if pos > 0 {
        ChopSnoc(start, taken[..written], flushes, config.Threshold(), taken[written..]);
        assert taken[..written] + taken[written..] == taken;
        log' := log + [Write(start + written, buffer[..pos])];
        written' := written + pos;
      }
      assert taken[..written'] == taken;
    }

    /** The flushes of n bytes are the first ones, as many as fill a buffer. */
    lemma FlushesBelow(n: nat, flushes: nat, pos: nat)
      requires config.chunkSize > 0 && n == flushes * config.Threshold() + pos && pos < config.Threshold()
      ensures forall k: nat :: config.Flushed(k) <= n <==> k < flushes
    {
      forall k: nat ensures config.Flushed(k) <= n <==> k < flushes {
        if k < flushes {
          MulMonotone(k + 1, flushes, config.Threshold());
        } else {
          MulMonotone(flushes + 1, k + 1, config.Threshold());
          assert (flushes + 1) * config.Threshold() == flushes * config.Threshold() + config.Threshold();
        }
      }
    }

    /** The loop over the response's blocks. */
    method Stream(start: nat, expected: Option<nat>, response: Response, pace: nat -> Pace)
      returns (end: StreamEnd, reports: seq<Report>, written: nat, pos: nat, flushes: nat, log: seq<Command>, enough: bool,
               ghost taken: seq<byte>, ghost i: nat)
      requires config.chunkSize > 0 && buffer.Length == config.Threshold() && config.speedGracePeriod >= 0.0
      requires response.Response? && (expected.Some? ==> expected.value > 0)
      modifies buffer
      ensures Ends(config, response, expected, pace, i, end)
      ensures InFlight(start, taken, written, pos, flushes, log)
      ensures i <= |response.blocks| && reports == BlockReports(response, expected, i)
      ensures if end.Slow? then pos == 0 && taken <= Counted(response, expected, i) && |taken| == config.Flushed(end.flush)
              else taken == Counted(response, expected, i) && pos < config.Threshold()
      ensures end.Done? ==> (enough <==> Enough(|taken|, expected))
    {
      hide InFlight, Config.SlowFlush, Config.Flushed, Clamp, Flatten;
      end, reports, written, pos, flushes, log, enough, taken := Done, [], 0, 0, 0, [], false, [];
      var j := 0;
      i := 0;
      NothingTaken(start, response, expected);
      while j < |response.blocks| && !enough
        invariant j == i <= |response.blocks|
        invariant InFlight(start, taken, written, pos, flushes, log) && pos < config.Threshold()
        invariant taken == Counted(response, expected, i) && reports == BlockReports(response, expected, i)
        invariant enough <==> Enough(|taken|, expected)
        invariant forall k: nat | k < i :: !response.blocks[k].stopSeen && !Enough(|Counted(response, expected, k)|, expected)
        invariant forall k: nat | k < flushes :: !config.SlowFlush(k, pace)
      {
        InFlightCounts(start, taken, written, pos, flushes, log);
        FlushesBelow(|taken|, flushes, pos);
        var block := response.blocks[j];
        if block.stopSeen {
          end := Stop;
          return;
        }
        j, i := j + 1, i + 1;
        var data := block.data;
        if expected.Some? && |data| > expected.value - (written + pos) {
          data := data[..expected.value - (written + pos)];
        }
        CountedNext(response, expected, j - 1, data);
        if block.data == [] {
          continue;
        }
        reports := reports + [Report(|data|, None)];
        var slow, copied;
        ghost var before := flushes;
        slow, copied, written, pos, flushes, log := TakeBlock(start, taken, data, written, pos, flushes, log, pace);
        taken := taken + data[..copied];
        InFlightCounts(start, taken, written, pos, flushes, log);
        if slow {
          end := Slow(flushes - 1);
          assert !(config.Flushed(flushes - 1) <= |Counted(response, expected, i - 1)|);
          return;
        }
        assert data[..copied] == data;
        enough := expected.Some? && written + pos >= expected.value;
      }
      InFlightCounts(start, taken, written, pos, flushes, log);
      FlushesBelow(|taken|, flushes, pos);
    }

    lemma NothingTaken(start: nat, response: Response, expected: Option<nat>)
      requires config.chunkSize > 0 && buffer.Length == config.Threshold() && response.Response?
      ensures InFlight(start, [], 0, 0, 0, []) && Counted(response, expected, 0) == []
    {
      assert response.blocks[..0] == [];
    }

    lemma InFlightCounts(start: nat, taken: seq<byte>, written: nat, pos: nat, flushes: nat, log: seq<Command>)
      requires InFlight(start, taken, written, pos, flushes, log)
      ensures |taken| == written + pos == flushes * config.Threshold() + pos
      ensures log == Chop(start, taken[..written], config.Threshold())
      ensures pos == 0 && flushes > 0 ==> |taken| == config.Flushed(flushes - 1)
    {
    }

    /** The bytes that one more block adds, clamped to what is still missing. */
    lemma CountedNext(response: Response, expected: Option<nat>, i: nat, data: seq<byte>)
      requires response.Response? && i < |response.blocks| && !Enough(|Counted(response, expected, i)|, expected)
      requires var block := response.blocks[i].data; var n := |Counted(response, expected, i)|;
               data == if expected.Some? && |block| > expected.value - n then block[..expected.value - n] else block
      ensures Counted(response, expected, i + 1) == Counted(response, expected, i) + data
    {
      FlattenSnoc(response.blocks, i);
    }

    method TakeBack(n: nat, reports0: seq<Report>) returns (reports: seq<Report>)
      ensures reports == reports0 + Rollback(n)
    {
      reports := reports0;
      if n > 0 {
        reports := reports + [Report(-(n as int), None)];
      }
    }

    /** Behind the loop: the rollback of an exception, or the rest of the buffer and the length check. */
    method Close(chunk: nat, start: nat, expected: Option<nat>, broken: bool, how: StreamEnd, enough: bool,
                 ghost taken: seq<byte>, written0: nat, pos: nat, flushes: nat, log0: seq<Command>, reports0: seq<Report>)
      returns (outcome: Outcome, log: seq<Command>, reports: seq<Report>, ghost sent: seq<byte>)
      requires InFlight(start, taken, written0, pos, flushes, log0)
      requires expected.Some? ==> |taken| <= expected.value
      requires how.Done? ==> (enough <==> Enough(|taken|, expected))
      ensures outcome == match how
                         case Stop => Stopped
                         case Slow(_) => FailedSlow
                         case Done =>
                           if enough then Fetched(|taken|)
                           else if broken then FailedTransport
                           else if expected.Some? then FailedShort
                           else Fetched(|taken|)
      ensures sent == if outcome.Stopped? || outcome.FailedSlow? || outcome.FailedTransport? then taken[..written0] else taken
      ensures log == Chop(start, sent, config.Threshold())
                     + if !outcome.Fetched? then []
                       else if totalSize <= 0 then [Truncate(outcome.n), Mark(chunk)] else [Mark(chunk)]
      ensures reports == reports0 + LastReports(outcome, chunk, |taken|, |taken|)
    {
      InFlightCounts(start, taken, written0, pos, flushes, log0);
      hide Chop, InFlight, Rollback;
      log, reports := log0, reports0;
      var written := written0;
      if how.Stop? || how.Slow? || (!enough && broken) {
        outcome := if how.Stop? then Stopped else if how.Slow? then FailedSlow else FailedTransport;
        reports := TakeBack(written + pos, reports);
        sent := taken[..written];
        return;
      }
      sent := taken;
      written, log := FlushRest(start, taken, written, pos, flushes, log);
      if expected.Some? && written != expected.value {
        outcome := FailedShort;
        assert reports + [] == reports;
        return;
      }
      outcome := Fetched(written);
      if totalSize <= 0 {
        log := log + [Truncate(written)];
      }
      log := log + [Mark(chunk)];
      reports := reports + [Report(0, Some(chunk))];
    }

    /**
     * fetch(chunk). `log` is what it hands to the writer, `reports` its calls of progress.update,
     * `sent` the bytes among `log`, `i` the number of blocks at which the loop over them ended.
     */
    method Fetch(chunk: nat, response: Response, pace: nat -> Pace)
      returns (outcome: Outcome, log: seq<Command>, reports: seq<Report>, ghost sent: seq<byte>, ghost i: nat, ghost end: StreamEnd)
      requires config.chunkSize > 0 && buffer.Length == config.Threshold() && config.speedGracePeriod >= 0.0
      requires chunk < TotalChunks(totalSize, config.chunkSize)
      modifies this`totalSize, buffer
      ensures totalSize == if old(totalSize) <= 0 && response.Response? && response.contentLength > 0
                           then response.contentLength else old(totalSize)
      // What the writer gets: the first bytes of the stream, re-blocked, and the mark only on success.
      ensures log == Chop(Start(chunk, config.chunkSize), sent, config.Threshold())
                     + if !outcome.Fetched? then []
                       else if totalSize <= 0 then [Truncate(outcome.n), Mark(chunk)] else [Mark(chunk)]
      ensures response.Refused? ==> outcome.FailedTransport? && sent == [] && reports == []
      // How many bytes success means.
      ensures outcome.Fetched? ==>
                && response.Response? && outcome.n == |sent| && sent <= Flatten(response.blocks)
                && (if old(totalSize) > 0 then
                      |sent| == if config.chunkSize < old(totalSize) - chunk * config.chunkSize then config.chunkSize
                                else old(totalSize) - chunk * config.chunkSize
                    else if response.contentLength > 0 then |sent| == response.contentLength
                    else sent == Flatten(response.blocks))
      // Which end is which: a transport error counts only while bytes are missing, a short read only without one.
      ensures response.Response? ==>
                var need := Expected(chunk, old(totalSize), config.chunkSize, response.contentLength);
                var missing := need.None? || |Flatten(response.blocks)| < need.value;
                && (outcome.Stopped? <==> end.Stop?) && (outcome.FailedSlow? <==> end.Slow?)
                && (outcome.FailedTransport? <==> end.Done? && missing && response.broken)
                && (outcome.FailedShort? <==> end.Done? && missing && !response.broken && need.Some?)
      // A lone mirror, the last one that is not banned, or one without a minimum to keep is never slow.
      ensures config.sources.None? || config.sources.value <= 1 || config.minSpeedKbps <= 0.0
              || (config.tracksHealth && forall k: nat :: pace(k).active <= 1)
              ==> !outcome.FailedSlow?
      // How it ends, which the response and the pace decide, and what it has reported by then.
      ensures response.Response? ==>
                var expected := Expected(chunk, old(totalSize), config.chunkSize, response.contentLength);
                && Ends(config, response, expected, pace, i, end) && i <= |response.blocks|
                && outcome == OutcomeOf(response, expected, i, end)
                && (if end.Slow? then sent <= Counted(response, expected, i) && |sent| == config.Flushed(end.flush)
                    else if end.Stop? || outcome.FailedTransport? then sent <= Counted(response, expected, i)
                    else sent == Counted(response, expected, i) == Clamp(Flatten(response.blocks), expected))
                // It is given up as slow exactly behind the first full buffer at which it lags behind.
                && (outcome.FailedSlow? ==> end.Slow? && LagsBehind(config, |sent|, pace(end.flush)))
                && (forall k: nat | (end.Slow? && k < end.flush)
                                    || (!end.Slow? && config.Flushed(k) <= |Counted(response, expected, i)|) ::
                      !LagsBehind(config, config.Flushed(k), pace(k)))
                && reports == BlockReports(response, expected, i) + LastReports(outcome, chunk, |Counted(response, expected, i)|, |sent|)
    {
      hide Start, RangeEnd, TotalChunks;
      var start := Start(chunk, config.chunkSize);
      outcome, log, reports, sent, i, end := FailedTransport, [], [], [], 0, Done;
      if response.Refused? {
        return;
      }
      hide Chop, Counted, BlockReports, Ends, Clamp, Flatten, Config.Flushed, LastReports, InFlight, LagsBehind;
      var expected := Expected(chunk, totalSize, config.chunkSize, response.contentLength);
      if totalSize > 0 {
        LengthsAgree(chunk, totalSize, config.chunkSize);
      } else if response.contentLength > 0 {
        totalSize := response.contentLength;
      }
      var how, written, pos, flushes, enough;
      ghost var taken;
      how, reports, written, pos, flushes, log, enough, taken, i := Stream(start, expected, response, pace);
      end := how;
      CountedPrefix(response, expected, i);
      InFlightCounts(start, taken, written, pos, flushes, log);
      outcome, log, reports, sent := Close(chunk, start, expected, response.broken, how, enough, taken, written, pos, flushes, log, reports);
      SlowExit(config, response, expected, pace, i, end);
      DoneOutcome(config, response, expected, pace, i, end);
      if outcome.Fetched? {
        FetchedLength(chunk, old(totalSize), config.chunkSize, response, i, end);
      }
    }
  }
}
