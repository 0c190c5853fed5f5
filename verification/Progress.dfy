/** The progress counter's bookkeeping and its speed estimate. */
module Progress {
  import opened Tiling
  import opened Session

  // ---- completed bytes ----

  /** The sizes of the chunks below n that are in s, summed. */
  ghost function CompletedSize(s: set<nat>, n: nat, totalSize: nat, chunkSize: nat): int {
    if n == 0 then 0
    else CompletedSize(s, n - 1, totalSize, chunkSize) + if n - 1 in s then Length(n - 1, totalSize, chunkSize) else 0
  }

  lemma {:induction false} CompletedSizeInsert(s: set<nat>, n: nat, k: nat, totalSize: nat, chunkSize: nat)
    requires k !in s
    ensures CompletedSize(s + {k}, n, totalSize, chunkSize)
         == CompletedSize(s, n, totalSize, chunkSize) + if k < n then Length(k, totalSize, chunkSize) else 0
  {
    if n > 0 {
      CompletedSizeInsert(s, n - 1, k, totalSize, chunkSize);
    }
  }

  /** All chunks together are the whole file. */
  lemma {:induction false} CompletedSizeFull(s: set<nat>, n: nat, totalSize: nat, chunkSize: nat)
    requires totalSize > 0 && chunkSize > 0 && n <= TotalChunks(totalSize, chunkSize)
    requires forall k | 0 <= k < n :: k in s
    ensures CompletedSize(s, n, totalSize, chunkSize) == SumLengths(n, totalSize, chunkSize)
    ensures n == TotalChunks(totalSize, chunkSize) ==> CompletedSize(s, n, totalSize, chunkSize) == totalSize
  {
    if n > 0 {
      CompletedSizeFull(s, n - 1, totalSize, chunkSize);
    }
    LengthsSum(n, totalSize, chunkSize);
  }

  // ---- the speed estimate ----

  /** exp: a product for a sum, and strictly between 0 and 1 below 0. */
  ghost predicate Exponential(exp: real -> real) {
    && (forall a: real, b: real :: exp(a + b) == exp(a) * exp(b))
    && (forall a: real | a < 0.0 :: 0.0 < exp(a) < 1.0)
  }

  /** A product, by name, so that a proof can carry it without opening it. */
  function Times(a: real, b: real): real { a * b }

  function ExpM1(exp: real -> real, x: real): real { exp(x) - 1.0 }

  /** The fields that the speed depends on. */
  datatype Meter = Meter(window: real, interval: real, start: real, lastTime: real, lastBytes: int, speed: real)

  /** A redraw while downloading: the time, and the completed bytes as clipped to the total. */
  datatype Redraw = Redraw(now: real, completed: int)

  predicate Ticks(m: Meter, r: Redraw) {
    var dt := r.now - m.lastTime;
    r.now - m.start > 0.0 && !(dt < m.interval || dt <= 0.0)
  }

  function Sample(m: Meter, r: Redraw): real
    requires Ticks(m, r)
  {
    (r.completed - m.lastBytes) as real / (r.now - m.lastTime)
  }

  function Decay(exp: real -> real, window: real, from: real, to: real): real
    requires window > 0.0
  {
    exp(-(to - from) / window)
  }

  /** The weight of the new sample. */
  function Alpha(exp: real -> real, m: Meter, r: Redraw): real
    requires m.window > 0.0 && Ticks(m, r) && exp(-(r.now - m.start) / m.window) != 1.0
  {
    ExpM1(exp, -(r.now - m.lastTime) / m.window) / ExpM1(exp, -(r.now - m.start) / m.window)
  }

  function Update(exp: real -> real, m: Meter, r: Redraw): Meter
    requires Exponential(exp)
  {
    if r.now - m.start <= 0.0 then m.(speed := 0.0)
    else if !Ticks(m, r) then m
    else
      var t := m.(lastTime := r.now, lastBytes := r.completed);
      if m.window <= 0.0 then t.(speed := Sample(m, r))
      else
        DecayInside(exp, m.window, m.start, r.now);
        t.(speed := m.speed + Times(Alpha(exp, m, r), Sample(m, r) - m.speed))
  }

  lemma DecayInside(exp: real -> real, window: real, from: real, to: real)
    requires Exponential(exp) && window > 0.0 && from < to
    ensures 0.0 < Decay(exp, window, from, to) < 1.0
  {
    assert -(to - from) / window < 0.0;
  }

  lemma DecayAdds(exp: real -> real, window: real, a: real, b: real, c: real)
    requires Exponential(exp) && window > 0.0
    ensures Decay(exp, window, a, c) == Times(Decay(exp, window, a, b), Decay(exp, window, b, c))
  {
    assert -(b - a) / window + -(c - b) / window == -(c - a) / window;
  }

  /**
   * One tick: its sample, what the tick leaves of the weight of everything before it, the time since
   * the tick before, and the bytes counted by then.
   */
  datatype Tick = Tick(sample: real, decay: real, span: real, counted: int)

  function Product(ticks: seq<Tick>): real {
    if ticks == [] then 1.0 else Times(ticks[0].decay, Product(ticks[1..]))
  }

  /** The decayed sum: each sample with the weight its tick took, times all later decays. */
  function DecayedSum(ticks: seq<Tick>): real {
    if ticks == [] then 0.0
    else Times(Times(ticks[0].sample, 1.0 - ticks[0].decay), Product(ticks[1..])) + DecayedSum(ticks[1..])
  }

  function Ones(ticks: seq<Tick>): seq<Tick> {
    seq(|ticks|, i requires 0 <= i < |ticks| => ticks[i].(sample := 1.0))
  }

  lemma {:induction false} ProductSnoc(ticks: seq<Tick>, t: Tick)
    ensures Product(ticks + [t]) == Times(Product(ticks), t.decay)
  {
    if ticks == [] {
      assert ticks + [t] == [t] && Product([t]) == t.decay * Product([]);
    } else {
      ProductSnoc(ticks[1..], t);
      assert (ticks + [t])[1..] == ticks[1..] + [t];
      assert ticks[0].decay * (Product(ticks[1..]) * t.decay) == ticks[0].decay * Product(ticks[1..]) * t.decay;
    }
  }

  lemma Distribute(w: real, p: real, s: real, d: real)
    ensures Times(w, Times(p, d)) + Times(s, d) == Times(Times(w, p) + s, d)
  {
    assert w * (p * d) == (w * p) * d;
  }

  lemma {:induction false} DecayedSumSnoc(ticks: seq<Tick>, t: Tick)
    ensures DecayedSum(ticks + [t]) == Times(DecayedSum(ticks), t.decay) + Times(t.sample, 1.0 - t.decay)
  {
    if ticks == [] {
      assert ticks + [t] == [t] && Product([]) == 1.0 && DecayedSum([]) == 0.0;
      assert DecayedSum([t]) == t.sample * (1.0 - t.decay) * Product([]) + DecayedSum([]);
    } else {
      DecayedSumSnoc(ticks[1..], t);
      ProductSnoc(ticks[1..], t);
      assert (ticks + [t])[1..] == ticks[1..] + [t];
      Distribute(Times(ticks[0].sample, 1.0 - ticks[0].decay), Product(ticks[1..]), DecayedSum(ticks[1..]), t.decay);
    }
  }

  /** The weights sum to one minus the product of the decays, so dividing by that makes an average. */
  lemma {:induction false} WeightsSum(ticks: seq<Tick>)
    ensures DecayedSum(Ones(ticks)) == 1.0 - Product(ticks)
    ensures Product(Ones(ticks)) == Product(ticks)
  {
    if ticks != [] {
      WeightsSum(ticks[1..]);
      assert Ones(ticks)[1..] == Ones(ticks[1..]);
      assert (1.0 - ticks[0].decay) * Product(ticks[1..]) == Product(ticks[1..]) - ticks[0].decay * Product(ticks[1..]);
    }
  }

  lemma EmptyTicks()
    ensures Product([]) == 1.0 && DecayedSum([]) == 0.0
  {
  }

  function TickOf(exp: real -> real, m: Meter, r: Redraw): Tick
    requires m.window > 0.0 && Ticks(m, r)
  {
    Tick(Sample(m, r), Decay(exp, m.window, m.lastTime, r.now), r.now - m.lastTime, r.completed)
  }

  /** The estimate after some redraws in time order, and the ticks among them. */
  ghost function Replay(exp: real -> real, m: Meter, redraws: seq<Redraw>): (r: (Meter, seq<Tick>))
    requires Exponential(exp) && m.window > 0.0
    ensures r.0.window == m.window && r.0.start == m.start && r.0.interval == m.interval
  {
    if redraws == [] then (m, [])
    else
      var (before, ticks) := Replay(exp, m, redraws[..|redraws| - 1]);
      var r := redraws[|redraws| - 1];
      (Update(exp, before, r),
       if Ticks(before, r) then ticks + [TickOf(exp, before, r)] else ticks)
  }

  predicate InTime(m: Meter, redraws: seq<Redraw>) {
    && (forall i | 0 <= i < |redraws| :: m.start <= redraws[i].now)
    && (forall i, j | 0 <= i <= j < |redraws| :: redraws[i].now <= redraws[j].now)
  }

  /** One tick on the debiased estimate. */
  lemma TickKeepsAverage(exp: real -> real, m: Meter, r: Redraw, p: real, sum: real)
    requires Exponential(exp) && m.window > 0.0 && Ticks(m, r) && m.start <= m.lastTime
    requires m.start == m.lastTime ==> p == 1.0 && sum == 0.0
    requires m.start < m.lastTime ==> p == Decay(exp, m.window, m.start, m.lastTime) && Times(m.speed, 1.0 - p) == sum
    ensures var d := Decay(exp, m.window, m.lastTime, r.now);
            && Times(p, d) == Decay(exp, m.window, m.start, r.now) && 0.0 < Times(p, d) < 1.0
            && Times(Update(exp, m, r).speed, 1.0 - Times(p, d)) == Times(sum, d) + Times(Sample(m, r), 1.0 - d)
  {
    hide Exponential, Sample;
    var d, x, v := Decay(exp, m.window, m.lastTime, r.now), Sample(m, r), m.speed;
    DecayInside(exp, m.window, m.start, r.now);
    if m.start < m.lastTime {
      DecayAdds(exp, m.window, m.start, m.lastTime, r.now);
    }
    var total := Decay(exp, m.window, m.start, r.now);
    assert total == p * d;
    var alpha := Alpha(exp, m, r);
    AlphaTimes(d, total, alpha);
    Blend(v, x, alpha, d, total, p, sum);
  }

  lemma AlphaTimes(d: real, total: real, alpha: real)
    requires total < 1.0 && alpha == (d - 1.0) / (total - 1.0)
    ensures alpha * (1.0 - total) == 1.0 - d
  {
    var q := total - 1.0;
    assert alpha * q == d - 1.0;
  }

  lemma Blend(v: real, x: real, alpha: real, d: real, total: real, p: real, sum: real)
    requires alpha * (1.0 - total) == 1.0 - d && total == p * d && v * (1.0 - p) == sum
    ensures (v + alpha * (x - v)) * (1.0 - total) == sum * d + x * (1.0 - d)
  {
    assert (v + alpha * (x - v)) * (1.0 - total) == v * (1.0 - total) + (x - v) * (alpha * (1.0 - total));
    assert (x - v) * (1.0 - d) == x * (1.0 - d) - v * (1.0 - d);
    assert v * (1.0 - total) - v * (1.0 - d) == v * (d - total);
    assert v * (d - p * d) == (v * (1.0 - p)) * d;
  }

  /**
   * The estimate is a true weighted average: times one minus the product of all decays it is the
   * decayed sum of the samples, whatever the counter and the clock did in between.
   */
  lemma {:induction false} SpeedIsAverage(exp: real -> real, m: Meter, redraws: seq<Redraw>)
    requires Exponential(exp) && m.window > 0.0 && m.lastTime == m.start && InTime(m, redraws)
    ensures var (end, ticks) := Replay(exp, m, redraws);
            && m.start <= end.lastTime && (redraws != [] ==> end.lastTime <= redraws[|redraws| - 1].now)
            && (ticks == [] ==> end.lastTime == m.start)
            && (ticks != [] ==>
                && m.start < end.lastTime
                && Product(ticks) == Decay(exp, m.window, m.start, end.lastTime) && 0.0 < Product(ticks) < 1.0
                && Times(end.speed, 1.0 - Product(ticks)) == DecayedSum(ticks))
  {
    hide Exponential, Decay, Sample, Product, DecayedSum, Times;
    assert Product([]) == 1.0 && DecayedSum([]) == 0.0 by { EmptyTicks(); }
    if redraws != [] {
      var n := |redraws| - 1;
      SpeedIsAverage(exp, m, redraws[..n]);
      var (before, ticks) := Replay(exp, m, redraws[..n]);
      var r := redraws[n];
      if Ticks(before, r) {
        var t := TickOf(exp, before, r);
        ProductSnoc(ticks, t);
        DecayedSumSnoc(ticks, t);
        TickKeepsAverage(exp, before, r, Product(ticks), DecayedSum(ticks));
      }
    }
  }

  /** What the samples stand for: each times the time it covers. */
  function BytesOf(ticks: seq<Tick>): real {
    if ticks == [] then 0.0 else BytesOf(ticks[..|ticks| - 1]) + Times(ticks[|ticks| - 1].sample, ticks[|ticks| - 1].span)
  }

  function TimeOf(ticks: seq<Tick>): real {
    if ticks == [] then 0.0 else TimeOf(ticks[..|ticks| - 1]) + ticks[|ticks| - 1].span
  }

  function DecayFor(exp: real -> real, window: real, span: real): real
    requires window > 0.0
  {
    exp(-span / window)
  }

  lemma SampleCovers(exp: real -> real, m: Meter, r: Redraw)
    requires m.window > 0.0 && Ticks(m, r)
    ensures var t := TickOf(exp, m, r);
            && Times(t.sample, t.span) == (r.completed - m.lastBytes) as real && t.span == r.now - m.lastTime
            && t.counted == r.completed && t.span >= m.interval && t.span > 0.0 && t.decay == DecayFor(exp, m.window, t.span)
  {
  }

  lemma NotDueYet(m: Meter, r: Redraw)
    requires !Ticks(m, r) && m.start <= m.lastTime
    ensures r.now - m.lastTime < m.interval || r.now - m.lastTime <= 0.0
  {
  }

  /** A tick moves time and bytes on; no other redraw does. */
  lemma UpdateMoves(exp: real -> real, m: Meter, r: Redraw)
    requires Exponential(exp)
    ensures var u := Update(exp, m, r);
            && u.start == m.start && u.window == m.window && u.interval == m.interval
            && u.lastTime == (if Ticks(m, r) then r.now else m.lastTime)
            && u.lastBytes == (if Ticks(m, r) then r.completed else m.lastBytes)
  {
  }

  lemma SumsSnoc(ticks: seq<Tick>, t: Tick)
    ensures BytesOf(ticks + [t]) == BytesOf(ticks) + Times(t.sample, t.span)
    ensures TimeOf(ticks + [t]) == TimeOf(ticks) + t.span
  {
    assert (ticks + [t])[..|ticks|] == ticks;
  }

  /** One more redraw, as far as times and bytes go. */
  lemma ReplayNext(exp: real -> real, m: Meter, redraws: seq<Redraw>)
    requires Exponential(exp) && m.window > 0.0 && redraws != []
    ensures var n := |redraws| - 1;
            var (before, ticks) := Replay(exp, m, redraws[..n]);
            var r := redraws[n];
            var (end, all) := Replay(exp, m, redraws);
            && before.start == m.start && before.window == m.window && before.interval == m.interval
            && end.lastTime == (if Ticks(before, r) then r.now else before.lastTime)
            && end.lastBytes == (if Ticks(before, r) then r.completed else before.lastBytes)
            && (Ticks(before, r) ==>
                && all == ticks + [TickOf(exp, before, r)]
                && BytesOf(all) == BytesOf(ticks) + (r.completed - before.lastBytes) as real
                && TimeOf(all) == TimeOf(ticks) + (r.now - before.lastTime))
            && (!Ticks(before, r) ==> all == ticks)
  {
    var n := |redraws| - 1;
    var (before, ticks) := Replay(exp, m, redraws[..n]);
    var r := redraws[n];
    UpdateMoves(exp, before, r);
    hide Update, Exponential, Sample, Times, BytesOf, TimeOf, TickOf, Decay, Ticks;
    if Ticks(before, r) {
      SampleCovers(exp, before, r);
      SumsSnoc(ticks, TickOf(exp, before, r));
    }
  }

  /**
   * The samples are the download itself: each times the time it covers, they add up to the bytes
   * counted from the start to the last tick, and the times to the time between the two.
   */
  lemma {:induction false} SamplesAddUp(exp: real -> real, m: Meter, redraws: seq<Redraw>)
    requires Exponential(exp) && m.window > 0.0 && m.lastTime == m.start
    ensures var (end, ticks) := Replay(exp, m, redraws);
            && BytesOf(ticks) == (if ticks == [] then 0 else ticks[|ticks| - 1].counted - m.lastBytes) as real
            && TimeOf(ticks) == end.lastTime - m.start
            && end.lastBytes == (if ticks == [] then m.lastBytes else ticks[|ticks| - 1].counted)
            && (ticks != [] ==> exists r :: r in redraws && r.now == end.lastTime && r.completed == ticks[|ticks| - 1].counted)
  {
    if redraws != [] {
      hide Update, Exponential, Sample, Times, BytesOf, TimeOf, Replay;
      var n := |redraws| - 1;
      SamplesAddUp(exp, m, redraws[..n]);
      ReplayNext(exp, m, redraws);
      assert redraws[n] in redraws && forall x | x in redraws[..n] :: x in redraws;
    }
  }

  /** Each tick covers at least the interval and decays by what it covers. */
  ghost predicate AllCover(exp: real -> real, window: real, interval: real, ticks: seq<Tick>)
    requires window > 0.0
  {
    forall i | 0 <= i < |ticks| ::
      ticks[i].span >= interval && ticks[i].span > 0.0 && ticks[i].decay == DecayFor(exp, window, ticks[i].span)
  }

  lemma AllCoverSnoc(exp: real -> real, window: real, interval: real, ticks: seq<Tick>, t: Tick)
    requires window > 0.0 && AllCover(exp, window, interval, ticks)
    requires t.span >= interval && t.span > 0.0 && t.decay == DecayFor(exp, window, t.span)
    ensures AllCover(exp, window, interval, ticks + [t])
  {
    hide DecayFor;
  }

  lemma InTimePrefix(m: Meter, redraws: seq<Redraw>, n: nat)
    requires InTime(m, redraws) && n <= |redraws|
    ensures InTime(m, redraws[..n])
  {
  }

  /**
   * A tick covers at least the interval, and it decays by the time that it covers; when no redraw is
   * due any more, less than an interval has passed since the last tick.
   */
  lemma {:induction false} TicksCoverIntervals(exp: real -> real, m: Meter, redraws: seq<Redraw>)
    requires Exponential(exp) && m.window > 0.0 && m.lastTime == m.start && InTime(m, redraws)
    ensures var (end, ticks) := Replay(exp, m, redraws);
            && AllCover(exp, m.window, m.interval, ticks)
            && (redraws != [] ==>
                var since := redraws[|redraws| - 1].now - end.lastTime; since < m.interval || since <= 0.0)
  {
    if redraws != [] {
      hide AllCover, Update, Exponential, Sample, Times, BytesOf, TimeOf, Replay, TickOf, Decay, DecayFor, Ticks, InTime, Product, DecayedSum;
      var n := |redraws| - 1;
      InTimePrefix(m, redraws, n);
      var (before, ticks) := Replay(exp, m, redraws[..n]);
      SpeedIsAverage(exp, m, redraws[..n]);
      TicksCoverIntervals(exp, m, redraws[..n]);
      ReplayNext(exp, m, redraws);
      if Ticks(before, redraws[n]) {
        SampleCovers(exp, before, redraws[n]);
        AllCoverSnoc(exp, m.window, m.interval, ticks, TickOf(exp, before, redraws[n]));
      } else {
        NotDueYet(before, redraws[n]);
      }
    }
  }

  lemma TimesUp(a: real, b: real, w: real)
    requires a <= b && w >= 0.0
    ensures Times(a, w) <= Times(b, w)
  {
  }

  lemma TimesAssociates(a: real, b: real, c: real)
    ensures Times(Times(a, b), c) == Times(a, Times(b, c))
  {
  }

  lemma TimesAdds(a: real, b: real, c: real)
    ensures Times(a, b + c) == Times(a, b) + Times(a, c)
  {
  }

  lemma Complement(d: real, p: real)
    ensures Times(1.0 - d, p) + (1.0 - p) == 1.0 - Times(d, p)
  {
  }

  lemma TimesZero(a: real)
    ensures Times(a, 0.0) == 0.0
  {
  }

  lemma ProductInside(d: real, p: real)
    requires 0.0 < d < 1.0 && 0.0 < p <= 1.0
    ensures 0.0 < Times(d, p) <= 1.0 && 0.0 < Times(1.0 - d, p)
  {
    TimesUp(d, 1.0, p);
    MulLess(0.0, d, p);
    MulLess(0.0, 1.0 - d, p);
  }

  lemma AverageStep(x: real, d: real, p: real, s: real, lo: real, hi: real)
    requires lo <= x <= hi && 0.0 < d < 1.0 && 0.0 < p <= 1.0 && Times(lo, 1.0 - p) <= s <= Times(hi, 1.0 - p)
    ensures Times(lo, 1.0 - Times(d, p)) <= Times(Times(x, 1.0 - d), p) + s <= Times(hi, 1.0 - Times(d, p))
  {
    hide Times;
    ProductInside(d, p);
    var w := Times(1.0 - d, p);
    TimesUp(lo, x, w);
    TimesUp(x, hi, w);
    TimesAssociates(x, 1.0 - d, p);
    Complement(d, p);
    TimesAdds(lo, w, 1.0 - p);
    TimesAdds(hi, w, 1.0 - p);
  }

  lemma {:induction false} DecayedSumBounds(ticks: seq<Tick>, lo: real, hi: real)
    requires forall i | 0 <= i < |ticks| :: lo <= ticks[i].sample <= hi && 0.0 < ticks[i].decay < 1.0
    ensures 0.0 < Product(ticks) <= 1.0
    ensures Times(lo, 1.0 - Product(ticks)) <= DecayedSum(ticks) <= Times(hi, 1.0 - Product(ticks))
  {
    hide Times;
    if ticks == [] {
      TimesZero(lo);
      TimesZero(hi);
    } else {
      DecayedSumBounds(ticks[1..], lo, hi);
      var t := ticks[0];
      ProductInside(t.decay, Product(ticks[1..]));
      AverageStep(t.sample, t.decay, Product(ticks[1..]), DecayedSum(ticks[1..]), lo, hi);
    }
  }

  predicate DecaysProper(ticks: seq<Tick>) {
    forall i | 0 <= i < |ticks| :: 0.0 < ticks[i].decay < 1.0
  }

  lemma {:induction false} DecaysInside(exp: real -> real, m: Meter, redraws: seq<Redraw>)
    requires Exponential(exp) && m.window > 0.0
    ensures DecaysProper(Replay(exp, m, redraws).1)
  {
    hide Exponential, Update, Sample, Times;
    if redraws != [] {
      var n := |redraws| - 1;
      DecaysInside(exp, m, redraws[..n]);
      var (before, ticks) := Replay(exp, m, redraws[..n]);
      var r := redraws[n];
      if Ticks(before, r) {
        DecayInside(exp, m.window, before.lastTime, r.now);
        var all := ticks + [TickOf(exp, before, r)];
        assert Replay(exp, m, redraws).1 == all;
        assert DecaysProper(all);
      }
    }
  }

  /** The shown speed lies between the slowest and the fastest tick; one tick alone is shown as it is. */
  lemma SpeedWithinSamples(exp: real -> real, m: Meter, redraws: seq<Redraw>, lo: real, hi: real)
    requires Exponential(exp) && m.window > 0.0 && m.lastTime == m.start && InTime(m, redraws)
    requires Replay(exp, m, redraws).1 != []
    requires var ticks := Replay(exp, m, redraws).1; forall i | 0 <= i < |ticks| :: lo <= ticks[i].sample <= hi
    ensures var (end, ticks) := Replay(exp, m, redraws);
            lo <= end.speed <= hi && (|ticks| == 1 ==> end.speed == ticks[0].sample)
  {
    hide Exponential, Replay, InTime, Times, DecayedSum, Product;
    SpeedIsAverage(exp, m, redraws);
    DecaysInside(exp, m, redraws);
    var (end, ticks) := Replay(exp, m, redraws);
    DecayedSumBounds(ticks, lo, hi);
    var q := 1.0 - Product(ticks);
    if end.speed < lo {
      MulLess(end.speed, lo, q);
    } else if hi < end.speed {
      MulLess(hi, end.speed, q);
    }
    if |ticks| == 1 {
      assert ticks == [ticks[0]];
      OneTick(ticks[0], end.speed);
    }
  }

  lemma OneTick(t: Tick, speed: real)
    requires 0.0 < Product([t]) < 1.0 && Times(speed, 1.0 - Product([t])) == DecayedSum([t])
    ensures speed == t.sample
  {
    assert Product([]) == 1.0 && DecayedSum([]) == 0.0;
    assert Product([t]) == t.decay && DecayedSum([t]) == Times(t.sample, 1.0 - t.decay);
    if speed < t.sample {
      MulLess(speed, t.sample, 1.0 - t.decay);
    } else if t.sample < speed {
      MulLess(t.sample, speed, 1.0 - t.decay);
    }
  }

  lemma MulLess(a: real, b: real, w: real)
    requires a < b && w > 0.0
    ensures Times(a, w) < Times(b, w)
  {
  }

  // ---- the class ----

  class BuiltinProgress {
    const window: real
    const interval: real
    var totalBytes: nat
    var chunkSize: nat
    var totalChunks: nat
    var completedChunks: set<nat>
    var completedBytes: int
    var hashedChunks: set<nat>
    var verifying: bool
    var startTime: Option<real>
    var lastTickTime: real
    var lastTickBytes: int
    var speed: real
    var elapsed: real
    var eta: real

    constructor (window: real, interval: real)
      ensures this.window == window && this.interval == interval && startTime.None? && completedBytes == 0 && speed == 0.0
    {
      this.window, this.interval := window, interval;
      totalBytes, chunkSize, totalChunks, completedChunks, completedBytes, hashedChunks := 0, 0, 0, {}, 0, {};
      verifying, startTime, lastTickTime, lastTickBytes, speed, elapsed, eta := false, None, 0.0, 0, 0.0, 0.0, 0.0;
    }

    /** The count of bytes a resumed download starts from. */
    method Start(totalBytes: nat, chunkSize: nat, completed: set<nat>, verifying: bool, now: real, ghost bound: nat)
      requires forall k | k in completed :: k < bound
      modifies this
      ensures completedBytes == CompletedSize(completed, bound, totalBytes, chunkSize) && completedChunks == completed
      ensures this.totalBytes == totalBytes && this.chunkSize == chunkSize && this.verifying == verifying
      ensures totalBytes > 0 && chunkSize > 0 ==> totalChunks == TotalChunks(totalBytes, chunkSize)
      ensures startTime == Some(now) && lastTickTime == now && lastTickBytes == completedBytes
      ensures speed == old(speed) && hashedChunks == old(hashedChunks)
    {
      this.totalBytes, this.chunkSize, this.verifying := totalBytes, chunkSize, verifying;
      totalChunks := if chunkSize > 0 then (totalBytes + chunkSize - 1) / chunkSize else 0;
      completedChunks := completed;
      var bytes := 0;
      var todo, counted: set<nat> := completed, {};
      CompletedSizeEmpty(bound, totalBytes, chunkSize);
      while todo != {}
        modifies {}
        invariant todo + counted == completed && todo !! counted
        invariant bytes == CompletedSize(counted, bound, totalBytes, chunkSize)
        decreases todo
      {
        var k :| k in todo;
        CompletedSizeInsert(counted, bound, k, totalBytes, chunkSize);
        bytes := bytes + Length(k, totalBytes, chunkSize);
        todo, counted := todo - {k}, counted + {k};
      }
      assert counted == completed;
      completedBytes := bytes;
      startTime, lastTickTime, lastTickBytes := Some(now), now, completedBytes;
    }

    method UpdateBytes(n: int, chunk: Option<nat>)
      modifies this`completedBytes, this`completedChunks
      ensures completedBytes == old(completedBytes) + n
      ensures completedChunks == old(completedChunks) + if chunk.Some? then {chunk.value} else {}
    {
      completedBytes := completedBytes + n;
      if chunk.Some? {
        completedChunks := completedChunks + {chunk.value};
      }
    }

    function View(start: real): Meter reads this {
      Meter(window, interval, start, lastTickTime, lastTickBytes, speed)
    }

    function Clipped(n: int): int reads this {
      if totalBytes == 0 || n < totalBytes then n else totalBytes
    }

    /** The start time; none, and a start time of exactly 0.0, both count as zero. */
    function Began(): real reads this`startTime {
      if startTime.Some? then startTime.value else 0.0
    }

    function Elapsed(now: real): real reads this`startTime {
      if Began() != 0.0 then now - Began() else 0.0
    }

    /** While downloading: a tick, if one is due, moves the estimate towards the tick's own speed. */
    method TickSpeed(now: real, start: real, completed: int, exp: real -> real) returns (newSpeed: real)
      requires Exponential(exp) && now - start > 0.0
      modifies this`lastTickTime, this`lastTickBytes
      ensures View(start).(speed := newSpeed) == Update(exp, old(View(start)), Redraw(now, completed))
      ensures now - old(lastTickTime) < interval || now <= old(lastTickTime) ==> newSpeed == speed
      ensures window <= 0.0 && now - old(lastTickTime) >= interval && now > old(lastTickTime) ==>
                Times(newSpeed, now - old(lastTickTime)) == (completed - old(lastTickBytes)) as real
    {
      hide Times;
      newSpeed := speed;
      var dt := now - lastTickTime;
      if !(dt < interval || dt <= 0.0) {
        var instantaneous := (completed - lastTickBytes) as real / dt;
        if window <= 0.0 {
          newSpeed := instantaneous;
          QuotientTimes((completed - lastTickBytes) as real, dt);
        } else {
          DecayInside(exp, window, start, now);
          var alpha := ExpM1(exp, -dt / window) / ExpM1(exp, -(now - start) / window);
          newSpeed := speed + Times(alpha, instantaneous - speed);
        }
        lastTickTime, lastTickBytes := now, completed;
      }
    }

    /** The redraw's arithmetic. While downloading the speed is the debiased average of the ticks. */
    method UpdateDynamicState(now: real, exp: real -> real)
      requires Exponential(exp)
      modifies this`speed, this`elapsed, this`eta, this`lastTickTime, this`lastTickBytes
      ensures var done := Clipped(if verifying then |hashedChunks| * chunkSize else completedBytes);
              && elapsed == Elapsed(now)
              && (if elapsed <= 0.0 then speed == 0.0
                  else if verifying then speed == (if elapsed > 0.5 then done as real / elapsed else 0.0)
                  else View(Began()) == Update(exp, old(View(Began())), Redraw(now, done)))
              && eta == (if speed > 0.0 && totalBytes > 0 then (totalBytes - done) as real / speed else 0.0)
      ensures verifying || Elapsed(now) <= 0.0 ==> lastTickTime == old(lastTickTime) && lastTickBytes == old(lastTickBytes)
      ensures elapsed == if startTime.Some? && startTime.value != 0.0 then now - startTime.value else 0.0
      ensures var counted := if verifying then |hashedChunks| * chunkSize else completedBytes;
              if speed > 0.0 && totalBytes > 0 then
                Times(eta, speed) == (if counted < totalBytes then totalBytes - counted else 0) as real
              else eta == 0.0
    {
      var completed := Clipped(if verifying then |hashedChunks| * chunkSize else completedBytes);
      var since := Elapsed(now);
      var newSpeed;
      if since <= 0.0 {
        newSpeed := 0.0;
      } else if verifying {
        newSpeed := if since > 0.5 then completed as real / since else 0.0;
      } else {
        newSpeed := TickSpeed(now, Began(), completed, exp);
      }
      hide Update, Times;
      eta := 0.0;
      if newSpeed > 0.0 && totalBytes > 0 {
        eta := (totalBytes - completed) as real / newSpeed;
        QuotientTimes((totalBytes - completed) as real, newSpeed);
      }
      speed, elapsed := newSpeed, since;
    }
  }

  lemma QuotientTimes(a: real, b: real)
    requires b > 0.0
    ensures Times(a / b, b) == a
  {
  }

  lemma {:induction false} CompletedSizeEmpty(n: nat, totalSize: nat, chunkSize: nat)
    ensures CompletedSize({}, n, totalSize, chunkSize) == 0
  {
    if n > 0 {
      CompletedSizeEmpty(n - 1, totalSize, chunkSize);
    }
  }
}
