/** The token bucket: what a fixed rate lets through, and what changing the rate cannot create. */
module Throttle {
  import opened Session

  /**
   * The bucket. Times and amounts are exact reals. `rate` is None while throttling is off;
   * `tokens` may be negative: that is a debt which the caller sleeps off after the lock is free.
   */
  datatype Bucket = Bucket(rate: Option<real>, capacity: real, tokens: real, last: real, burstSeconds: real)

  function Min(a: real, b: real): real { if a <= b then a else b }
  function Max(a: real, b: real): real { if a >= b then a else b }

  /** The tokens that accrue in a time. */
  function Earned(rate: real, time: real): real { time * rate }

  function Refill(b: Bucket, now: real): Bucket {
    if b.rate.None? then b
    else b.(last := now, tokens := Min(b.capacity, b.tokens + Earned(b.rate.value, now - b.last)))
  }

  /** consume: the new bucket, and how long the caller sleeps. */
  function Consume(b: Bucket, now: real, n: int): (Bucket, real)
    requires b.rate.Some? ==> b.rate.value > 0.0
  {
    if n <= 0 || b.rate.None? then (b, 0.0)
    else
      var r := Refill(b, now);
      var c := r.(tokens := r.tokens - n as real);
      (c, if c.tokens < 0.0 then -c.tokens / c.rate.value else 0.0)
  }

  /** update_rate with a positive rate, or None. */
  function UpdateRate(b: Bucket, now: real, kbps: Option<int>): Bucket {
    var r := Refill(b, now);
    if kbps.None? then r.(rate := None)
    else
      var rate := (kbps.value * 1024) as real;
      var capacity := rate * b.burstSeconds;
      if b.rate.None? then Bucket(Some(rate), capacity, capacity, now, b.burstSeconds)
      else r.(rate := Some(rate), capacity := capacity, tokens := Min(r.tokens, capacity))
  }

  class TokenBucketThrottle {
    var rate: Option<real>
    var capacity: real
    var tokens: real
    var last: real
    const burstSeconds: real

    function View(): Bucket reads this {
      Bucket(rate, capacity, tokens, last, burstSeconds)
    }

    predicate Valid() reads this {
      rate.Some? ==> rate.value > 0.0
    }

    constructor (burstSeconds: real)
      ensures View() == Bucket(None, 0.0, 0.0, 0.0, burstSeconds) && Valid()
    {
      this.burstSeconds := burstSeconds;
      rate, capacity, tokens, last := None, 0.0, 0.0, 0.0;
    }

    method DoRefill(now: real)
      modifies this
      ensures View() == Refill(old(View()), now)
    {
      if rate.None? {
        return;
      }
      var elapsed := now - last;
      last := now;
      tokens := Min(capacity, tokens + Earned(rate.value, elapsed));
    }

    /** A rate that is not positive is refused (ValueError) and changes nothing. */
    method DoUpdateRate(kbps: Option<int>, now: real) returns (ok: bool)
      requires Valid()
      modifies this
      ensures Valid()
      ensures ok <==> kbps.None? || kbps.value > 0
      ensures View() == if ok then UpdateRate(old(View()), now, kbps) else old(View())
      // From one rate to another the time that has passed counts at the old one, and tokens are only lost.
      ensures ok && kbps.Some? && old(rate).Some? ==>
                && rate == Some((kbps.value * 1024) as real) && capacity == (kbps.value * 1024) as real * burstSeconds
                && last == now
                && (var there := old(tokens) + (now - old(last)) * old(rate).value;
                    && tokens <= there && tokens <= old(capacity) && tokens <= capacity
                    && (tokens == there || tokens == old(capacity) || tokens == capacity))
      // From no rate to one the bucket is full.
      ensures ok && kbps.Some? && old(rate).None? ==>
                && rate == Some((kbps.value * 1024) as real) && capacity == (kbps.value * 1024) as real * burstSeconds
                && last == now && tokens == capacity
      ensures ok && kbps.None? ==> rate.None?
    {
      ok := kbps.None? || kbps.value > 0;
      if !ok {
        return;
      }
      if rate.Some? {
        DoRefill(now);
      }
      if kbps.None? {
        rate := None;
        return;
      }
      var newRate := (kbps.value * 1024) as real;
      var newCapacity := newRate * burstSeconds;
      if rate.None? {
        tokens, last := newCapacity, now;
      } else {
        tokens := Min(tokens, newCapacity);
      }
      rate, capacity := Some(newRate), newCapacity;
    }

    method DoConsume(n: int, now: real) returns (wait: real)
      requires Valid()
      modifies this
      ensures Valid()
      ensures View() == Consume(old(View()), now, n).0 && wait == Consume(old(View()), now, n).1
      // The call takes n bytes from what has accrued since the last one, cut at the capacity, and waits for its debt.
      ensures n > 0 && rate.Some? ==>
                && rate == old(rate) && capacity == old(capacity) && last == now
                && (var there := old(tokens) + (now - old(last)) * rate.value;
                    && tokens + n as real <= there && tokens + n as real <= capacity
                    && (tokens + n as real == there || tokens + n as real == capacity))
                && (tokens >= 0.0 ==> wait == 0.0) && (tokens < 0.0 ==> wait * rate.value == -tokens)
      ensures n <= 0 || rate.None? ==> View() == old(View()) && wait == 0.0
    {
      wait := 0.0;
      if n <= 0 || rate.None? {
        return;
      }
      DoRefill(now);
      tokens := tokens - n as real;
      if tokens < 0.0 {
        wait := -tokens / rate.value;
      }
    }
  }

  // ---- a fixed rate ----

  datatype Call = Call(at: real, n: int)

  /** When a call's bytes are released, and how many they are. */
  datatype Grant = Grant(release: real, n: int)

  predicate InOrder(calls: seq<Call>, from: real) {
    forall i | 0 <= i < |calls| :: from <= calls[i].at && (forall j | i <= j < |calls| :: calls[i].at <= calls[j].at)
  }

  predicate Positive(calls: seq<Call>) {
    forall i | 0 <= i < |calls| :: calls[i].n > 0
  }

  predicate Running(b: Bucket) {
    b.rate.Some? && b.rate.value > 0.0
  }

  function Serve(b: Bucket, calls: seq<Call>): (grants: seq<Grant>)
    requires Running(b)
    ensures |grants| == |calls|
    ensures forall i | 0 <= i < |calls| :: grants[i].n == calls[i].n && grants[i].release >= calls[i].at
    decreases |calls|
  {
    if calls == [] then []
    else
      var (b', wait) := Consume(b, calls[0].at, calls[0].n);
      WaitNonNegative(b, calls[0].at, calls[0].n);
      [Grant(calls[0].at + wait, calls[0].n)] + Serve(b', calls[1..])
  }

  /** The bytes released in (s, t]. */
  function Released(grants: seq<Grant>, s: real, t: real): int {
    if grants == [] then 0
    else (if s < grants[0].release <= t then grants[0].n else 0) + Released(grants[1..], s, t)
  }

  lemma EarnedAdds(rate: real, a: real, b: real)
    ensures Earned(rate, a) + Earned(rate, b) == Earned(rate, a + b)
  {
  }

  lemma EarnedOrder(rate: real, a: real, b: real)
    requires rate > 0.0
    ensures a <= b <==> Earned(rate, a) <= Earned(rate, b)
    ensures Earned(rate, 0.0) == 0.0
  {
  }

  lemma EarnedBack(rate: real, debt: real)
    requires rate > 0.0
    ensures Earned(rate, debt / rate) == debt
  {
  }

  /** The sleep earns exactly the debt. */
  lemma WaitNonNegative(b: Bucket, now: real, n: int)
    requires Running(b)
    ensures var (b', wait) := Consume(b, now, n);
            wait >= 0.0 && (n > 0 ==> Earned(b.rate.value, wait) == Max(0.0, -b'.tokens))
  {
    var (b', wait) := Consume(b, now, n);
    if n > 0 && b'.tokens < 0.0 {
      EarnedBack(b.rate.value, -b'.tokens);
      EarnedOrder(b.rate.value, 0.0, wait);
    }
    EarnedOrder(b.rate.value, 0.0, 0.0);
  }

  /** When the bucket's debt is paid. */
  function PaidAt(b: Bucket): real
    requires Running(b)
  {
    b.last + Max(0.0, -b.tokens) / b.rate.value
  }

  /** One call: its release is when its own debt is paid, and that is not before the earlier debt is. */
  lemma ReleaseMoves(b: Bucket, now: real, n: int)
    requires Running(b) && b.last <= now && n > 0
    ensures var (b', wait) := Consume(b, now, n);
            && b'.rate == b.rate && b'.capacity == b.capacity && b'.last == now && b'.tokens <= b'.capacity
            && now + wait == PaidAt(b') && PaidAt(b) <= PaidAt(b')
            && (PaidAt(b) == PaidAt(b') ==> wait == 0.0 && b.tokens >= 0.0)
  {
    var (b', wait) := Consume(b, now, n);
    var r := b.rate.value;
    WaitNonNegative(b, now, n);
    var debt := Max(0.0, -b.tokens) / r;
    EarnedBack(r, Max(0.0, -b.tokens));
    EarnedBack(r, Max(0.0, -b'.tokens));
    EarnedOrder(r, wait, Max(0.0, -b'.tokens) / r);
    EarnedOrder(r, Max(0.0, -b'.tokens) / r, wait);
    hide Earned;
    EarnedAdds(r, b.last - now, debt);
    EarnedAdds(r, b.last - now, now - b.last);
    EarnedOrder(r, b.last - now + debt, wait);
    EarnedOrder(r, wait, b.last - now + debt);
    EarnedOrder(r, 0.0, now - b.last);
    EarnedOrder(r, now - b.last, 0.0);
    assert b.last - now + (now - b.last) == 0.0;
  }

  lemma NoDebtNoWait(b: Bucket, now: real, n: int)
    requires Running(b) && Consume(b, now, n).0.tokens >= 0.0
    ensures Consume(b, now, n).1 == 0.0
  {
  }

  lemma CallsTail(calls: seq<Call>, from: real)
    requires calls != [] && InOrder(calls, from) && Positive(calls)
    ensures InOrder(calls[1..], calls[0].at) && Positive(calls[1..]) && from <= calls[0].at && calls[0].n > 0
  {
    assert forall i | 0 <= i < |calls[1..]| :: calls[1..][i] == calls[i + 1];
  }

  /** Nothing is released before the present debt is paid, or exactly then only without a wait or debt. */
  lemma {:induction false} ReleasedLater(b: Bucket, calls: seq<Call>)
    requires Running(b) && InOrder(calls, b.last) && Positive(calls)
    ensures forall j | 0 <= j < |calls| ::
              && PaidAt(b) <= Serve(b, calls)[j].release
              && (PaidAt(b) == Serve(b, calls)[j].release ==> Serve(b, calls)[j].release == calls[j].at && b.tokens >= 0.0)
    decreases |calls|
  {
    if calls != [] {
      CallsTail(calls, b.last);
      ReleaseMoves(b, calls[0].at, calls[0].n);
      var b' := Consume(b, calls[0].at, calls[0].n).0;
      ReleasedLater(b', calls[1..]);
      var grants := Serve(b, calls);
      forall j | 0 <= j < |calls|
        ensures PaidAt(b) <= grants[j].release
        ensures PaidAt(b) == grants[j].release ==> grants[j].release == calls[j].at && b.tokens >= 0.0
      {
        if j > 0 {
          assert grants[j] == Serve(b', calls[1..])[j - 1] && calls[j] == calls[1..][j - 1];
        }
      }
    }
  }

  /**
   * First come, first served: permitted release times never go back, and two calls are released at
   * one instant only if neither has to wait.
   */
  lemma {:induction false} ReleasesInOrder(b: Bucket, calls: seq<Call>, i: nat, j: nat)
    requires Running(b) && InOrder(calls, b.last) && Positive(calls) && i < j < |calls|
    ensures Serve(b, calls)[i].release <= Serve(b, calls)[j].release
    ensures Serve(b, calls)[i].release == Serve(b, calls)[j].release ==>
              Serve(b, calls)[i].release == calls[i].at && Serve(b, calls)[j].release == calls[j].at
    decreases i
  {
    hide Earned, PaidAt, Consume, Refill, InOrder, Positive;
    CallsTail(calls, b.last);
    ReleaseMoves(b, calls[0].at, calls[0].n);
    var (b', wait) := Consume(b, calls[0].at, calls[0].n);
    if b'.tokens >= 0.0 {
      NoDebtNoWait(b, calls[0].at, calls[0].n);
    }
    var rest := Serve(b', calls[1..]);
    assert calls[j] == calls[1..][j - 1] && Serve(b, calls)[j] == rest[j - 1];
    if i == 0 {
      ReleasedLater(b', calls[1..]);
    } else {
      ReleasesInOrder(b', calls[1..], i - 1, j - 1);
    }
  }

  lemma {:induction false} NoneReleased(grants: seq<Grant>, s: real, t: real)
    requires forall i | 0 <= i < |grants| :: t < grants[i].release
    ensures Released(grants, s, t) == 0
  {
    if grants != [] {
      NoneReleased(grants[1..], s, t);
    }
  }

  /** After one call: what the rest may release, plus this call's bytes when it is released by t. */
  lemma {:induction false} ReleasedBound(b: Bucket, calls: seq<Call>, s: real, t: real)
    requires Running(b) && InOrder(calls, b.last) && Positive(calls)
    ensures Released(Serve(b, calls), s, t) as real <= if t < b.last then 0.0 else Max(0.0, b.tokens + Earned(b.rate.value, t - b.last))
    decreases |calls|
  {
    hide Earned, PaidAt;
    if calls != [] {
      CallsTail(calls, b.last);
      var now, n, r := calls[0].at, calls[0].n, b.rate.value;
      var (b', wait) := Consume(b, now, n);
      ReleaseMoves(b, now, n);
      WaitNonNegative(b, now, n);
      ReleasedBound(b', calls[1..], s, t);
      if t < now + wait {
        ReleasedLater(b', calls[1..]);
        NoneReleased(Serve(b', calls[1..]), s, t);
      } else {
        EarnedOrder(r, wait, t - now);
        EarnedAdds(r, t - now, now - b.last);
        assert t - now + (now - b.last) == t - b.last;
      }
    }
  }

  /** From a full bucket at t0, the bytes released by time t stay under capacity + rate * (t - t0). */
  lemma ReleasedByTime(b: Bucket, calls: seq<Call>, s: real, t: real)
    requires Running(b) && b.tokens == b.capacity && b.capacity >= 0.0
    requires InOrder(calls, b.last) && Positive(calls) && b.last <= t
    ensures Released(Serve(b, calls), s, t) as real <= b.capacity + Earned(b.rate.value, t - b.last)
  {
    ReleasedBound(b, calls, s, t);
    EarnedOrder(b.rate.value, 0.0, t - b.last);
  }

  /** The first call released in the window: how its bytes and those behind it fit in. */
  lemma WindowHead(b: Bucket, calls: seq<Call>, s: real, t: real)
    requires Running(b) && calls != [] && InOrder(calls, b.last) && Positive(calls) && b.tokens <= b.capacity
    requires s < Serve(b, calls)[0].release <= t
    ensures Released(Serve(b, calls), s, t) as real <= Max(b.capacity, calls[0].n as real) + Earned(b.rate.value, t - s)
  {
    hide Earned, PaidAt;
    CallsTail(calls, b.last);
    var now, n, r := calls[0].at, calls[0].n, b.rate.value;
    var (b', wait) := Consume(b, now, n);
    ReleaseMoves(b, now, n);
    WaitNonNegative(b, now, n);
    ReleasedBound(b', calls[1..], s, t);
    EarnedOrder(r, wait, t - now);
    EarnedOrder(r, s - now, wait);
    EarnedOrder(r, wait, s - now);
    EarnedOrder(r, t - now, t - s);
    EarnedAdds(r, s - now, t - s);
    assert s - now + (t - s) == t - now;
  }

  /**
   * In any window (s, t] at a fixed rate, the bytes released are at most rate * (t - s) plus the
   * larger of the capacity and the largest single request.
   */
  lemma {:induction false} ReleasedInWindow(b: Bucket, calls: seq<Call>, s: real, t: real, largest: int)
    requires Running(b) && InOrder(calls, b.last) && Positive(calls) && b.tokens <= b.capacity
    requires s <= t && largest >= 0 && forall i | 0 <= i < |calls| :: calls[i].n <= largest
    ensures Released(Serve(b, calls), s, t) as real <= Max(b.capacity, largest as real) + Earned(b.rate.value, t - s)
    decreases |calls|
  {
    hide Earned, PaidAt;
    EarnedOrder(b.rate.value, 0.0, t - s);
    if calls != [] {
      CallsTail(calls, b.last);
      var (b', wait) := Consume(b, calls[0].at, calls[0].n);
      ReleaseMoves(b, calls[0].at, calls[0].n);
      if s < calls[0].at + wait <= t {
        WindowHead(b, calls, s, t);
      } else {
        ReleasedInWindow(b', calls[1..], s, t, largest);
      }
    }
  }

  function Total(ns: seq<int>): int { if ns == [] then 0 else ns[0] + Total(ns[1..]) }

  /** When a consumer that asks again as soon as it is released is done. */
  function BackToBack(b: Bucket, now: real, ns: seq<int>): real
    requires Running(b)
    decreases |ns|
  {
    if ns == [] then now
    else
      var (b', wait) := Consume(b, now, ns[0]);
      BackToBack(b', now + wait, ns[1..])
  }

  lemma {:induction false} BackToBackTime(b: Bucket, now: real, ns: seq<int>)
    requires Running(b) && b.capacity >= 0.0 && Refill(b, now).tokens >= 0.0
    requires forall i | 0 <= i < |ns| :: ns[i] > 0
    ensures Earned(b.rate.value, BackToBack(b, now, ns) - now) == Max(0.0, Total(ns) as real - Refill(b, now).tokens)
    ensures Total(ns) >= 0
    decreases |ns|
  {
    hide Earned;
    var r := b.rate.value;
    if ns == [] {
      EarnedOrder(r, 0.0, 0.0);
    } else {
      var (b', wait) := Consume(b, now, ns[0]);
      WaitNonNegative(b, now, ns[0]);
      assert now + wait - b'.last == wait;
      assert Refill(b', now + wait).tokens == Max(0.0, b'.tokens);
      BackToBackTime(b', now + wait, ns[1..]);
      var done := BackToBack(b', now + wait, ns[1..]);
      EarnedAdds(r, done - (now + wait), wait);
      assert done - (now + wait) + wait == done - now;
    }
  }

  /** A never-idle consumer that starts with a full bucket takes exactly the time its excess needs. */
  lemma NeverIdleTime(b: Bucket, now: real, ns: seq<int>)
    requires Running(b) && b.capacity >= 0.0 && b.tokens == b.capacity && b.last == now
    requires forall i | 0 <= i < |ns| :: ns[i] > 0
    ensures BackToBack(b, now, ns) == now + Max(0.0, Total(ns) as real - b.capacity) / b.rate.value
  {
    hide Earned;
    var r, excess := b.rate.value, Max(0.0, Total(ns) as real - b.capacity);
    EarnedOrder(r, 0.0, 0.0);
    assert now - b.last == 0.0;
    BackToBackTime(b, now, ns);
    EarnedBack(r, excess);
    var took := BackToBack(b, now, ns) - now;
    EarnedOrder(r, took, excess / r);
    EarnedOrder(r, excess / r, took);
  }

  // ---- changing the rate ----

  datatype Op = Take(at: real, n: int) | SetRate(at: real, kbps: Option<int>)

  predicate Sane(b: Bucket) {
    (b.rate.Some? ==> b.rate.value > 0.0 && b.tokens <= b.capacity) && b.burstSeconds >= 0.0
  }

  function Do(b: Bucket, op: Op): Bucket
    requires b.rate.Some? ==> b.rate.value > 0.0
  {
    match op
    case Take(at, n) => Consume(b, at, n).0
    case SetRate(at, kbps) => UpdateRate(b, at, kbps)
  }

  /** The rate in force behind an operation: the last one that was set, in bytes per second. */
  function RateAfter(rate: Option<real>, op: Op): Option<real> {
    if op.Take? then rate
    else if op.kbps.None? then None
    else Some((op.kbps.value * 1024) as real)
  }

  /** The bytes an operation takes at a rate. */
  function Taken(rate: Option<real>, op: Op): int {
    if op.Take? && op.n > 0 && rate.Some? then op.n else 0
  }

  /** What a change from uncapped to capped grants: a full bucket in place of whatever was left. */
  function FreshBurst(rate: Option<real>, b: Bucket, op: Op): real {
    if op.SetRate? && op.kbps.Some? && rate.None? then (op.kbps.value * 1024) as real * b.burstSeconds - b.tokens else 0.0
  }

  /** The rate in force times the time that passes, over the operations' own times. */
  function Integral(rate: Option<real>, since: real, ops: seq<Op>): real
    decreases |ops|
  {
    if ops == [] then 0.0
    else
      (if rate.Some? then Earned(rate.value, ops[0].at - since) else 0.0)
      + Integral(RateAfter(rate, ops[0]), ops[0].at, ops[1..])
  }

  /** The calls come in the order of time, and no rate is zero or negative. */
  predicate Legal(since: real, ops: seq<Op>)
    decreases |ops|
  {
    ops == [] || (since <= ops[0].at && (ops[0].SetRate? && ops[0].kbps.Some? ==> ops[0].kbps.value > 0) && Legal(ops[0].at, ops[1..]))
  }

  /** The bucket after some operations, the bytes taken, and the fresh bursts granted. */
  ghost function Books(b: Bucket, rate: Option<real>, since: real, ops: seq<Op>): (r: (Bucket, int, real))
    requires Sane(b) && b.last <= since && Legal(since, ops)
    decreases |ops|
  {
    if ops == [] then (b, 0, 0.0)
    else
      OneOp(b, since, ops[0]);
      var (end, taken, granted) := Books(Do(b, ops[0]), RateAfter(rate, ops[0]), ops[0].at, ops[1..]);
      (end, Taken(rate, ops[0]) + taken, FreshBurst(rate, b, ops[0]) + granted)
  }

  /** The tokens at a time if nothing more is taken, uncut by the capacity. */
  function Credit(b: Bucket, now: real): real {
    b.tokens + if b.rate.Some? then Earned(b.rate.value, now - b.last) else 0.0
  }

  lemma OneOp(b: Bucket, since: real, op: Op)
    requires Sane(b) && b.last <= since <= op.at && (op.SetRate? && op.kbps.Some? ==> op.kbps.value > 0)
    ensures Sane(Do(b, op)) && Do(b, op).last <= op.at && Do(b, op).rate == RateAfter(b.rate, op)
    ensures Taken(b.rate, op) as real + Credit(Do(b, op), op.at) <= Credit(b, op.at) + FreshBurst(b.rate, b, op)
    ensures Credit(b, op.at) == Credit(b, since) + if b.rate.Some? then Earned(b.rate.value, op.at - since) else 0.0
  {
    if op.SetRate? && op.kbps.Some? {
      assert (op.kbps.value * 1024) as real > 0.0;
    }
    if b.rate.Some? {
      EarnedAdds(b.rate.value, since - b.last, op.at - since);
      assert since - b.last + (op.at - since) == op.at - b.last;
    }
    NothingEarned(b.rate, op);
  }

  lemma NothingEarned(rate: Option<real>, op: Op)
    ensures rate.Some? ==> Earned(rate.value, op.at - op.at) == 0.0
    ensures op.SetRate? && op.kbps.Some? ==> Earned((op.kbps.value * 1024) as real, op.at - op.at) == 0.0
  {
  }

  lemma CreditIsMore(b: Bucket, now: real)
    requires Sane(b) && b.last <= now
    ensures b.tokens <= Credit(b, now)
    ensures b.rate.Some? ==> Refill(b, now).tokens <= Credit(b, now)
  {
    if b.rate.Some? {
      EarnedOrder(b.rate.value, 0.0, now - b.last);
    }
  }

  function EndOf(since: real, ops: seq<Op>): real {
    if ops == [] then since else ops[|ops| - 1].at
  }

  lemma {:induction false} CreditBound(b: Bucket, since: real, ops: seq<Op>)
    requires Sane(b) && b.last <= since && Legal(since, ops)
    ensures var (end, taken, granted) := Books(b, b.rate, since, ops);
            && Sane(end) && end.last <= EndOf(since, ops)
            && taken as real + Credit(end, EndOf(since, ops)) <= Credit(b, since) + Integral(b.rate, since, ops) + granted
    decreases |ops|
  {
    hide Earned, Do, Credit;
    if ops != [] {
      OneOp(b, since, ops[0]);
      CreditBound(Do(b, ops[0]), ops[0].at, ops[1..]);
    }
  }

  /** Only a change from uncapped to capped grants a burst. */
  lemma {:induction false} NoBurstWhileCapped(b: Bucket, rate: Option<real>, since: real, ops: seq<Op>)
    requires Sane(b) && b.last <= since && Legal(since, ops) && rate.Some?
    requires forall i | 0 <= i < |ops| :: ops[i].SetRate? ==> ops[i].kbps.Some?
    ensures Books(b, rate, since, ops).2 == 0.0
    decreases |ops|
  {
    hide Do;
    if ops != [] {
      OneOp(b, since, ops[0]);
      assert forall i | 0 <= i < |ops[1..]| :: ops[1..][i] == ops[i + 1];
      NoBurstWhileCapped(Do(b, ops[0]), RateAfter(rate, ops[0]), ops[0].at, ops[1..]);
    }
  }

  /**
   * Rate changes create no tokens: over any sequence of consume and update_rate calls, what was taken
   * plus what is left, accrued up to the last call, is at most what was there, the rates in force
   * times the times between the calls, and a fresh burst for each change from uncapped to capped.
   * The tokens never exceed the capacity.
   */
  lemma NoTokensFromRateChanges(b: Bucket, ops: seq<Op>)
    requires Sane(b) && Legal(b.last, ops)
    ensures var (end, taken, granted) := Books(b, b.rate, b.last, ops);
            var left := if end.rate.Some? then Refill(end, EndOf(b.last, ops)).tokens else end.tokens;
            && taken as real + left <= b.tokens + Integral(b.rate, b.last, ops) + granted
            && taken as real + end.tokens <= b.tokens + Integral(b.rate, b.last, ops) + granted
            && (end.rate.Some? ==> end.tokens <= end.capacity && left <= end.capacity)
            && (b.rate.Some? && (forall i | 0 <= i < |ops| :: ops[i].SetRate? ==> ops[i].kbps.Some?) ==> granted == 0.0)
  {
    CreditBound(b, b.last, ops);
    var end := Books(b, b.rate, b.last, ops).0;
    CreditIsMore(end, EndOf(b.last, ops));
    if b.rate.Some? {
      EarnedOrder(b.rate.value, 0.0, 0.0);
      assert b.last - b.last == 0.0;
      if forall i | 0 <= i < |ops| :: ops[i].SetRate? ==> ops[i].kbps.Some? {
        NoBurstWhileCapped(b, b.rate, b.last, ops);
      }
    }
  }
}
