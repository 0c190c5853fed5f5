/** Per-mirror bans: a failure bans its mirror for a time that depends on the failure. */
module Health {

  datatype Failure = SlowMirror | TooManyRequests(retryAfter: int) | OtherFailure

  /** The Retry-After header, when it is a number; a missing or unreadable one is negative here. */
  function BanSeconds(e: Failure): (d: real)
    ensures d >= 0.0
  {
    match e
    case SlowMirror => 120.0
    case TooManyRequests(s) => if s >= 0 then s as real else 120.0
    case OtherFailure => 60.0
  }

  type Bans = map<string, real>

  function BannedUntil(bans: Bans, source: string): real {
    if source in bans then bans[source] else 0.0
  }

  predicate IsBanned(bans: Bans, source: string, now: real) {
    now < BannedUntil(bans, source)
  }

  predicate AllBanned(bans: Bans, sources: seq<string>, now: real) {
    forall i | 0 <= i < |sources| :: IsBanned(bans, sources[i], now)
  }

  function Recorded(bans: Bans, source: string, e: Failure, now: real): Bans {
    bans[source := now + BanSeconds(e)]
  }

  /** The number of entries of the source list that are not banned. */
  function Active(bans: Bans, sources: seq<string>, now: real): (n: nat)
    ensures n <= |sources|
  {
    if sources == [] then 0
    else Active(bans, sources[1..], now) + if IsBanned(bans, sources[0], now) then 0 else 1
  }

  lemma {:induction false} ActiveSnoc(bans: Bans, sources: seq<string>, s: string, now: real)
    ensures Active(bans, sources + [s], now) == Active(bans, sources, now) + if IsBanned(bans, s, now) then 0 else 1
  {
    if sources == [] {
      assert sources + [s] == [s];
      assert Active(bans, [s][1..], now) == 0;
    } else {
      assert (sources + [s])[1..] == sources[1..] + [s];
      ActiveSnoc(bans, sources[1..], s, now);
    }
  }

  /** The active count is zero exactly when every mirror is banned: the pool's reason to give up. */
  lemma {:induction false} NoneActive(bans: Bans, sources: seq<string>, now: real)
    ensures Active(bans, sources, now) == 0 <==> AllBanned(bans, sources, now)
  {
    if sources != [] {
      NoneActive(bans, sources[1..], now);
      if Active(bans, sources, now) == 0 {
        forall i | 0 <= i < |sources| ensures IsBanned(bans, sources[i], now) {
          assert i > 0 ==> sources[i] == sources[1..][i - 1];
        }
      }
    }
  }

  /** A failure may shorten a ban: it lengthens it exactly when the new end is no earlier. */
  lemma BanMovesTo(bans: Bans, source: string, e: Failure, now: real)
    requires IsBanned(bans, source, now)
    ensures BannedUntil(Recorded(bans, source, e, now), source) >= BannedUntil(bans, source)
       <==> BannedUntil(bans, source) - now <= BanSeconds(e)
  {
  }

  /** A mirror banned for being slow comes back earlier after an ordinary failure right behind it. */
  lemma BanCanShrink(now: real)
    requires now >= 0.0
    ensures var slow := Recorded(map[], "m", SlowMirror, now);
            BannedUntil(Recorded(slow, "m", OtherFailure, now + 1.0), "m") < BannedUntil(slow, "m")
  {
  }

  class MirrorHealthTracker {
    var banned: map<string, real>

    constructor ()
      ensures banned == map[]
    {
      banned := map[];
    }

    method GetActiveCount(sources: seq<string>, now: real) returns (n: nat)
      ensures n == Active(banned, sources, now)
    {
      n := 0;
      for i := 0 to |sources|
        invariant n == Active(banned, sources[..i], now)
      {
        assert sources[..i + 1] == sources[..i] + [sources[i]];
        ActiveSnoc(banned, sources[..i], sources[i], now);
        if now >= BannedUntil(banned, sources[i]) {
          n := n + 1;
        }
      }
      assert sources[..|sources|] == sources;
    }

    method RecordFailure(e: Failure, source: string, now: real)
      modifies this
      ensures banned == Recorded(old(banned), source, e, now)
      ensures banned == old(banned)[source := now + if e == SlowMirror then 120.0
                                                    else if e == OtherFailure then 60.0
                                                    else if e.retryAfter < 0 then 120.0
                                                    else e.retryAfter as real]
      ensures IsBanned(banned, source, now) <==> BanSeconds(e) > 0.0
    {
      var duration := BanSeconds(e);
      banned := banned[source := now + duration];
    }
  }
}
