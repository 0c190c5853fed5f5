/** What the workers' turns do with bans and retries, over whole runs and in terms of the ban times. */
module Turns {
  import opened ChunkQueue
  import opened Engine
  import opened Health
  import opened Runs
  import P = Pool
  import PS = PoolSafety
  import S = Store
  import ES = EngineSafety

  /** How long a failure bans: two minutes for a slow mirror, what a 429 asks for, a minute otherwise. */
  function BanLength(f: Failure): real {
    if f == SlowMirror then 120.0
    else if f == OtherFailure then 60.0
    else if f.retryAfter < 0 then 120.0
    else f.retryAfter as real
  }

  /** The waits before the five retries. */
  function RetryWait(retries: nat): real {
    if retries == 0 then 1.0
    else if retries == 1 then 2.0
    else if retries == 2 then 4.0
    else if retries == 3 then 8.0
    else 16.0
  }

  // ---- one step ----

  /**
   * One turn of worker w, from get to the next await. A fetch starts exactly when the item is a chunk
   * that is due and the worker's mirror is not banned; the pool gives up exactly when it is due and
   * every mirror is banned, the worker's own included; the item goes back, with everything else as it
   * was, exactly when it is not due or another mirror may take it.
   */
  lemma TurnDecides(c: P.Setup, s: P.Pool, w: nat)
    requires P.Inv(c, s) && P.Enabled(c, s, P.Pull(w)) && s.queue[0].chunk >= 0
    ensures var t := P.Apply(c, s, P.Pull(w));
            var it := s.queue[0];
            var due := it.due <= s.now;
            var mine := PS.Free(s.bans, c.owner[w], s.now);
            var some := exists i :: 0 <= i < |c.sources| && PS.Free(s.bans, c.sources[i], s.now);
            && (t.workers[w] == P.Fetching(it) <==> due && mine)
            && (it.chunk in t.gone <==> due && !mine && !some)
            && (it in t.queue <==> !due || (!mine && some))
            && t.stop == (s.stop || (due && !mine && !some))
            && (it in t.queue ==> t.workers[w].Releasing? && multiset(t.queue) == multiset(s.queue))
            && (it !in t.queue ==> t.queue == s.queue[1..])
  {
    hide P.Accounted, P.FlagsInv, Sorted;
    PS.TurnMeans(c, s, w);
    PS.AfterPull(c, s, w);
    assert P.QueuedInv(c, s, s.queue[0]);
    PS.OnePlace(c, s, s.queue[0].chunk);
    PS.PulledOnce(c, s);
    InsertKeepsItems(s.queue[1..], s.queue[0]);
    assert s.queue == [s.queue[0]] + s.queue[1..];
    hide P.Inv, P.PullItem, P.TurnOf, PS.Free, Insert, P.QueuedInv;
  }

  /** Only a failed fetch changes a ban: that of its mirror, which ends the failure's length from now. */
  lemma BansMove(c: P.Setup, s: P.Pool, a: P.Action)
    requires P.Enabled(c, s, a)
    ensures var t := P.Apply(c, s, a);
            && t.now >= s.now && (a.Fail? ==> a.w < |c.owner|)
            && t.bans == if a.Fail? then s.bans[c.owner[a.w] := s.now + BanLength(a.e)] else s.bans
  {
    hide Insert, InsertMany, P.TurnOf, P.Backoff, P.Count, P.PullItem, P.FailItem;
    if a.Pull? {
      PullKeepsBans(c, s, a.w);
    } else if a.Fail? {
      FailBans(c, s, a.w, a.e);
    }
  }

  lemma PullKeepsBans(c: P.Setup, s: P.Pool, w: nat)
    requires P.Enabled(c, s, P.Pull(w))
    ensures P.PullItem(c, s, w).bans == s.bans && P.PullItem(c, s, w).now == s.now
  {
    hide Insert, P.Count, P.TurnOf;
    match P.TurnOf(c, s, w)
    case LeaveOnSentinel =>
    case PutBack =>
    case GiveUp =>
    case StartFetch =>
  }

  lemma FailBans(c: P.Setup, s: P.Pool, w: nat, f: Failure)
    requires P.Enabled(c, s, P.Fail(w, f))
    ensures P.FailItem(c, s, w, f).bans == s.bans[c.owner[w] := s.now + BanLength(f)] && P.FailItem(c, s, w, f).now == s.now
  {
    hide Insert, P.Count, P.Backoff;
  }

  /** A chunk that is not being fetched is not queued for a time before this one. */
  ghost predicate Waits(s: P.Pool, k: int, time: real) {
    && (forall it | it in s.queue && it.chunk == k :: it.due >= time)
    && (forall w | 0 <= w < |s.workers| && s.workers[w].Fetching? :: s.workers[w].item.chunk != k)
  }

  lemma WaitsOn(c: P.Setup, s: P.Pool, a: P.Action, k: int, time: real)
    requires P.Inv(c, s) && P.Enabled(c, s, a) && k >= 0 && Waits(s, k, time)
    ensures Waits(P.Apply(c, s, a), k, time) || s.now >= time
  {
    hide P.Inv, P.Apply, P.TurnOf, P.PullItem, P.FailItem, P.Backoff, Insert, InsertMany;
    PS.AfterQueue(c, s, a);
    if a.Pull? && P.TurnOf(c, s, a.w).StartFetch? {
      PS.TurnStarts(c, s, a.w);
    }
  }

  lemma BackoffMeans(c: P.Setup, n: nat)
    requires n < P.MAX_RETRIES
    ensures P.Backoff(n) == RetryWait(n)
  {
    assert P.Pow2(0) == 1.0;
    assert P.Pow2(1) == 2.0;
    assert P.Pow2(2) == 4.0;
    assert P.Pow2(3) == 8.0;
    assert P.Pow2(4) == 16.0;
  }

  /** Behind a failed fetch its chunk waits, if it is queued again at all. */
  lemma FailedWaits(c: P.Setup, s: P.Pool, w: nat, f: Failure)
    requires P.Inv(c, s) && P.Enabled(c, s, P.Fail(w, f))
    ensures var it := s.workers[w].item;
            it.chunk >= 0 && Waits(P.Apply(c, s, P.Fail(w, f)), it.chunk, s.now + RetryWait(it.retries))
  {
    hide P.Accounted, P.FlagsInv, Sorted;
    var it := s.workers[w].item;
    assert P.HeldInv(c, s, it);
    PS.OnePlace(c, s, it.chunk);
    PS.AfterFail(c, s, w, f);
    if it.retries < P.MAX_RETRIES {
      BackoffMeans(c, it.retries);
    }
    hide P.Inv, P.FailItem, Insert, P.Backoff, P.HeldInv;
  }

  // ---- a run, step by step ----

  /** The state behind the first i steps. */
  ghost function StateAt(c: Setup, h: History, i: nat): (e: Engine)
    requires IsRun(c, h) && i <= |h.steps|
    ensures Inv(c, e)
  {
    PossiblePrefix(c, First(c, h), h.steps, i);
    After(c, First(c, h), h.steps[..i])
  }

  lemma StateNext(c: Setup, h: History, i: nat)
    requires IsRun(c, h) && i < |h.steps|
    ensures Enabled(c, StateAt(c, h, i), h.steps[i])
    ensures StateAt(c, h, i + 1) == Apply(c, StateAt(c, h, i), h.steps[i])
  {
    hide Inv, Enabled, Apply, SoundResume;
    var e := First(c, h);
    PossiblePrefix(c, e, h.steps, i);
    var s := After(c, e, h.steps[..i]);
    assert h.steps[i..][0] == h.steps[i];
    PossiblePrefix(c, e, h.steps, i + 1);
    var upto := h.steps[..i + 1];
    PossiblePrefix(c, e, upto, i);
    assert upto[..i] == h.steps[..i] && upto[i..] == [h.steps[i]];
    ES.Step(c, s, h.steps[i]);
    assert After(c, Apply(c, s, h.steps[i]), []) == Apply(c, s, h.steps[i]);
    assert [h.steps[i]][1..] == [];
  }

  /** The step as the pool sees it. */
  lemma PoolNext(c: Setup, h: History, i: nat)
    requires IsRun(c, h) && i < |h.steps|
    ensures var s, t := StateAt(c, h, i).pool, StateAt(c, h, i + 1).pool;
            && c.Valid() && P.Inv(c.pool, s)
            && (if OnPool(h.steps[i]) then
                  P.Enabled(c.pool, s, PoolPart(h.steps[i])) && t == P.Apply(c.pool, s, PoolPart(h.steps[i]))
                else t == s)
  {
    StateNext(c, h, i);
    hide S.Inv, P.Inv, Links, P.Enabled, P.Apply, S.Apply, IsRun, StateAt;
    PartsEnabled(c, StateAt(c, h, i), h.steps[i]);
  }

  lemma {:induction false} TimeGoesOn(c: Setup, h: History, i: nat, j: nat)
    requires IsRun(c, h) && i <= j <= |h.steps|
    ensures StateAt(c, h, i).pool.now <= StateAt(c, h, j).pool.now
    decreases j - i
  {
    hide IsRun, StateAt;
    if i < j {
      TimeGoesOn(c, h, i, j - 1);
      PoolNext(c, h, j - 1);
      if OnPool(h.steps[j - 1]) {
        BansMove(c.pool, StateAt(c, h, j - 1).pool, PoolPart(h.steps[j - 1]));
      }
    }
  }

  // ---- the main results ----

  /** Worker w takes an item off the queue. */
  ghost predicate Takes(a: Action, w: nat) {
    a == StartFetch(w) || a == PoolStep(P.Pull(w))
  }

  /**
   * Every turn of every run that takes a chunk: it starts a fetch exactly when the chunk is due and
   * the worker's mirror is not banned, the pool gives up exactly when it is due and all mirrors are
   * banned, and the item goes back in all other cases.
   */
  lemma TurnsInRun(c: Setup, h: History, i: nat, w: nat)
    requires IsRun(c, h) && i < |h.steps| && Takes(h.steps[i], w)
    requires StateAt(c, h, i).pool.queue != [] && StateAt(c, h, i).pool.queue[0].chunk >= 0 && w < |c.pool.owner|
    ensures var s, t := StateAt(c, h, i).pool, StateAt(c, h, i + 1).pool;
            var it := s.queue[0];
            var due := it.due <= s.now;
            var mine := PS.Free(s.bans, c.pool.owner[w], s.now);
            var some := exists m :: 0 <= m < |c.pool.sources| && PS.Free(s.bans, c.pool.sources[m], s.now);
            && (h.steps[i] == StartFetch(w) <==> due && mine)
            && (it.chunk in t.gone <==> due && !mine && !some)
            && (it in t.queue <==> !due || (!mine && some))
            && t.stop == (s.stop || (due && !mine && !some))
            && (it in t.queue ==> multiset(t.queue) == multiset(s.queue))
  {
    PoolNext(c, h, i);
    StateNext(c, h, i);
    var s := StateAt(c, h, i);
    StartsOnTurn(c, s, h.steps[i], w);
    hide IsRun, StateAt, P.Inv, P.Apply, PS.Free, Enabled;
    PS.TurnMeans(c.pool, s.pool, w);
    TurnDecides(c.pool, s.pool, w);
  }

  lemma StartsOnTurn(c: Setup, e: Engine, a: Action, w: nat)
    requires c.Valid() && Enabled(c, e, a) && Takes(a, w)
    ensures P.Enabled(c.pool, e.pool, P.Pull(w))
    ensures a == StartFetch(w) <==> P.TurnOf(c.pool, e.pool, w) == P.StartFetch
  {
  }

  lemma OnlyFetchesFail(c: Setup, e: Engine, a: Action)
    requires c.Valid() && Enabled(c, e, a) && OnPool(a)
    ensures PoolPart(a).Fail? <==> a.FetchFailed?
  {
  }

  /** In every run a failed fetch bans its mirror for the failure's length, and no other step changes a ban. */
  lemma BansInRun(c: Setup, h: History, i: nat)
    requires IsRun(c, h) && i < |h.steps|
    ensures var s, t := StateAt(c, h, i).pool, StateAt(c, h, i + 1).pool;
            if h.steps[i].FetchFailed? then
              h.steps[i].w < |c.pool.owner| && t.bans == s.bans[c.pool.owner[h.steps[i].w] := s.now + BanLength(h.steps[i].e)]
            else t.bans == s.bans
  {
    hide IsRun, StateAt, P.Inv, P.Apply, P.Enabled, Enabled, Apply, Inv, BanLength;
    PoolNext(c, h, i);
    StateNext(c, h, i);
    if OnPool(h.steps[i]) {
      OnlyFetchesFail(c, StateAt(c, h, i), h.steps[i]);
      BansMove(c.pool, StateAt(c, h, i).pool, PoolPart(h.steps[i]));
    }
  }

  /** The step is a failure of a fetch from this mirror. */
  ghost predicate FailureOf(c: Setup, a: Action, mirror: string) {
    a.FetchFailed? && a.w < |c.pool.owner| && c.pool.owner[a.w] == mirror
  }

  lemma {:induction false} BanIsKept(c: Setup, h: History, i: nat, j: nat, mirror: string, end: real)
    requires IsRun(c, h) && i <= j <= |h.steps|
    requires mirror in StateAt(c, h, i).pool.bans && StateAt(c, h, i).pool.bans[mirror] == end
    requires forall n | i <= n < j :: !FailureOf(c, h.steps[n], mirror)
    ensures mirror in StateAt(c, h, j).pool.bans && StateAt(c, h, j).pool.bans[mirror] == end
    decreases j - i
  {
    hide IsRun, StateAt, BanLength;
    if i < j {
      BanIsKept(c, h, i, j - 1, mirror, end);
      BansInRun(c, h, j - 1);
      assert !FailureOf(c, h.steps[j - 1], mirror);
    }
  }

  /**
   * A mirror that has failed starts no fetch before its ban is over, unless it fails once more in
   * between: a fetch that another worker had under way may do that, and its ban counts from then.
   */
  lemma NoFetchDuringBan(c: Setup, h: History, i: nat, j: nat, w: nat, f: Failure, v: nat)
    requires IsRun(c, h) && i < j < |h.steps| && h.steps[i] == FetchFailed(w, f) && h.steps[j] == StartFetch(v)
    requires w < |c.pool.owner| && v < |c.pool.owner| && c.pool.owner[v] == c.pool.owner[w]
    requires forall n | i < n < j :: !FailureOf(c, h.steps[n], c.pool.owner[w])
    ensures StateAt(c, h, j).pool.now >= StateAt(c, h, i).pool.now + BanLength(f)
  {
    BansInRun(c, h, i);
    BanIsKept(c, h, i + 1, j, c.pool.owner[w], StateAt(c, h, i).pool.now + BanLength(f));
    StateNext(c, h, j);
    StartsOnTurn(c, StateAt(c, h, j), h.steps[j], v);
    hide IsRun, StateAt, Inv, Enabled;
    PS.TurnMeans(c.pool, StateAt(c, h, j).pool, v);
  }

  lemma {:induction false} StillWaits(c: Setup, h: History, i: nat, j: nat, k: int, time: real)
    requires IsRun(c, h) && i <= j <= |h.steps| && k >= 0 && Waits(StateAt(c, h, i).pool, k, time)
    ensures Waits(StateAt(c, h, j).pool, k, time) || StateAt(c, h, j).pool.now >= time
    decreases j - i
  {
    hide IsRun, StateAt, Waits, P.Inv, P.Apply, P.Enabled;
    if i < j {
      StillWaits(c, h, i, j - 1, k, time);
      PoolNext(c, h, j - 1);
      TimeGoesOn(c, h, j - 1, j);
      if OnPool(h.steps[j - 1]) && StateAt(c, h, j - 1).pool.now < time {
        WaitsOn(c.pool, StateAt(c, h, j - 1).pool, PoolPart(h.steps[j - 1]), k, time);
      }
    }
  }

  /** No chunk is fetched again before the wait that its failure earned: 1, 2, 4, 8 and 16 seconds. */
  lemma RetriesAreSpaced(c: Setup, h: History, i: nat, j: nat, w: nat, f: Failure, v: nat)
    requires IsRun(c, h) && i < j < |h.steps| && h.steps[i] == FetchFailed(w, f) && h.steps[j] == StartFetch(v)
    requires w < |StateAt(c, h, i).pool.workers| && StateAt(c, h, i).pool.workers[w].Fetching?
    requires StateAt(c, h, j).pool.queue != []
    requires StateAt(c, h, j).pool.queue[0].chunk == StateAt(c, h, i).pool.workers[w].item.chunk
    ensures StateAt(c, h, j).pool.now
         >= StateAt(c, h, i).pool.now + RetryWait(StateAt(c, h, i).pool.workers[w].item.retries)
  {
    hide IsRun, StateAt, P.Inv, P.Apply, P.Enabled, P.TurnOf, Enabled, Apply, Inv, RetryWait, Waits;
    PoolNext(c, h, i);
    PoolNext(c, h, j);
    StateNext(c, h, j);
    var it := StateAt(c, h, i).pool.workers[w].item;
    StartsOnTurn(c, StateAt(c, h, j), h.steps[j], v);
    FailedWaits(c.pool, StateAt(c, h, i).pool, w, f);
    var time := StateAt(c, h, i).pool.now + RetryWait(it.retries);
    StillWaits(c, h, i + 1, j, it.chunk, time);
    PS.TurnStarts(c.pool, StateAt(c, h, j).pool, v);
    if StateAt(c, h, j).pool.now < time {
      HeadWaits(StateAt(c, h, j).pool, it.chunk, time);
    }
  }

  lemma HeadWaits(s: P.Pool, k: int, time: real)
    requires Waits(s, k, time) && s.queue != [] && s.queue[0].chunk == k
    ensures s.queue[0].due >= time
  {
  }
}
