/** The whole download keeps its invariant over every run, and what that means for the file. */
module EngineSafety {
  import opened Tiling
  import opened Disk
  import opened Engine
  import S = Store
  import P = Pool
  import SS = StoreSafety
  import PS = PoolSafety

  /** The writer thread moves no attempt and finishes no chunk. */
  lemma ThreadMoves(s: S.Store)
    ensures s.queue != [] ==> S.TakeNext(s).attempts == s.attempts && S.TakeNext(s).Taken() == s.Taken()
    ensures forall n: nat | s.phase.Writing? && s.phase.cmd.Write? && 0 < n <= |s.phase.cmd.data| - s.phase.written ::
              S.WritePart(s, n).attempts == s.attempts && S.WritePart(s, n).Taken() == s.Taken()
  {
  }

  /** How a store step moves the attempts and the chunks that are finished or lost. */
  lemma AttemptsMove(p: S.Setup, s: S.Store, a: S.Action)
    requires S.Inv(p, s) && S.Enabled(p, s, a) && !a.Begin? && !a.Close?
    ensures var t := S.Apply(p, s, a);
            && t.attempts.Keys == s.attempts.Keys && s.Taken() <= t.Taken()
            && (forall v | v in s.attempts ::
                  && t.attempts[v].chunk == s.attempts[v].chunk
                  && t.attempts[v].live == (s.attempts[v].live && a != S.Kill(v))
                  && (s.attempts[v].call.Marked? ==> t.attempts[v].call.Marked?)
                  && (t.attempts[v].call.Marked? ==> s.attempts[v].call.Marked? || t.attempts[v].chunk in t.Taken()))
            && (forall k | k in t.Taken() && k !in s.Taken() ::
                  exists v :: v in t.attempts && t.attempts[v].chunk == k && t.attempts[v].call.Marked?)
  {
    hide Start, Length, S.AllFinished, S.AllCommands, S.Exclusive, ExecAll, Patch, Resize, Holds, S.TakeNext, S.WritePart;
    var t := S.Apply(p, s, a);
    if a.Take? || a.PWrite? {
      ThreadMoves(s);
    }
    if a.Put? || a.Drop? {
      assert S.AttemptInv(p, s.Taken(), s.stop, s.Image(), s.attempts[a.w]);
      assert S.CallInv(p, s.attempts[a.w]);
    }
    TakenMoves(s, a, p);
    if a.Put? || a.Drop? || a.MapMark? {
      var u := t.attempts[a.w];
      assert a.w in t.attempts && (u.chunk in t.Taken() && u.chunk !in s.Taken() ==> u.call.Marked?);
    }
  }

  lemma TakenMoves(s: S.Store, a: S.Action, p: S.Setup)
    requires S.Inv(p, s) && S.Enabled(p, s, a)
    ensures S.Apply(p, s, a).Taken() >= s.Taken()
    ensures forall k | k in S.Apply(p, s, a).Taken() && k !in s.Taken() ::
              (a.Put? || a.Drop? || a.MapMark?) && k == s.attempts[a.w].chunk
  {
    hide Start, Length, S.Inv, ExecAll, Patch, Resize, Holds;
  }

  lemma WorkerLinkStep(c: Setup, e: Engine, a: Action, w: nat)
    requires Inv(c, e) && Enabled(c, e, a)
    ensures WorkerLink(Apply(c, e, a), w)
  {
    hide S.Inv, P.Inv, S.Apply, P.Apply, S.Enabled, P.TurnOf, QuitLink, CompletedLink, TakenLink;
    PartsEnabled(c, e, a);
    assert WorkerLink(e, w);
    if OnPool(a) {
      PS.AfterQueue(c.pool, e.pool, PoolPart(a));
      PS.AfterSets(c.pool, e.pool, PoolPart(a));
    }
    if OnStore(a) {
      AttemptsAfter(c, e, a);
    }
  }

  /** The store's half of a step, as far as the links see it. */
  lemma AttemptsAfter(c: Setup, e: Engine, a: Action)
    requires Inv(c, e) && Enabled(c, e, a) && OnStore(a)
    ensures var t := Apply(c, e, a).store; var s := e.store;
            && (a.StartFetch? ==> t.attempts == s.attempts[a.w := S.Attempt(e.pool.queue[0].chunk, [], S.Idle, false, true)])
            && (a.FetchDone? || a.FetchFailed? || a.FetchStopped? ==> t.attempts == s.attempts - {a.w})
            && (a.StartFetch? || a.FetchDone? || a.FetchFailed? || a.FetchStopped? ==> t.Taken() == s.Taken())
            && (a.StoreStep? || a.FetchKilled? ==>
                && t.attempts.Keys == s.attempts.Keys && s.Taken() <= t.Taken()
                && (forall v | v in s.attempts ::
                      && t.attempts[v].chunk == s.attempts[v].chunk
                      && t.attempts[v].live == (s.attempts[v].live && a != FetchKilled(v))
                      && (s.attempts[v].call.Marked? ==> t.attempts[v].call.Marked?)
                      && (t.attempts[v].call.Marked? ==> s.attempts[v].call.Marked? || t.attempts[v].chunk in t.Taken()))
                && (forall k | k in t.Taken() && k !in s.Taken() ::
                      exists v :: v in t.attempts && t.attempts[v].chunk == k && t.attempts[v].call.Marked?))
  {
    hide S.Inv, P.Inv, P.Apply, S.TakeNext, S.WritePart, P.TurnOf, Links;
    PartsEnabled(c, e, a);
    if a.StoreStep? || a.FetchKilled? {
      hide S.Apply, S.Enabled;
      AttemptsMove(c.disk, e.store, StorePart(e, a));
    }
  }

  lemma TakenLinkStep(c: Setup, e: Engine, a: Action, k: nat)
    requires Inv(c, e) && Enabled(c, e, a)
    ensures TakenLink(Apply(c, e, a), k)
  {
    hide S.Inv, P.Inv, S.Apply, P.Apply, S.Enabled, P.TurnOf, QuitLink, CompletedLink;
    var f := Apply(c, e, a);
    PartsEnabled(c, e, a);
    assert TakenLink(e, k);
    if OnPool(a) {
      PS.AfterSets(c.pool, e.pool, PoolPart(a));
    }
    if OnStore(a) {
      AttemptsAfter(c, e, a);
    }
    if k in e.store.Taken() && exists w: nat :: Returning(e, w, k) {
      var w: nat :| Returning(e, w, k);
      assert WorkerLink(e, w);
      assert Returning(f, w, k) || a == FetchDone(w) || a == FetchKilled(w);
    } else if k in f.store.Taken() && k !in e.store.Taken() {
      var v :| v in f.store.attempts && f.store.attempts[v].chunk == k && f.store.attempts[v].call.Marked?;
      WorkerLinkStep(c, e, a, v);
      assert f.store.attempts[v].live ==> Returning(f, v, k);
    }
  }

  lemma CompletedLinkStep(c: Setup, e: Engine, a: Action)
    requires Inv(c, e) && Enabled(c, e, a)
    ensures CompletedLink(c, Apply(c, e, a))
  {
    hide S.Inv, P.Inv, S.Apply, P.Apply, S.Enabled, P.TurnOf, QuitLink, TakenLink;
    PartsEnabled(c, e, a);
    if OnPool(a) {
      PS.AfterSets(c.pool, e.pool, PoolPart(a));
    }
    if OnStore(a) {
      AttemptsAfter(c, e, a);
    }
    if a.FetchDone? {
      assert WorkerLink(e, a.w);
    }
  }

  /** Once the pool reports completion, no attempt is left, not even that of a cancelled task. */
  lemma NoAttemptsLeft(c: Setup, e: Engine)
    requires Inv(c, e) && e.pool.verdict == P.Decided(true)
    ensures e.store.attempts == map[]
  {
    hide P.Accounted, Start, Length;
    forall w ensures w !in e.store.attempts {
      if w in e.store.attempts {
        assert WorkerLink(e, w);
        assert S.AttemptInv(c.disk, e.store.Taken(), e.store.stop, e.store.Image(), e.store.attempts[w]);
        PS.CompletedIsDone(c.pool, e.pool, e.store.attempts[w].chunk);
        assert false;
      }
    }
  }

  /** The pending commands after a store step. */
  lemma PendingMoves(p: S.Setup, s: S.Store, a: S.Action)
    requires S.Inv(p, s) && S.Enabled(p, s, a)
    ensures var t := S.Apply(p, s, a);
            || t.Pending() == s.Pending()
            || (a.Put? && t.Pending() == s.Pending() + [s.attempts[a.w].call.cmd])
            || (a.PutQuit? && t.Pending() == s.Pending() + [Quit])
            || (s.Pending() != [] && t.Pending() == s.Pending()[1..])
    ensures var t := S.Apply(p, s, a);
            t.phase.Drained? ==> s.phase.Drained? || (s.Pending() != [] && s.Pending()[0].Quit? && t.Pending() == s.Pending()[1..])
  {
    hide Start, Length, ExecAll, Patch, Resize, Holds, S.AllFinished, S.AllAttempts, S.Exclusive;
    if a.Take? {
      assert S.CommandInv(p, s.finished.Keys, s.Pending()[0]);
    }
  }

  lemma QuitLinkStep(c: Setup, e: Engine, a: Action)
    requires Inv(c, e) && Enabled(c, e, a)
    ensures QuitLink(Apply(c, e, a))
  {
    hide S.Inv, P.Inv, S.Apply, TakenLink, CompletedLink, WorkerLink;
    PartsEnabled(c, e, a);
    var f := Apply(c, e, a);
    if a.Ask? {
    } else if a.StoreStep? {
      PendingMoves(c.disk, e.store, a.s);
      if a.s.Put? {
        PutIsNoQuit(c, e, a.s.w);
        if e.pool.verdict == P.Decided(true) {
          NoAttemptsLeft(c, e);
        }
      }
    } else {
      VerdictMoves(c, e, a);
    }
  }

  lemma PutIsNoQuit(c: Setup, e: Engine, w: nat)
    requires Inv(c, e) && S.Enabled(c.disk, e.store, S.Put(w))
    ensures !e.store.attempts[w].call.cmd.Quit?
  {
    assert S.AttemptInv(c.disk, e.store.Taken(), e.store.stop, e.store.Image(), e.store.attempts[w]);
  }

  lemma VerdictMoves(c: Setup, e: Engine, a: Action)
    requires Inv(c, e) && Enabled(c, e, a) && OnPool(a)
    ensures var f := Apply(c, e, a);
            && f.store.Pending() == e.store.Pending() && f.store.phase == e.store.phase
            && (f.pool.verdict == e.pool.verdict || e.pool.verdict.Undecided?)
            && (f.pool.verdict.Undecided? ==> e.pool.verdict.Undecided?)
  {
    hide S.Inv, P.Inv, TakenLink, CompletedLink, WorkerLink, QuitLink, P.PullItem, P.FailItem, P.TurnOf, S.TakeNext, S.WritePart;
    PartsEnabled(c, e, a);
    PS.AfterFlags(c.pool, e.pool, PoolPart(a));
  }

  /** A step of the store that discards something is one of a live attempt that found the flag set. */
  lemma LostMoves(p: S.Setup, s: S.Store, a: S.Action)
    requires S.Inv(p, s) && S.Enabled(p, s, a)
    ensures var t := S.Apply(p, s, a);
            && (t.lost != s.lost ==> a.Drop? && s.stop && a.w in s.attempts && s.attempts[a.w].live)
            && (t.stop && !s.stop ==> a.SetStop? || t.phase.Failed?)
            && (s.phase.Failed? ==> t.phase.Failed?)
  {
    hide Start, Length, S.Inv, ExecAll, Patch, Resize, Holds;
  }

  /** While a worker is inside a fetch, join has not returned, unless for a stop. */
  lemma FetchingIsBeforeJoin(c: Setup, e: Engine, w: nat)
    requires Inv(c, e) && w in e.store.attempts && e.store.attempts[w].live
    ensures e.pool.joined || e.pool.verdict.Decided? ==> e.pool.stop
  {
    hide S.Inv, P.Accounted, QuitLink, TakenLink, CompletedLink;
    assert WorkerLink(e, w);
    var it := e.pool.workers[w].item;
    assert P.HeldInv(c.pool, e.pool, it);
    PS.OnePlace(c.pool, e.pool, it.chunk);
  }

  lemma CauseLinkStep(c: Setup, e: Engine, a: Action)
    requires Inv(c, e) && Enabled(c, e, a)
    ensures CauseLink(Apply(c, e, a))
  {
    hide S.Inv, P.Inv, S.Apply, P.Apply, TakenLink, CompletedLink, WorkerLink, QuitLink;
    PartsEnabled(c, e, a);
    if OnPool(a) {
      PS.AfterFlags(c.pool, e.pool, PoolPart(a));
    }
    if OnStore(a) {
      LostMoves(c.disk, e.store, StorePart(e, a));
      if a.StoreStep? && a.s.Drop? {
        FetchingIsBeforeJoin(c, e, a.s.w);
        if e.pool.verdict == P.Decided(true) {
          NoAttemptsLeft(c, e);
        }
      }
    }
  }

  /** Every step of every interleaving keeps the invariant, and freezes what is on disk. */
  lemma Step(c: Setup, e: Engine, a: Action)
    requires Inv(c, e) && Enabled(c, e, a)
    ensures Inv(c, Apply(c, e, a))
    ensures S.Guarantee(c.disk, e.store, Apply(c, e, a).store)
    ensures e.pool.completed <= Apply(c, e, a).pool.completed
  {
    hide S.Inv, P.Inv, WorkerLink, TakenLink, CompletedLink, QuitLink, CauseLink, S.Apply, P.Apply, S.Enabled, P.Enabled,
         Enabled;
    PartsEnabled(c, e, a);
    if OnPool(a) {
      PS.Step(c.pool, e.pool, PoolPart(a));
      PS.AfterSets(c.pool, e.pool, PoolPart(a));
    }
    if OnStore(a) {
      SS.Step(c.disk, e.store, StorePart(e, a));
    }
    forall w: nat ensures WorkerLink(Apply(c, e, a), w) { WorkerLinkStep(c, e, a, w); }
    forall k: nat ensures TakenLink(Apply(c, e, a), k) { TakenLinkStep(c, e, a, k); }
    CompletedLinkStep(c, e, a);
    QuitLinkStep(c, e, a);
    CauseLinkStep(c, e, a);
  }
}
