/**
 * The whole download: worker pool, fetch attempts, write queue and writer thread in one state
 * machine, in which every interleaving of their steps is a run.
 */
module Engine {
  import opened Disk
  import S = Store
  import P = Pool
  import PS = PoolSafety
  import H = Health

  datatype Setup = Setup(disk: S.Setup, pool: P.Setup) {
    ghost predicate Valid() {
      disk.Valid() && pool.chunks == disk.Chunks()
    }
  }

  /**
   * `store.stop` is the flag of the threads, `pool.stop` the event of the event loop. stop() and
   * cancel() first queue a callback that sets the event and then set the flag; `asked` says that
   * they have queued it. The loop runs callbacks in order, so run() cannot get to its verdict before
   * a callback that was queued before its own wake-up was: `ahead` says that there is one.
   */
  datatype Engine = Engine(pool: P.Pool, store: S.Store, asked: bool, ahead: bool)

  datatype Action =
    | PoolStep(p: P.Action)              // a step without a fetch
    | StoreStep(s: S.Action)             // a step inside a fetch, or of the writer thread
    | Ask                                // stop() or cancel() queues its callback
    | StartFetch(w: nat)
    | FetchDone(w: nat)                  // fetch returned: the chunk is added to completed_set
    | FetchFailed(w: nat, e: H.Failure)
    | FetchStopped(w: nat)               // StoppedException
    | FetchKilled(w: nat)                // the worker's task is cancelled inside fetch

  predicate OnPool(a: Action) { !a.StoreStep? && !a.Ask? }
  predicate OnStore(a: Action) { !a.PoolStep? && !a.Ask? }

  /**
   * Why the threads' flag may be set: by stop() or cancel() behind their callback, by the pool when
   * it gives up, or by start() behind the verdict. An I/O error of the writer is the step Fault.
   */
  predicate MayRaiseFlag(e: Engine) {
    e.asked || e.pool.stop || e.pool.verdict.Decided?
  }

  ghost predicate Enabled(c: Setup, e: Engine, a: Action)
    requires c.Valid()
  {
    match a
    case PoolStep(p) =>
      && P.Enabled(c.pool, e.pool, p)
      && (p.Pull? ==> !P.TurnOf(c.pool, e.pool, p.w).StartFetch?)
      && !p.Ok? && !p.Fail? && !p.Halt? && (p.Cancel? ==> !e.pool.workers[p.w].Fetching?)
      && (p.Decide? && p.seen && e.ahead ==> e.pool.stop)
    case StoreStep(s) =>
      && !s.Begin? && !s.Close? && !s.Kill? && (s.PutQuit? ==> e.pool.verdict.Decided?)
      && (s.SetStop? ==> MayRaiseFlag(e))
      && S.Enabled(c.disk, e.store, s)
    case Ask => true
    case StartFetch(w) => P.Enabled(c.pool, e.pool, P.Pull(w)) && P.TurnOf(c.pool, e.pool, w).StartFetch?
    case FetchDone(w) => P.Enabled(c.pool, e.pool, P.Ok(w)) && w in e.store.attempts && e.store.attempts[w].call.Marked?
    case FetchFailed(w, f) => P.Enabled(c.pool, e.pool, P.Fail(w, f)) && w in e.store.attempts && e.store.attempts[w].call.Idle?
    case FetchStopped(w) => P.Enabled(c.pool, e.pool, P.Halt(w)) && w in e.store.attempts && e.store.attempts[w].call.Idle?
    case FetchKilled(w) => P.Enabled(c.pool, e.pool, P.Cancel(w)) && e.pool.workers[w].Fetching?
  }

  /** The pool's part of a step, if it has one. */
  function PoolPart(a: Action): P.Action
    requires OnPool(a)
  {
    match a
    case PoolStep(p) => p
    case StartFetch(w) => P.Pull(w)
    case FetchDone(w) => P.Ok(w)
    case FetchFailed(w, f) => P.Fail(w, f)
    case FetchStopped(w) => P.Halt(w)
    case FetchKilled(w) => P.Cancel(w)
  }

  /** The store's part of a step, if it has one. */
  ghost function StorePart(e: Engine, a: Action): S.Action
    requires OnStore(a)
    requires a.StartFetch? ==> e.pool.queue != [] && e.pool.queue[0].chunk >= 0
  {
    match a
    case StoreStep(s) => s
    case StartFetch(w) => S.Begin(w, e.pool.queue[0].chunk)
    case FetchKilled(w) => S.Kill(w)
    case FetchDone(w) => S.Close(w)
    case FetchFailed(w, _) => S.Close(w)
    case FetchStopped(w) => S.Close(w)
  }

  /** Worker w's fetch and its attempt go together; an attempt without one is that of a cancelled task. */
  ghost predicate WorkerLink(e: Engine, w: nat) {
    && (w < |e.pool.workers| && e.pool.workers[w].Fetching? ==>
        w in e.store.attempts && e.store.attempts[w].live && e.store.attempts[w].chunk == e.pool.workers[w].item.chunk)
    && (w in e.store.attempts ==>
        && w < |e.pool.workers|
        && (e.store.attempts[w].live ==> e.pool.workers[w].Fetching?)
        && (!e.store.attempts[w].live ==> e.pool.workers[w].Exited? && e.store.attempts[w].chunk in e.pool.gone)
        && (e.store.attempts[w].call.Marked? ==> e.store.attempts[w].chunk in e.store.Taken()))
  }

  /** Worker w's fetch has marked chunk c and is about to return. */
  ghost predicate Returning(e: Engine, w: nat, c: nat) {
    w in e.store.attempts && e.store.attempts[w].chunk == c && e.store.attempts[w].call.Marked? && e.store.attempts[w].live
  }

  /** A chunk whose mark was queued or discarded is completed, about to be, or gone. */
  ghost predicate TakenLink(e: Engine, c: nat) {
    c in e.store.Taken() ==> c in e.pool.completed || c in e.pool.gone || exists w: nat :: Returning(e, w, c)
  }

  ghost predicate CompletedLink(c: Setup, e: Engine) {
    forall k: nat | k in e.pool.completed && k < c.pool.chunks :: k in e.store.Taken()
  }

  /** The sentinel is queued once the pool is done, so only sentinels follow it when all is complete. */
  ghost predicate QuitLink(e: Engine) {
    var pending := e.store.Pending();
    && (e.pool.verdict.Undecided? ==> !e.store.phase.Drained? && Quit !in pending)
    && (e.pool.verdict == P.Decided(true) ==>
        && (forall i, j | 0 <= i < j < |pending| && pending[i].Quit? :: pending[j].Quit?)
        && (e.store.phase.Drained? ==> forall i | 0 <= i < |pending| :: pending[i].Quit?))
  }

  /**
   * The threads' flag has a cause, and so has a discarded mark; behind a verdict of completion only
   * an I/O error of the writer can have been that cause.
   */
  ghost predicate CauseLink(e: Engine) {
    && (e.asked ==> e.ahead || e.pool.joined)
    && (e.store.stop ==> e.store.phase.Failed? || MayRaiseFlag(e))
    && (e.store.lost != {} ==> e.store.phase.Failed? || e.pool.stop || e.ahead)
    && (e.pool.verdict == P.Decided(true) ==>
        e.pool.joined && !e.ahead && (e.store.lost != {} ==> e.store.phase.Failed?))
  }

  ghost predicate Links(c: Setup, e: Engine) {
    && (forall w: nat :: WorkerLink(e, w))
    && (forall k: nat :: TakenLink(e, k))
    && CompletedLink(c, e)
    && QuitLink(e)
    && CauseLink(e)
  }

  ghost predicate Inv(c: Setup, e: Engine) {
    c.Valid() && P.Inv(c.pool, e.pool) && S.Inv(c.disk, e.store) && Links(c, e)
  }

  // ---- the two halves of a step fit together ----

  /** The pool only ever starts a fetch of a chunk that nobody works on, finished or lost. */
  lemma StartsFresh(c: Setup, e: Engine, w: nat)
    requires Inv(c, e) && Enabled(c, e, StartFetch(w))
    ensures var k := e.pool.queue[0].chunk;
            0 <= k < c.pool.chunks && w !in e.store.attempts && S.Fresh(e.store, k)
  {
    hide S.Inv;
    var it := e.pool.queue[0];
    assert P.QueuedInv(c.pool, e.pool, it);
    PS.TurnStarts(c.pool, e.pool, w);
    PS.OnePlace(c.pool, e.pool, it.chunk);
    assert WorkerLink(e, w);
    forall v | v in e.store.attempts ensures e.store.attempts[v].chunk != it.chunk {
      assert WorkerLink(e, v);
    }
    assert TakenLink(e, it.chunk);
  }

  lemma PartsEnabled(c: Setup, e: Engine, a: Action)
    requires Inv(c, e) && Enabled(c, e, a)
    ensures OnPool(a) ==> P.Enabled(c.pool, e.pool, PoolPart(a))
    ensures a.StartFetch? ==> e.pool.queue != [] && e.pool.queue[0].chunk >= 0
    ensures OnStore(a) ==> S.Enabled(c.disk, e.store, StorePart(e, a))
    ensures OnStore(a) && StorePart(e, a).Begin? ==> S.Fresh(e.store, StorePart(e, a).c)
  {
    hide S.Inv, P.Inv;
    match a
    case StartFetch(w) => StartsFresh(c, e, w);
    case FetchDone(w) => assert WorkerLink(e, w);
    case FetchFailed(w, _) => assert WorkerLink(e, w);
    case FetchStopped(w) => assert WorkerLink(e, w);
    case FetchKilled(w) => assert WorkerLink(e, w);
    case _ =>
  }

  ghost function Apply(c: Setup, e: Engine, a: Action): Engine
    requires Inv(c, e) && Enabled(c, e, a)
  {
    PartsEnabled(c, e, a);
    Engine(if OnPool(a) then P.Apply(c.pool, e.pool, PoolPart(a)) else e.pool,
           if OnStore(a) then S.Apply(c.disk, e.store, StorePart(e, a)) else e.store,
           e.asked || a.Ask?,
           e.ahead || (a.Ask? && !e.pool.joined))
  }
}
