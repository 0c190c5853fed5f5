/** The worker pool's own code, step by step, proved against the state machine in Pool. */
module WorkerPool {
  import opened ChunkQueue
  import opened Health
  import P = Pool
  import PS = PoolSafety

  /** How a call of fetch ended. */
  datatype FetchEnd = Fetched | Stopped | Failed(e: Failure)

  class WorkerPool {
    const setup: P.Setup
    const health: MirrorHealthTracker
    var chunkQueue: seq<Item>
    var unfinished: int
    var completedSet: set<int>
    var stopEvent: bool
    var stopEventThread: bool
    var lastError: bool
    var phases: seq<P.Phase>
    var joined: bool
    var verdict: P.Verdict
    var clock: real
    ghost var gone: set<int>
    ghost var starts: map<int, nat>
    ghost var fails: map<int, nat>
    ghost var spent: nat

    ghost function View(): P.Pool
      reads this, health
    {
      P.Pool(chunkQueue, phases, completedSet, gone, unfinished, stopEvent, joined, verdict, clock, health.banned,
             starts, fails, spent)
    }

    constructor (setup: P.Setup, queue: seq<Item>, completed: set<int>, health: MirrorHealthTracker, clock: real)
      ensures this.setup == setup && this.health == health
      ensures View() == P.Pool(queue, seq(|setup.owner|, _ => P.Ready), completed, {}, |queue|, false, false, P.Undecided,
                               clock, health.banned, map[], map[], 0)
      ensures !lastError && !stopEventThread
    {
      this.setup, this.health, this.clock := setup, health, clock;
      chunkQueue, unfinished, completedSet := queue, |queue|, completed;
      stopEvent, stopEventThread, lastError, joined, verdict := false, false, false, false, P.Undecided;
      phases := seq(|setup.owner|, _ => P.Ready);
      gone, starts, fails, spent := {}, map[], map[], 0;
    }

    method Put(item: Item)
      modifies this`chunkQueue, this`unfinished
      ensures chunkQueue == Insert(old(chunkQueue), item) && unfinished == old(unfinished) + 1
    {
      chunkQueue := Insert(chunkQueue, item);
      unfinished := unfinished + 1;
    }

    method EveryMirrorBanned() returns (all: bool)
      ensures all <==> AllBanned(health.banned, setup.sources, clock)
    {
      all := true;
      for i := 0 to |setup.sources|
        invariant all <==> forall k | 0 <= k < i :: IsBanned(health.banned, setup.sources[k], clock)
      {
        all := all && IsBanned(health.banned, setup.sources[i], clock);
      }
    }

    /** The worker's mirror is banned: with every mirror banned it gives up, else it puts the item back. */
    method MeetBan(w: nat, item: Item)
      requires w < |phases|
      modifies this`chunkQueue, this`unfinished, this`phases, this`gone, this`lastError, this`stopEvent, this`stopEventThread
      ensures var all := AllBanned(health.banned, setup.sources, clock);
              && phases == old(phases)[w := if all then P.Exited else P.Releasing]
              && chunkQueue == (if all then old(chunkQueue) else Insert(old(chunkQueue), item))
              && unfinished == old(unfinished) + (if all then -1 else 1)
              && gone == old(gone) + (if all then {item.chunk} else {})
              && lastError == (old(lastError) || all) && stopEvent == (old(stopEvent) || all)
              && stopEventThread == (old(stopEventThread) || all)
    {
      var allBanned := EveryMirrorBanned();
      if allBanned {
        lastError, stopEvent, stopEventThread := true, true, true;
        phases, unfinished := phases[w := P.Exited], unfinished - 1;
        gone := gone + {item.chunk};
      } else {
        Put(item);
        phases := phases[w := P.Releasing];
      }
    }

    /** An item is off the queue: what the worker does about it. */
    method ActOn(w: nat)
      requires P.Enabled(setup, View(), P.Pull(w))
      modifies this
      ensures View() == P.PullItem(setup, old(View()), w)
      ensures var gaveUp := P.TurnOf(setup, old(View()), w).GiveUp?;
              lastError == (old(lastError) || gaveUp) && stopEventThread == (old(stopEventThread) || gaveUp)
    {
      hide Insert, IsBanned, AllBanned, P.Count, P.Pow2, P.FailItem, P.CancelWorker, P.Apply, InsertMany;
      var item := chunkQueue[0];
      chunkQueue := chunkQueue[1..];
      if item.chunk == STOP_SENTINEL {
        phases, unfinished := phases[w := P.Exited], unfinished - 1;
      } else if clock < item.due {
        Put(item);
        phases := phases[w := P.Releasing];
      } else if IsBanned(health.banned, setup.owner[w], clock) {
        MeetBan(w, item);
      } else {
        phases := phases[w := P.Fetching(item)];
        starts := starts[item.chunk := P.Count(starts, item.chunk) + 1];
      }
    }

    /**
     * The body of the worker loop from get on, up to the next await or the exit: a fetch starts exactly
     * for a due chunk while the worker's mirror is not banned; the worker gives up exactly when every
     * mirror is; in all other cases a chunk goes back.
     */
    method TakeTurn(w: nat)
      requires P.Enabled(setup, View(), P.Pull(w))
      modifies this
      ensures View() == P.PullItem(setup, old(View()), w)
      ensures var it := old(chunkQueue)[0];
              var due := it.chunk != -1 && it.due <= clock;
              var mine := PS.Free(health.banned, setup.owner[w], clock);
              var some := exists i :: 0 <= i < |setup.sources| && PS.Free(health.banned, setup.sources[i], clock);
              && (phases[w] == P.Fetching(it) <==> due && mine)
              && (phases[w] == P.Releasing <==> it.chunk != -1 && (!due || (!mine && some)))
              && (phases[w] == P.Exited <==> it.chunk == -1 || (due && !mine && !some))
              && lastError == (old(lastError) || (due && !mine && !some))
              && stopEventThread == (old(stopEventThread) || (due && !mine && !some))
    {
      PS.TurnMeans(setup, View(), w);
      PS.AfterPull(setup, View(), w);
      hide PS.Free, P.TurnOf, P.PullItem, P.Enabled;
      ActOn(w);
    }

    method HandleChunkFailure(chunk: int, retries: nat)
      modifies this`chunkQueue, this`unfinished, this`stopEvent, this`stopEventThread, this`lastError, this`gone
      ensures if old(stopEvent) || retries >= P.MAX_RETRIES then
                chunkQueue == old(chunkQueue) && unfinished == old(unfinished) && gone == old(gone) + {chunk} && stopEvent
              else
                && chunkQueue == Insert(old(chunkQueue), Item(clock + P.Backoff(retries), chunk, retries + 1))
                && unfinished == old(unfinished) + 1 && gone == old(gone) && !stopEvent
      ensures lastError == (old(lastError) || (!old(stopEvent) && retries >= P.MAX_RETRIES))
      ensures stopEventThread == (old(stopEventThread) || (!old(stopEvent) && retries >= P.MAX_RETRIES))
    {
      if !stopEvent {
        if retries < P.MAX_RETRIES {
          Put(Item(clock + P.Backoff(retries), chunk, retries + 1));
        } else {
          lastError := true;
          gone := gone + {chunk};
          stopEvent, stopEventThread := true, true;
        }
      } else {
        gone := gone + {chunk};
      }
    }

    /** fetch has raised: the mirror is banned for a while, and the chunk is retried or given up. */
    method FetchFailed(w: nat, e: Failure)
      requires w < |phases| && w < |setup.owner| && phases[w].Fetching?
      modifies this, health
      ensures View() == P.FailItem(setup, old(View()), w, e)
      ensures var aborts := !old(stopEvent) && old(phases)[w].item.retries >= P.MAX_RETRIES;
              lastError == (old(lastError) || aborts) && stopEventThread == (old(stopEventThread) || aborts)
    {
      hide Insert, P.Backoff, P.Count, BanSeconds, Recorded, IsBanned;
      var item := phases[w].item;
      health.RecordFailure(e, setup.owner[w], clock);
      HandleChunkFailure(item.chunk, item.retries);
      phases := phases[w := P.Releasing];
      fails, spent := fails[item.chunk := P.Count(fails, item.chunk) + 1], spent + 1;
    }

    /** What _process_chunk does once fetch has returned or raised. */
    method ProcessChunk(w: nat, end: FetchEnd)
      requires w < |phases| && w < |setup.owner| && phases[w].Fetching? && (end.Stopped? ==> stopEvent)
      modifies this, health
      ensures View() == match end
                        case Fetched => P.Apply(setup, old(View()), P.Ok(w))
                        case Stopped => P.Apply(setup, old(View()), P.Halt(w))
                        case Failed(e) => P.Apply(setup, old(View()), P.Fail(w, e))
      ensures var aborts := end.Failed? && !old(stopEvent) && old(phases)[w].item.retries >= P.MAX_RETRIES;
              lastError == (old(lastError) || aborts) && stopEventThread == (old(stopEventThread) || aborts)
    {
      hide P.FailItem, P.PullItem, P.CancelWorker, InsertMany;
      var item := phases[w].item;
      match end
      case Fetched =>
        if item.chunk !in completedSet {
          completedSet := completedSet + {item.chunk};
        }
        assert completedSet == old(completedSet) + {item.chunk};
        phases, spent := phases[w := P.Releasing], spent + 1;
      case Stopped =>
        gone := gone + {item.chunk};
        phases, spent := phases[w := P.Releasing], spent + 1;
      case Failed(e) =>
        FetchFailed(w, e);
    }

    /** queue.task_done in the finally clause. */
    method TaskDone(w: nat)
      requires w < |phases| && phases[w].Releasing?
      modifies this
      ensures View() == P.Apply(setup, old(View()), P.Release(w))
    {
      phases, unfinished := phases[w := P.Ready], unfinished - 1;
    }

    /**
     * The worker is cancelled at its await, because run has waited two seconds for it or is cancelled
     * itself: the finally clause still reports an item that it has taken as done.
     */
    method Cancelled(w: nat)
      requires P.Enabled(setup, View(), P.Cancel(w))
      modifies this
      ensures View() == P.Apply(setup, old(View()), P.Cancel(w))
    {
      hide Insert, InsertMany, P.FailItem, P.PullItem;
      match phases[w] {
        case Fetching(item) => gone, unfinished := gone + {item.chunk}, unfinished - 1;
        case Releasing => unfinished := unfinished - 1;
        case _ =>
      }
      phases := phases[w := P.Exited];
    }

    /** The end of run: `seen` says that the join task is among the done ones. */
    method Conclude(seen: bool) returns (isComplete: bool)
      requires P.Enabled(setup, View(), P.Decide(seen))
      modifies this
      ensures View() == P.Apply(setup, old(View()), P.Decide(seen))
      ensures isComplete <==> seen && !stopEvent
    {
      isComplete := seen && !stopEvent;
      verdict := P.Decided(isComplete);
      for i := 0 to |phases|
        modifies this`chunkQueue, this`unfinished
        invariant chunkQueue == InsertMany(old(chunkQueue), Item(0.0, STOP_SENTINEL, 0), i)
        invariant unfinished == old(unfinished) + i
      {
        Put(Item(0.0, STOP_SENTINEL, 0));
      }
    }
  }
}
