/** The downloader's states, and start() under any interleaving with pause, resume, stop and cancel. */
module Lifecycle {
  import opened Hasher

  datatype DownloadState = Idle | Probing | Downloading | Paused | Completed | Failed | Cancelled

  function ValidTransitions(s: DownloadState): set<DownloadState> {
    match s
    case Idle => {Probing, Cancelled}
    case Probing => {Downloading, Failed, Cancelled}
    case Downloading => {Paused, Completed, Failed, Cancelled}
    case Paused => {Downloading, Completed, Cancelled}
    case Completed => {}
    case Failed => {}
    case Cancelled => {}
  }

  predicate Terminal(s: DownloadState) { s.Completed? || s.Failed? || s.Cancelled? }

  /** Every change of state is in the table. */
  predicate Follows(trace: seq<DownloadState>) {
    forall i | 0 <= i < |trace| - 1 :: trace[i + 1] in ValidTransitions(trace[i])
  }

  /**
   * The table, read backwards: which states each state can be entered from. A download completes only
   * out of DOWNLOADING or PAUSED, fails only out of PROBING or DOWNLOADING, and nothing leads to IDLE.
   */
  lemma EnteredFrom(a: DownloadState, b: DownloadState)
    ensures b in ValidTransitions(a) <==>
              match b
              case Idle => false
              case Probing => a == Idle
              case Downloading => a == Probing || a == Paused
              case Paused => a == Downloading
              case Completed => a == Downloading || a == Paused
              case Failed => a == Probing || a == Downloading
              case Cancelled => a == Idle || a == Probing || a == Downloading || a == Paused
  {
  }

  /** Every download that completes has been through PROBING and DOWNLOADING, in this order. */
  lemma CompletedWasDownloading(trace: seq<DownloadState>)
    requires Follows(trace) && |trace| > 0 && trace[0] == Idle && trace[|trace| - 1] == Completed
    ensures |trace| >= 4 && trace[1] == Probing && trace[2] == Downloading
  {
    EnteredFrom(trace[|trace| - 2], Completed);
    assert trace[1] in ValidTransitions(trace[0]);
    EnteredFrom(trace[0], trace[1]);
    if Terminal(trace[1]) {
      TerminalAbsorbs(trace, 1);
    }
    assert trace[2] in ValidTransitions(trace[1]);
    if Terminal(trace[2]) {
      TerminalAbsorbs(trace, 2);
    }
  }

  /** The states without a way out are the last of any trace. */
  lemma TerminalAbsorbs(trace: seq<DownloadState>, i: nat)
    requires Follows(trace) && i < |trace| && Terminal(trace[i])
    ensures i == |trace| - 1
  {
    assert i + 1 < |trace| ==> trace[i + 1] in ValidTransitions(trace[i]);
  }

  /**
   * A call from outside. `Request` is one of them whose own test of the state was passed at an
   * earlier moment, so that only the rest is still to come; `stops` says that it is a stop.
   */
  datatype External = Pause | Resume | Stop | Cancel | Request(to: DownloadState, stops: bool)

  datatype PoolEnd = Complete | Incomplete | TaskCancelled

  predicate Requestable(to: DownloadState) { to.Paused? || to.Downloading? || to.Cancelled? }

  /** The state behind a call: pause, resume and stop look first, cancel is left to the table. */
  function Called(s: DownloadState, x: External): DownloadState {
    match x
    case Pause => if s.Downloading? then Paused else s
    case Resume => if s.Paused? then Downloading else s
    case Stop => if s.Downloading? then Paused else s
    case Cancel => if Terminal(s) then s else Cancelled
    case Request(to, _) => if to in ValidTransitions(s) then to else s
  }

  /** stop and cancel set the threads' flag, unless their transition raises. */
  predicate RaisesFlag(s: DownloadState, x: External) {
    match x
    case Stop => s.Downloading? || s.Paused?
    case Cancel => !Terminal(s)
    case Request(to, stops) => stops && to in ValidTransitions(s)
    case _ => false
  }

  const FIRST_DOWNLOADING := 3

  /**
   * Everything start() meets, and the external calls that fall in between, at each of the points
   * numbered below.
   */
  datatype Env = Env(destinationExists: bool, overwrite: bool, removable: bool, savedState: bool, probeFinds: bool, setupWorks: bool,
                     pool: PoolEnd, writerError: bool, finalized: Finalized, between: nat -> seq<External>)
  {
    ghost predicate QuietFrom(n: nat) { forall i: nat | n <= i :: between(i) == [] }
    ghost predicate Refused() { destinationExists && !overwrite && !savedState }
    /** Pause, resume and stop can only have passed their tests once the state was DOWNLOADING. */
    ghost predicate Sane() {
      forall i: nat, x | x in between(i) && x.Request? :: i >= FIRST_DOWNLOADING && Requestable(x.to)
    }
  }

  datatype Exit =
    | Returned(status: DownloadState, hashMatched: bool)
    | DestinationExists
    | InvalidTransition
    | SetupError
    | TaskCancelledError

  /**
   * How a download ends that nobody pauses, stops or cancels from the pool's end on; `paused` says
   * that it was paused or stopped before. An I/O error of the writer behind a completed pool has
   * already made the state FAILED, and a cancelled task has made it PAUSED: neither state has a
   * transition to the verdict that start() then asks for, and PAUSED has none to FAILED at all.
   * A stopped download whose pool had completed is COMPLETED all the same.
   */
  function Undisturbed(env: Env, paused: bool): Exit {
    if env.writerError && (paused || !env.pool.Incomplete?) then InvalidTransition
    else match env.pool
      case Complete =>
        if env.finalized.Accepted? then Returned(Completed, true)
        else if paused then InvalidTransition
        else Returned(Failed, false)
      case Incomplete => Returned(if paused then Paused else Failed, false)
      case TaskCancelled => TaskCancelledError
  }

  class Downloader {
    var state: DownloadState
    var stateCleared: bool
    var fileRemoved: bool
    var stopEventThread: bool
    ghost var trace: seq<DownloadState>

    ghost predicate Valid() reads this {
      |trace| > 0 && trace[|trace| - 1] == state && Follows(trace)
    }

    constructor ()
      ensures Valid() && state == Idle && trace == [Idle] && !stateCleared && !fileRemoved && !stopEventThread
    {
      state, stateCleared, fileRemoved, stopEventThread, trace := Idle, false, false, false, [Idle];
    }

    /** A transition that is not in the table raises, and changes nothing. */
    method TransitionTo(to: DownloadState) returns (ok: bool)
      requires Valid()
      modifies this`state, this`trace
      ensures Valid() && (ok <==> to in ValidTransitions(old(state)))
      ensures if ok then state == to && trace == old(trace) + [to] else state == old(state) && trace == old(trace)
    {
      ok := to in ValidTransitions(state);
      if ok {
        state, trace := to, trace + [to];
      }
    }

    /** What a call from outside, or several, can do: leave a terminal state alone, reach no verdict. */
    twostate predicate Outside()
      reads this
    {
      && Valid() && old(trace) <= trace && stateCleared == old(stateCleared) && fileRemoved == old(fileRemoved)
      && (old(stopEventThread) ==> stopEventThread)
      && (Terminal(old(state)) ==> state == old(state))
      && (state.Completed? || state.Failed? || state.Idle? || state.Probing? ==> state == old(state))
      && (old(state).Downloading? || old(state).Paused? ==> state.Downloading? || state.Paused? || state.Cancelled?)
    }

    /** A call whose transition is not in the table raises InvalidStateTransition and changes nothing. */
    method Call(x: External) returns (raised: bool)
      requires Valid()
      requires x.Request? ==> Requestable(x.to) && !state.Idle? && !state.Probing?
      modifies this`state, this`trace, this`stopEventThread
      ensures Outside()
      ensures state == Called(old(state), x)
      ensures stopEventThread == (old(stopEventThread) || RaisesFlag(old(state), x))
      ensures x.Pause? ==> !raised && stopEventThread == old(stopEventThread)
                           && state == if old(state) == Downloading then Paused else old(state)
      ensures x.Resume? ==> !raised && stopEventThread == old(stopEventThread)
                            && state == if old(state) == Paused then Downloading else old(state)
      ensures x.Stop? ==> !raised && (old(state) == Downloading || old(state) == Paused ==> state == Paused && stopEventThread)
      ensures x.Stop? && old(state) != Downloading && old(state) != Paused ==>
                state == old(state) && stopEventThread == old(stopEventThread)
      ensures x.Cancel? && !raised ==> state == Cancelled && stopEventThread
      ensures x.Cancel? ==> (raised <==> old(state) == Completed || old(state) == Failed || old(state) == Cancelled)
      ensures raised ==> state == old(state) && stopEventThread == old(stopEventThread)
      ensures raised <==> (x.Cancel? || x.Request?) && (if x.Cancel? then Cancelled else x.to) !in ValidTransitions(old(state))
    {
      var ok := true;
      if RaisesFlag(state, x) {
        stopEventThread := true;
      }
      match x {
        case Pause => if state == Downloading { ok := TransitionTo(Paused); }
        case Resume => if state == Paused { ok := TransitionTo(Downloading); }
        case Stop => if state == Downloading { ok := TransitionTo(Paused); }
        case Cancel => ok := TransitionTo(Cancelled);
        case Request(to, _) => ok := TransitionTo(to);
      }
      raised := !ok;
    }

    /** The external calls of one point, in order; those that raise do so in their caller. */
    method Interfere(calls: seq<External>)
      requires Valid()
      requires forall x | x in calls && x.Request? :: Requestable(x.to) && !state.Idle? && !state.Probing?
      modifies this`state, this`trace, this`stopEventThread
      ensures Outside()
      ensures calls == [] ==> state == old(state) && trace == old(trace) && stopEventThread == old(stopEventThread)
    {
      for i := 0 to |calls|
        invariant Outside()
        invariant i == 0 ==> state == old(state) && trace == old(trace) && stopEventThread == old(stopEventThread)
        invariant !old(state).Idle? && !old(state).Probing? ==> !state.Idle? && !state.Probing?
      {
        assert calls[i] in calls;
        var raised := Call(calls[i]);
      }
    }

    /**
     * The clauses around the pool's run. The state is DOWNLOADING, PAUSED or CANCELLED by now. A
     * transition that raises in the except clause still passes through the finally clause.
     */
    method Settle(env: Env) returns (raised: bool)
      requires Valid() && env.Sane() && (state.Downloading? || state.Paused? || state.Cancelled?)
      modifies this`state, this`trace, this`stopEventThread
      ensures Valid() && old(trace) <= trace
      ensures !state.Idle? && !state.Probing? && !state.Completed?
      ensures !raised && env.writerError ==> state.Failed? || state.Cancelled?
      ensures !raised || !env.pool.Complete? ==> stopEventThread
      ensures env.QuietFrom(4) && !old(state).Cancelled? ==>
                && (raised <==> env.writerError && (env.pool.TaskCancelled? || old(state).Paused?))
                && state == if env.pool.TaskCancelled? || old(state).Paused? then Paused
                            else if env.writerError || env.pool.Incomplete? then Failed
                            else Downloading
    {
      hide Follows, Undisturbed;
      raised := false;
      if env.pool.TaskCancelled? && state == Downloading {
        Interfere(env.between(4));
        var ok := TransitionTo(Paused);
        raised := !ok;
      }
      if !env.pool.Complete? {
        stopEventThread := true;
      }
      Interfere(env.between(5));  // writer.stop, hasher.stop, saving the state
      if env.writerError {
        if state == Downloading || state == Paused {
          Interfere(env.between(6));
          var ok := TransitionTo(Failed);
          if !ok {
            return true;
          }
        }
      } else if env.pool.Incomplete? && state == Downloading {
        Interfere(env.between(7));
        var ok := TransitionTo(Failed);
        if !ok {
          return true;
        }
      }
      stopEventThread := true;
    }

    /** From the pool's end to the result. */
    method Finish(env: Env) returns (exit: Exit)
      requires Valid() && env.Sane() && (state.Downloading? || state.Paused? || state.Cancelled?)
      modifies this
      ensures Valid() && old(trace) <= trace
      ensures exit.Returned? && exit.status.Completed? ==>
                env.pool.Complete? && !env.writerError && env.finalized.Accepted? && exit.hashMatched
      ensures exit.Returned? ==> exit.status == state
      ensures old(stateCleared) ==> stateCleared
      ensures stateCleared && !old(stateCleared) ==>
                env.pool.Complete? && env.finalized.Accepted? && (exit == Returned(Completed, true) || exit.InvalidTransition?)
      ensures exit.Returned? && exit.status.Completed? ==> stateCleared
      ensures env.QuietFrom(4) && !old(state).Cancelled? ==> exit == Undisturbed(env, old(state).Paused?)
      ensures env.QuietFrom(4) && old(state).Downloading? && env.pool.Complete? && env.writerError ==>
                state == Failed && stateCleared == (old(stateCleared) || env.finalized.Accepted?)
    {
      var raised := Settle(env);
      if raised {
        return InvalidTransition;
      }
      if env.pool.TaskCancelled? {
        return TaskCancelledError;
      }
      var verified := false;
      if env.pool.Complete? {
        Interfere(env.between(8));  // finalize, and clearing the saved state
        verified := env.finalized.Accepted?;
        if verified {
          stateCleared := true;
        }
        var ok := TransitionTo(if verified then Completed else Failed);
        if !ok {
          return InvalidTransition;
        }
      }
      Interfere(env.between(9));
      exit := Returned(state, verified);
    }

    /** The probe, between the first two transitions of start(). */
    method Probe(env: Env) returns (found: bool, exit: Exit)
      requires Valid() && env.Sane()
      modifies this`state, this`trace, this`stopEventThread
      ensures Valid() && old(trace) <= trace
      ensures if found then env.probeFinds && state == Downloading
              else exit == InvalidTransition || (exit == Returned(Failed, false) && state == Failed)
      ensures env.QuietFrom(0) && !old(state).Idle? ==>
                !found && exit == InvalidTransition && state == old(state) && stopEventThread == old(stopEventThread)
      ensures env.QuietFrom(0) && old(state).Idle? ==>
                (found <==> env.probeFinds) && (!found ==> exit == Returned(Failed, false))
    {
      hide Undisturbed, Follows;
      found, exit := false, InvalidTransition;
      Interfere(env.between(0));
      var ok := TransitionTo(Probing);
      if !ok {
        return;
      }
      Interfere(env.between(1));  // the probe
      if !env.probeFinds {
        ok := TransitionTo(Failed);
        if ok {
          exit := Returned(Failed, false);
        }
        return;
      }
      Interfere(env.between(2));
      found := TransitionTo(Downloading);
    }

    /**
     * start(), up to its result or the exception that leaves it. Before the table can refuse a
     * second start it has cleared the threads' flag and, with overwrite, removed file and saved state.
     */
    method Start(env: Env) returns (exit: Exit)
      requires Valid() && env.Sane()
      modifies this
      ensures Valid() && old(trace) <= trace
      ensures exit.Returned? && exit.status.Completed? ==>
                && env.probeFinds && env.setupWorks
                && env.pool.Complete? && !env.writerError && env.finalized.Accepted? && exit.hashMatched
      ensures exit.Returned? ==> exit.status == state
      ensures env.Refused() ==> exit == DestinationExists && state == old(state)
      ensures !env.Refused() && !old(state).Idle? && env.QuietFrom(0) ==>
                && exit == InvalidTransition && state == old(state) && !stopEventThread
                && stateCleared == (old(stateCleared) || (env.destinationExists && env.overwrite))
                && fileRemoved == (old(fileRemoved) || (env.destinationExists && env.overwrite && env.removable))
      ensures env.QuietFrom(0) && old(state).Idle? && !env.Refused() ==>
                && (!env.probeFinds ==> exit == Returned(Failed, false))
                && (env.probeFinds && !env.setupWorks ==> exit == SetupError && state == Downloading)
                && (env.probeFinds && env.setupWorks ==> exit == Undisturbed(env, false))
    {
      hide Undisturbed, Follows;
      stopEventThread := false;
      if env.destinationExists {
        if env.overwrite {
          fileRemoved := fileRemoved || env.removable;
          stateCleared := true;
        } else if !env.savedState {
          return DestinationExists;
        }
      }
      var found;
      found, exit := Probe(env);
      if !found {
        return;
      }
      Interfere(env.between(FIRST_DOWNLOADING));  // preparing the file, then the pool
      if !env.setupWorks {
        return SetupError;
      }
      exit := Finish(env);
    }
  }
}
