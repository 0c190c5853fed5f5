/** Two runs that show why pool success does not by itself mean that the bytes are on disk. */
module LostMark {
  import opened Disk
  import Tiling
  import opened Engine
  import opened Runs
  import CQ = ChunkQueue
  import S = Store
  import P = Pool
  import ES = EngineSafety
  import Session

  lemma {:induction false} PossibleConcat(c: Setup, e: Engine, first: seq<Action>, second: seq<Action>)
    requires Inv(c, e) && Possible(c, e, first) && Possible(c, After(c, e, first), second)
    ensures Possible(c, e, first + second) && After(c, e, first + second) == After(c, After(c, e, first), second)
    decreases |first|
  {
    hide Inv, Enabled, Apply;
    if first == [] {
      assert first + second == second;
    } else {
      ES.Step(c, e, first[0]);
      PossibleConcat(c, Apply(c, e, first[0]), first[1..], second);
      assert (first + second)[1..] == first[1..] + second;
    }
  }

  /** A run goes on by one more step. */
  lemma Extend(c: Setup, e: Engine, steps: seq<Action>, a: Action)
    requires Inv(c, e) && Possible(c, e, steps) && Enabled(c, After(c, e, steps), a)
    ensures Possible(c, e, steps + [a])
    ensures After(c, e, steps + [a]) == Apply(c, After(c, e, steps), a)
  {
    hide Inv, Enabled, Apply;
    var f := After(c, e, steps);
    ES.Step(c, f, a);
    assert [a][1..] == [];
    assert Possible(c, Apply(c, f, a), []);
    PossibleConcat(c, e, steps, [a]);
  }

  /** One chunk of one byte, one mirror with one thread, a queue for two commands. */
  function OneByte(): Setup {
    Setup(S.Setup(1, 1, 1, 2, false, true, [7]), P.Setup(1, ["m"], ["m"]))
  }

  lemma OneByteChunk()
    ensures OneByte().disk.Base(0) == 0 && OneByte().disk.Len(0) == 1 && OneByte().disk.Chunks() == 1 && OneByte().Valid()
  {
  }

  function PoolAt(queue: seq<CQ.Item>, phase: P.Phase, completed: set<int>, unfinished: int, joined: bool,
                  verdict: P.Verdict, starts: map<int, nat>, spent: nat): P.Pool {
    P.Pool(queue, [phase], completed, {}, unfinished, false, joined, verdict, 0.0, map[], starts, map[], spent)
  }

  function Fetching(): P.Pool {
    PoolAt([], P.Fetching(CQ.Item(0.0, 0, 0)), {}, 1, false, P.Undecided, map[0 := 1], 0)
  }

  function Decided(): P.Pool {
    PoolAt([CQ.Item(0.0, -1, 0)], P.Ready, {0}, 1, true, P.Decided(true), map[0 := 1], 1)
  }

  function StoreAt(queue: seq<Command>, phase: S.Phase, stop: bool, attempts: map<nat, S.Attempt>,
                   finished: map<nat, seq<byte>>, lost: set<nat>): S.Store {
    S.Store([0], queue, phase, {}, stop, attempts, finished, lost)
  }

  function At(sent: seq<byte>, call: S.Call, dropped: bool): map<nat, S.Attempt> {
    map[0 := S.Attempt(0, sent, call, dropped, true)]
  }

  /** A step of the store alone. */
  ghost predicate Leads(s: S.Store, a: S.Action, t: S.Store) {
    && OneByte().Valid()
    && !a.Begin? && !a.Close? && !a.Kill? && !a.PutQuit?
    && S.Enabled(OneByte().disk, s, a) && S.Apply(OneByte().disk, s, a) == t
  }

  /** A step of the store's own, inside a fetch or of the writer thread. */
  lemma StoreMoves(e: Engine, a: S.Action, t: S.Store)
    requires OneByte().Valid() && Inv(OneByte(), e)
    requires Leads(e.store, a, t) && (a.SetStop? ==> MayRaiseFlag(e))
    ensures Enabled(OneByte(), e, StoreStep(a)) && Apply(OneByte(), e, StoreStep(a)) == e.(store := t)
  {
    hide S.Inv, P.Inv, Links, S.Apply, S.Enabled;
  }

  lemma OfferLeads()
    ensures Leads(StoreAt([], S.Resting, false, At([], S.Idle, false), map[], {}), S.Offer(0, [7]),
                  StoreAt([], S.Resting, false, At([], S.Offered(Write(0, [7])), false), map[], {}))
  {
    OneByteChunk();
    hide Tiling.Start, Tiling.Length, Tiling.TotalChunks, S.TakeNext, S.WritePart, S.Return, Patch;
    var a := S.Attempt(0, [], S.Idle, false, true);
    assert S.NextBytes(OneByte().disk, a, [7]);
    assert a.(call := S.Offered(Write(0, [7]))) == S.Attempt(0, [], S.Offered(Write(0, [7])), false, true);
  }

  lemma OfferMarkLeads(queue: seq<Command>, phase: S.Phase, stop: bool)
    ensures Leads(StoreAt(queue, phase, stop, At([7], S.Idle, false), map[], {}), S.OfferMark(0),
                  StoreAt(queue, phase, stop, At([7], S.Offered(Mark(0)), false), map[], {}))
  {
    OneByteChunk();
    hide Tiling.Start, Tiling.Length, Tiling.TotalChunks, S.TakeNext, S.WritePart, S.Return, Patch;
    assert S.Attempt(0, [7], S.Idle, false, true).(call := S.Offered(Mark(0))) == S.Attempt(0, [7], S.Offered(Mark(0)), false, true);
  }

  lemma CheckLeads(queue: seq<Command>, sent: seq<byte>, cmd: Command)
    ensures Leads(StoreAt(queue, S.Resting, false, At(sent, S.Offered(cmd), false), map[], {}), S.Check(0),
                  StoreAt(queue, S.Resting, false, At(sent, S.Checked(cmd), false), map[], {}))
  {
    OneByteChunk();
    hide Tiling.Start, Tiling.Length, Tiling.TotalChunks, S.TakeNext, S.WritePart, S.Return, Patch;
  }

  lemma PutWriteLeads()
    ensures Leads(StoreAt([], S.Resting, false, At([], S.Checked(Write(0, [7])), false), map[], {}), S.Put(0),
                  StoreAt([Write(0, [7])], S.Resting, false, At([7], S.Idle, false), map[], {}))
  {
    OneByteChunk();
    hide Tiling.Start, Tiling.Length, Tiling.TotalChunks, S.TakeNext, S.WritePart, Patch;
    assert [] + [7] == [7] && [] + [Write(0, [7])] == [Write(0, [7])];
  }

  lemma PutMarkLeads()
    ensures Leads(StoreAt([Write(0, [7])], S.Resting, false, At([7], S.Checked(Mark(0)), false), map[], {}), S.Put(0),
                  StoreAt([Write(0, [7]), Mark(0)], S.Resting, false, At([7], S.Marked, false), map[0 := [7]], {}))
  {
    OneByteChunk();
    hide Tiling.Start, Tiling.Length, Tiling.TotalChunks, S.TakeNext, S.WritePart, Patch;
    assert [Write(0, [7])] + [Mark(0)] == [Write(0, [7]), Mark(0)];
  }

  lemma ThreadLeads(attempts: map<nat, S.Attempt>)
    ensures Leads(StoreAt([Write(0, [7])], S.Resting, false, attempts, map[], {}), S.Poll,
                  StoreAt([Write(0, [7])], S.Polling, false, attempts, map[], {}))
    ensures Leads(StoreAt([Write(0, [7])], S.Polling, false, attempts, map[], {}), S.Take,
                  StoreAt([], S.Writing(Write(0, [7]), 0), false, attempts, map[], {}))
    ensures Leads(StoreAt([], S.Writing(Write(0, [7]), 0), false, attempts, map[], {}), S.Fault,
                  StoreAt([], S.Failed(Write(0, [7])), true, attempts, map[], {}))
  {
    OneByteChunk();
    hide Tiling.Start, Tiling.Length, Tiling.TotalChunks, S.WritePart, S.Return, Patch;
    assert [Write(0, [7])][1..] == [];
  }

  lemma DropLeads()
    ensures Leads(StoreAt([], S.Failed(Write(0, [7])), true, At([7], S.Offered(Mark(0)), false), map[], {}), S.Drop(0),
                  StoreAt([], S.Failed(Write(0, [7])), true, At([7], S.Marked, true), map[], {0}))
  {
    OneByteChunk();
    hide Tiling.Start, Tiling.Length, Tiling.TotalChunks, S.TakeNext, S.WritePart, Patch;
    assert {} + {0} == {0};
  }

  /** The byte is offered, the flag read as unset, and the write queued. */
  lemma WriteQueued(e: Engine) returns (steps: seq<Action>)
    requires OneByte().Valid() && Inv(OneByte(), e) && e.store == StoreAt([], S.Resting, false, At([], S.Idle, false), map[], {})
    ensures Possible(OneByte(), e, steps)
    ensures After(OneByte(), e, steps)
         == e.(store := StoreAt([Write(0, [7])], S.Resting, false, At([7], S.Idle, false), map[], {}))
  {
    hide Inv, Enabled, Apply, Leads;
    var c := OneByte();
    var w := Write(0, [7]);
    var s1 := StoreAt([], S.Resting, false, At([], S.Offered(w), false), map[], {});
    var s2 := StoreAt([], S.Resting, false, At([], S.Checked(w), false), map[], {});
    var s3 := StoreAt([w], S.Resting, false, At([7], S.Idle, false), map[], {});
    OfferLeads();
    CheckLeads([], [], w);
    PutWriteLeads();
    steps := [];
    StoreMoves(e, S.Offer(0, [7]), s1);
    Extend(c, e, steps, StoreStep(S.Offer(0, [7])));
    steps := steps + [StoreStep(S.Offer(0, [7]))];
    StoreMoves(After(c, e, steps), S.Check(0), s2);
    Extend(c, e, steps, StoreStep(S.Check(0)));
    steps := steps + [StoreStep(S.Check(0))];
    StoreMoves(After(c, e, steps), S.Put(0), s3);
    Extend(c, e, steps, StoreStep(S.Put(0)));
    steps := steps + [StoreStep(S.Put(0))];
  }

  /** The thread takes the write and gets an I/O error; then mark_complete reads the flag as set. */
  lemma WriteFails(e: Engine) returns (steps: seq<Action>)
    requires OneByte().Valid() && Inv(OneByte(), e)
    requires e.store == StoreAt([Write(0, [7])], S.Resting, false, At([7], S.Idle, false), map[], {})
    ensures Possible(OneByte(), e, steps)
    ensures After(OneByte(), e, steps)
         == e.(store := StoreAt([], S.Failed(Write(0, [7])), true, At([7], S.Marked, true), map[], {0}))
  {
    hide Inv, Enabled, Apply, Leads;
    var c := OneByte();
    var w := Write(0, [7]);
    var s1 := StoreAt([w], S.Polling, false, At([7], S.Idle, false), map[], {});
    var s2 := StoreAt([], S.Writing(w, 0), false, At([7], S.Idle, false), map[], {});
    var s3 := StoreAt([], S.Failed(w), true, At([7], S.Idle, false), map[], {});
    var s4 := StoreAt([], S.Failed(w), true, At([7], S.Offered(Mark(0)), false), map[], {});
    var s5 := StoreAt([], S.Failed(w), true, At([7], S.Marked, true), map[], {0});
    ThreadLeads(At([7], S.Idle, false));
    OfferMarkLeads([], S.Failed(w), true);
    DropLeads();
    steps := [];
    StoreMoves(e, S.Poll, s1);
    Extend(c, e, steps, StoreStep(S.Poll));
    steps := steps + [StoreStep(S.Poll)];
    StoreMoves(After(c, e, steps), S.Take, s2);
    Extend(c, e, steps, StoreStep(S.Take));
    steps := steps + [StoreStep(S.Take)];
    StoreMoves(After(c, e, steps), S.Fault, s3);
    Extend(c, e, steps, StoreStep(S.Fault));
    steps := steps + [StoreStep(S.Fault)];
    StoreMoves(After(c, e, steps), S.OfferMark(0), s4);
    Extend(c, e, steps, StoreStep(S.OfferMark(0)));
    steps := steps + [StoreStep(S.OfferMark(0))];
    StoreMoves(After(c, e, steps), S.Drop(0), s5);
    Extend(c, e, steps, StoreStep(S.Drop(0)));
    steps := steps + [StoreStep(S.Drop(0))];
  }

  /** The mark is queued behind the write, while the thread has not got to either. */
  lemma MarkQueued(e: Engine) returns (steps: seq<Action>)
    requires OneByte().Valid() && Inv(OneByte(), e)
    requires e.store == StoreAt([Write(0, [7])], S.Resting, false, At([7], S.Idle, false), map[], {})
    ensures Possible(OneByte(), e, steps)
    ensures After(OneByte(), e, steps)
         == e.(store := StoreAt([Write(0, [7]), Mark(0)], S.Resting, false, At([7], S.Marked, false), map[0 := [7]], {}))
  {
    hide Inv, Enabled, Apply, Leads;
    var c := OneByte();
    var w := Write(0, [7]);
    var s1 := StoreAt([w], S.Resting, false, At([7], S.Offered(Mark(0)), false), map[], {});
    var s2 := StoreAt([w], S.Resting, false, At([7], S.Checked(Mark(0)), false), map[], {});
    var s3 := StoreAt([w, Mark(0)], S.Resting, false, At([7], S.Marked, false), map[0 := [7]], {});
    OfferMarkLeads([w], S.Resting, false);
    CheckLeads([w], [7], Mark(0));
    PutMarkLeads();
    steps := [];
    StoreMoves(e, S.OfferMark(0), s1);
    Extend(c, e, steps, StoreStep(S.OfferMark(0)));
    steps := steps + [StoreStep(S.OfferMark(0))];
    StoreMoves(After(c, e, steps), S.Check(0), s2);
    Extend(c, e, steps, StoreStep(S.Check(0)));
    steps := steps + [StoreStep(S.Check(0))];
    StoreMoves(After(c, e, steps), S.Put(0), s3);
    Extend(c, e, steps, StoreStep(S.Put(0)));
    steps := steps + [StoreStep(S.Put(0))];
  }

  function Releasing(): P.Pool { PoolAt([], P.Releasing, {0}, 1, false, P.Undecided, map[0 := 1], 1) }
  function Released(): P.Pool { PoolAt([], P.Ready, {0}, 0, false, P.Undecided, map[0 := 1], 1) }
  function Joined(): P.Pool { PoolAt([], P.Ready, {0}, 0, true, P.Undecided, map[0 := 1], 1) }

  /** fetch returns: the chunk enters completed_set. */
  lemma FetchReturns(e: Engine)
    requires OneByte().Valid() && Inv(OneByte(), e) && e.pool == Fetching()
    requires e.store.attempts.Keys == {0} && e.store.attempts[0].call.Marked? && e.store.attempts[0].live
    ensures Enabled(OneByte(), e, FetchDone(0))
    ensures Apply(OneByte(), e, FetchDone(0)) == e.(pool := Releasing(), store := e.store.(attempts := map[]))
  {
    hide S.Inv, P.Inv, Links, P.PullItem, P.FailItem, P.CancelWorker, P.TurnOf, S.TakeNext, S.WritePart;
    assert e.store.attempts - {0} == map[];
  }

  lemma PoolMoves(e: Engine, p: P.Action, q: P.Pool)
    requires OneByte().Valid() && Inv(OneByte(), e) && !e.ahead
    requires || (p == P.Release(0) && e.pool == Releasing() && q == Released())
             || (p == P.Join && e.pool == Released() && q == Joined())
             || (p == P.Decide(true) && e.pool == Joined() && q == Decided())
    ensures Enabled(OneByte(), e, PoolStep(p)) && Apply(OneByte(), e, PoolStep(p)) == e.(pool := q)
  {
    hide S.Inv, P.Inv, Links, P.PullItem, P.FailItem, P.CancelWorker, P.TurnOf, S.Apply, S.Enabled;
  }

  /** The pool finishes and run() returns True. */
  lemma PoolCloses(e: Engine) returns (steps: seq<Action>)
    requires OneByte().Valid() && Inv(OneByte(), e) && e.pool == Fetching() && !e.ahead
    requires e.store.attempts.Keys == {0} && e.store.attempts[0].call.Marked? && e.store.attempts[0].live
    ensures Possible(OneByte(), e, steps)
    ensures After(OneByte(), e, steps) == e.(pool := Decided(), store := e.store.(attempts := map[]))
  {
    hide Inv, Enabled, Apply;
    var c := OneByte();
    steps := [];
    FetchReturns(e);
    Extend(c, e, steps, FetchDone(0));
    steps := steps + [FetchDone(0)];
    PoolMoves(After(c, e, steps), P.Release(0), Released());
    Extend(c, e, steps, PoolStep(P.Release(0)));
    steps := steps + [PoolStep(P.Release(0))];
    PoolMoves(After(c, e, steps), P.Join, Joined());
    Extend(c, e, steps, PoolStep(P.Join));
    steps := steps + [PoolStep(P.Join)];
    PoolMoves(After(c, e, steps), P.Decide(true), Decided());
    Extend(c, e, steps, PoolStep(P.Decide(true)));
    steps := steps + [PoolStep(P.Decide(true))];
  }

  /** A fresh start, and the fetch of the only chunk begins. */
  lemma FetchBegins() returns (steps: seq<Action>)
    ensures IsRun(OneByte(), History([0], {}, 0.0, steps))
    ensures Last(OneByte(), History([0], {}, 0.0, steps))
         == Engine(Fetching(), StoreAt([], S.Resting, false, At([], S.Idle, false), map[], {}), false, false)
  {
    hide Inv, Enabled, Apply, SoundResume, StartState;
    var c := OneByte();
    var e := FreshStart();
    var h := History([0], {}, 0.0, []);
    assert IsRun(c, h) && Last(c, h) == e;
    FetchStarts(e);
    Extend(c, e, [], StartFetch(0));
    GoesOn(c, h, [StartFetch(0)]);
    steps := [StartFetch(0)];
    assert [] + [StartFetch(0)] == steps;
  }

  lemma FreshStart() returns (e: Engine)
    ensures OneByte().Valid() && SoundResume(OneByte(), [0], {}) && e == Begin(OneByte(), [0], {}, 0.0)
    ensures e == Engine(PoolAt([CQ.Item(0.0, 0, 0)], P.Ready, {}, 1, false, P.Undecided, map[], 0),
                        StoreAt([], S.Resting, false, map[], map[], {}), false, false)
  {
    hide S.Inv, P.Inv, Links;
    e := Begin(OneByte(), [0], {}, 0.0);
    assert Session.PendingItems(0, {}) == [];
    assert Session.PendingItems(1, {}) == [CQ.Item(0.0, 0, 0)];
    assert e.pool.workers == [P.Ready];
    assert e.store.disk == {} && e.store.finished == map[];
  }

  lemma FetchStarts(e: Engine)
    requires OneByte().Valid() && Inv(OneByte(), e)
    requires e == Engine(PoolAt([CQ.Item(0.0, 0, 0)], P.Ready, {}, 1, false, P.Undecided, map[], 0),
                         StoreAt([], S.Resting, false, map[], map[], {}), false, false)
    ensures Enabled(OneByte(), e, StartFetch(0))
    ensures Apply(OneByte(), e, StartFetch(0))
         == Engine(Fetching(), StoreAt([], S.Resting, false, At([], S.Idle, false), map[], {}), false, false)
  {
    hide S.Inv, P.Inv, Links;
    assert [CQ.Item(0.0, 0, 0)][1..] == [];
  }

  /** A run goes on by a run from where it ended. */
  lemma GoesOn(c: Setup, h: History, more: seq<Action>)
    requires IsRun(c, h) && Possible(c, Last(c, h), more)
    ensures var h' := h.(steps := h.steps + more); IsRun(c, h') && Last(c, h') == After(c, Last(c, h), more)
  {
    hide Inv, Enabled, Apply, SoundResume;
    PossibleConcat(c, First(c, h), h.steps, more);
  }

  /** Up to the write in the queue, which both runs share. */
  lemma Written() returns (h: History)
    ensures IsRun(OneByte(), h)
    ensures Last(OneByte(), h)
         == Engine(Fetching(), StoreAt([Write(0, [7])], S.Resting, false, At([7], S.Idle, false), map[], {}), false, false)
  {
    hide IsRun, Inv, Enabled, Apply, Possible, Last;
    var begin := FetchBegins();
    h := History([0], {}, 0.0, begin);
    var more := WriteQueued(Last(OneByte(), h));
    GoesOn(OneByte(), h, more);
    h := h.(steps := h.steps + more);
  }

  /**
   * A disk fault: the writer thread fails on the only write while the fetch goes on, mark_complete
   * discards the mark, and run() still returns True over an empty disk. The writer has an error.
   */
  lemma FaultBehindSuccess() returns (h: History)
    ensures IsRun(OneByte(), h)
    ensures var e := Last(OneByte(), h);
            && e.pool.verdict == P.Decided(true) && e.store.phase.Failed? && ThreadEnded(OneByte(), e)
            && e.store.disk == {} && e.store.file == [0]
  {
    hide IsRun, Inv, Enabled, Apply, Possible, Last;
    h := Written();
    var more := WriteFails(Last(OneByte(), h));
    GoesOn(OneByte(), h, more);
    h := h.(steps := h.steps + more);
    more := PoolCloses(Last(OneByte(), h));
    GoesOn(OneByte(), h, more);
    h := h.(steps := h.steps + more);
  }

  lemma Abandoning(s: S.Store)
    requires OneByte().Valid() && s.phase.Resting?
    ensures Leads(s, S.SetStop, s.(stop := true))
    ensures Leads(s.(stop := true), S.Leave, s.(stop := true, phase := S.Abandoned))
  {
  }

  lemma Asks(e: Engine)
    requires OneByte().Valid() && Inv(OneByte(), e)
    ensures Enabled(OneByte(), e, Ask)
    ensures var f := Apply(OneByte(), e, Ask); f.pool == e.pool && f.store == e.store && f.asked
  {
    hide S.Inv, P.Inv, Links;
  }

  /** stop() is called, the flag is set, and the thread sees it at the head of its loop. */
  lemma StopAbandons(e: Engine) returns (steps: seq<Action>)
    requires OneByte().Valid() && Inv(OneByte(), e)
    requires e.pool == Decided() && e.store == StoreAt([Write(0, [7]), Mark(0)], S.Resting, false, map[], map[0 := [7]], {})
    ensures Possible(OneByte(), e, steps)
    ensures After(OneByte(), e, steps).pool == e.pool
    ensures After(OneByte(), e, steps).store == e.store.(stop := true, phase := S.Abandoned)
  {
    hide Inv, Enabled, Apply, Leads;
    var c := OneByte();
    var s1, s2 := e.store.(stop := true), e.store.(stop := true, phase := S.Abandoned);
    Abandoning(e.store);
    steps := [];
    Asks(e);
    Extend(c, e, steps, Ask);
    steps := steps + [Ask];
    StoreMoves(After(c, e, steps), S.SetStop, s1);
    Extend(c, e, steps, StoreStep(S.SetStop));
    steps := steps + [StoreStep(S.SetStop)];
    StoreMoves(After(c, e, steps), S.Leave, s2);
    Extend(c, e, steps, StoreStep(S.Leave));
    steps := steps + [StoreStep(S.Leave)];
  }

  /**
   * A stop() behind the verdict, while run() still waits for its workers: the thread abandons the
   * write and the mark that are queued, and the disk is empty without any error of the writer.
   */
  lemma StopBehindSuccess() returns (h: History)
    ensures IsRun(OneByte(), h)
    ensures var e := Last(OneByte(), h);
            && e.pool.verdict == P.Decided(true) && e.store.phase.Abandoned? && ThreadEnded(OneByte(), e)
            && e.store.disk == {} && e.store.file == [0]
  {
    hide IsRun, Inv, Enabled, Apply, Possible, Last;
    h := Written();
    var more := MarkQueued(Last(OneByte(), h));
    GoesOn(OneByte(), h, more);
    h := h.(steps := h.steps + more);
    more := PoolCloses(Last(OneByte(), h));
    GoesOn(OneByte(), h, more);
    h := h.(steps := h.steps + more);
    more := StopAbandons(Last(OneByte(), h));
    GoesOn(OneByte(), h, more);
    h := h.(steps := h.steps + more);
  }
}
