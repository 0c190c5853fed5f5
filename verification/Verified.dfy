/** The hasher beside the download: every run of the engine is a world the hasher may rely on. */
module Verified {
  import opened Disk
  import opened Engine
  import opened Runs
  import opened Hasher
  import S = Store
  import ES = EngineSafety

  /** What the hasher's thread sees after the first i steps of a run, and from its end on. */
  ghost function WorldAt(c: Setup, e: Engine, steps: seq<Action>, i: nat): World
    requires Inv(c, e) && Possible(c, e, steps)
  {
    var k := if i < |steps| then i else |steps|;
    PossiblePrefix(c, e, steps, k);
    var s := After(c, e, steps[..k]).store;
    World(s.file, s.disk, s.stop)
  }

  lemma LongEnough(c: Setup, e: Engine)
    requires Inv(c, e)
    ensures |e.store.file| >= c.disk.totalSize
  {
  }

  lemma GuaranteeIsLater(p: S.Setup, s: S.Store, t: S.Store)
    requires S.Guarantee(p, s, t)
    ensures Later(p.totalSize, p.chunkSize, World(s.file, s.disk, s.stop), World(t.file, t.disk, t.stop))
  {
  }

  /** Between any two points of a run the writers keep what the hasher relies on. */
  lemma RunIsLater(c: Setup, e: Engine, steps: seq<Action>, i: nat, j: nat)
    requires Inv(c, e) && Possible(c, e, steps) && i <= j
    ensures |WorldAt(c, e, steps, i).file| >= c.disk.totalSize
    ensures Later(c.disk.totalSize, c.disk.chunkSize, WorldAt(c, e, steps, i), WorldAt(c, e, steps, j))
  {
    hide Enabled, Apply, Inv, Possible, After, Later, S.Guarantee;
    var a := if i < |steps| then i else |steps|;
    var b := if j < |steps| then j else |steps|;
    PossiblePrefix(c, e, steps, a);
    PossiblePrefix(c, e, steps, b);
    var mid := After(c, e, steps[..a]);
    PossiblePrefix(c, e, steps[..b], a);
    assert steps[..b][..a] == steps[..a];
    Frozen(c, mid, steps[..b][a..]);
    LongEnough(c, mid);
    GuaranteeIsLater(c.disk, mid.store, After(c, e, steps[..b]).store);
  }

  /** The hasher's i-th look falls behind the at(i)-th step of the run: any number of steps between looks. */
  ghost predicate Watches(c: Setup, e: Engine, steps: seq<Action>, at: nat -> nat, worlds: Worlds)
    requires Inv(c, e) && Possible(c, e, steps)
  {
    && (forall i: nat, j: nat | i <= j :: at(i) <= at(j))
    && (forall i: nat :: worlds(i) == WorldAt(c, e, steps, at(i)))
  }

  lemma RunsKeepRely(c: Setup, e: Engine, steps: seq<Action>, at: nat -> nat, worlds: Worlds)
    requires Inv(c, e) && Possible(c, e, steps) && Watches(c, e, steps, at, worlds)
    ensures Rely(c.disk.totalSize, c.disk.chunkSize, worlds)
  {
    hide WorldAt, Inv, Possible, Later;
    forall i: nat, j: nat | i <= j
      ensures |worlds(i).file| >= c.disk.totalSize && Later(c.disk.totalSize, c.disk.chunkSize, worlds(i), worlds(j))
    {
      RunIsLater(c, e, steps, at(i), at(j));
    }
  }

  /**
   * A verdict reached while the download was running is the verdict on the finished file: whenever
   * the hasher has fed all chunks at some point of a run, every later file of that run begins with
   * exactly the bytes it fed, and with honest mirrors those are the mirrors' bytes.
   */
  lemma VerdictIsOnFinishedFile(c: Setup, e: Engine, steps: seq<Action>, at: nat -> nat, worlds: Worlds, h: StreamingHasher, t: nat)
    requires Inv(c, e) && Possible(c, e, steps) && Watches(c, e, steps, at, worlds)
    requires h.Ready(worlds) && h.totalSize == c.disk.totalSize && h.chunkSize == c.disk.chunkSize
    requires h.Fed(worlds, t, h.totalChunks)
    ensures var file := After(c, e, steps).store.file;
            && h.fed == file[..h.totalSize]
            && (|file| == h.totalSize ==> Matches(h.spec.value, file) == Matches(h.spec.value, h.fed))
            && (c.disk.honest ==> h.fed == c.disk.source)
  {
    hide Enabled, Apply, Links, WorldAt;
    var last := if at(t) < |steps| then |steps| else at(t);
    var at' := (i: nat) => if i <= t then at(i) else last;
    var worlds': Worlds := (i: nat) => WorldAt(c, e, steps, at'(i));
    RunsKeepRely(c, e, steps, at', worlds');
    assert worlds'(t) == worlds(t) && worlds'(t + 1) == WorldAt(c, e, steps, last);
    StreamingAgreesWithOneShot(h, worlds', t, t + 1);
    h.FedLater(worlds', t, t + 1, h.totalChunks);
    LastWorld(c, e, steps, last);
    if c.disk.honest {
      AllOnDiskIsSource(c, After(c, e, steps));
    }
  }

  lemma LastWorld(c: Setup, e: Engine, steps: seq<Action>, i: nat)
    requires Inv(c, e) && Possible(c, e, steps) && i >= |steps|
    ensures var s := After(c, e, steps).store; WorldAt(c, e, steps, i) == World(s.file, s.disk, s.stop)
  {
    assert steps[..|steps|] == steps;
  }
}
