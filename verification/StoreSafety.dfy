/** Every step of the store keeps its invariant and freezes the chunks that are on disk. */
module StoreSafety {
  import opened Tiling
  import opened Disk
  import opened Store

  /** Bytes of different chunks do not overlap. */
  lemma Apart(p: Setup, c: nat, d: nat, cmd: Command)
    requires p.Valid() && c != d && cmd.Write?
    requires p.Base(d) <= cmd.offset && cmd.offset + |cmd.data| <= p.Base(d) + p.Len(d)
    ensures !Touches(cmd, p.Base(c), p.Base(c) + p.Len(c))
  {
    if c < d {
      ChunksOrdered(c, d, p.totalSize, p.chunkSize);
    } else {
      ChunksOrdered(d, c, p.totalSize, p.chunkSize);
    }
  }

  lemma {:induction false} PromisedSnoc(p: Setup, file: seq<byte>, cmds: seq<Command>, cmd: Command, c: nat, data: seq<byte>)
    requires p.Valid() && Promised(p, file, cmds, c, data)
    requires cmd != Mark(c) && !Touches(cmd, p.Base(c), p.Base(c) + p.Len(c))
    ensures Promised(p, file, cmds + [cmd], c, data)
    decreases |cmds|
  {
    if cmds[0] == Mark(c) {
      assert (cmds + [cmd])[1..] == cmds[1..] + [cmd];
    } else {
      PromisedSnoc(p, Exec(file, cmds[0]), cmds[1..], cmd, c, data);
      assert (cmds + [cmd])[1..] == cmds[1..] + [cmd];
    }
  }

  /** Queueing the mark behind everything that made the range right settles the chunk. */
  lemma {:induction false} PromisedBegins(p: Setup, file: seq<byte>, cmds: seq<Command>, c: nat, data: seq<byte>)
    requires p.Valid() && Mark(c) !in cmds
    requires Holds(ExecAll(file, cmds), p.Base(c), data)
    ensures Promised(p, file, cmds + [Mark(c)], c, data)
    decreases |cmds|
  {
    if cmds != [] {
      PromisedBegins(p, Exec(file, cmds[0]), cmds[1..], c, data);
      assert (cmds + [Mark(c)])[1..] == cmds[1..] + [Mark(c)];
    }
  }

  /** A chunk's pending part, queued or in hand, after the file has been patched at a place it will patch anyway. */
  lemma HeadAbsorbed(p: Setup, file: seq<byte>, cmds: seq<Command>, lo: nat, hi: nat)
    requires cmds != [] && cmds[0].Write? && lo <= hi <= |cmds[0].data|
    ensures ExecAll(Patch(file, cmds[0].offset + lo, cmds[0].data[lo..hi]), cmds) == ExecAll(file, cmds)
    ensures forall c: nat, data | Promised(p, file, cmds, c, data) ::
              Promised(p, Patch(file, cmds[0].offset + lo, cmds[0].data[lo..hi]), cmds, c, data)
  {
    hide Patch, Resize, Touches, Untouched, Holds;
    PatchAbsorbsPart(file, cmds[0].offset, cmds[0].data, lo, hi);
    var file' := Patch(file, cmds[0].offset + lo, cmds[0].data[lo..hi]);
    assert Exec(file', cmds[0]) == Exec(file, cmds[0]);
  }

  lemma GenuineGrows(p: Setup, a: Attempt, data: seq<byte>)
    requires p.Valid() && p.Genuine(a.chunk, a.sent) && NextBytes(p, a, data)
    ensures p.Genuine(a.chunk, a.sent + data)
  {
    if p.honest {
      var all := a.sent + data;
      forall i | 0 <= i < |all| ensures p.source[p.Base(a.chunk) + i] == all[i] {
        if i >= |a.sent| {
          assert p.source[p.Base(a.chunk) + |a.sent| + (i - |a.sent|)] == data[i - |a.sent|];
        }
      }
    }
  }

  lemma HoldsGrows(file: seq<byte>, base: nat, sent: seq<byte>, data: seq<byte>)
    requires Holds(file, base, sent) && data != []
    ensures Holds(Patch(file, base + |sent|, data), base, sent + data)
  {
    var t := Patch(file, base + |sent|, data);
    var all := sent + data;
    forall i | 0 <= i < |all| ensures t[base + i] == all[i] {
      if i >= |sent| {
        assert t[base + |sent| + (i - |sent|)] == data[i - |sent|];
      }
    }
  }

  lemma {:induction false} PendingKeepsLength(p: Setup, finished: set<nat>, file: seq<byte>, cmds: seq<Command>)
    requires p.Valid() && AllCommands(p, finished, cmds)
    ensures |ExecAll(file, cmds)| >= |file|
    decreases |cmds|
  {
    if cmds != [] {
      assert CommandInv(p, finished, cmds[0]);
      PendingKeepsLength(p, finished, Exec(file, cmds[0]), cmds[1..]);
    }
  }

  /** Handing over a write, or discarding it, keeps the attempt in order. */
  lemma ReturnWrite(p: Setup, taken: set<nat>, stop: bool, image: seq<byte>, a: Attempt, drop: bool, image': seq<byte>)
    requires p.Valid() && AttemptInv(p, taken, stop, image, a)
    requires (a.call.Offered? || a.call.Checked?) && a.call.cmd.Write?
    requires drop ==> stop
    requires !drop ==> a.call.Checked? && image' == Patch(image, a.call.cmd.offset, a.call.cmd.data)
    ensures AttemptInv(p, taken, stop, image', Return(a, drop))
  {
    GenuineGrows(p, a, a.call.cmd.data);
    if !drop {
      HoldsGrows(image, p.Base(a.chunk), a.sent, a.call.cmd.data);
    }
  }

  // ---- steps that leave the file, the pending commands and the finished chunks alone ----

  predicate Quiet(a: Action) {
    a.Begin? || a.Offer? || a.OfferMark? || a.Check? || a.Full? || a.Drop? || a.Close? || a.Kill?
    || a.Poll? || a.Empty? || a.Leave? || a.SetStop? || a.Fault?
  }

  lemma QuietSame(p: Setup, s: Store, a: Action)
    requires Inv(p, s) && Enabled(p, s, a) && Quiet(a)
    ensures var t := Apply(p, s, a);
            t.file == s.file && t.Pending() == s.Pending() && t.finished == s.finished && t.disk == s.disk
    ensures Shape(p, Apply(p, s, a)) && Guarantee(p, s, Apply(p, s, a))
  {
    if a.Drop? {
      assert AttemptInv(p, s.Taken(), s.stop, s.Image(), s.attempts[a.w]);
    }
  }

  /** A new attempt has handed over nothing yet. */
  lemma BeginAttempt(p: Setup, s: Store, c: nat)
    requires Inv(p, s) && c < p.Chunks() && Fresh(s, c)
    ensures AttemptInv(p, s.Taken(), s.stop, s.Image(), Attempt(c, [], Idle, false, true))
  {
    LengthsAgree(c, p.totalSize, p.chunkSize);
    PendingKeepsLength(p, s.finished.Keys, s.file, s.Pending());
  }

  /** Only the call of an attempt changes, or a flag becomes set, or others' chunks are taken. */
  lemma SameBytes(p: Setup, taken: set<nat>, taken': set<nat>, stop: bool, stop': bool, image: seq<byte>, a: Attempt, b: Attempt)
    requires p.Valid() && AttemptInv(p, taken, stop, image, a)
    requires b.chunk == a.chunk && b.sent == a.sent && b.dropped == a.dropped
    requires b.call.Marked? || (!a.call.Marked? && (a.chunk in taken' ==> a.chunk in taken))
    requires CallInv(p, b) && (stop ==> stop')
    ensures AttemptInv(p, taken', stop', image, b)
  {
  }

  lemma QuietCall(p: Setup, s: Store, a: Action, w: nat)
    requires Inv(p, s) && Enabled(p, s, a) && Quiet(a) && !a.Begin? && !a.Drop?
    requires w in Apply(p, s, a).attempts
    ensures var t := Apply(p, s, a); AttemptInv(p, t.Taken(), t.stop, t.Image(), t.attempts[w])
  {
    hide Start, Length, AllFinished, AllCommands, Exclusive, ExecAll, Patch, Resize, TakeNext, WritePart, Holds;
    var t := Apply(p, s, a);
    QuietSame(p, s, a);
    assert AttemptInv(p, s.Taken(), s.stop, s.Image(), s.attempts[w]);
    assert CallInv(p, t.attempts[w]);
    SameBytes(p, s.Taken(), t.Taken(), s.stop, t.stop, s.Image(), s.attempts[w], t.attempts[w]);
  }

  lemma DropAttempt(p: Setup, s: Store, d: nat, w: nat)
    requires Inv(p, s) && Enabled(p, s, Drop(d)) && w in s.attempts
    ensures var t := Apply(p, s, Drop(d)); AttemptInv(p, t.Taken(), t.stop, t.Image(), t.attempts[w])
  {
    var t := Apply(p, s, Drop(d));
    var a := s.attempts[w];
    QuietSame(p, s, Drop(d));
    assert AttemptInv(p, s.Taken(), s.stop, s.Image(), a);
    if d != w {
      assert a.chunk != s.attempts[d].chunk;
      SameBytes(p, s.Taken(), t.Taken(), s.stop, t.stop, s.Image(), a, a);
    } else if a.call.cmd.Write? {
      ReturnWrite(p, s.Taken(), s.stop, s.Image(), a, true, s.Image());
    }
  }

  lemma QuietStep(p: Setup, s: Store, a: Action)
    requires Inv(p, s) && Enabled(p, s, a) && Quiet(a)
    requires a.Begin? ==> Fresh(s, a.c)
    ensures Inv(p, Apply(p, s, a)) && Guarantee(p, s, Apply(p, s, a))
  {
    hide Start, Length, Patch, Resize, Exec, ExecAll, Holds, CallInv, TakeNext, WritePart, FinishedInv, CommandInv;
    QuietSame(p, s, a);
    var t := Apply(p, s, a);
    forall w | w in t.attempts ensures AttemptInv(p, t.Taken(), t.stop, t.Image(), t.attempts[w]) {
      if a.Begin? && a.w == w {
        BeginAttempt(p, s, a.c);
      } else if a.Begin? {
        assert AttemptInv(p, s.Taken(), s.stop, s.Image(), s.attempts[w]);
      } else if a.Drop? {
        DropAttempt(p, s, a.w, w);
      } else {
        QuietCall(p, s, a, w);
      }
    }
  }

  // ---- a producer's put ----

  /** The queued command does not reach the chunk c, unless it is the attempt's own chunk. */
  lemma PutAvoids(p: Setup, a: Attempt, c: nat)
    requires p.Valid() && CallInv(p, a) && a.call.Checked? && c != a.chunk
    ensures !Touches(a.call.cmd, p.Base(c), p.Base(c) + p.Len(c))
  {
    if a.call.cmd.Write? {
      Apart(p, c, a.chunk, a.call.cmd);
    }
  }

  lemma PutFinished(p: Setup, s: Store, w: nat, c: nat)
    requires Inv(p, s) && Enabled(p, s, Put(w)) && c in Apply(p, s, Put(w)).finished
    ensures var t := Apply(p, s, Put(w)); FinishedInv(p, t.file, t.Pending(), c in t.disk, c, t.finished[c])
  {
    hide Start, Length, Patch, Resize, TakeNext, WritePart, Holds;
    var t := Apply(p, s, Put(w));
    var a := s.attempts[w];
    var pending := s.Pending();
    assert AttemptInv(p, s.Taken(), s.stop, s.Image(), a);
    assert t.Pending() == pending + [a.call.cmd];
    if c in s.finished {
      assert FinishedInv(p, s.file, pending, c in s.disk, c, s.finished[c]);
      PutAvoids(p, a, c);
      if c !in s.disk {
        PromisedSnoc(p, s.file, pending, a.call.cmd, c, s.finished[c]);
      }
    } else {
      assert forall i | 0 <= i < |pending| :: CommandInv(p, s.finished.Keys, pending[i]);
      PromisedBegins(p, s.file, pending, c, a.sent);
    }
  }

  lemma PutAttempt(p: Setup, s: Store, w: nat, v: nat)
    requires Inv(p, s) && Enabled(p, s, Put(w)) && v in s.attempts
    ensures var t := Apply(p, s, Put(w)); AttemptInv(p, t.Taken(), t.stop, t.Image(), t.attempts[v])
  {
    hide Start, Length, Patch, Resize, TakeNext, WritePart;
    var t := Apply(p, s, Put(w));
    var a, b := s.attempts[w], s.attempts[v];
    assert AttemptInv(p, s.Taken(), s.stop, s.Image(), a);
    assert AttemptInv(p, s.Taken(), s.stop, s.Image(), b);
    assert t.Pending() == s.Pending() + [a.call.cmd];
    ExecAllSnoc(s.file, s.Pending(), a.call.cmd);
    if v != w {
      PutAvoids(p, a, b.chunk);
      if !b.call.Marked? && !b.dropped {
        ExecFrame(s.Image(), a.call.cmd, p.Base(b.chunk), b.sent);
      }
    } else if a.call.cmd.Write? {
      ReturnWrite(p, s.Taken(), s.stop, s.Image(), a, false, t.Image());
    }
  }

  /** The queued command is a sound one, and a mark is that of the attempt's chunk, now finished. */
  lemma PutCommand(p: Setup, s: Store, w: nat)
    requires Inv(p, s) && Enabled(p, s, Put(w))
    ensures var t := Apply(p, s, Put(w));
            && t.Pending() == s.Pending() + [s.attempts[w].call.cmd] && t.file == s.file && t.disk == s.disk
            && CommandInv(p, t.finished.Keys, s.attempts[w].call.cmd) && s.finished.Keys <= t.finished.Keys
            && Shape(p, t) && Exclusive(t) && Guarantee(p, s, t)
  {
    hide Start, Length, Patch, Resize, ExecAll, Holds, AllFinished, AllCommands;
    assert AttemptInv(p, s.Taken(), s.stop, s.Image(), s.attempts[w]);
  }

  lemma PutStep(p: Setup, s: Store, w: nat)
    requires Inv(p, s) && Enabled(p, s, Put(w))
    ensures Inv(p, Apply(p, s, Put(w))) && Guarantee(p, s, Apply(p, s, Put(w)))
  {
    hide Start, Length, Patch, Resize, ExecAll, Holds, FinishedInv, AttemptInv, Exclusive, Guarantee;
    PutCommand(p, s, w);
    var t := Apply(p, s, Put(w));
    forall c | c in t.finished ensures FinishedInv(p, t.file, t.Pending(), c in t.disk, c, t.finished[c]) {
      PutFinished(p, s, w, c);
    }
    forall v | v in t.attempts ensures AttemptInv(p, t.Taken(), t.stop, t.Image(), t.attempts[v]) {
      PutAttempt(p, s, w, v);
    }
  }

  lemma PutQuitStep(p: Setup, s: Store)
    requires Inv(p, s) && Enabled(p, s, PutQuit)
    ensures Inv(p, Apply(p, s, PutQuit)) && Guarantee(p, s, Apply(p, s, PutQuit))
  {
    hide Start, Length, Patch, Resize, Holds, ExecAll, CallInv;
    var t := Apply(p, s, PutQuit);
    var pending := s.Pending();
    assert t.Pending() == pending + [Quit];
    ExecAllSnoc(s.file, pending, Quit);
    assert t.Image() == s.Image();
    forall c | c in t.finished ensures FinishedInv(p, t.file, t.Pending(), c in t.disk, c, t.finished[c]) {
      assert FinishedInv(p, s.file, pending, c in s.disk, c, s.finished[c]);
      if c !in s.disk {
        PromisedSnoc(p, s.file, pending, Quit, c, s.finished[c]);
      }
    }
  }

  // ---- the writer thread ----

  /** The head of the pending commands, once it has had its effect, can be struck off. */
  lemma Retire(p: Setup, file: seq<byte>, cmd: Command, rest: seq<Command>)
    requires p.Valid() && Exec(file, cmd) == file
    ensures ExecAll(file, [cmd] + rest) == ExecAll(file, rest)
    ensures forall c: nat, data | Promised(p, file, [cmd] + rest, c, data) && cmd != Mark(c) :: Promised(p, file, rest, c, data)
    ensures forall c: nat | Untouched(p, [cmd] + rest, c) :: Untouched(p, rest, c)
  {
    hide Start, Length;
    assert ([cmd] + rest)[1..] == rest;
    forall c: nat | Untouched(p, [cmd] + rest, c) ensures Untouched(p, rest, c) {
      forall i | 0 <= i < |rest| 
        ensures rest[i] != Mark(c) && !Touches(rest[i], p.Base(c), p.Base(c) + p.Len(c))
      {
        assert ([cmd] + rest)[i + 1] == rest[i];
      }
    }
  }

  lemma WriteInside(p: Setup, finished: set<nat>, cmd: Command)
    requires p.Valid() && CommandInv(p, finished, cmd) && cmd.Write?
    ensures cmd.offset + |cmd.data| <= p.totalSize
  {
    var c: nat :| c < p.Chunks() && p.Base(c) <= cmd.offset && cmd.offset + |cmd.data| <= p.Base(c) + p.Len(c);
    LengthsAgree(c, p.totalSize, p.chunkSize);
  }

  /** Taking a write, a mark or the sentinel: only a mark has an effect, and it is a due one. */
  lemma TakeStep(p: Setup, s: Store)
    requires Inv(p, s) && Enabled(p, s, Take)
    ensures Inv(p, Apply(p, s, Take))
    ensures Guarantee(p, s, Apply(p, s, Take))
  {
    hide Start, Length, Patch, Resize, CallInv, WritePart;
    var t := Apply(p, s, Take);
    var cmd, rest := s.queue[0], s.queue[1..];
    assert s.queue == [cmd] + rest;
    assert CommandInv(p, s.finished.Keys, s.Pending()[0]);
    if cmd.Write? {
      WriteInside(p, s.finished.Keys, cmd);
      assert t.Pending() == s.Pending();
    } else {
      assert t.Pending() == rest;
      Retire(p, s.file, cmd, rest);
    }
    assert t.Image() == s.Image();
    forall c | c in t.finished ensures FinishedInv(p, t.file, t.Pending(), c in t.disk, c, t.finished[c]) {
      assert FinishedInv(p, s.file, s.Pending(), c in s.disk, c, s.finished[c]);
    }
    forall i | 0 <= i < |t.Pending()| ensures CommandInv(p, t.finished.Keys, t.Pending()[i]) {
      assert CommandInv(p, s.finished.Keys, s.Pending()[if cmd.Write? then i else i + 1]);
    }
  }

  /** One pwrite brings the file nearer to the image of the command in hand. */
  lemma PartLanded(p: Setup, s: Store, n: nat)
    requires Inv(p, s) && Enabled(p, s, PWrite(n))
    ensures var t := Apply(p, s, PWrite(n)); var done := s.phase.written + n;
            && |t.file| >= |s.file| && Holds(t.file, s.phase.cmd.offset, s.phase.cmd.data[..done])
            && PhaseInv(t)
  {
    hide Start, Length, AllFinished, AllAttempts, AllCommands, Exclusive, Patch, Resize, Exec, ExecAll, Holds;
    var cmd, written := s.phase.cmd, s.phase.written;
    var done := written + n;
    HoldsGrows(s.file, cmd.offset, cmd.data[..written], cmd.data[written..done]);
    assert cmd.data[..written] + cmd.data[written..done] == cmd.data[..done];
  }

  lemma PartPromised(p: Setup, s: Store, n: nat)
    requires Inv(p, s) && Enabled(p, s, PWrite(n))
    ensures var t := Apply(p, s, PWrite(n));
            && ExecAll(t.file, s.Pending()) == s.Image()
            && (forall c: nat, data | Promised(p, s.file, s.Pending(), c, data) :: Promised(p, t.file, s.Pending(), c, data))
  {
    hide Start, Length, Patch, ExecAll, Promised, AllFinished, AllAttempts, AllCommands;
    HeadAbsorbed(p, s.file, s.Pending(), s.phase.written, s.phase.written + n);
  }

  lemma WriteLanded(p: Setup, s: Store, n: nat)
    requires Inv(p, s) && Enabled(p, s, PWrite(n))
    ensures var t := Apply(p, s, PWrite(n));
            && t.Image() == s.Image()
            && (forall c: nat, data | Promised(p, s.file, s.Pending(), c, data) :: Promised(p, t.file, t.Pending(), c, data))
            && (forall c: nat | Untouched(p, s.Pending(), c) :: Untouched(p, t.Pending(), c))
  {
    hide Start, Length, Patch;
    var t := Apply(p, s, PWrite(n));
    var cmd := s.phase.cmd;
    PartLanded(p, s, n);
    PartPromised(p, s, n);
    if s.phase.written + n == |cmd.data| {
      assert cmd.data[..|cmd.data|] == cmd.data;
      PatchIdle(t.file, cmd.offset, cmd.data);
      Retire(p, t.file, cmd, s.queue);
    }
  }

  lemma PWriteStep(p: Setup, s: Store, n: nat)
    requires Inv(p, s) && Enabled(p, s, PWrite(n))
    ensures Inv(p, Apply(p, s, PWrite(n))) && Guarantee(p, s, Apply(p, s, PWrite(n)))
  {
    hide Start, Length, Resize, Exec, ExecAll, AttemptInv, CommandInv, TakeNext;
    var t := Apply(p, s, PWrite(n));
    var cmd := s.phase.cmd;
    PartLanded(p, s, n);
    WriteLanded(p, s, n);
    assert s.Pending()[0] == cmd;
    forall c | c in t.finished
      ensures FinishedInv(p, t.file, t.Pending(), c in t.disk, c, t.finished[c])
      ensures c in s.disk ==> forall i | p.Base(c) <= i < p.Base(c) + p.Len(c) && i < |s.file| :: t.file[i] == s.file[i]
    {
      assert FinishedInv(p, s.file, s.Pending(), c in s.disk, c, s.finished[c]);
      if c in s.disk {
        assert !Touches(cmd, p.Base(c), p.Base(c) + p.Len(c));
      }
    }
    forall i | 0 <= i < |t.Pending()| ensures CommandInv(p, t.finished.Keys, t.Pending()[i]) {
      assert CommandInv(p, s.finished.Keys, s.Pending()[i + |s.Pending()| - |t.Pending()|]);
    }
  }

  // ---- the synchronous writer ----

  lemma MapWriteOwn(p: Setup, s: Store, w: nat, data: seq<byte>)
    requires Inv(p, s) && Enabled(p, s, MapWrite(w, data))
    ensures var t := Apply(p, s, MapWrite(w, data)); AttemptInv(p, t.Taken(), t.stop, t.Image(), t.attempts[w])
  {
    hide Start, Length, Patch;
    var t := Apply(p, s, MapWrite(w, data));
    var a := s.attempts[w];
    assert AttemptInv(p, s.Taken(), s.stop, s.Image(), a);
    assert s.Image() == s.file && t.Image() == t.file;
    GenuineGrows(p, a, data);
    HoldsGrows(s.file, p.Base(a.chunk), a.sent, data);
  }

  lemma MapWriteOther(p: Setup, s: Store, w: nat, data: seq<byte>, v: nat)
    requires Inv(p, s) && Enabled(p, s, MapWrite(w, data)) && v in s.attempts && v != w
    ensures var t := Apply(p, s, MapWrite(w, data)); AttemptInv(p, t.Taken(), t.stop, t.Image(), t.attempts[v])
  {
    hide Start, Length, Patch;
    var t := Apply(p, s, MapWrite(w, data));
    var a, b := s.attempts[w], s.attempts[v];
    assert AttemptInv(p, s.Taken(), s.stop, s.Image(), a);
    assert AttemptInv(p, s.Taken(), s.stop, s.Image(), b);
    assert s.Image() == s.file && t.Image() == t.file;
    var cmd := Write(p.Base(a.chunk) + |a.sent|, data);
    Apart(p, b.chunk, a.chunk, cmd);
    if !b.call.Marked? {
      ExecFrame(s.file, cmd, p.Base(b.chunk), b.sent);
    }
  }

  lemma MapWriteStep(p: Setup, s: Store, w: nat, data: seq<byte>)
    requires Inv(p, s) && Enabled(p, s, MapWrite(w, data))
    ensures Inv(p, Apply(p, s, MapWrite(w, data))) && Guarantee(p, s, Apply(p, s, MapWrite(w, data)))
  {
    hide Start, Length, Resize, Exec, ExecAll, TakeNext, WritePart;
    var t := Apply(p, s, MapWrite(w, data));
    var a := s.attempts[w];
    var cmd := Write(p.Base(a.chunk) + |a.sent|, data);
    assert AttemptInv(p, s.Taken(), s.stop, s.Image(), a);
    forall c | c in t.finished
      ensures FinishedInv(p, t.file, t.Pending(), c in t.disk, c, t.finished[c])
      ensures forall i | p.Base(c) <= i < p.Base(c) + p.Len(c) && i < |s.file| :: t.file[i] == s.file[i]
    {
      assert FinishedInv(p, s.file, s.Pending(), c in s.disk, c, s.finished[c]);
      Apart(p, c, a.chunk, cmd);
    }
    forall v | v in t.attempts ensures AttemptInv(p, t.Taken(), t.stop, t.Image(), t.attempts[v]) {
      if v == w {
        MapWriteOwn(p, s, w, data);
      } else {
        MapWriteOther(p, s, w, data, v);
      }
    }
  }

  lemma MapMarkStep(p: Setup, s: Store, w: nat)
    requires Inv(p, s) && Enabled(p, s, MapMark(w))
    ensures Inv(p, Apply(p, s, MapMark(w))) && Guarantee(p, s, Apply(p, s, MapMark(w)))
  {
    hide Start, Length, Patch, Resize, TakeNext, WritePart;
    var t := Apply(p, s, MapMark(w));
    var a := s.attempts[w];
    assert AttemptInv(p, s.Taken(), s.stop, s.Image(), a);
    forall c | c in t.finished ensures FinishedInv(p, t.file, t.Pending(), c in t.disk, c, t.finished[c]) {
      if c != a.chunk {
        assert FinishedInv(p, s.file, s.Pending(), c in s.disk, c, s.finished[c]);
      }
    }
    forall v | v in t.attempts ensures AttemptInv(p, t.Taken(), t.stop, t.Image(), t.attempts[v]) {
      assert AttemptInv(p, s.Taken(), s.stop, s.Image(), s.attempts[v]);
      assert v != w ==> s.attempts[v].chunk != a.chunk;
    }
  }

  // ---- the main results ----

  /**
   * Every step of every attempt, of the queue and of the writer thread keeps the invariant and
   * freezes the chunks that are on disk, whatever is queued, failed, stopped or killed.
   */
  lemma Step(p: Setup, s: Store, a: Action)
    requires Inv(p, s) && Enabled(p, s, a)
    requires a.Begin? ==> Fresh(s, a.c)
    ensures Inv(p, Apply(p, s, a)) && Guarantee(p, s, Apply(p, s, a))
  {
    hide Inv, Enabled, Apply, Guarantee;
    match a
    case Put(w) => PutStep(p, s, w);
    case MapWrite(w, data) => MapWriteStep(p, s, w, data);
    case MapMark(w) => MapMarkStep(p, s, w);
    case Take => TakeStep(p, s);
    case PWrite(n) => PWriteStep(p, s, n);
    case PutQuit => PutQuitStep(p, s);
    case _ => QuietStep(p, s, a);
  }

  /**
   * A marked chunk's whole range holds the bytes of the one attempt that finished it, and neither
   * a queued command nor an attempt in progress can write to that range.
   */
  lemma OnDiskIsRight(p: Setup, s: Store, c: nat)
    requires Inv(p, s) && c in s.disk
    ensures c in s.finished && |s.finished[c]| == p.Len(c)
    ensures Holds(s.file, p.Base(c), s.finished[c])
    ensures forall cmd | cmd in s.Pending() :: cmd != Mark(c) && !Touches(cmd, p.Base(c), p.Base(c) + p.Len(c))
    ensures forall w | w in s.attempts && !s.attempts[w].call.Marked? :: s.attempts[w].chunk != c
  {
    assert FinishedInv(p, s.file, s.Pending(), c in s.disk, c, s.finished[c]);
    forall w | w in s.attempts && !s.attempts[w].call.Marked? ensures s.attempts[w].chunk != c {
      assert AttemptInv(p, s.Taken(), s.stop, s.Image(), s.attempts[w]);
    }
  }

  /** A finished chunk that is not on disk yet has its mark still pending. */
  lemma {:induction false} PromiseHasMark(p: Setup, file: seq<byte>, cmds: seq<Command>, c: nat, data: seq<byte>)
    requires Promised(p, file, cmds, c, data)
    ensures Mark(c) in cmds
    decreases |cmds|
  {
    if cmds[0] != Mark(c) {
      PromiseHasMark(p, Exec(file, cmds[0]), cmds[1..], c, data);
    }
  }

  lemma UnmarkedIsPending(p: Setup, s: Store, c: nat)
    requires Inv(p, s) && c in s.finished && c !in s.disk
    ensures Mark(c) in s.Pending()
  {
    assert FinishedInv(p, s.file, s.Pending(), c in s.disk, c, s.finished[c]);
    PromiseHasMark(p, s.file, s.Pending(), c, s.finished[c]);
  }
}
