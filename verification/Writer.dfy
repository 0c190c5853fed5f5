/** The two disk writers: the queue drained by a thread, and the memory map written in place. */
module Writer {
  import opened Disk
  import opened Session
  import S = Store

  /** The marks among some commands. */
  function Marks(cmds: seq<Command>): set<nat> {
    if cmds == [] then {}
    else (if cmds[0].Mark? then {cmds[0].chunk} else {}) + Marks(cmds[1..])
  }

  lemma {:induction false} MarksSnoc(cmds: seq<Command>, cmd: Command)
    ensures Marks(cmds + [cmd]) == Marks(cmds) + if cmd.Mark? then {cmd.chunk} else {}
  {
    if cmds == [] {
      assert cmds + [cmd] == [cmd];
      assert Marks([cmd]) == (if cmd.Mark? then {cmd.chunk} else {}) + Marks([]);
    } else {
      assert (cmds + [cmd])[1..] == cmds[1..] + [cmd];
      MarksSnoc(cmds[1..], cmd);
    }
  }

  lemma {:induction false} MarksMember(cmds: seq<Command>, c: nat)
    ensures c in Marks(cmds) <==> Mark(c) in cmds
  {
    if cmds != [] {
      MarksMember(cmds[1..], c);
    }
  }

  /** threading.Event, shared by the writer thread, its producers and the downloader. */
  class Event {
    var isSet: bool
    constructor () ensures !isSet { isSet := false; }
  }

  /** One call of os.pwrite: the number of bytes it takes, or an OSError. */
  datatype PWrite = Accepts(n: nat) | Raises

  predicate Fine(w: PWrite) { w.Accepts? && w.n > 0 }

  class DiskWriter {
    const stopEvent: Event
    const maxsize: nat
    var file: seq<byte>
    var queue: seq<Command>
    var diskCompleted: set<nat>
    var error: bool
    var phase: S.Phase
    ghost var attempts: map<nat, S.Attempt>
    ghost var finished: map<nat, seq<byte>>
    ghost var lost: set<nat>

    /** The writer as the store's state machine sees it, with the attempts that feed it. */
    ghost function View(): S.Store
      reads this, stopEvent
    {
      S.Store(file, queue, phase, diskCompleted, stopEvent.isSet, attempts, finished, lost)
    }

    ghost predicate Valid() reads this {
      error <==> phase.Failed?
    }

    constructor (file: seq<byte>, stopEvent: Event, maxsize: nat, completed: set<nat>)
      ensures this.file == file && this.stopEvent == stopEvent && this.maxsize == maxsize
      ensures queue == [] && diskCompleted == completed && !error && phase.Resting? && Valid()
      ensures attempts == map[] && finished == map[] && lost == {}
    {
      this.file, this.stopEvent, this.maxsize := file, stopEvent, maxsize;
      queue, diskCompleted, error, phase := [], completed, false, S.Resting;
      attempts, finished, lost := map[], map[], {};
    }

    // ---- the producers, turn by turn ----

    /**
     * The head of the loop in write, mark_complete and truncate, for the attempt w that makes the
     * call: with the flag set the call returns and the command is discarded.
     */
    method ReadFlag(ghost p: S.Setup, ghost w: nat, cmd: Command) returns (discarded: bool)
      requires Valid() && p.Valid() && w in attempts && attempts[w].live && attempts[w].call == S.Offered(cmd)
      modifies this`attempts, this`lost
      ensures Valid() && discarded == stopEvent.isSet
      ensures View() == S.Apply(p, old(View()), if discarded then S.Drop(w) else S.Check(w))
    {
      hide Patch, S.TakeNext, S.WritePart;
      discarded := stopEvent.isSet;
      if discarded {
        if cmd.Mark? {
          lost := lost + {attempts[w].chunk};
        }
        attempts := attempts[w := S.Return(attempts[w], true)];
      } else {
        attempts := attempts[w := attempts[w].(call := S.Checked(cmd))];
      }
    }

    /** The put: the command goes to the end of the queue, or the loop goes round because it is full. */
    method TryPut(ghost p: S.Setup, ghost w: nat, cmd: Command) returns (again: bool)
      requires Valid() && p.Valid() && maxsize == p.maxQueue
      requires w in attempts && attempts[w].live && attempts[w].call == S.Checked(cmd)
      modifies this`queue, this`attempts, this`finished
      ensures Valid() && (again <==> |old(queue)| >= maxsize)
      ensures View() == S.Apply(p, old(View()), if again then S.Full(w) else S.Put(w))
    {
      hide Patch, S.TakeNext, S.WritePart;
      again := |queue| >= maxsize;
      if again {
        attempts := attempts[w := attempts[w].(call := S.Offered(cmd))];
      } else {
        queue := queue + [cmd];
        if cmd.Mark? {
          finished := finished[attempts[w].chunk := attempts[w].sent];
        }
        attempts := attempts[w := S.Return(attempts[w], false)];
      }
    }

    method IsOnDisk(c: nat) returns (r: bool)
      ensures r <==> c in diskCompleted
    {
      r := c in diskCompleted;
    }

    // ---- the thread, turn by turn ----

    /** The head of the loop: the flag is read. */
    method LoopHead(ghost p: S.Setup)
      requires Valid() && p.Valid() && !p.mmap && phase.Resting?
      modifies this`phase
      ensures Valid() && phase == if stopEvent.isSet then S.Abandoned else S.Polling
      ensures View() == S.Apply(p, old(View()), if stopEvent.isSet then S.Leave else S.Poll)
    {
      phase := if stopEvent.isSet then S.Abandoned else S.Polling;
    }

    /** queue.get returns: with the next command, or empty-handed behind its timeout. */
    method GetItem(ghost p: S.Setup)
      requires Valid() && p.Valid() && phase.Polling?
      modifies this`queue, this`phase, this`diskCompleted, this`file
      ensures Valid() && View() == S.Apply(p, old(View()), if old(queue) == [] then S.Empty else S.Take)
    {
      if queue == [] {
        phase := S.Resting;
        return;
      }
      var item := queue[0];
      queue := queue[1..];
      match item {
        case Write(_, data) => phase := if |data| > 0 then S.Writing(item, 0) else S.Resting;
        case Mark(c) => diskCompleted, phase := diskCompleted + {c}, S.Resting;
        case Truncate(size) => file, phase := Resize(file, size), S.Resting;
        case Quit => phase := S.Drained;
      }
    }

    /** One pwrite of the partial-write loop: a count of zero, or an OSError, ends the thread. */
    method WritePiece(ghost p: S.Setup, result: PWrite)
      requires Valid() && p.Valid() && phase.Writing? && phase.cmd.Write? && phase.written < |phase.cmd.data|
      modifies this`file, this`phase, this`error, stopEvent
      ensures Valid()
      ensures var left := |old(phase).cmd.data| - old(phase).written;
              View() == S.Apply(p, old(View()), if !Fine(result) then S.Fault
                                                else S.PWrite(if result.n < left then result.n else left))
    {
      hide Patch, S.TakeNext, S.Return;
      var asked := |phase.cmd.data| - phase.written;
      if result.Raises? || result.n == 0 {
        error, phase := true, S.Failed(phase.cmd);
        stopEvent.isSet := true;
        return;
      }
      var written := phase.written + if result.n < asked then result.n else asked;
      file := Patch(file, phase.cmd.offset + phase.written, phase.cmd.data[phase.written..written]);
      phase := if written == |phase.cmd.data| then S.Resting else S.Writing(phase.cmd, written);
    }

    // ---- the thread, command by command ----

    /**
     * The partial-write loop. `results` are those of the pwrites in turn; one that takes no byte, or
     * raises, ends the loop early. What was written is exactly a prefix of the data.
     */
    method WriteAll(ghost p: S.Setup, results: nat -> PWrite)
      requires Valid() && p.Valid() && phase.Writing? && phase.cmd.Write? && phase.written == 0 && phase.cmd.data != []
      modifies this`file, this`phase, this`error, stopEvent
      ensures Valid()
      ensures var cmd := old(phase).cmd;
              if !error then phase.Resting? && file == Exec(old(file), cmd) && stopEvent.isSet == old(stopEvent.isSet)
              else
                && phase == S.Failed(cmd) && stopEvent.isSet && (exists k: nat :: !Fine(results(k)))
                && (exists w: nat :: w < |cmd.data| && file == Patch(old(file), cmd.offset, cmd.data[..w]))
    {
      hide Patch;
      var cmd := phase.cmd;
      var k := 0;
      ghost var written: nat := 0;
      assert cmd.data[..0] == [];
      PatchNothing(file, cmd.offset);
      while phase.Writing?
        invariant Valid() && written <= |cmd.data| && file == Patch(old(file), cmd.offset, cmd.data[..written])
        invariant if phase.Writing? then phase == S.Writing(cmd, written) && written < |cmd.data|
                  else if phase.Resting? then written == |cmd.data|
                  else phase == S.Failed(cmd) && written < |cmd.data| && k > 0 && !Fine(results(k - 1))
        invariant stopEvent.isSet == (old(stopEvent.isSet) || phase.Failed?)
        decreases |cmd.data| - written, phase.Writing?
      {
        var asked := |cmd.data| - written;
        ghost var taken := if Fine(results(k)) then if results(k).n < asked then results(k).n else asked else 0;
        if taken > 0 {
          PatchExtends(old(file), cmd.offset, cmd.data, written, written + taken);
        }
        WritePiece(p, results(k));
        written := written + taken;
        k := k + 1;
      }
      assert cmd.data[..|cmd.data|] == cmd.data;
    }

    /**
     * One command off the queue, carried out without a turn of anyone else. An I/O error sets the
     * error and the stop flag, and the command stays incomplete.
     */
    method RunItem(ghost p: S.Setup, results: nat -> PWrite)
      requires Valid() && p.Valid() && phase.Polling? && queue != []
      modifies this`file, this`queue, this`diskCompleted, this`phase, this`error, stopEvent
      ensures Valid() && queue == old(queue)[1..]
      ensures var cmd := old(queue)[0];
              if !error then
                && file == Exec(old(file), cmd) && diskCompleted == old(diskCompleted) + Marks([cmd])
                && stopEvent.isSet == old(stopEvent.isSet) && phase == (if cmd.Quit? then S.Drained else S.Resting)
              else
                && cmd.Write? && diskCompleted == old(diskCompleted) && stopEvent.isSet
                && (exists w: nat :: w < |cmd.data| && file == Patch(old(file), cmd.offset, cmd.data[..w]))
      ensures error ==> exists k: nat :: !Fine(results(k))
    {
      hide Patch;
      ghost var cmd := queue[0];
      MarksOne(cmd);
      GetItem(p);
      if phase.Writing? {
        WriteAll(p, results);
      } else if cmd.Write? {
        PatchNothing(file, cmd.offset);
      }
    }

    /**
     * The thread's loop over what is queued. The commands it takes take effect in queue order, it
     * marks no chunk behind a failed write, and it stops only for the sentinel, the flag, an error,
     * or because nothing is queued.
     */
    method Run(ghost p: S.Setup, results: nat -> nat -> PWrite) returns (taken: nat)
      requires Valid() && p.Valid() && !p.mmap && phase.Resting?
      modifies this`file, this`queue, this`diskCompleted, this`phase, this`error, stopEvent
      ensures Valid() && taken <= |old(queue)|
      ensures diskCompleted == old(diskCompleted) + Marks(old(queue)[..taken])
      ensures if !error then
                && queue == old(queue)[taken..] && file == ExecAll(old(file), old(queue)[..taken])
                && stopEvent.isSet == old(stopEvent.isSet)
                && (phase.Drained? <==> taken > 0 && old(queue)[taken - 1] == Quit)
                && (queue == [] || phase.Drained? || (phase.Abandoned? && stopEvent.isSet))
              else
                && taken < |old(queue)| && queue == old(queue)[taken + 1..] && old(queue)[taken].Write?
                && stopEvent.isSet && exists j: nat, k: nat :: !Fine(results(j)(k))
      ensures forall i | 0 <= i < taken - 1 :: old(queue)[i] != Quit
    {
      hide Patch, Resize, Exec, S.Apply, S.Enabled, S.TakeNext;
      taken := 0;
      while phase.Resting? && queue != []
        invariant Valid() && taken <= |old(queue)| && !error && (phase.Resting? || phase.Drained?)
        invariant queue == old(queue)[taken..]
        invariant file == ExecAll(old(file), old(queue)[..taken])
        invariant diskCompleted == old(diskCompleted) + Marks(old(queue)[..taken])
        invariant stopEvent.isSet == old(stopEvent.isSet)
        invariant phase.Drained? <==> taken > 0 && old(queue)[taken - 1] == Quit
        invariant forall i | 0 <= i < taken - 1 :: old(queue)[i] != Quit
        decreases |queue|
      {
        ghost var before := old(queue)[..taken];
        ghost var cmd := queue[0];
        LoopHead(p);
        if phase.Abandoned? {
          return;
        }
        RunItem(p, results(taken));
        if error {
          return;
        }
        assert old(queue)[..taken + 1] == before + [cmd];
        ExecAllSnoc(old(file), before, cmd);
        MarksSnoc(before, cmd);
        MarksOne(cmd);
        taken := taken + 1;
      }
    }
  }

  lemma PatchNothing(file: seq<byte>, offset: nat)
    ensures Patch(file, offset, []) == file
  {
  }

  lemma MarksOne(cmd: Command)
    ensures Marks([cmd]) == if cmd.Mark? then {cmd.chunk} else {}
  {
    assert Marks([cmd]) == (if cmd.Mark? then {cmd.chunk} else {}) + Marks([]);
  }

  /** A longer prefix of a write is the shorter one and then the part behind it. */
  lemma PatchExtends(file: seq<byte>, offset: nat, data: seq<byte>, lo: nat, hi: nat)
    requires lo < hi <= |data|
    ensures Patch(Patch(file, offset, data[..lo]), offset + lo, data[lo..hi]) == Patch(file, offset, data[..hi])
  {
    hide Patch;
    assert data[..lo] + data[lo..hi] == data[..hi];
    PatchSplits(file, offset, data[..lo], data[lo..hi]);
  }

  class MmapDiskWriter {
    const totalSize: nat
    var mapped: bool
    var file: seq<byte>
    var diskCompleted: set<nat>

    constructor (file: seq<byte>, totalSize: nat, completed: set<nat>)
      ensures this.file == file && this.totalSize == totalSize && diskCompleted == completed && !mapped
    {
      this.file, this.totalSize, diskCompleted, mapped := file, totalSize, completed, false;
    }

    method StartMapping()
      modifies this`mapped
      ensures mapped
    {
      mapped := true;
    }

    /** Slice assignment into the map: in place, and an error when it does not fit the mapping. */
    method Write(offset: nat, data: seq<byte>) returns (ok: bool)
      requires |file| >= totalSize
      modifies this`file
      ensures ok <==> mapped && (data == [] || offset + |data| <= totalSize)
      ensures file == if ok then Exec(old(file), Command.Write(offset, data)) else old(file)
      ensures |file| == |old(file)|
    {
      ok := false;
      if mapped && data == [] {
        ok := true;
      } else if mapped && offset + |data| <= totalSize {
        file := file[..offset] + data + file[offset + |data|..];
        assert file == Patch(old(file), offset, data);
        ok := true;
      }
    }

    method MarkComplete(c: nat)
      modifies this`diskCompleted
      ensures diskCompleted == old(diskCompleted) + Marks([Mark(c)])
    {
      MarksOne(Mark(c));
      diskCompleted := diskCompleted + {c};
    }

    method IsOnDisk(c: nat) returns (r: bool)
      ensures r <==> c in diskCompleted
    {
      r := c in diskCompleted;
    }

    /** Python slicing clips to the mapping. */
    method ReadChunk(offset: nat, length: nat) returns (data: Option<seq<byte>>)
      requires |file| >= totalSize
      ensures !mapped ==> data.None?
      ensures mapped && offset + length <= totalSize ==> data.Some? && |data.value| == length && Holds(file, offset, data.value)
    {
      if !mapped {
        return None;
      }
      var lo := if offset < totalSize then offset else totalSize;
      var hi := if offset + length < totalSize then offset + length else totalSize;
      data := Some(file[lo..hi]);
    }
  }
}
