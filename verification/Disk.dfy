/** The destination file as bytes, and what the commands of the write queue do to it. */
module Disk {
  newtype byte = x: int | 0 <= x < 256

  datatype Command =
    | Write(offset: nat, data: seq<byte>)
    | Mark(chunk: nat)
    | Truncate(size: nat)
    | Quit

  /** os.ftruncate: cut, or extend with zeros. */
  function Resize(file: seq<byte>, size: nat): (r: seq<byte>)
    ensures |r| == size
    ensures forall i | 0 <= i < size :: r[i] == if i < |file| then file[i] else 0
  {
    if size <= |file| then file[..size] else file + seq(size - |file|, _ => 0)
  }

  /** os.pwrite of all of data: the file grows, zero-filled, when the write ends past it. */
  function Patch(file: seq<byte>, offset: nat, data: seq<byte>): (r: seq<byte>)
    ensures data == [] ==> r == file
    ensures data != [] ==> |r| == if offset + |data| <= |file| then |file| else offset + |data|
    ensures forall i | 0 <= i < |data| :: r[offset + i] == data[i]
    ensures forall i | 0 <= i < |file| && !(offset <= i < offset + |data|) :: r[i] == file[i]
    ensures forall i | |file| <= i < |r| && !(offset <= i < offset + |data|) :: r[i] == 0
  {
    if data == [] then file
    else
      var end := offset + |data|;
      var base := if |file| < end then Resize(file, end) else file;
      base[..offset] + data + base[end..]
  }

  function Exec(file: seq<byte>, cmd: Command): seq<byte> {
    match cmd
    case Write(offset, data) => Patch(file, offset, data)
    case Truncate(size) => Resize(file, size)
    case Mark(_) => file
    case Quit => file
  }

  /** The file after a queue of commands has been carried out in order. */
  function ExecAll(file: seq<byte>, cmds: seq<Command>): seq<byte>
    decreases |cmds|
  {
    if cmds == [] then file else ExecAll(Exec(file, cmds[0]), cmds[1..])
  }

  /** The bytes from offset on are data. */
  ghost predicate Holds(file: seq<byte>, offset: nat, data: seq<byte>) {
    && offset + |data| <= |file|
    && forall i | 0 <= i < |data| :: file[offset + i] == data[i]
  }

  /** The command may change a byte of [lo, hi). */
  predicate Touches(cmd: Command, lo: int, hi: int) {
    match cmd
    case Write(offset, data) => offset < hi && lo < offset + |data|
    case Truncate(_) => true
    case Mark(_) => false
    case Quit => false
  }

  lemma HoldsSlice(file: seq<byte>, offset: nat, data: seq<byte>)
    ensures Holds(file, offset, data) <==> offset + |data| <= |file| && file[offset..offset + |data|] == data
  {
    if offset + |data| <= |file| && file[offset..offset + |data|] == data {
      forall i | 0 <= i < |data| ensures file[offset + i] == data[i] {
        assert file[offset..offset + |data|][i] == data[i];
      }
    }
  }

  /** Carrying out a command leaves alone what it does not touch. */
  lemma ExecFrame(file: seq<byte>, cmd: Command, offset: nat, data: seq<byte>)
    requires Holds(file, offset, data) && !Touches(cmd, offset, offset + |data|)
    ensures Holds(Exec(file, cmd), offset, data)
  {
  }

  lemma {:induction false} ExecAllSnoc(file: seq<byte>, cmds: seq<Command>, cmd: Command)
    ensures ExecAll(file, cmds + [cmd]) == Exec(ExecAll(file, cmds), cmd)
    decreases |cmds|
  {
    if cmds == [] {
      assert cmds + [cmd] == [cmd];
      assert ExecAll(Exec(file, cmd), []) == Exec(file, cmd);
    } else {
      assert (cmds + [cmd])[1..] == cmds[1..] + [cmd];
      ExecAllSnoc(Exec(file, cmds[0]), cmds[1..], cmd);
    }
  }

  /** Redoing a write over a part of itself gives the same file: a partial pwrite loses nothing. */
  lemma PatchAbsorbsPart(file: seq<byte>, offset: nat, data: seq<byte>, lo: nat, hi: nat)
    requires lo <= hi <= |data|
    ensures Patch(Patch(file, offset + lo, data[lo..hi]), offset, data) == Patch(file, offset, data)
  {
  }

  /** Two writes one behind the other are one write. */
  lemma PatchSplits(file: seq<byte>, start: nat, head: seq<byte>, tail: seq<byte>)
    ensures Patch(Patch(file, start, head), start + |head|, tail) == Patch(file, start, head + tail)
  {
    hide Patch, Resize;
    if head == [] || tail == [] {
      assert head + tail == if head == [] then tail else head;
      return;
    }
    var once := Patch(file, start, head + tail);
    var first := Patch(file, start, head);
    var twice := Patch(first, start + |head|, tail);
    assert |once| == |twice|;
    forall i | 0 <= i < |once| ensures twice[i] == once[i] {
      if start <= i < start + |head| {
        assert once[start + (i - start)] == (head + tail)[i - start];
        assert first[start + (i - start)] == head[i - start];
      } else if start + |head| <= i < start + |head| + |tail| {
        assert once[start + (i - start)] == (head + tail)[i - start];
        assert twice[start + |head| + (i - start - |head|)] == tail[i - start - |head|];
      }
    }
  }

  /** A write whose bytes are already there changes nothing. */
  lemma PatchIdle(file: seq<byte>, offset: nat, data: seq<byte>)
    requires Holds(file, offset, data)
    ensures Patch(file, offset, data) == file
  {
  }
}
