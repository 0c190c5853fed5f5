/**
 * The disk side of a download as a state machine: fetch attempts that hand bytes to a writer,
 * the bounded queue, and the writer thread that drains it with partial writes.
 * An action is one step between two points at which another task or thread may run.
 */
module Store {
  import opened Tiling
  import opened Disk

  /**
   * The download's fixed data. `honest` says that every mirror sends the bytes of `source`;
   * without it a mirror may send anything. `mmap` selects the synchronous writer.
   */
  datatype Setup = Setup(totalSize: nat, chunkSize: nat, flush: nat, maxQueue: nat,
                         mmap: bool, honest: bool, source: seq<byte>)
  {
    function Chunks(): int requires chunkSize > 0 { TotalChunks(totalSize, chunkSize) }
    function Base(c: nat): nat { Start(c, chunkSize) }
    function Len(c: nat): int { Length(c, totalSize, chunkSize) }
    ghost predicate Valid() {
      && totalSize > 0 && chunkSize > 0 && flush > 0 && maxQueue > 0
      && (honest ==> |source| == totalSize)
    }
    /** The bytes agree with what the mirrors serve at that place, when the mirrors are honest. */
    ghost predicate Genuine(c: nat, data: seq<byte>) {
      honest ==> Holds(source, Base(c), data)
    }
  }

  /** Where an attempt's current call into the writer stands. */
  datatype Call =
    | Idle                   // no call: waiting for bytes
    | Offered(cmd: Command)  // in the loop of write/mark_complete, before the flag is read
    | Checked(cmd: Command)  // flag read as unset, the blocking put is under way
    | Marked                 // mark_complete has returned

  /** One run of fetch(chunk): the bytes passed to write so far, and whether one was discarded. */
  datatype Attempt = Attempt(chunk: nat, sent: seq<byte>, call: Call, dropped: bool, live: bool)

  datatype Phase =
    | Resting                              // top of the thread's loop
    | Polling                              // flag read as unset, blocked in queue.get
    | Writing(cmd: Command, written: nat)  // inside the partial-write loop
    | Drained                              // left the loop on the None sentinel
    | Abandoned                            // left the loop on the stop flag
    | Failed(left: Command)                // an I/O error ended the thread

  datatype Store = Store(file: seq<byte>, queue: seq<Command>, phase: Phase, disk: set<nat>, stop: bool,
                         attempts: map<nat, Attempt>, finished: map<nat, seq<byte>>, lost: set<nat>)
  {
    /** Commands still owed to the file: the one in hand, then the queue. */
    function Pending(): seq<Command> {
      if phase.Writing? then [phase.cmd] + queue
      else if phase.Failed? then [phase.left] + queue
      else queue
    }
    /** The file once everything pending has been carried out. */
    function Image(): seq<byte> { ExecAll(file, Pending()) }
    /** Chunks whose mark was queued or discarded. */
    function Taken(): set<nat> { finished.Keys + lost }
  }

  datatype Action =
    | Begin(w: nat, c: nat)
    | Offer(w: nat, data: seq<byte>)
    | OfferMark(w: nat)
    | Check(w: nat)
    | Put(w: nat)
    | Full(w: nat)
    | Drop(w: nat)
    | MapWrite(w: nat, data: seq<byte>)
    | MapMark(w: nat)
    | Close(w: nat)
    | Kill(w: nat)
    | Poll
    | Empty
    | Take
    | PWrite(n: nat)
    | Fault
    | Leave
    | PutQuit
    | SetStop

  ghost predicate At(s: Store, w: nat, live: bool) {
    w in s.attempts && (live ==> s.attempts[w].live)
  }

  /** The next bytes of the attempt's chunk, at most one buffer of them. */
  ghost predicate NextBytes(p: Setup, a: Attempt, data: seq<byte>) {
    && 0 < |data| <= p.flush && |a.sent| + |data| <= p.Len(a.chunk)
    && (p.honest ==> Holds(p.source, p.Base(a.chunk) + |a.sent|, data))
  }

  ghost predicate Enabled(p: Setup, s: Store, a: Action)
    requires p.Valid()
  {
    match a
    case Begin(w, c) => w !in s.attempts && c < p.Chunks()
    case Offer(w, data) => !p.mmap && At(s, w, true) && s.attempts[w].call.Idle? && NextBytes(p, s.attempts[w], data)
    case OfferMark(w) => !p.mmap && At(s, w, true) && s.attempts[w].call.Idle? && |s.attempts[w].sent| == p.Len(s.attempts[w].chunk)
    case Check(w) => At(s, w, true) && s.attempts[w].call.Offered? && !s.stop
    case Put(w) => At(s, w, false) && s.attempts[w].call.Checked? && |s.queue| < p.maxQueue
    case Full(w) => At(s, w, true) && s.attempts[w].call.Checked?
    case Drop(w) => At(s, w, true) && s.attempts[w].call.Offered? && s.stop
    case MapWrite(w, data) => p.mmap && At(s, w, true) && s.attempts[w].call.Idle? && NextBytes(p, s.attempts[w], data)
    case MapMark(w) => p.mmap && At(s, w, true) && s.attempts[w].call.Idle? && |s.attempts[w].sent| == p.Len(s.attempts[w].chunk)
    case Close(w) => At(s, w, true) && (s.attempts[w].call.Idle? || s.attempts[w].call.Marked?)
    case Kill(w) => At(s, w, true)
    case Poll => !p.mmap && s.phase.Resting? && !s.stop
    case Empty => s.phase.Polling?
    case Take => s.phase.Polling? && s.queue != []
    case PWrite(n) => s.phase.Writing? && s.phase.cmd.Write? && 0 < n <= |s.phase.cmd.data| - s.phase.written
    case Fault => s.phase.Writing?
    case Leave => !p.mmap && s.phase.Resting? && s.stop
    case PutQuit => !p.mmap && |s.queue| < p.maxQueue
    case SetStop => true
  }

  /** A write or mark has been handed over or discarded: the call returns. */
  function Return(a: Attempt, drop: bool): Attempt
    requires a.call.Offered? || a.call.Checked?
  {
    match a.call.cmd
    case Write(_, data) => a.(call := Idle, sent := a.sent + data, dropped := a.dropped || drop)
    case _ => a.(call := Marked, dropped := a.dropped || drop)
  }

  ghost function Apply(p: Setup, s: Store, a: Action): Store
    requires p.Valid() && Enabled(p, s, a)
  {
    match a
    case Begin(w, c) => s.(attempts := s.attempts[w := Attempt(c, [], Idle, false, true)])
    case Offer(w, data) =>
      var t := s.attempts[w];
      s.(attempts := s.attempts[w := t.(call := Offered(Write(p.Base(t.chunk) + |t.sent|, data)))])
    case OfferMark(w) =>
      var t := s.attempts[w];
      s.(attempts := s.attempts[w := t.(call := Offered(Mark(t.chunk)))])
    case Check(w) => s.(attempts := s.attempts[w := s.attempts[w].(call := Checked(s.attempts[w].call.cmd))])
    case Full(w) => s.(attempts := s.attempts[w := s.attempts[w].(call := Offered(s.attempts[w].call.cmd))])
    case Put(w) =>
      var t := s.attempts[w];
      s.(queue := s.queue + [t.call.cmd],
         attempts := s.attempts[w := Return(t, false)],
         finished := if t.call.cmd.Mark? then s.finished[t.chunk := t.sent] else s.finished)
    case Drop(w) =>
      var t := s.attempts[w];
      s.(attempts := s.attempts[w := Return(t, true)],
         lost := if t.call.cmd.Mark? then s.lost + {t.chunk} else s.lost)
    case MapWrite(w, data) =>
      var t := s.attempts[w];
      s.(file := Patch(s.file, p.Base(t.chunk) + |t.sent|, data),
         attempts := s.attempts[w := t.(sent := t.sent + data)])
    case MapMark(w) =>
      var t := s.attempts[w];
      s.(disk := s.disk + {t.chunk}, finished := s.finished[t.chunk := t.sent],
         attempts := s.attempts[w := t.(call := Marked)])
    case Close(w) => s.(attempts := s.attempts - {w})
    case Kill(w) => s.(attempts := s.attempts[w := s.attempts[w].(live := false)])
    case Poll => s.(phase := Polling)
    case Empty => s.(phase := Resting)
    case Take => TakeNext(s)
    case PWrite(n) => WritePart(s, n)
    case Fault => s.(phase := Failed(s.phase.cmd), stop := true)
    case Leave => s.(phase := Abandoned)
    case PutQuit => s.(queue := s.queue + [Quit])
    case SetStop => s.(stop := true)
  }

  /** The thread takes a command off the queue; a mark or a truncation is carried out at once. */
  function TakeNext(s: Store): Store
    requires s.queue != []
  {
    var t := s.(queue := s.queue[1..]);
    match s.queue[0]
    case Write(_, data) => if data == [] then t.(phase := Resting) else t.(phase := Writing(s.queue[0], 0))
    case Mark(c) => t.(disk := t.disk + {c}, phase := Resting)
    case Truncate(size) => t.(file := Resize(t.file, size), phase := Resting)
    case Quit => t.(phase := Drained)
  }

  /** One pwrite that accepts n bytes; the loop ends when the whole command is written. */
  function WritePart(s: Store, n: nat): Store
    requires s.phase.Writing? && s.phase.cmd.Write? && 0 < n <= |s.phase.cmd.data| - s.phase.written
  {
    var done := s.phase.written + n;
    s.(file := Patch(s.file, s.phase.cmd.offset + s.phase.written, s.phase.cmd.data[s.phase.written..done]),
       phase := if done == |s.phase.cmd.data| then Resting else s.phase.(written := done))
  }

  // ---- the invariant ----

  /** No command reaches the range of chunk c, and none marks it. */
  ghost predicate Untouched(p: Setup, cmds: seq<Command>, c: nat) {
    forall i | 0 <= i < |cmds| :: cmds[i] != Mark(c) && !Touches(cmds[i], p.Base(c), p.Base(c) + p.Len(c))
  }

  /**
   * The mark of chunk c is in the queue, and when its turn comes the chunk's range holds data
   * and nothing behind the mark touches that range.
   */
  ghost predicate Promised(p: Setup, file: seq<byte>, cmds: seq<Command>, c: nat, data: seq<byte>)
    decreases |cmds|
  {
    cmds != [] &&
    if cmds[0] == Mark(c) then Holds(file, p.Base(c), data) && Untouched(p, cmds[1..], c)
    else Promised(p, Exec(file, cmds[0]), cmds[1..], c, data)
  }

  ghost predicate CallInv(p: Setup, a: Attempt) {
    && (a.call.Checked? ==> !a.dropped)
    && (p.mmap ==> !a.dropped && (a.call.Idle? || a.call.Marked?))
    && (a.call.Offered? || a.call.Checked? ==>
        match a.call.cmd
        case Write(offset, data) => offset == p.Base(a.chunk) + |a.sent| && NextBytes(p, a, data)
        case Mark(c) => c == a.chunk && |a.sent| == p.Len(c)
        case _ => false)
  }

  /**
   * An attempt in progress: its chunk is nobody else's result (`taken`), and unless bytes of it
   * were discarded, carrying out everything pending (`image`) puts all its bytes in place.
   */
  ghost predicate AttemptInv(p: Setup, taken: set<nat>, stop: bool, image: seq<byte>, a: Attempt)
    requires p.Valid()
  {
    && a.chunk < p.Chunks() && |a.sent| <= p.Len(a.chunk) && p.Genuine(a.chunk, a.sent)
    && CallInv(p, a)
    && (a.dropped ==> stop)
    && (!a.call.Marked? ==> a.chunk !in taken && (!a.dropped ==> Holds(image, p.Base(a.chunk), a.sent)))
  }

  /** A queued write stays inside one chunk; marks are only those of finished chunks. */
  ghost predicate CommandInv(p: Setup, finished: set<nat>, cmd: Command)
    requires p.Valid()
  {
    match cmd
    case Write(offset, data) =>
      data != [] && exists c: nat :: c < p.Chunks() && p.Base(c) <= offset && offset + |data| <= p.Base(c) + p.Len(c)
    case Mark(c) => c in finished
    case Truncate(_) => false
    case Quit => true
  }

  /** A finished chunk is either right on disk and out of reach, or certain to become so. */
  ghost predicate FinishedInv(p: Setup, file: seq<byte>, pending: seq<Command>, onDisk: bool, c: nat, data: seq<byte>)
    requires p.Valid()
  {
    && c < p.Chunks() && |data| == p.Len(c) && p.Genuine(c, data)
    && if onDisk then Holds(file, p.Base(c), data) && Untouched(p, pending, c)
       else Promised(p, file, pending, c, data)
  }

  ghost predicate PhaseInv(s: Store) {
    && (s.phase.Writing? ==>
        && s.phase.cmd.Write? && s.phase.written < |s.phase.cmd.data|
        && Holds(s.file, s.phase.cmd.offset, s.phase.cmd.data[..s.phase.written]))
    && (s.phase.Failed? ==> s.stop && s.phase.left.Write?)
    && (s.phase.Abandoned? ==> s.stop)
  }

  ghost predicate Shape(p: Setup, s: Store) {
    && p.Valid() && |s.file| >= p.totalSize
    && PhaseInv(s)
    && s.disk <= s.finished.Keys && s.lost !! s.finished.Keys
    && (s.lost != {} ==> s.stop)
    && (p.mmap ==> s.queue == [] && s.lost == {} && s.phase.Resting? && s.disk == s.finished.Keys)
  }

  ghost predicate AllFinished(p: Setup, s: Store) requires p.Valid() {
    forall c | c in s.finished :: FinishedInv(p, s.file, s.Pending(), c in s.disk, c, s.finished[c])
  }

  ghost predicate AllCommands(p: Setup, finished: set<nat>, cmds: seq<Command>) requires p.Valid() {
    forall i | 0 <= i < |cmds| :: CommandInv(p, finished, cmds[i])
  }

  ghost predicate AllAttempts(p: Setup, s: Store) requires p.Valid() {
    forall w | w in s.attempts :: AttemptInv(p, s.Taken(), s.stop, s.Image(), s.attempts[w])
  }

  /** No two attempts are ever at work on one chunk. */
  ghost predicate Exclusive(s: Store) {
    forall v, w | v in s.attempts && w in s.attempts && v != w :: s.attempts[v].chunk != s.attempts[w].chunk
  }

  ghost predicate Inv(p: Setup, s: Store) {
    && Shape(p, s)
    && AllFinished(p, s)
    && AllCommands(p, s.finished.Keys, s.Pending())
    && AllAttempts(p, s)
    && Exclusive(s)
  }

  /** Nobody has begun, finished or lost the chunk: the pool only hands out such chunks. */
  ghost predicate Fresh(s: Store, c: nat) {
    && c !in s.finished && c !in s.lost
    && forall w | w in s.attempts :: s.attempts[w].chunk != c
  }

  /**
   * What every step guarantees to readers of the file: chunks on disk stay on disk with the same
   * bytes, the file keeps its length at least, and the stop flag stays set.
   */
  ghost predicate Guarantee(p: Setup, s: Store, t: Store) {
    && |t.file| >= |s.file| && s.disk <= t.disk && (s.stop ==> t.stop)
    && forall c, i | c in s.disk && p.Base(c) <= i < p.Base(c) + p.Len(c) && i < |s.file| :: t.file[i] == s.file[i]
  }
}
