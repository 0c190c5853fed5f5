/** The streaming hasher against a file that is still being written, and the one-shot verification. */
module Hasher {
  import opened Tiling
  import opened Disk
  import opened Session

  const READ_CHUNK: nat := 4194304

  /** What the hasher's thread can see at one moment. */
  datatype World = World(file: seq<byte>, disk: set<nat>, stop: bool)

  /** Everything else that runs, as the hasher sees it: the state of shared data at its i-th look. */
  type Worlds = nat -> World

  ghost predicate Later(totalSize: nat, chunkSize: nat, v: World, w: World) {
    && |w.file| >= |v.file| && v.disk <= w.disk && (v.stop ==> w.stop)
    && forall c, i | c in v.disk && Start(c, chunkSize) <= i < Start(c, chunkSize) + Length(c, totalSize, chunkSize) && i < |v.file| ::
         w.file[i] == v.file[i]
  }

  /**
   * What the hasher relies on: chunks on disk stay there with the same bytes, the file is never
   * shorter than the download, a set stop flag stays set.
   */
  ghost predicate Rely(totalSize: nat, chunkSize: nat, worlds: Worlds) {
    && (forall i: nat :: |worlds(i).file| >= totalSize)
    && forall i: nat, j: nat | i <= j :: Later(totalSize, chunkSize, worlds(i), worlds(j))
  }

  datatype HashSpec = HashSpec(digest: seq<byte> -> string, expected: Option<string>)

  function LowerChar(c: char): char {
    if 'A' <= c <= 'Z' then c - 'A' + 'a' else c
  }

  function Lower(s: string): string {
    seq(|s|, i requires 0 <= i < |s| => LowerChar(s[i]))
  }

  /** The verdict that belongs to some bytes. */
  predicate Matches(spec: HashSpec, bytes: seq<byte>) {
    spec.expected.None? || Lower(spec.digest(bytes)) == Lower(spec.expected.value)
  }

  /** The same letter of the ASCII alphabet, once in upper and once in lower case. */
  predicate OtherCase(upper: char, lower: char) {
    65 <= upper as int <= 90 && lower as int == upper as int + 32
  }

  /** Two strings of one length that differ at most in the case of ASCII letters. */
  predicate SameUpToCase(a: string, b: string) {
    && |a| == |b|
    && forall i | 0 <= i < |a| :: a[i] == b[i] || OtherCase(a[i], b[i]) || OtherCase(b[i], a[i])
  }

  lemma LowerMeans(a: string, b: string)
    ensures Lower(a) == Lower(b) <==> SameUpToCase(a, b)
  {
    forall i | 0 <= i < |a| && i < |b|
      ensures Lower(a)[i] == Lower(b)[i] <==> a[i] == b[i] || OtherCase(a[i], b[i]) || OtherCase(b[i], a[i])
    {
      LowerCharMeans(a[i], b[i]);
    }
    if Lower(a) == Lower(b) {
      assert |Lower(a)| == |a| && |Lower(b)| == |b|;
      forall i | 0 <= i < |a| ensures a[i] == b[i] || OtherCase(a[i], b[i]) || OtherCase(b[i], a[i]) {
        assert Lower(a)[i] == Lower(b)[i];
      }
    }
  }

  lemma LowerCharMeans(a: char, b: char)
    ensures LowerChar(a) == LowerChar(b) <==> a == b || OtherCase(a, b) || OtherCase(b, a)
  {
  }

  /** What a verdict means: there is nothing to compare with, or the digests differ at most in case. */
  lemma MatchesMeans(spec: HashSpec, bytes: seq<byte>)
    ensures Matches(spec, bytes) <==> spec.expected.None? || SameUpToCase(spec.digest(bytes), spec.expected.value)
  {
    if spec.expected.Some? {
      LowerMeans(spec.digest(bytes), spec.expected.value);
    }
  }

  /** Hexadecimal digits as hexdigest writes them. */
  predicate LowerHex(s: string) {
    forall i | 0 <= i < |s| :: '0' <= s[i] <= '9' || 'a' <= s[i] <= 'f'
  }

  /** A digest written in lower case is accepted only for the very same digest. */
  lemma LowerHexIsExact(a: string, b: string)
    requires LowerHex(a) && LowerHex(b)
    ensures SameUpToCase(a, b) <==> a == b
  {
    if SameUpToCase(a, b) {
      forall i | 0 <= i < |a| ensures a[i] == b[i] {
        assert !OtherCase(a[i], b[i]);
        assert !OtherCase(b[i], a[i]);
      }
    }
  }

  /** os.read: some bytes, at most what is asked for; none only at the end of the file. */
  function ReadAt(file: seq<byte>, at: nat, asked: nat, offered: nat): (data: seq<byte>)
    ensures |data| <= asked
    ensures at + |data| <= |file| || data == []
    ensures data == [] <==> asked == 0 || |file| <= at
    ensures at + |data| <= |file| ==> data == file[at..at + |data|]
  {
    if |file| <= at || asked == 0 then []
    else
      var most := if asked < |file| - at then asked else |file| - at;
      var n := if offered == 0 then 1 else if offered < most then offered else most;
      file[at..at + n]
  }

  /** From the t-th look on, the n bytes at lo are there and do not change. */
  ghost predicate Stable(worlds: Worlds, t: nat, lo: nat, n: int) {
    && n >= 0
    && (forall j: nat | t <= j :: |worlds(j).file| >= lo + n)
    && forall j: nat | t <= j :: worlds(j).file[lo..lo + n] == worlds(t).file[lo..lo + n]
  }

  /**
   * hash_chunk: the bytes it feeds to the hash, and the look at which it ends. With a stop event it
   * gives up when that is set. Over a stable range, in whatever portions the reads arrive, it feeds
   * exactly the range unless it was stopped.
   */
  method HashChunk(worlds: Worlds, t: nat, start: nat, length: nat, offered: nat -> nat, heedsStop: bool)
    returns (data: seq<byte>, t': nat)
    ensures t <= t' && |data| <= length
    ensures Stable(worlds, t, start, length) ==>
              && data == worlds(t').file[start..start + |data|]
              && (|data| < length ==> heedsStop && worlds(t').stop)
  {
    hide Stable, ReadAt;
    data, t' := [], t;
    var k := 0;
    if Stable(worlds, t, start, length) {
      StablePiece(worlds, t, t, start, length, 0, 0);
    }
    while |data| < length
      invariant t <= t' && |data| <= length
      invariant Stable(worlds, t, start, length) ==>
                  start + length <= |worlds(t).file| && data == worlds(t).file[start..start + |data|]
      decreases length - |data|
    {
      if heedsStop && worlds(t').stop {
        break;
      }
      t' := t' + 1;
      var asked := if READ_CHUNK < length - |data| then READ_CHUNK else length - |data|;
      var piece := ReadAt(worlds(t').file, start + |data|, asked, offered(k));
      if Stable(worlds, t, start, length) {
        StablePiece(worlds, t, t', start, length, |data|, |piece|);
      }
      if piece == [] {
        break;
      }
      data := data + piece;
      k := k + 1;
    }
    if Stable(worlds, t, start, length) {
      StablePiece(worlds, t, t', start, length, 0, |data|);
    }
  }

  /** The first m bytes of a stable range, and a piece read k bytes into it, at a later look. */
  lemma StablePiece(worlds: Worlds, t: nat, t': nat, lo: nat, n: nat, k: nat, m: nat)
    requires Stable(worlds, t, lo, n) && t <= t' && k + m <= n
    ensures |worlds(t).file| >= lo + n && |worlds(t').file| >= lo + n
    ensures worlds(t).file[lo..lo + k] + worlds(t').file[lo + k..lo + k + m] == worlds(t).file[lo..lo + k + m]
    ensures worlds(t).file[lo..lo + k + m] == worlds(t').file[lo..lo + k + m]
  {
    var f, g := worlds(t).file, worlds(t').file;
    assert |f| >= lo + n && |g| >= lo + n;
    var F, G := f[lo..lo + n], g[lo..lo + n];
    assert F == G;
    assert F[..k + m] == f[lo..lo + k + m] && G[..k + m] == g[lo..lo + k + m];
    assert F[..k] == f[lo..lo + k] && G[k..k + m] == g[lo + k..lo + k + m];
    assert F[..k] + F[k..k + m] == F[..k + m];
  }

  /** A chunk on disk is a stable range. */
  lemma OnDiskStable(totalSize: nat, chunkSize: nat, worlds: Worlds, t: nat, c: nat)
    requires totalSize > 0 && chunkSize > 0 && c < TotalChunks(totalSize, chunkSize)
    requires Rely(totalSize, chunkSize, worlds) && c in worlds(t).disk
    ensures Stable(worlds, t, Start(c, chunkSize), Length(c, totalSize, chunkSize))
  {
    LengthsAgree(c, totalSize, chunkSize);
    var lo, n := Start(c, chunkSize), Length(c, totalSize, chunkSize);
    forall j: nat | t <= j ensures worlds(j).file[lo..lo + n] == worlds(t).file[lo..lo + n] {
      assert Later(totalSize, chunkSize, worlds(t), worlds(j));
      assert |worlds(t).file| >= totalSize && |worlds(j).file| >= totalSize;
    }
  }

  /** Where chunk c starts, or the end of the file behind the last chunk. */
  function Reached(c: nat, totalSize: nat, chunkSize: nat): nat
    requires chunkSize > 0
  {
    if c < TotalChunks(totalSize, chunkSize) then Start(c, chunkSize) else totalSize
  }

  ghost predicate AllOnDisk(w: World, chunks: nat) {
    forall c: nat | c < chunks :: c in w.disk
  }

  /** When the first chunks are on disk, their bytes are the same at every later look. */
  lemma {:induction false} PrefixStable(totalSize: nat, chunkSize: nat, worlds: Worlds, t: nat, t': nat, chunks: nat)
    requires totalSize > 0 && chunkSize > 0 && chunks <= TotalChunks(totalSize, chunkSize) && t <= t'
    requires Rely(totalSize, chunkSize, worlds) && AllOnDisk(worlds(t), chunks)
    ensures AllOnDisk(worlds(t'), chunks)
    ensures Reached(chunks, totalSize, chunkSize) <= totalSize <= |worlds(t).file| && totalSize <= |worlds(t').file|
    ensures worlds(t').file[..Reached(chunks, totalSize, chunkSize)] == worlds(t).file[..Reached(chunks, totalSize, chunkSize)]
  {
    assert Later(totalSize, chunkSize, worlds(t), worlds(t'));
    assert |worlds(t).file| >= totalSize && |worlds(t').file| >= totalSize;
    if chunks == 0 {
      LengthsAgree(0, totalSize, chunkSize);
      assert Start(0, chunkSize) == 0;
    } else {
      PrefixStable(totalSize, chunkSize, worlds, t, t', chunks - 1);
      OnDiskStable(totalSize, chunkSize, worlds, t, chunks - 1);
      ReachedNext(totalSize, chunkSize, chunks - 1);
      var lo, hi := Reached(chunks - 1, totalSize, chunkSize), Reached(chunks, totalSize, chunkSize);
      assert worlds(t').file[..hi] == worlds(t').file[..lo] + worlds(t').file[lo..hi];
      assert worlds(t).file[..hi] == worlds(t).file[..lo] + worlds(t).file[lo..hi];
    }
  }

  /** A chunk on disk is one more of the first chunks, at every later look. */
  lemma StillOnDisk(totalSize: nat, chunkSize: nat, worlds: Worlds, t: nat, t': nat, c: nat)
    requires Rely(totalSize, chunkSize, worlds) && t <= t' && c in worlds(t).disk
    ensures |worlds(t').file| >= totalSize
    ensures AllOnDisk(worlds(t'), c) ==> AllOnDisk(worlds(t'), c + 1)
  {
    assert Later(totalSize, chunkSize, worlds(t), worlds(t'));
    assert |worlds(t').file| >= totalSize;
  }

  lemma ReachedNext(totalSize: nat, chunkSize: nat, c: nat)
    requires totalSize > 0 && chunkSize > 0 && c < TotalChunks(totalSize, chunkSize)
    ensures Reached(c + 1, totalSize, chunkSize) == Reached(c, totalSize, chunkSize) + Length(c, totalSize, chunkSize)
    ensures Reached(c + 1, totalSize, chunkSize) <= totalSize
  {
    LengthsSum(c, totalSize, chunkSize);
    LengthsSum(c + 1, totalSize, chunkSize);
    LengthsAgree(c, totalSize, chunkSize);
  }

  datatype Verdict = Unknown | Verified(ok: bool)

  datatype Finalized = Accepted | Rejected | IncompleteHash

  class StreamingHasher {
    const chunkSize: nat
    const totalSize: nat
    const totalChunks: nat
    const spec: Option<HashSpec>
    var fed: seq<byte>
    var computed: Option<string>
    var verified: Verdict

    constructor (chunkSize: nat, totalSize: nat, totalChunks: nat, spec: Option<HashSpec>)
      ensures this.chunkSize == chunkSize && this.totalSize == totalSize && this.totalChunks == totalChunks && this.spec == spec
      ensures fed == [] && computed.None? && verified.Unknown?
    {
      this.chunkSize, this.totalSize, this.totalChunks, this.spec := chunkSize, totalSize, totalChunks, spec;
      fed, computed, verified := [], None, Unknown;
    }

    /** A download of known size that is to be hashed, in a world that keeps its promises. */
    ghost predicate Ready(worlds: Worlds) {
      && totalSize > 0 && chunkSize > 0 && totalChunks == TotalChunks(totalSize, chunkSize)
      && spec.Some? && Rely(totalSize, chunkSize, worlds)
    }

    /** The first chunks are on disk and exactly their bytes have been fed. */
    ghost predicate Fed(worlds: Worlds, t: nat, chunks: nat)
      reads this
    {
      && chunkSize > 0 && chunks <= TotalChunks(totalSize, chunkSize) && AllOnDisk(worlds(t), chunks)
      && Reached(chunks, totalSize, chunkSize) <= |worlds(t).file|
      && fed == worlds(t).file[..Reached(chunks, totalSize, chunkSize)]
    }

    lemma FedLater(worlds: Worlds, t: nat, t': nat, chunks: nat)
      requires Ready(worlds) && Fed(worlds, t, chunks) && t <= t'
      ensures Fed(worlds, t', chunks)
    {
      PrefixStable(totalSize, chunkSize, worlds, t, t', chunks);
    }

    /** A verdict, if there is one, is that on the whole file. */
    ghost predicate Settled(worlds: Worlds, t: nat)
      reads this
    {
      verified.Verified? ==>
        spec.Some? && Fed(worlds, t, totalChunks) && verified == Verified(Matches(spec.value, fed))
    }

    /** With a mapped writer the chunk comes from its memory, else from the file in portions. */
    method HashSingleChunk(worlds: Worlds, t: nat, chunk: nat, mapped: bool, offered: nat -> nat) returns (t': nat)
      requires Ready(worlds) && chunk < totalChunks && Fed(worlds, t, chunk) && chunk in worlds(t).disk
      modifies this`fed
      ensures t <= t'
      ensures Fed(worlds, t', chunk + 1) || worlds(t').stop
    {
      hide Start, Length, Stable, Later, AllOnDisk;
      OnDiskStable(totalSize, chunkSize, worlds, t, chunk);
      LengthsAgree(chunk, totalSize, chunkSize);
      ReachedNext(totalSize, chunkSize, chunk);
      var start, length := Start(chunk, chunkSize), Length(chunk, totalSize, chunkSize);
      var data;
      if mapped {
        t' := t + 1;
        data := worlds(t').file[start..start + length];
      } else {
        data, t' := HashChunk(worlds, t, start, length, offered, true);
      }
      FedLater(worlds, t, t', chunk);
      StillOnDisk(totalSize, chunkSize, worlds, t, t', chunk);
      fed := fed + data;
      assert worlds(t').file[..start] + worlds(t').file[start..start + length] == worlds(t').file[..start + length];
    }

    /**
     * The thread's loop, for any behaviour of the writer. It sets a verdict only when it has fed the
     * whole file. `patience` bounds how often it may find the next chunk still missing; when all
     * chunks are on disk by that look, it ends without a verdict only for the stop flag.
     */
    method HashAllChunks(worlds: Worlds, mapped: bool, offered: nat -> nat -> nat, patience: nat) returns (t: nat, gaveUp: bool)
      requires Ready(worlds) && fed == [] && verified.Unknown? && computed.None?
      modifies this
      ensures if verified.Verified? then
                && Fed(worlds, t, totalChunks) && |fed| == totalSize
                && verified == Verified(Matches(spec.value, fed)) && computed == Some(spec.value.digest(fed))
              else
                computed.None? && (gaveUp || worlds(t).stop)
      ensures Settled(worlds, t)
      ensures AllOnDisk(worlds(patience), totalChunks) && !worlds(t).stop ==> verified.Verified?
    {
      var current, waits := 0, 0;
      t, gaveUp := 0, false;
      LengthsAgree(0, totalSize, chunkSize);
      assert Rely(totalSize, chunkSize, worlds) ==> |worlds(0).file| >= totalSize;
      assert Reached(0, totalSize, chunkSize) == 0;
      while current < totalChunks && !worlds(t).stop
        invariant current <= totalChunks && (Fed(worlds, t, current) || worlds(t).stop)
        invariant waits <= patience && waits <= t && verified.Unknown? && computed.None?
        decreases totalChunks - current, patience - waits
      {
        if current in worlds(t + 1).disk {
          FedLater(worlds, t, t + 1, current);
          t := HashSingleChunk(worlds, t + 1, current, mapped, offered(current));
          current := current + 1;
        } else {
          if waits == patience {
            assert Later(totalSize, chunkSize, worlds(patience), worlds(t + 1));
            gaveUp := true;
            return;
          }
          waits := waits + 1;
          FedLater(worlds, t, t + 1, current);
          t := t + 1;
        }
      }
      if current == totalChunks && !worlds(t).stop {
        VerifyHash();
        assert Rely(totalSize, chunkSize, worlds) ==> |worlds(t).file| >= totalSize;
      }
    }

    method VerifyHash()
      requires spec.Some?
      modifies this`computed, this`verified
      ensures computed == Some(spec.value.digest(fed)) && verified == Verified(Matches(spec.value, fed))
      ensures verified == Verified(spec.value.expected.None? || SameUpToCase(spec.value.digest(fed), spec.value.expected.value))
    {
      MatchesMeans(spec.value, fed);
      var digest := spec.value.digest(fed);
      computed := Some(digest);
      if spec.value.expected.None? {
        verified := Verified(true);
      } else {
        verified := Verified(Lower(digest) == Lower(spec.value.expected.value));
      }
    }

    /**
     * Without a checksum everything is accepted. With one, the answer is the verdict on the file's
     * bytes as they are from the end of the hashing on, and an error exactly when that did not end.
     */
    method Finalize(ghost worlds: Worlds, ghost t: nat) returns (r: Finalized)
      requires spec.Some? ==> Ready(worlds) && Settled(worlds, t)
      ensures spec.None? ==> r.Accepted?
      ensures spec.Some? ==> (r.IncompleteHash? <==> verified.Unknown?)
      ensures spec.Some? && !r.IncompleteHash? ==>
                forall t': nat | t <= t' ::
                  && |worlds(t').file| >= totalSize
                  && (r.Accepted? <==> spec.value.expected.None?
                                       || SameUpToCase(spec.value.digest(worlds(t').file[..totalSize]), spec.value.expected.value))
    {
      if spec.Some? && verified.Verified? {
        forall t': nat | t <= t' ensures |worlds(t').file| >= totalSize && fed == worlds(t').file[..totalSize] {
          FedLater(worlds, t, t', totalChunks);
          assert Later(totalSize, chunkSize, worlds(t'), worlds(t'));
        }
        MatchesMeans(spec.value, fed);
      }
      if spec.None? {
        return Accepted;
      }
      match verified
      case Unknown => r := IncompleteHash;
      case Verified(ok) => r := if ok then Accepted else Rejected;
    }
  }

  /** The number of chunks verify_file reads; none for an empty file. */
  function VerifyChunks(size: nat, chunkSize: nat): nat
    requires chunkSize > 0
  {
    (size + chunkSize - 1) / chunkSize
  }

  /** The fallback loop of verify_file, chunk by chunk. */
  method HashWholeFile(file: seq<byte>, chunkSize: nat, offered: nat -> nat -> nat) returns (fed: seq<byte>)
    requires chunkSize > 0
    ensures fed == file
  {
    fed := [];
    var worlds: Worlds := _ => World(file, {}, false);
    var n := VerifyChunks(|file|, chunkSize);
    if n == 0 {
      DivisionBounds(|file| + chunkSize - 1, chunkSize);
      return;
    }
    EmptyHasNoChunks(|file|, chunkSize);
    assert Reached(0, |file|, chunkSize) == 0;
    for c := 0 to n
      invariant Reached(c, |file|, chunkSize) <= |file|
      invariant fed == file[..Reached(c, |file|, chunkSize)]
    {
      LengthsAgree(c, |file|, chunkSize);
      ReachedNext(|file|, chunkSize, c);
      var data, t := HashChunk(worlds, 0, Start(c, chunkSize), Length(c, |file|, chunkSize), offered(c), false);
      assert Stable(worlds, 0, Start(c, chunkSize), Length(c, |file|, chunkSize));
      fed := fed + data;
    }
    assert file[..|file|] == file;
  }

  lemma EmptyHasNoChunks(size: nat, chunkSize: nat)
    requires chunkSize > 0 && VerifyChunks(size, chunkSize) > 0
    ensures size > 0 && VerifyChunks(size, chunkSize) == TotalChunks(size, chunkSize)
  {
    if size == 0 {
      DivisionBounds(chunkSize - 1, chunkSize);
      MulMonotone(1, VerifyChunks(0, chunkSize), chunkSize);
    }
  }

  /**
   * verify_file, with hashlib's own file_digest or with the fallback loop: both hash the whole file
   * for any portions in which it is read.
   */
  method VerifyFile(file: seq<byte>, spec: HashSpec, chunkSize: nat, fileDigest: bool, offered: nat -> nat -> nat)
    returns (valid: bool, digest: string)
    requires chunkSize > 0
    ensures digest == spec.digest(file)
    ensures valid <==> spec.expected.None? || SameUpToCase(digest, spec.expected.value)
    ensures valid <==> Matches(spec, file)
  {
    MatchesMeans(spec, file);
    var fed := file;
    if !fileDigest {
      fed := HashWholeFile(file, chunkSize, offered);
    }
    digest := spec.digest(fed);
    if spec.expected.None? {
      valid := true;
    } else {
      valid := Lower(digest) == Lower(spec.expected.value);
    }
  }

  /**
   * The streaming verdict is the one-shot verdict on the finished file, as long as that file has
   * the download's size; a longer file agrees on its first bytes only.
   */
  lemma StreamingAgreesWithOneShot(h: StreamingHasher, worlds: Worlds, t: nat, t': nat)
    requires h.Ready(worlds) && h.Fed(worlds, t, h.totalChunks) && t <= t'
    ensures h.fed == worlds(t').file[..h.totalSize]
    ensures |worlds(t').file| == h.totalSize ==> Matches(h.spec.value, worlds(t').file) == Matches(h.spec.value, h.fed)
  {
    h.FedLater(worlds, t, t', h.totalChunks);
    if |worlds(t').file| == h.totalSize {
      assert worlds(t').file[..h.totalSize] == worlds(t').file;
    }
  }
}
