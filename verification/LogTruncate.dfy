/** TruncateLogFile of app/glog/src/logging.cc: the last bytes of a file are copied to its front, block
    by block within the one file, and the rest is cut off. */
module LogTruncate {
  import opened Basics

  const COPY_BLOCK_SIZE := 8192

  class File {
    var bytes: seq<char>

    /** pread: nothing at or behind the end. */
    method PRead(count: nat, offset: nat) returns (data: seq<char>)
      ensures data == if offset >= |bytes| then [] else bytes[offset..offset + Min(count, |bytes| - offset)]
    {
      data := if offset >= |bytes| then [] else bytes[offset..offset + Min(count, |bytes| - offset)];
    }

    method PWrite(data: seq<char>, offset: nat)
      requires offset + |data| <= |bytes|
      modifies this
      ensures |bytes| == old(|bytes|)
      ensures bytes[..offset + |data|] == old(bytes[..offset]) + data
      ensures bytes[offset + |data|..] == old(bytes[offset + |data|..])
    {
      bytes := bytes[..offset] + data + bytes[offset + |data|..];
    }

    method Truncate(size: nat)
      requires size <= |bytes|
      modifies this
      ensures bytes == old(bytes[..size])
    {
      bytes := bytes[..size];
    }
  }

  /** One round of the copy loop: pread may move fewer bytes than asked for, pwrite fewer than pread
      did, and each may fail. */
  datatype Round = Moves(read: nat, written: nat) | ReadFails | WriteFails

  /** What pread would move in this round far from the end of the file. */
  function Asked(rounds: seq<Round>): (r: nat)
    ensures 0 < r <= COPY_BLOCK_SIZE
  {
    if rounds == [] || !rounds[0].Moves? then COPY_BLOCK_SIZE
    else Min(COPY_BLOCK_SIZE, if rounds[0].read == 0 then 1 else rounds[0].read)
  }

  /** How much a round reads when n bytes are left, and how much of it is written. */
  function ReadSize(rounds: seq<Round>, n: nat): (r: nat)
    ensures r <= n && (n > 0 ==> r > 0)
  {
    Min(Asked(rounds), n)
  }

  function WriteSize(rounds: seq<Round>, n: nat): (w: nat)
    ensures w <= ReadSize(rounds, n)
  {
    var r := ReadSize(rounds, n);
    if rounds == [] || !rounds[0].Moves? then r else Min(r, rounds[0].written)
  }

  predicate Stops(rounds: seq<Round>) { rounds != [] && !rounds[0].Moves? }

  function Later(rounds: seq<Round>): seq<Round> { if rounds == [] then [] else rounds[1..] }

  /** What the loop saves of the bytes `s` that it still has to copy. */
  function Saved(s: seq<char>, rounds: seq<Round>): seq<char>
    decreases |s|
  {
    if s == [] || Stops(rounds) then []
    else s[..WriteSize(rounds, |s|)] + Saved(s[ReadSize(rounds, |s|)..], Later(rounds))
  }

  /** The last `keep` bytes. */
  function Last(s: seq<char>, keep: int): seq<char>
    requires keep <= |s|
  {
    if keep < 0 then [] else s[|s| - keep..]
  }

  /** The rounds that take place are all complete. */
  predicate Complete(n: nat, rounds: seq<Round>)
    decreases n
  {
    n == 0 || (!Stops(rounds) && WriteSize(rounds, n) == ReadSize(rounds, n)
        && Complete(n - ReadSize(rounds, n), Later(rounds)))
  }

  /** Everything is saved exactly when every round is complete. */
  lemma {:induction false} SavedAll(s: seq<char>, rounds: seq<Round>)
    ensures |Saved(s, rounds)| <= |s|
    ensures Saved(s, rounds) == s <==> Complete(|s|, rounds)
    decreases |s|
  {
    if s != [] && !Stops(rounds) {
      var r, w := ReadSize(rounds, |s|), WriteSize(rounds, |s|);
      SavedAll(s[r..], Later(rounds));
      if w == r {
        assert s == s[..r] + s[r..];
        assert Saved(s, rounds) == s ==> Saved(s, rounds)[r..] == s[r..];
        assert Saved(s, rounds)[r..] == Saved(s[r..], Later(rounds));
      }
    }
  }

  /** With no failures and no short transfers, whatever the size. */
  lemma UndisturbedSavesAll(s: seq<char>)
    ensures Saved(s, []) == s
  {
    UndisturbedIsComplete(|s|);
    SavedAll(s, []);
  }

  lemma {:induction false} UndisturbedIsComplete(n: nat)
    ensures Complete(n, [])
    decreases n
  {
    if n > 0 { UndisturbedIsComplete(n - ReadSize([], n)); }
  }

  function From(s: seq<char>, i: nat): seq<char> { if i <= |s| then s[i..] else [] }

  /** In the copy loop: what is still to be read is as it was at the start, and what has been written
      is the front of the result. */
  predicate Midway(bytes: seq<char>, all: seq<char>, read: nat, write: nat, left: seq<Round>, result: seq<char>) {
    && |bytes| == |all| && write <= read && write <= |all|
    && From(bytes, read) == From(all, read)
    && bytes[..write] + Saved(From(all, read), left) == result
  }

  lemma TailsAgree(a: seq<char>, b: seq<char>, i: nat, j: nat)
    requires |a| == |b| && i <= j <= |a| && a[i..] == b[i..]
    ensures a[j..] == b[j..]
  {
    assert a[j..] == a[i..][j - i..] && b[j..] == b[i..][j - i..];
  }

  lemma Assoc(a: seq<char>, b: seq<char>, c: seq<char>)
    ensures (a + b) + c == a + (b + c)
  {}

  lemma SavedStep(s: seq<char>, left: seq<Round>, r: nat, w: nat)
    requires s != [] && !Stops(left) && r == ReadSize(left, |s|) && w == WriteSize(left, |s|)
    ensures Saved(s, left) == s[..w] + Saved(s[r..], Later(left))
  {}

  lemma Slices(bytes: seq<char>, all: seq<char>, read: nat, r: nat, w: nat)
    requires |bytes| == |all| && w <= r && read + r <= |all| && bytes[read..] == all[read..]
    ensures bytes[read..read + w] == all[read..][..w] && all[read..][r..] == all[read + r..]
  {
    assert bytes[read..read + w] == bytes[read..][..w];
  }

  /** A round overwrites nothing that is still to be read. */
  lemma MidwayStep(bytes: seq<char>, bytes': seq<char>, all: seq<char>, read: nat, write: nat, left: seq<Round>,
      result: seq<char>, r: nat, w: nat)
    requires Midway(bytes, all, read, write, left, result) && read < |all| == |bytes'| && !Stops(left)
    requires r == ReadSize(left, |all| - read) && w == WriteSize(left, |all| - read)
    requires bytes'[..write + w] == bytes[..write] + bytes[read..read + w] && bytes'[write + w..] == bytes[write + w..]
    ensures Midway(bytes', all, read + r, write + w, Later(left), result)
  {
    hide Saved, ReadSize, WriteSize, Asked;
    var s := From(all, read);
    Slices(bytes, all, read, r, w);
    TailsAgree(bytes, bytes', write + w, read + r);
    TailsAgree(bytes, all, read, read + r);
    SavedStep(s, left, r, w);
    Assoc(bytes[..write], s[..w], Saved(s[r..], Later(left)));
  }

  lemma MidwayEnd(bytes: seq<char>, all: seq<char>, read: nat, write: nat, left: seq<Round>, result: seq<char>)
    requires Midway(bytes, all, read, write, left, result) && (read >= |all| || Stops(left))
    ensures bytes[..write] == result
  {}

  lemma MidwayStart(all: seq<char>, keep: int, rounds: seq<Round>)
    requires keep <= |all|
    ensures Midway(all, all, |all| - keep, 0, rounds, Saved(Last(all, keep), rounds))
  {
    var result := Saved(Last(all, keep), rounds);
    assert all[..0] + result == result;
  }

  lemma FrontOf(s: seq<char>, i: nat, n: nat, m: nat)
    requires i + n <= |s| && m <= n
    ensures s[i..i + n][..m] == s[i..i + m]
  {}

  /** One round of the loop; false when it is the last. */
  method CopyBlock(f: File, readOffset: nat, writeOffset: nat, left: seq<Round>)
      returns (more: bool, bytesIn: nat, bytesOut: nat)
    requires writeOffset <= readOffset && writeOffset <= |f.bytes|
    modifies f
    ensures |f.bytes| == old(|f.bytes|)
    ensures more <==> readOffset < |f.bytes| && !Stops(left)
    ensures !more ==> f.bytes == old(f.bytes)
    ensures more ==> bytesIn == ReadSize(left, |f.bytes| - readOffset)
    ensures more ==> bytesOut == WriteSize(left, |f.bytes| - readOffset)
    ensures more ==>
      f.bytes[..writeOffset + bytesOut] == old(f.bytes[..writeOffset]) + old(f.bytes)[readOffset..readOffset + bytesOut]
    ensures more ==> f.bytes[writeOffset + bytesOut..] == old(f.bytes)[writeOffset + bytesOut..]
  {
    bytesIn, bytesOut := 0, 0;
    if left != [] && left[0].ReadFails? { return false, 0, 0; }
    var data := f.PRead(Asked(left), readOffset);
    if data == [] || (left != [] && left[0].WriteFails?) { return false, 0, 0; }
    bytesIn, bytesOut := |data|, WriteSize(left, |f.bytes| - readOffset);
    FrontOf(f.bytes, readOffset, bytesIn, bytesOut);
    f.PWrite(data[..bytesOut], writeOffset);
    more := true;
  }

  /** TruncateLogFile on a regular file that could be opened. */
  method TruncateLogFile(f: File, limit: int, keep: int, rounds: seq<Round>)
    modifies f
    ensures old(|f.bytes|) <= limit || old(|f.bytes|) <= keep ==> f.bytes == old(f.bytes)
    ensures limit < old(|f.bytes|) && keep < old(|f.bytes|) ==> f.bytes == Saved(Last(old(f.bytes), keep), rounds)
  {
    hide Midway, Saved, Asked, Last, From, ReadSize, WriteSize, Later, Stops;
    ghost var all := f.bytes;
    if |f.bytes| <= limit { return; }
    if |f.bytes| <= keep { return; }
    var readOffset, writeOffset, left := |f.bytes| - keep, 0, rounds;
    ghost var result := Saved(Last(all, keep), rounds);
    MidwayStart(all, keep, rounds);
    var more := true;
    while more
      invariant 0 <= writeOffset <= readOffset && writeOffset <= |f.bytes| == |all|
      invariant Midway(f.bytes, all, readOffset, writeOffset, left, result)
      invariant more || readOffset >= |all| || Stops(left)
      decreases more, |all| - readOffset
    {
      ghost var before := f.bytes;
      var bytesIn, bytesOut;
      more, bytesIn, bytesOut := CopyBlock(f, readOffset, writeOffset, left);
      if more {
        MidwayStep(before, f.bytes, all, readOffset, writeOffset, left, result, bytesIn, bytesOut);
        readOffset, writeOffset, left := readOffset + bytesIn, writeOffset + bytesOut, Later(left);
      }
    }
    MidwayEnd(f.bytes, all, readOffset, writeOffset, left, result);
    f.Truncate(writeOffset);
  }
}
