/** What several of the models share. */
module Basics {
  type byte = x: int | 0 <= x < 256

  datatype Option<T> = None | Some(value: T)

  function Min(a: nat, b: nat): nat { if a < b then a else b }
  function Max(a: nat, b: nat): nat { if a < b then b else a }

  /** A number in decimal. */
  function Dec(n: nat): (s: string)
    ensures |s| > 0 && forall j :: 0 <= j < |s| ==> '0' <= s[j] <= '9'
  {
    var last := [('0' as int + n % 10) as char];
    if n < 10 then last else Dec(n / 10) + last
  }

  // ---------------------------------------------------------------- numbers in memory

  /** The low k bytes of n, lowest first. */
  function LittleEndian(n: nat, k: nat): (b: seq<byte>)
    ensures |b| == k
  {
    if k == 0 then [] else [n % 256] + LittleEndian(n / 256, k - 1)
  }

  function Value(b: seq<byte>): nat {
    if b == [] then 0 else (b[0] as int) + 256 * Value(b[1..])
  }

  function Power256(k: nat): nat { if k == 0 then 1 else 256 * Power256(k - 1) }

  /** A number that fits into k bytes is read back. */
  lemma {:induction false} ReadsBack(n: nat, k: nat)
    requires n < Power256(k)
    ensures Value(LittleEndian(n, k)) == n
    decreases k
  {
    if k > 0 {
      ReadsBack(n / 256, k - 1);
      assert LittleEndian(n, k)[1..] == LittleEndian(n / 256, k - 1);
    }
  }

  const DWORD := 0x1_0000_0000
  const QWORD := 0x1_0000_0000_0000_0000

  lemma WordSizes()
    ensures Power256(2) == 0x1_0000 && Power256(4) == DWORD && Power256(8) == QWORD
  {
    assert Power256(1) == 256 && Power256(2) == 0x1_0000 && Power256(3) == 0x100_0000;
    assert Power256(5) == 256 * Power256(4) && Power256(6) == 256 * Power256(5) && Power256(7) == 256 * Power256(6);
  }

  // ---------------------------------------------------------------- parts of memory

  function Zeros(n: nat): (z: seq<byte>)
    ensures |z| == n
  {
    seq(n, _ => 0)
  }

  predicate HasAt<T(==)>(s: seq<T>, at: int, part: seq<T>) {
    0 <= at && at + |part| <= |s| && s[at..at + |part|] == part
  }

  /** s with `part` written over it, if there is room. */
  function Overwrite<T>(s: seq<T>, at: nat, part: seq<T>): (r: seq<T>)
    ensures |r| == |s|
  {
    if at + |part| <= |s| then s[..at] + part + s[at + |part|..] else s
  }

  lemma OverwriteAt<T>(s: seq<T>, at: nat, part: seq<T>, a: nat)
    requires at + |part| <= |s| && a < |s|
    ensures Overwrite(s, at, part)[a] == if at <= a < at + |part| then part[a - at] else s[a]
  {}

  /** Other parts stay. */
  lemma OverwriteKeeps<T>(s: seq<T>, at: nat, part: seq<T>, i: nat, other: seq<T>)
    requires at + |part| <= |s| && HasAt(s, i, other) && (i + |other| <= at || at + |part| <= i)
    ensures HasAt(Overwrite(s, at, part), i, other)
  {
    var r := Overwrite(s, at, part);
    forall a | i <= a < i + |other| ensures r[a] == s[a] { OverwriteAt(s, at, part, a); }
    assert r[i..i + |other|] == s[i..i + |other|];
  }

  /** A part written behind another continues it. */
  lemma OverwriteExtends<T>(s: seq<T>, i: nat, front: seq<T>, part: seq<T>)
    requires HasAt(s, i, front) && i + |front| + |part| <= |s|
    ensures HasAt(Overwrite(s, i + |front|, part), i, front + part)
  {
    var r, at := Overwrite(s, i + |front|, part), i + |front|;
    OverwriteKeeps(s, at, part, i, front);
    assert r[at..at + |part|] == part;
    assert r[i..at + |part|] == r[i..at] + r[at..at + |part|];
  }

  lemma SliceOfSlice<T>(s: seq<T>, i: nat, n: nat, j: nat, k: nat)
    requires i + n <= |s| && j <= k <= n
    ensures s[i..i + n][j..k] == s[i + j..i + k]
  {
    var part := s[i..i + n];
    var l, r := part[j..k], s[i + j..i + k];
    assert |l| == |r|;
    forall m | 0 <= m < |l| ensures l[m] == r[m] { assert l[m] == part[j + m] == s[i + j + m]; }
  }

  /** A part of a part. */
  lemma HasPart<T>(s: seq<T>, i: nat, a: seq<T>, b: seq<T>, c: seq<T>)
    requires HasAt(s, i, a + b + c)
    ensures HasAt(s, i + |a|, b)
  {
    var all := a + b + c;
    assert all == a + (b + c) && (b + c)[..|b|] == b && all[|a|..|a| + |b|] == b;
    SliceOfSlice(s, i, |all|, |a|, |a| + |b|);
  }
}
