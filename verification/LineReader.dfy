/** Reading a file line by line through a small buffer: ReadPersistent and LineReader of
    app/glog/src/symbolize.cc. */
module LineReader {
  import opened Basics

  /** What the next read(2) does: it is interrupted, it breaks, or it moves at most so many bytes. */
  datatype Event = Interrupted | Broken | AtMost(n: nat)

  /** A file being read.  `events` is any schedule of interrupted and short reads; when it is used up,
      reads move all they are asked for. */
  class File {
    const content: string
    var pos: nat
    var events: seq<Event>
    var failed: bool

    ghost predicate Valid()
      reads this
    {
      pos <= |content|
    }

    ghost function Rest(): string
      requires Valid()
      reads this
    {
      content[pos..]
    }

    constructor (content: string, events: seq<Event>)
      ensures Valid() && Rest() == content && !failed
    {
      this.content := content;
      this.events := events;
      pos := 0;
      failed := false;
    }

    /** read(fd, buf + at, count): -1 for an error, -2 when interrupted (EINTR). */
    method Read(buf: array<char>, at: nat, count: nat) returns (len: int)
      requires Valid() && at + count <= buf.Length && count > 0
      modifies this, buf
      ensures Valid()
      ensures len == -2 ==> |events| < |old(events)|
      ensures len < 0 ==> buf[..] == old(buf[..]) && pos == old(pos)
      ensures failed <==> old(failed) || len == -1
      ensures -2 <= len <= count && (len == 0 <==> len >= 0 && old(Rest()) == [])
      ensures |events| <= |old(events)|
      ensures len >= 0 ==> pos == old(pos) + len
      ensures len >= 0 ==> buf[..at] == old(buf[..at]) && buf[at..at + len] == old(Rest())[..len]
    {
      var n := count;
      if events != [] {
        var e := events[0];
        events := events[1..];
        if e.Interrupted? { return -2; }
        if e.Broken? { failed := true; return -1; }
        n := if e.n == 0 then 1 else if e.n < count then e.n else count;
      }
      len := if |content| - pos < n then |content| - pos else n;
      forall j | 0 <= j < len { buf[at + j] := content[pos + j]; }
      pos := pos + len;
    }
  }

  /** NO_INTR(len = read(...)). */
  method ReadUninterrupted(f: File, buf: array<char>, at: nat, count: nat) returns (len: int)
    requires f.Valid() && at + count <= buf.Length && count > 0
    modifies f, buf
    ensures f.Valid()
    ensures f.failed <==> old(f.failed) || len == -1
    ensures -1 <= len <= count && (len == 0 <==> len >= 0 && old(f.Rest()) == [])
    ensures len >= 0 ==> f.pos == old(f.pos) + len
    ensures len >= 0 ==> buf[..at] == old(buf[..at]) && buf[at..at + len] == old(f.Rest())[..len]
  {
    len := f.Read(buf, at, count);
    while len == -2
      invariant f.Valid() && -2 <= len <= count && (f.failed <==> old(f.failed) || len == -1)
      invariant len == 0 <==> len >= 0 && old(f.Rest()) == []
      invariant len < 0 ==> f.pos == old(f.pos) && buf[..] == old(buf[..])
      invariant len >= 0 ==> f.pos == old(f.pos) + len
      invariant len >= 0 ==> buf[..at] == old(buf[..at]) && buf[at..at + len] == old(f.Rest())[..len]
      decreases |f.events|, len == -2
    {
      ghost var before := buf[..];
      len := f.Read(buf, at, count);
      if len >= 0 { assert buf[..at] == before[..at] == old(buf[..at]); }
    }
  }

  lemma JoinSlices(s: string, i: nat, j: nat, k: nat)
    requires i <= j <= k <= |s|
    ensures s[i..k] == s[i..j] + s[j..k]
  {}

  lemma NextPart(s: string, p: nat, n: nat, m: nat)
    requires p + n + m <= |s|
    ensures s[p..][..n + m] == s[p..][..n] + s[p + n..][..m]
  {}

  /** ReadPersistent: short reads are continued until `count` bytes or the end of the file. */
  method ReadPersistent(f: File, buf: array<char>, at: nat, count: nat) returns (num: int)
    requires f.Valid() && at + count <= buf.Length
    modifies f, buf
    ensures f.Valid() && (f.failed <==> old(f.failed) || num == -1) && num >= -1
    ensures num >= 0 ==> num == Min(count, |old(f.Rest())|) && f.pos == old(f.pos) + num
    ensures num >= 0 ==> buf[..at] == old(buf[..at]) && buf[at..at + num] == old(f.Rest())[..num]
  {
    num := 0;
    while num < count
      invariant 0 <= num <= count && f.Valid() && f.failed == old(f.failed)
      invariant f.pos == old(f.pos) + num
      invariant buf[..at] == old(buf[..at]) && buf[at..at + num] == old(f.Rest())[..num]
      decreases count - num
    {
      ghost var before := buf[..];
      var len := ReadUninterrupted(f, buf, at + num, count - num);
      if len < 0 { return -1; }
      assert buf[..at + num] == before[..at + num];
      assert buf[..at] == before[..at] && buf[at..at + num] == before[at..at + num];
      if len == 0 { break; }
      JoinSlices(buf[..], at, at + num, at + num + len);
      NextPart(f.content, old(f.pos), num, len);
      num := num + len;
    }
  }

  // ---------------------------------------------------------------- lines

  /** The first newline of s, or its end. */
  function LineEnd(s: string): (n: nat)
    ensures n <= |s|
  {
    if s == [] || s[0] == '\n' then 0 else 1 + LineEnd(s[1..])
  }

  lemma {:induction false} LineEndFacts(s: string)
    ensures LineEnd(s) < |s| ==> s[LineEnd(s)] == '\n'
    ensures forall j :: 0 <= j < LineEnd(s) ==> s[j] != '\n'
    decreases |s|
  {
    if s != [] && s[0] != '\n' { LineEndFacts(s[1..]); }
  }

  lemma {:induction false} LineEndIs(s: string, n: nat)
    requires n <= |s| && (n < |s| ==> s[n] == '\n') && forall j :: 0 <= j < n ==> s[j] != '\n'
    ensures LineEnd(s) == n
    decreases |s|
  {
    if s != [] && s[0] != '\n' { LineEndIs(s[1..], n - 1); }
  }

  /** Text behind a newline does not move it; without one the line goes on. */
  lemma LineEndWithin(a: string, b: string)
    ensures LineEnd(a + b) == if LineEnd(a) < |a| then LineEnd(a) else |a| + LineEnd(b)
  {
    LineEndFacts(a);
    LineEndFacts(b);
    LineEndIs(a + b, if LineEnd(a) < |a| then LineEnd(a) else |a| + LineEnd(b));
  }

  lemma Cut(line: string, rest: string, n: nat)
    requires n < |line|
    ensures (line + rest)[..n] == line[..n] && (line + rest)[n + 1..] == line[n + 1..] + rest
  {}

  /** memchr(buf + from, '\n', to - from); `to` when there is none. */
  method FindLineFeed(buf: array<char>, from: nat, to: nat) returns (e: nat)
    requires from <= to <= buf.Length
    ensures from <= e <= to && e == from + LineEnd(buf[from..to])
  {
    e := from;
    while e < to && buf[e] != '\n'
      invariant from <= e <= to && forall j :: from <= j < e ==> buf[j] != '\n'
    {
      e := e + 1;
    }
    LineEndIs(buf[from..to], e - from);
  }

  /** memmove(buf, buf + from, len). */
  method MoveToFront(buf: array<char>, from: nat, len: nat)
    requires from + len <= buf.Length
    modifies buf
    ensures buf[..len] == old(buf[from..from + len])
  {
    var i := 0;
    while i < len
      invariant i <= len && buf[..i] == old(buf[from..from + i])
      invariant forall j :: from + i <= j < from + len ==> buf[j] == old(buf[j])
    {
      buf[i] := buf[from + i];
      i := i + 1;
    }
  }

  lemma Refilled(a: string, b: string, n: nat)
    requires n <= |b|
    ensures (a + b)[..|a| + n] == a + b[..n] && (a + b[..n]) + b[n..] == a + b
  {}

  class Reader {
    const file: File
    const buf: array<char>
    var bol: nat
    var eol: nat
    var eod: nat

    ghost predicate Valid()
      reads this, file, buf
    {
      file.Valid() && !file.failed && eod <= buf.Length && (eod > 0 ==> eol < eod)
    }

    /** What has not been returned yet. */
    ghost function Pending(): string
      requires Valid()
      reads this, file, buf
    {
      (if eod == 0 then [] else buf[eol + 1..eod]) + file.Rest()
    }

    constructor (file: File, buf: array<char>)
      requires file.Valid() && !file.failed
      ensures this.file == file && this.buf == buf && Valid() && Pending() == file.Rest()
    {
      this.file := file;
      this.buf := buf;
      bol, eol, eod := 0, 0, 0;
    }

    /** Moves the unfinished line to the front and fills the rest of the buffer behind it.  False at the
        end of the file and after an error. */
    method Fill(from: nat) returns (ok: bool)
      requires Valid() && from <= eod && (eod == 0 || from == eol + 1)
      modifies this`bol, this`eod, file, buf
      ensures file.Valid() && eod <= buf.Length
      ensures !ok ==> file.failed || buf.Length == 0 || old(file.Rest()) == []
      ensures ok ==> !file.failed && bol == 0 && 0 < eod == Min(buf.Length, |old(Pending())|)
      ensures ok ==> buf[..eod] == old(Pending())[..eod] && buf[..eod] + file.Rest() == old(Pending())
    {
      var rest := eod - from;
      ghost var unfinished, left := buf[from..eod], file.Rest();
      assert unfinished + left == Pending();
      MoveToFront(buf, from, rest);
      assert buf[..rest] == unfinished;
      var num := ReadPersistent(file, buf, rest, buf.Length - rest);
      if num <= 0 { return false; }
      eod := rest + num;
      bol := 0;
      JoinSlices(buf[..], 0, rest, eod);
      assert buf[..rest] == unfinished && buf[rest..eod] == left[..num] && file.Rest() == left[num..];
      Refilled(unfinished, left, num);
      return true;
    }

    /** Brings the next line into the buffer, or as much of it as the buffer holds. */
    method Advance() returns (ok: bool)
      requires Valid()
      modifies this`bol, this`eod, file, buf
      ensures file.Valid()
      ensures !ok ==> file.failed || buf.Length == 0 || LineEnd(old(Pending())) == |old(Pending())|
      ensures ok ==> !file.failed && bol <= eod <= buf.Length && buf[bol..eod] + file.Rest() == old(Pending())
      ensures ok ==> LineEnd(buf[bol..eod]) < eod - bol || eod - bol == Min(buf.Length, |old(Pending())|)
    {
      if eod == 0 {
        ok := Fill(0);
      } else {
        bol := eol + 1;
        var e := FindLineFeed(buf, bol, eod);
        ok := true;
        if e == eod {
          LineEndWithin(buf[bol..eod], file.Rest());
          ok := Fill(bol);
        }
      }
    }

    /** ReadLine: the next line, if it ends in a newline and fits the buffer together with it. */
    method ReadLine() returns (ok: bool)
      requires Valid()
      modifies this, file, buf
      ensures ok <==> !file.failed && LineEnd(old(Pending())) < |old(Pending())| && LineEnd(old(Pending())) < buf.Length
      ensures ok ==> Valid() && bol <= eol < eod
      ensures ok ==> buf[bol..eol] == old(Pending())[..LineEnd(old(Pending()))] && buf[eol] == '\0'
      ensures ok ==> Pending() == old(Pending())[LineEnd(old(Pending())) + 1..]
    {
      hide LineEnd, Min;
      ok := Advance();
      if !ok { return false; }
      var e := FindLineFeed(buf, bol, eod);
      ghost var line, rest := buf[bol..eod], file.Rest();
      LineEndWithin(line, rest);
      FullBuffer(eod - bol, buf.Length, |line + rest|);
      if e == eod { return false; }
      Cut(line, rest, e - bol);
      EndLine(e);
      return true;
    }

    /** Replaces the newline by a NUL. */
    method EndLine(e: nat)
      requires file.Valid() && !file.failed && bol <= e < eod <= buf.Length
      modifies this`eol, buf
      ensures eol == e && buf[e] == '\0' && Valid()
      ensures buf[bol..e] == old(buf[bol..eod])[..e - bol]
          && Pending() == old(buf[bol..eod])[e - bol + 1..] + file.Rest()
    {
      eol := e;
      buf[eol] := '\0';
    }
  }

  lemma FullBuffer(n: nat, size: nat, all: nat)
    ensures n == Min(size, all) <==> (n == size <= all || n == all <= size)
  {}

  // ---------------------------------------------------------------- a whole file

  /** The newline-terminated lines of s; a last line without newline is dropped. */
  function Lines(s: string): (r: seq<string>)
    decreases |s|
  {
    var n := LineEnd(s);
    if n == |s| then [] else [s[..n]] + Lines(s[n + 1..])
  }

  /** The lines up to the first that does not fit together with its newline. */
  function Fitting(s: string, capacity: nat): seq<string>
    decreases |s|
  {
    var n := LineEnd(s);
    if n == |s| || n >= capacity then [] else [s[..n]] + Fitting(s[n + 1..], capacity)
  }

  /** The lines, each with its newline, and what follows the last newline make up the text. */
  function Text(lines: seq<string>): string {
    if lines == [] then "" else lines[0] + "\n" + Text(lines[1..])
  }

  lemma TextOfNone()
    ensures Text([]) == ""
  {}

  lemma TextOfMore(line: string, rest: seq<string>)
    ensures Text([line] + rest) == line + "\n" + Text(rest)
  {
    assert ([line] + rest)[1..] == rest;
  }

  /** What follows the last newline. */
  function Tail(s: string): (t: string)
    ensures '\n' !in t
    decreases |s|
  {
    LineEndFacts(s);
    var n := LineEnd(s);
    if n == |s| then s else Tail(s[n + 1..])
  }

  lemma SplitAt(s: string, n: nat, a: string, b: string)
    requires n < |s| && s[n] == '\n' && s[n + 1..] == a + b
    ensures s == (s[..n] + "\n" + a) + b
  {}

  lemma {:induction false} LinesMakeText(s: string)
    ensures s == Text(Lines(s)) + Tail(s)
    decreases |s|
  {
    hide Text, LineEnd;
    var n := LineEnd(s);
    if n == |s| {
      TextOfNone();
    } else {
      LineEndFacts(s);
      LinesMakeText(s[n + 1..]);
      TextOfMore(s[..n], Lines(s[n + 1..]));
      SplitAt(s, n, Text(Lines(s[n + 1..])), Tail(s[n + 1..]));
    }
  }

  lemma {:induction false} LinesHaveNoNewline(s: string, k: nat)
    requires k < |Lines(s)|
    ensures '\n' !in Lines(s)[k]
    decreases |s|
  {
    if k > 0 { LinesHaveNoNewline(s[LineEnd(s) + 1..], k - 1); } else { LineEndFacts(s); }
  }

  lemma {:induction false} AllFit(s: string, capacity: nat)
    ensures Fitting(s, capacity) <= Lines(s)
    ensures Fitting(s, capacity) == Lines(s) <==> forall k :: 0 <= k < |Lines(s)| ==> |Lines(s)[k]| + 1 <= capacity
    decreases |s|
  {
    var n := LineEnd(s);
    if n < |s| {
      AllFit(s[n + 1..], capacity);
      assert Lines(s)[0] == s[..n] && Lines(s)[1..] == Lines(s[n + 1..]);
      if n < capacity { assert Fitting(s, capacity)[1..] == Fitting(s[n + 1..], capacity); }
    }
  }

  lemma FittingStep(s: string, capacity: nat)
    ensures var n := LineEnd(s);
      Fitting(s, capacity) == if n == |s| || n >= capacity then [] else [s[..n]] + Fitting(s[n + 1..], capacity)
  {
    hide LineEnd;
  }

  lemma Append1(lines: seq<string>, line: string, rest: seq<string>)
    ensures lines + ([line] + rest) == (lines + [line]) + rest
  {}

  /** Reading until ReadLine gives up, for every schedule of reads. */
  method ReadLines(reader: Reader) returns (lines: seq<string>)
    requires reader.Valid()
    modifies reader, reader.file, reader.buf
    ensures lines <= Fitting(old(reader.Pending()), reader.buf.Length)
    ensures !reader.file.failed ==> lines == Fitting(old(reader.Pending()), reader.buf.Length)
  {
    hide LineEnd, Fitting;
    lines := [];
    ghost var all := Fitting(reader.Pending(), reader.buf.Length);
    while true
      invariant reader.Valid() && lines + Fitting(reader.Pending(), reader.buf.Length) == all
      decreases |reader.Pending()|
    {
      ghost var s := reader.Pending();
      var ok := reader.ReadLine();
      FittingStep(s, reader.buf.Length);
      if !ok { return; }
      Append1(lines, reader.buf[reader.bol..reader.eol], Fitting(reader.Pending(), reader.buf.Length));
      lines := lines + [reader.buf[reader.bol..reader.eol]];
    }
  }
}
