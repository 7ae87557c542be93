/** The output half of the demangler's State record (app/glog/src/demangle.cc:152-162):
    the bounded buffer, its cursor, and the flags that decide what is appended.

    Parsing decides which output operations happen; an `Effect` is such a script.  The
    script is run on the bounded `Machine` of the source (`Exec`) and on an unbounded
    `Tape` (`Write`); the lemmas relate the two readings.
 */
module DemangleOutput {

  // ---------------------------------------------------------------- the machine

  datatype Machine = Machine(
    buf: seq<char>,     // [out_begin, out_end)
    outCur: nat,        // out_cur - out_begin
    prev: nat,          // prev_name - out_begin; meaningless while prevLen <= 0
    prevLen: int,       // prev_name_length
    nest: int,          // nest_level, a 16-bit short
    append: bool,
    overflowed: bool)

  /** The cursor never leaves the buffer, and stays on its first byte if it has none. */
  predicate InBuffer(s: Machine) {
    s.outCur == 0 || s.outCur < |s.buf|
  }

  /** Where Append reads from: a constant or the mangled name, or the output written so far. */
  datatype Source = Const(str: string) | Output(pos: nat)

  /** A read outside the buffer, possible only after an overflow, gives an arbitrary byte; here NUL. */
  function SourceAt(src: Source, buf: seq<char>, k: nat): char {
    match src
    case Const(str) => if k < |str| then str[k] else '\0'
    case Output(pos) => if pos + k < |buf| then buf[pos + k] else '\0'
  }

  /** Append from its k-th byte on: bytes are copied one by one while two places are left. */
  function AppendFrom(s: Machine, src: Source, k: nat, n: nat): (r: Machine)
    requires InBuffer(s) && k <= n
    ensures InBuffer(r) && |r.buf| == |s.buf|
    ensures r == s.(buf := r.buf, outCur := r.outCur, overflowed := r.overflowed)
    ensures s.overflowed ==> r.overflowed
    decreases n - k
  {
    if k == n then
      if s.overflowed || |s.buf| <= s.outCur then s else s.(buf := s.buf[s.outCur := '\0'])
    else if s.outCur + 1 < |s.buf| then
      AppendFrom(s.(buf := s.buf[s.outCur := SourceAt(src, s.buf, k)], outCur := s.outCur + 1), src, k + 1, n)
    else
      s.(overflowed := true)
  }

  predicate IsLower(c: char) { 'a' <= c <= 'z' }
  predicate IsAlpha(c: char) { 'a' <= c <= 'z' || 'A' <= c <= 'Z' }
  predicate IsDigit(c: char) { '0' <= c <= '9' }

  /** Whether a leading space is needed to keep "<<" apart, and the name remembered for ctors. */
  function Remember(s: Machine, c: char, n: int): Machine {
    if IsAlpha(c) || c == '_' then s.(prev := s.outCur, prevLen := n) else s
  }

  function Spaced(s: Machine, c: char): (r: Machine)
    requires InBuffer(s)
    ensures InBuffer(r) && |r.buf| == |s.buf|
    ensures r == s.(buf := r.buf, outCur := r.outCur, overflowed := r.overflowed)
  {
    if c == '<' && 0 < s.outCur && s.buf[s.outCur - 1] == '<' then AppendFrom(s, Const(" "), 0, 1) else s
  }

  function MaybeAppend(s: Machine, src: Source, n: int): (r: Machine)
    requires InBuffer(s)
    ensures InBuffer(r) && |r.buf| == |s.buf| && r.nest == s.nest && r.append == s.append
    ensures !s.append ==> r == s
  {
    if s.append && n > 0 then
      var c := SourceAt(src, s.buf, 0);
      AppendFrom(Remember(Spaced(s, c), c, n), src, 0, n)
    else s
  }

  function Separated(s: Machine): (r: Machine)
    requires InBuffer(s)
    ensures InBuffer(r) && |r.buf| == |s.buf| && r.nest == s.nest && r.append == s.append
    ensures !s.append ==> r == s
  {
    if s.nest >= 1 then MaybeAppend(s, Const("::"), 2) else s
  }

  function Cancelled(s: Machine): (r: Machine)
    requires InBuffer(s)
    ensures InBuffer(r) && |r.buf| == |s.buf| && r.nest == s.nest && r.append == s.append
    ensures !s.append ==> r == s
  {
    if s.nest >= 1 && s.append && s.outCur >= 2 then
      s.(outCur := s.outCur - 2, buf := s.buf[s.outCur - 2 := '\0'])
    else s
  }

  const SHORT_MAX := 32767

  /** ++nest_level on a short, unless names are not nested. */
  function Deepened(nest: int): int {
    if nest > -1 then (if nest == SHORT_MAX then -SHORT_MAX - 1 else nest + 1) else nest
  }

  // ---------------------------------------------------------------- effects

  datatype Effect =
    | Skip
    | Then(first: Effect, second: Effect)
    | Undo(tried: Effect)           // run, then *state = copy: all but the buffer bytes is put back
    | Emit(str: string)             // MaybeAppend / MaybeAppendWithLength
    | EmitPrev                      // MaybeAppendWithLength(prev_name, prev_name_length)
    | Nest(body: Effect)            // EnterNestedName ... LeaveNestedName
    | Quiet(body: Effect)           // DisableAppend ... RestoreAppend
    | Enter                         // EnterNestedName, given up before LeaveNestedName
    | Mute                          // DisableAppend, given up before RestoreAppend
    | Deeper                        // MaybeIncreaseNestLevel
    | Separator                     // MaybeAppendSeparator
    | Blank(tried: Effect)          // a separator, a failed component, the separator cancelled

  function Exec(e: Effect, s: Machine): (r: Machine)
    requires InBuffer(s)
    ensures InBuffer(r) && |r.buf| == |s.buf|
    decreases e
  {
    match e
    case Skip => s
    case Then(a, b) => Exec(b, Exec(a, s))
    case Undo(a) => s.(buf := Exec(a, s).buf)
    case Emit(str) => MaybeAppend(s, Const(str), |str|)
    case EmitPrev => MaybeAppend(s, Output(s.prev), s.prevLen)
    case Nest(a) => Exec(a, s.(nest := 0)).(nest := s.nest)
    case Quiet(a) => Exec(a, s.(append := false)).(append := s.append)
    case Enter => s.(nest := 0)
    case Mute => s.(append := false)
    case Deeper => s.(nest := Deepened(s.nest))
    case Separator => Separated(s)
    case Blank(a) => var s1 := Separated(s); Cancelled(s1.(buf := Exec(a, s1).buf))
  }

  /** Nothing but buffer bytes changes: what a failed parse must look like. */
  predicate Neutral(e: Effect) {
    match e
    case Skip => true
    case Undo(_) => true
    case Then(a, b) => Neutral(a) && Neutral(b)
    case _ => false
  }

  /** The append flag comes back. */
  predicate KeepsAppend(e: Effect) {
    match e
    case Mute => false
    case Then(a, b) => KeepsAppend(a) && KeepsAppend(b)
    case Nest(a) => KeepsAppend(a)
    case _ => true
  }

  /** The append flag and the nest level come back: what a successful parse must look like. */
  predicate Balanced(e: Effect) {
    match e
    case Deeper => false
    case Enter => false
    case Mute => false
    case Then(a, b) => Balanced(a) && Balanced(b)
    case Quiet(a) => Balanced(a)
    case Nest(a) => KeepsAppend(a)
    case _ => true
  }

  lemma {:induction false} BalancedKeepsAppend(e: Effect)
    requires Balanced(e)
    ensures KeepsAppend(e)
  {
    match e
    case Then(a, b) => BalancedKeepsAppend(a); BalancedKeepsAppend(b);
    case _ =>
  }

  /** Then, without the parts that do nothing. */
  function Join(a: Effect, b: Effect): (e: Effect)
    ensures Balanced(a) && Balanced(b) ==> Balanced(e)
    ensures KeepsAppend(a) && KeepsAppend(b) ==> KeepsAppend(e)
    ensures Neutral(a) && Neutral(b) ==> Neutral(e)
  {
    if a.Skip? then b else if b.Skip? then a else Then(a, b)
  }

  /** A separator, a component found, the nest level raised. */
  function Slot(component: Effect): (e: Effect)
    ensures KeepsAppend(component) ==> KeepsAppend(e)
  {
    Then(Then(Separator, component), Deeper)
  }

  /** Undo, unless there is nothing to undo. */
  function Revert(a: Effect): (e: Effect)
    ensures Balanced(e) && Neutral(e) && KeepsAppend(e)
  {
    if a.Skip? then Skip else Undo(a)
  }

  lemma {:induction false} NeutralRestores(e: Effect, s: Machine)
    requires InBuffer(s) && Neutral(e)
    ensures Exec(e, s) == s.(buf := Exec(e, s).buf)
    decreases e
  {
    match e
    case Then(a, b) => NeutralRestores(a, s); NeutralRestores(b, Exec(a, s));
    case _ =>
  }

  lemma {:induction false} KeepsAppendRestores(e: Effect, s: Machine)
    requires InBuffer(s) && KeepsAppend(e)
    ensures Exec(e, s).append == s.append
    decreases e
  {
    match e
    case Then(a, b) => KeepsAppendRestores(a, s); KeepsAppendRestores(b, Exec(a, s));
    case Nest(a) => KeepsAppendRestores(a, s.(nest := 0));
    case _ =>
  }

  lemma {:induction false} BalancedRestores(e: Effect, s: Machine)
    requires InBuffer(s) && Balanced(e)
    ensures Exec(e, s).append == s.append && Exec(e, s).nest == s.nest
    decreases e
  {
    match e
    case Nest(a) => KeepsAppendRestores(a, s.(nest := 0));
    case Then(a, b) => BalancedRestores(a, s); BalancedRestores(b, Exec(a, s));
    case Quiet(a) => BalancedRestores(a, s.(append := false));
    case _ =>
  }

  /** With the append flag off, no byte, cursor, name or overflow flag changes. */
  lemma {:induction false} QuietIsSilent(e: Effect, s: Machine)
    requires InBuffer(s) && !s.append
    ensures Exec(e, s) == s.(nest := Exec(e, s).nest)
    decreases e
  {
    match e
    case Then(a, b) => QuietIsSilent(a, s); QuietIsSilent(b, Exec(a, s));
    case Undo(a) => QuietIsSilent(a, s);
    case Nest(a) => QuietIsSilent(a, s.(nest := 0));
    case Quiet(a) => QuietIsSilent(a, s);
    case Blank(a) => QuietIsSilent(a, s);
    case _ =>
  }

  // ---------------------------------------------------------------- the tape

  /** An output that never ends.  `bytes` holds every place ever written, also by tries that
      were undone later, so |bytes| is the room that the whole attempt needs. */
  datatype Tape = Tape(bytes: seq<char>, outCur: nat, prev: nat, prevLen: int, nest: int, append: bool)

  /** The text so far, without what undone tries left behind the cursor. */
  function TextOf(t: Tape): string
    requires t.outCur <= |t.bytes|
  {
    t.bytes[..t.outCur]
  }

  /** The remembered name lies inside the text. */
  predicate OnTape(t: Tape) {
    && t.outCur <= |t.bytes|
    && (t.prevLen > 0 ==> t.prev + t.prevLen <= t.outCur)
  }

  function Put(t: Tape, str: string): (r: Tape)
    requires OnTape(t)
    ensures OnTape(r) && TextOf(r) == TextOf(t) + str
    ensures |r.bytes| >= |t.bytes| && r.outCur == t.outCur + |str| < |r.bytes| && r.bytes[r.outCur] == '\0'
  {
    var written := t.bytes[..t.outCur] + str + ['\0'];
    t.(bytes := written + (if |written| < |t.bytes| then t.bytes[|written|..] else []),
       outCur := t.outCur + |str|)
  }

  function PutSpace(t: Tape, c: char): (r: Tape)
    requires OnTape(t)
    ensures OnTape(r) && |r.bytes| >= |t.bytes|
  {
    if c == '<' && 0 < t.outCur && t.bytes[t.outCur - 1] == '<' then Put(t, " ") else t
  }

  function MaybePut(t: Tape, str: string): (r: Tape)
    requires OnTape(t)
    ensures OnTape(r) && |r.bytes| >= |t.bytes|
    ensures !t.append ==> r == t
  {
    if t.append && |str| > 0 then
      var t1 := PutSpace(t, str[0]);
      var t2 := Put(t1, str);
      if IsAlpha(str[0]) || str[0] == '_' then t2.(prev := t1.outCur, prevLen := |str|) else t2
    else t
  }

  function Separate(t: Tape): (r: Tape)
    requires OnTape(t)
    ensures OnTape(r) && |r.bytes| >= |t.bytes|
    ensures !t.append ==> r == t
  {
    if t.nest >= 1 then MaybePut(t, "::") else t
  }

  function Write(e: Effect, t: Tape): (r: Tape)
    requires OnTape(t)
    ensures OnTape(r) && |r.bytes| >= |t.bytes|
    decreases e
  {
    match e
    case Skip => t
    case Then(a, b) => Write(b, Write(a, t))
    case Undo(a) => Rewound(t, Write(a, t).bytes)
    case Emit(str) => MaybePut(t, str)
    case EmitPrev => if t.prevLen > 0 then MaybePut(t, t.bytes[t.prev..t.prev + t.prevLen]) else t
    case Nest(a) => Write(a, t.(nest := 0)).(nest := t.nest)
    case Quiet(a) => Write(a, t.(append := false)).(append := t.append)
    case Enter => t.(nest := 0)
    case Mute => t.(append := false)
    case Deeper => t.(nest := Deepened(t.nest))
    case Separator => Separate(t)
    case Blank(a) =>
      var t1 := Separate(t);
      Unseparated(t, Write(a, t1).bytes)
  }

  function Rewound(t: Tape, bytes: seq<char>): (r: Tape)
    requires OnTape(t) && |bytes| >= |t.bytes|
    ensures OnTape(r) && |r.bytes| >= |t.bytes|
  {
    t.(bytes := bytes)
  }

  /** After a blank slot the text is what it was; the byte after it is a terminator again. */
  function Unseparated(t: Tape, bytes: seq<char>): (r: Tape)
    requires OnTape(t) && |bytes| >= |Separate(t).bytes|
    ensures OnTape(r) && |r.bytes| == |bytes|
  {
    if t.nest >= 1 && t.append then t.(bytes := bytes[t.outCur := '\0']) else t.(bytes := bytes)
  }

  /** u's text starts with t's text. */
  predicate Extends(t: Tape, u: Tape) {
    && OnTape(t) && OnTape(u) && t.outCur <= u.outCur
    && forall j :: 0 <= j < t.outCur ==> u.bytes[j] == t.bytes[j]
  }

  /** Whatever is tried and undone, the text already there is only ever extended. */
  lemma {:induction false} TextGrows(e: Effect, t: Tape)
    requires OnTape(t)
    ensures Extends(t, Write(e, t))
    decreases e
  {
    hide MaybePut, Put, PutSpace;
    match e
    case Then(a, b) => TextGrows(a, t); TextGrows(b, Write(a, t)); ExtendsIsTransitive(t, Write(a, t), Write(e, t));
    case Undo(a) => TextGrows(a, t);
    case Emit(str) => PutGrows(t, str);
    case EmitPrev => if t.prevLen > 0 { PutGrows(t, t.bytes[t.prev..t.prev + t.prevLen]); }
    case Nest(a) => TextGrows(a, t.(nest := 0));
    case Quiet(a) => TextGrows(a, t.(append := false));
    case Separator => PutGrows(t, "::");
    case Blank(a) =>
      TextGrows(a, Separate(t));
      BlankGrows(t, Write(a, Separate(t)));
    case _ =>
  }

  lemma BlankGrows(t: Tape, u: Tape)
    requires OnTape(t) && Extends(Separate(t), u) && |u.bytes| >= |Separate(t).bytes|
    ensures Extends(t, Unseparated(t, u.bytes))
  {
    hide MaybePut, Put, PutSpace;
    PutGrows(t, "::");
    ExtendsIsTransitive(t, Separate(t), u);
  }

  lemma ExtendsIsTransitive(t: Tape, u: Tape, v: Tape)
    requires Extends(t, u) && Extends(u, v)
    ensures Extends(t, v)
  {}

  lemma PutGrows(t: Tape, str: string)
    requires OnTape(t)
    ensures Extends(t, MaybePut(t, str))
  {
    forall t: Tape, str | OnTape(t) ensures Extends(t, Put(t, str)) {
      var u := Put(t, str);
      forall j | 0 <= j < t.outCur
        ensures u.bytes[j] == t.bytes[j] { assert u.bytes[j] == TextOf(u)[j] == TextOf(t)[j]; }
    }
  }

  lemma {:induction false} QuietWritesNothing(e: Effect, t: Tape)
    requires OnTape(t) && !t.append
    ensures Write(e, t) == t.(nest := Write(e, t).nest)
    ensures Balanced(e) ==> Write(e, t) == t
    decreases e
  {
    match e
    case Then(a, b) => QuietWritesNothing(a, t); QuietWritesNothing(b, Write(a, t));
    case Undo(a) => QuietWritesNothing(a, t);
    case Nest(a) => QuietWritesNothing(a, t.(nest := 0));
    case Quiet(a) => QuietWritesNothing(a, t);
    case Blank(a) => QuietWritesNothing(a, t);
    case _ =>
  }

  // ---------------------------------------------------------------- machine and tape agree

  /** The machine holds what the tape holds and has not overflowed. */
  predicate Same(s: Machine, t: Tape) {
    && InBuffer(s) && OnTape(t)
    && t.bytes <= s.buf && !s.overflowed
    && s.outCur == t.outCur && s.prev == t.prev && s.prevLen == t.prevLen
    && s.nest == t.nest && s.append == t.append
  }

  /** Some Append of the run, also one inside an undone try, runs out of room. */
  predicate Spills(e: Effect, s: Machine)
    requires InBuffer(s)
    decreases e
  {
    match e
    case Then(a, b) => Spills(a, s) || Spills(b, Exec(a, s))
    case Undo(a) => Spills(a, s)
    case Nest(a) => Spills(a, s.(nest := 0))
    case Quiet(a) => Spills(a, s.(append := false))
    case Blank(a) => Separated(s.(overflowed := false)).overflowed || Spills(a, Separated(s))
    case _ => Exec(e, s.(overflowed := false)).overflowed
  }

  /** The source of an Append reads the same characters however far the copy has come. */
  predicate Reads(src: Source, s: Machine, str: string) {
    match src
    case Const(c) => c == str
    case Output(pos) => pos + |str| <= s.outCur <= |s.buf| && s.buf[pos..pos + |str|] == str
  }

  lemma {:induction false} AppendFits(s: Machine, src: Source, str: string, k: nat)
    requires InBuffer(s) && !s.overflowed && Reads(src, s, str) && k <= |str|
    requires s.outCur < |s.buf| || k < |str|
    ensures var r := AppendFrom(s, src, k, |str|); var end := s.outCur + |str| - k;
      if end < |s.buf| then
        && r == s.(buf := r.buf, outCur := end)
        && (forall j :: 0 <= j < s.outCur || end < j < |s.buf| ==> r.buf[j] == s.buf[j])
        && (forall j :: s.outCur <= j < end ==> r.buf[j] == str[k + j - s.outCur])
        && r.buf[end] == '\0'
      else r.overflowed
    decreases |str| - k
  {
    hide Reads, SourceAt;
    if k < |str| && s.outCur + 1 < |s.buf| {
      ReadsOn(s, src, str, k);
      AppendFits(s.(buf := s.buf[s.outCur := str[k]], outCur := s.outCur + 1), src, str, k + 1);
    }
  }

  lemma ReadsOn(s: Machine, src: Source, str: string, k: nat)
    requires Reads(src, s, str) && k < |str| && s.outCur + 1 < |s.buf|
    ensures SourceAt(src, s.buf, k) == str[k]
    ensures Reads(src, s.(buf := s.buf[s.outCur := str[k]], outCur := s.outCur + 1), str)
  {
    if src.Output? {
      assert s.buf[src.pos + k] == s.buf[src.pos..src.pos + |str|][k];
      assert s.buf[s.outCur := str[k]][src.pos..src.pos + |str|] == s.buf[src.pos..src.pos + |str|];
    }
  }

  lemma PutFits(s: Machine, t: Tape, src: Source, str: string)
    requires Same(s, t) && Reads(src, s, str) && |str| > 0
    ensures var r := AppendFrom(s, src, 0, |str|);
      if |Put(t, str).bytes| <= |s.buf| then Same(r, Put(t, str)) else r.overflowed
  {
    AppendFits(s, src, str, 0);
    var r, u := AppendFrom(s, src, 0, |str|), Put(t, str);
    if s.outCur + |str| < |s.buf| {
      forall j | 0 <= j < |u.bytes| ensures u.bytes[j] == r.buf[j] {}
    }
  }

  lemma SpaceFits(s: Machine, t: Tape, c: char, src: Source, str: string)
    requires Same(s, t) && Reads(src, s, str)
    ensures var s1 := Spaced(s, c); var t1 := PutSpace(t, c);
      if |t1.bytes| <= |s.buf| then Same(s1, t1) && Reads(src, s1, str) else s1.overflowed
  {
    PutFits(s, t, Const(" "), " ");
    var s1, t1 := Spaced(s, c), PutSpace(t, c);
    if |t1.bytes| <= |s.buf| && src.Output? {
      AppendFits(s, Const(" "), " ", 0);
      assert s1.buf[src.pos..src.pos + |str|] == s.buf[src.pos..src.pos + |str|];
    }
  }

  lemma FirstRead(s: Machine, src: Source, str: string)
    requires Reads(src, s, str) && |str| > 0
    ensures SourceAt(src, s.buf, 0) == str[0]
  {
    if src.Output? { assert s.buf[src.pos] == s.buf[src.pos..src.pos + |str|][0]; }
  }

  lemma MaybePutFits(s: Machine, t: Tape, src: Source, str: string)
    requires Same(s, t) && Reads(src, s, str)
    ensures var r := MaybeAppend(s, src, |str|); var u := MaybePut(t, str);
      if |u.bytes| <= |s.buf| then Same(r, u) else r.overflowed
  {
    if s.append && |str| > 0 {
      var c := str[0];
      FirstRead(s, src, str);
      var s1, t1 := Spaced(s, c), PutSpace(t, c);
      SpaceFits(s, t, c, src, str);
      AppendIgnoresName(s1, src, 0, |str|, s1.outCur);
      if |t1.bytes| <= |s.buf| { PutFits(s1, t1, src, str); }
    }
  }

  lemma {:induction false} AppendIgnoresName(s: Machine, src: Source, k: nat, n: nat, at: nat)
    requires InBuffer(s) && k <= n
    ensures AppendFrom(s.(prev := at, prevLen := n), src, k, n) == AppendFrom(s, src, k, n).(prev := at, prevLen := n)
    decreases n - k
  {
    if k < n && s.outCur + 1 < |s.buf| {
      AppendIgnoresName(s.(buf := s.buf[s.outCur := SourceAt(src, s.buf, k)], outCur := s.outCur + 1), src, k + 1, n,
          at);
    }
  }

  /** No attempted Append runs out of room exactly when the buffer holds every byte that the
      tape ever used; then the machine ends as the tape does. */
  predicate FitsExactlyWhenRoom(e: Effect, s: Machine, t: Tape)
    requires Same(s, t)
  {
    && (Spills(e, s) <==> |Write(e, t).bytes| > |s.buf|)
    && (!Spills(e, s) ==> Same(Exec(e, s), Write(e, t)))
  }

  lemma {:induction false} MachineFollowsTape(e: Effect, s: Machine, t: Tape)
    requires Same(s, t)
    ensures FitsExactlyWhenRoom(e, s, t)
    decreases e
  {
    hide MaybePut, MaybeAppend, Separate, Separated, Cancelled, Unseparated;
    match e
    case Then(a, b) =>
      MachineFollowsTape(a, s, t);
      if !Spills(a, s) { MachineFollowsTape(b, Exec(a, s), Write(a, t)); }
    case Undo(a) => MachineFollowsTape(a, s, t);
    case Nest(a) => MachineFollowsTape(a, s.(nest := 0), t.(nest := 0));
    case Quiet(a) => MachineFollowsTape(a, s.(append := false), t.(append := false));
    case Blank(a) =>
      SeparatorFollows(s, t);
      if |Separate(t).bytes| <= |s.buf| {
        MachineFollowsTape(a, Separated(s), Separate(t));
        if !Spills(a, Separated(s)) { BlankFits(s, t, Exec(a, Separated(s)).buf, Write(a, Separate(t)).bytes); }
      }
    case _ => LeafFollowsTape(e, s, t);
  }

  lemma SeparatorFollows(s: Machine, t: Tape)
    requires Same(s, t)
    ensures s.(overflowed := false) == s && (Separated(s).overflowed <==> |Separate(t).bytes| > |s.buf|)
    ensures |Separate(t).bytes| <= |s.buf| ==> Same(Separated(s), Separate(t))
  {
    LeafFollowsTape(Separator, s, t);
    hide MaybePut, MaybeAppend, Separate, Separated;
    assert s.(overflowed := false) == s;
  }

  lemma LeafFollowsTape(e: Effect, s: Machine, t: Tape)
    requires Same(s, t) && !(e.Then? || e.Undo? || e.Nest? || e.Quiet? || e.Blank?)
    ensures FitsExactlyWhenRoom(e, s, t)
  {
    hide MaybePut, MaybeAppend, Separate, Separated;
    match e
    case Emit(str) => EmitFollowsTape(e, s, t, Const(str), str);
    case EmitPrev => PrevFollowsTape(s, t);
    case Separator => SeparatorFollowsTape(s, t);
    case _ =>
  }

  lemma PrevFollowsTape(s: Machine, t: Tape)
    requires Same(s, t)
    ensures FitsExactlyWhenRoom(EmitPrev, s, t)
  {
    hide MaybePut;
    if s.prevLen > 0 {
      NameReads(s, t);
      EmitFollowsTape(EmitPrev, s, t, Output(s.prev), t.bytes[t.prev..t.prev + t.prevLen]);
    }
  }

  lemma SeparatorFollowsTape(s: Machine, t: Tape)
    requires Same(s, t)
    ensures FitsExactlyWhenRoom(Separator, s, t)
  {
    hide MaybePut, MaybeAppend;
    assert s.(overflowed := false) == s;
    if s.nest >= 1 { EmitFollowsTape(Separator, s, t, Const("::"), "::"); }
  }

  lemma EmitFollowsTape(e: Effect, s: Machine, t: Tape, src: Source, str: string)
    requires Same(s, t) && Reads(src, s, str) && (e.Emit? || e.EmitPrev? || e.Separator?)
    requires Exec(e, s) == MaybeAppend(s, src, |str|) && Write(e, t) == MaybePut(t, str)
    ensures FitsExactlyWhenRoom(e, s, t)
  {
    hide MaybePut, MaybeAppend, Separate, Separated;
    assert s.(overflowed := false) == s;
    MaybePutFits(s, t, src, str);
  }

  lemma NameReads(s: Machine, t: Tape)
    requires Same(s, t) && t.prevLen > 0
    ensures Reads(Output(s.prev), s, t.bytes[t.prev..t.prev + t.prevLen])
  {
    assert s.buf[t.prev..t.prev + t.prevLen] == t.bytes[t.prev..t.prev + t.prevLen];
  }

  lemma BlankFits(s: Machine, t: Tape, buf: seq<char>, bytes: seq<char>)
    requires Same(s, t) && Same(Separated(s), Separate(t)) && bytes <= buf
    requires |buf| == |s.buf| && |bytes| >= |Separate(t).bytes|
    ensures Same(Cancelled(Separated(s).(buf := buf)), Unseparated(t, bytes))
  {
    if t.nest >= 1 && t.append {
      AppendFits(s, Const("::"), "::", 0);
      assert bytes[t.outCur := '\0'] <= buf[t.outCur := '\0'];
    }
  }
}
