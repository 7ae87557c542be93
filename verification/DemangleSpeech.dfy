/** What a script of output operations says, without the bytes that undone tries leave behind. */
module DemangleSpeech {
  import opened DemangleOutput
  import opened DemangleGrammar

  // ---------------------------------------------------------------- the text that can be seen

  /** The text so far, the name remembered for constructors ("" if none), the nest level and the append
      flag. */
  datatype View = View(text: string, last: string, nest: int, append: bool)

  /** The text grows by str; a space keeps "<<" apart, and a str that starts like a name is remembered. */
  function Add(v: View, str: string): View {
    if v.append && str != "" then
      var gap := if str[0] == '<' && v.text != "" && v.text[|v.text| - 1] == '<' then " " else "";
      v.(text := v.text + gap + str, last := if IsAlpha(str[0]) || str[0] == '_' then str else v.last)
    else v
  }

  function Separating(v: View): View { if v.nest >= 1 then Add(v, "::") else v }

  /** What a script says.  Tries that are undone, and blank slots, say nothing. */
  function Shown(e: Effect, v: View): View
    decreases e
  {
    match e
    case Skip => v
    case Then(a, b) => Shown(b, Shown(a, v))
    case Undo(_) => v
    case Emit(str) => Add(v, str)
    case EmitPrev => Add(v, v.last)
    case Nest(a) => Shown(a, v.(nest := 0)).(nest := v.nest)
    case Quiet(a) => Shown(a, v.(append := false)).(append := v.append)
    case Enter => v.(nest := 0)
    case Mute => v.(append := false)
    case Deeper => v.(nest := Deepened(v.nest))
    case Separator => Separating(v)
    case Blank(_) => v
  }

  function ViewOf(t: Tape): View
    requires OnTape(t)
  {
    View(TextOf(t), if t.prevLen > 0 then t.bytes[t.prev..t.prev + t.prevLen] else "", t.nest, t.append)
  }

  lemma PutLooks(t: Tape, str: string)
    requires OnTape(t)
    ensures ViewOf(Put(t, str)) == ViewOf(t).(text := TextOf(t) + str)
  {
    var u := Put(t, str);
    if t.prevLen > 0 {
      var p, e := t.prev, t.prev + t.prevLen;
      assert u.bytes[p..e] == TextOf(u)[p..e] == (TextOf(t) + str)[p..e] == TextOf(t)[p..e] == t.bytes[p..e];
    }
  }

  lemma EndsIn(t: Tape, c: char)
    requires OnTape(t)
    ensures 0 < t.outCur && t.bytes[t.outCur - 1] == c <==> TextOf(t) != "" && TextOf(t)[|TextOf(t)| - 1] == c
  {}

  lemma NamedLooks(t: Tape, str: string)
    requires OnTape(t) && str != ""
    ensures var u := Put(t, str).(prev := t.outCur, prevLen := |str|);
      OnTape(u) && ViewOf(u) == ViewOf(t).(text := TextOf(t) + str, last := str)
  {
    hide Put;
    PutFlags(t, str);
    var w := Put(t, str);
    assert w.bytes[t.outCur..w.outCur] == TextOf(w)[t.outCur..] == str;
  }

  lemma SpaceLooks(t: Tape, c: char)
    requires OnTape(t)
    ensures PutSpace(t, c).append == t.append
    ensures ViewOf(PutSpace(t, c)) == ViewOf(t).(text :=
      TextOf(t) + if c == '<' && TextOf(t) != "" && TextOf(t)[|TextOf(t)| - 1] == '<' then " " else "")
  {
    hide Put;
    EndsIn(t, '<');
    PutLooks(t, " ");
    assert TextOf(t) + "" == TextOf(t);
    assert Put(t, " ").append == t.append by { PutFlags(t, " "); }
  }

  lemma PutFlags(t: Tape, str: string)
    requires OnTape(t)
    ensures Put(t, str) == t.(bytes := Put(t, str).bytes, outCur := Put(t, str).outCur)
  {}

  lemma MaybePutLooks(t: Tape, str: string)
    requires OnTape(t)
    ensures ViewOf(MaybePut(t, str)) == Add(ViewOf(t), str)
  {
    hide Put, PutSpace, TextOf;
    if t.append && |str| > 0 {
      SpaceLooks(t, str[0]);
      NamedLooks(PutSpace(t, str[0]), str);
      PutLooks(PutSpace(t, str[0]), str);
      SameFields(t);
      TextIs(t);
      TextIs(PutSpace(t, str[0]));
      hide ViewOf;
    }
  }

  lemma TextIs(t: Tape)
    requires OnTape(t)
    ensures ViewOf(t).text == TextOf(t)
  {}

  /** A tape that only differs in bytes behind the text looks the same. */
  lemma LooksTheSame(t: Tape, u: Tape)
    requires Extends(t, u) && u == t.(bytes := u.bytes)
    ensures ViewOf(u) == ViewOf(t)
  {
    assert TextOf(u) == TextOf(t);
    if t.prevLen > 0 { assert u.bytes[t.prev..t.prev + t.prevLen] == t.bytes[t.prev..t.prev + t.prevLen]; }
  }

  lemma NestLooks(t: Tape, nest: int, append: bool)
    requires OnTape(t)
    ensures OnTape(t.(nest := nest, append := append))
    ensures ViewOf(t.(nest := nest, append := append)) == ViewOf(t).(nest := nest, append := append)
  {}

  /** Writing a script on a tape shows what it says. */
  lemma {:induction false} WriteShows(e: Effect, t: Tape)
    requires OnTape(t)
    ensures ViewOf(Write(e, t)) == Shown(e, ViewOf(t))
    decreases e
  {
    hide MaybePut, Put, PutSpace, ViewOf, Add, Extends, Unseparated;
    match e
    case Then(a, b) => WriteShows(a, t); WriteShows(b, Write(a, t));
    case Undo(a) => UndoLooks(a, t);
    case Emit(str) => MaybePutLooks(t, str);
    case EmitPrev => PrevLooks(t);
    case Nest(a) =>
      NestLooks(t, 0, t.append);
      WriteShows(a, t.(nest := 0));
      var u := Write(a, t.(nest := 0));
      NestLooks(u, t.nest, u.append);
      SameFields(t);
      SameFields(u);
    case Quiet(a) =>
      NestLooks(t, t.nest, false);
      WriteShows(a, t.(append := false));
      var u := Write(a, t.(append := false));
      NestLooks(u, u.nest, t.append);
      SameFields(t);
      SameFields(u);
    case Separator => MaybePutLooks(t, "::"); SameFields(t);
    case Blank(a) => BlankLooks(a, t);
    case Skip =>
    case Enter => NestLooks(t, 0, t.append); SameFields(t);
    case Mute => NestLooks(t, t.nest, false); SameFields(t);
    case Deeper => NestLooks(t, Deepened(t.nest), t.append); SameFields(t);
  }

  lemma SameFields(t: Tape)
    requires OnTape(t)
    ensures ViewOf(t).nest == t.nest && ViewOf(t).append == t.append
  {}

  lemma UndoLooks(a: Effect, t: Tape)
    requires OnTape(t)
    ensures ViewOf(Write(Undo(a), t)) == ViewOf(t)
  {
    hide Write, ViewOf;
    TextGrows(Undo(a), t);
    UndoIs(a, t);
    LooksTheSame(t, Write(Undo(a), t));
  }

  lemma UndoIs(a: Effect, t: Tape)
    requires OnTape(t)
    ensures Write(Undo(a), t) == t.(bytes := Write(a, t).bytes)
  {}

  lemma BlankLooks(a: Effect, t: Tape)
    requires OnTape(t)
    ensures ViewOf(Write(Blank(a), t)) == ViewOf(t)
  {
    hide ViewOf;
    TextGrows(Blank(a), t);
    BlankIs(a, t);
    LooksTheSame(t, Write(Blank(a), t));
  }

  lemma BlankIs(a: Effect, t: Tape)
    requires OnTape(t)
    ensures Write(Blank(a), t) == t.(bytes := Write(Blank(a), t).bytes)
  {
    hide MaybePut, Put;
  }

  lemma PrevLooks(t: Tape)
    requires OnTape(t)
    ensures ViewOf(Write(EmitPrev, t)) == Shown(EmitPrev, ViewOf(t))
  {
    hide MaybePut, Put;
    if t.prevLen > 0 { MaybePutLooks(t, t.bytes[t.prev..t.prev + t.prevLen]); }
  }

  // ---------------------------------------------------------------- the byte behind the text

  /** The text is a C string: the byte behind it is a terminator. */
  predicate Shut(t: Tape) { t.outCur < |t.bytes| && t.bytes[t.outCur] == '\0' }

  /** Puts nothing on the tape. */
  predicate Silent(e: Effect) {
    match e
    case Skip => true
    case Enter => true
    case Mute => true
    case Deeper => true
    case Then(a, b) => Silent(a) && Silent(b)
    case Undo(a) => Silent(a)
    case _ => false
  }

  /** Whether the text is certainly shut after the script, given whether it certainly was before.  Only
      undone tries can open it. */
  predicate Shuts(e: Effect, v: View, s: bool)
    decreases e
  {
    match e
    case Then(a, b) => Shuts(b, Shown(a, v), Shuts(a, v, s))
    case Undo(a) => s && (!v.append || Silent(a))
    case Emit(str) => s || (v.append && str != "")
    case EmitPrev => s || (v.append && v.last != "")
    case Nest(a) => Shuts(a, v.(nest := 0), s)
    case Separator => s || (v.append && v.nest >= 1)
    case Blank(a) => if v.append && v.nest >= 1 then true else s && (!v.append || Silent(a))
    case _ => s
  }

  lemma {:induction false} SilentWrites(e: Effect, t: Tape)
    requires OnTape(t) && Silent(e)
    ensures Write(e, t).bytes == t.bytes && Write(e, t).outCur == t.outCur
    decreases e
  {
    match e
    case Then(a, b) => SilentWrites(a, t); SilentWrites(b, Write(a, t));
    case Undo(a) => SilentWrites(a, t);
    case _ =>
  }

  lemma MaybePutShuts(t: Tape, str: string)
    requires OnTape(t)
    ensures t.append && |str| > 0 ==> Shut(MaybePut(t, str))
    ensures !(t.append && |str| > 0) ==> MaybePut(t, str) == t
  {
    hide Put;
  }

  lemma {:induction false} WriteShuts(e: Effect, t: Tape, s: bool)
    requires OnTape(t) && (s ==> Shut(t)) && Shuts(e, ViewOf(t), s)
    ensures Shut(Write(e, t))
    decreases e
  {
    hide MaybePut, Put, PutSpace, Shown, Shut, ViewOf, Unseparated, TextOf;
    SameFields(t);
    match e
    case Then(a, b) =>
      WriteShows(a, t);
      if Shuts(a, ViewOf(t), s) { WriteShuts(a, t, s); }
      WriteShuts(b, Write(a, t), Shuts(a, ViewOf(t), s));
    case Undo(a) => UndoShuts(a, t);
    case Emit(str) => MaybePutShuts(t, str);
    case EmitPrev => LastIs(t); if t.prevLen > 0 { MaybePutShuts(t, t.bytes[t.prev..t.prev + t.prevLen]); }
    case Nest(a) =>
      NestLooks(t, 0, t.append);
      ShutStays(t, t.(nest := 0));
      WriteShuts(a, t.(nest := 0), s);
      ShutStays(Write(a, t.(nest := 0)), Write(e, t));
    case Quiet(a) => QuietWritesNothing(a, t.(append := false)); ShutStays(t, Write(e, t));
    case Separator => MaybePutShuts(t, "::");
    case Blank(a) => BlankShuts(a, t);
    case _ => ShutStays(t, Write(e, t));
  }

  lemma LastIs(t: Tape)
    requires OnTape(t)
    ensures t.prevLen > 0 <==> ViewOf(t).last != ""
  {}

  lemma ShutStays(t: Tape, u: Tape)
    ensures u.bytes == t.bytes && u.outCur == t.outCur ==> Shut(t) == Shut(u)
  {}

  lemma UndoShuts(a: Effect, t: Tape)
    requires OnTape(t) && Shut(t) && (!t.append || Silent(a))
    ensures Shut(Write(Undo(a), t))
  {
    hide Silent;
    if t.append { SilentWrites(a, t); } else { QuietWritesNothing(a, t); }
  }

  lemma BlankShuts(a: Effect, t: Tape)
    requires OnTape(t) && ((t.append && t.nest >= 1) || (Shut(t) && (!t.append || Silent(a))))
    ensures Shut(Write(Blank(a), t))
  {
    hide Silent, Put;
    if t.append && t.nest >= 1 {
      assert |Write(a, Separate(t)).bytes| >= |Separate(t).bytes| > t.outCur by { MaybePutRoom(t); }
    } else {
      assert Separate(t) == t;
      if t.append { SilentWrites(a, t); } else { QuietWritesNothing(a, t); }
    }
  }

  lemma MaybePutRoom(t: Tape)
    requires OnTape(t) && t.append && t.nest >= 1
    ensures |Separate(t).bytes| > t.outCur
  {
    hide Put;
  }
}
