/** Nested names: mangling a list of identifiers and demangling it again. */
module DemangleRoundTrip {
  import opened Basics
  import opened DemangleOutput
  import opened DemangleGrammar
  import opened Demangler

  // ---------------------------------------------------------------- alternatives that fail at once

  /** The k-th alternative of f gives up on its first step, with nothing written. */
  predicate Dead(f: Function, k: nat, m: string, i: nat)
    requires i <= |m| && k < |Body(f)|
  {
    match Body(f)[k]
    case Copy(first, _) =>
      if first.Call? then Eval(first.f, m, i) == No(i, Skip)
      else IsLeaf(first) && EvalLeaf(first, m, i) == No(EvalLeaf(first, m, i).Cur(), Skip)
    case Just(g) => Eval(g, m, i) == No(i, Skip)
    case Token(s, _) => IsLeaf(s) && EvalLeaf(s, m, i) == No(i, Skip)
  }

  lemma DeadFails(f: Function, k: nat, m: string, i: nat)
    requires i <= |m| && k < |Body(f)| && Dead(f, k, m, i)
    ensures EvalAlt(f, k, m, i) == No(i, Skip)
  {
    NoLeftRecursion(f, k);
    hide Body, EvalLeaf, Eval, Forwards;
  }

  /** Dead alternatives are passed over. */
  lemma {:induction false} PassDead(f: Function, k: nat, n: nat, m: string, i: nat)
    requires i <= |m| && k <= n <= |Body(f)|
    requires forall j :: k <= j < n ==> Dead(f, j, m, i)
    ensures EvalAlts(f, k, m, i) == EvalAlts(f, n, m, i)
    decreases n - k
  {
    hide Body, EvalAlt, Dead;
    if k < n {
      DeadFails(f, k, m, i);
      PassDead(f, k + 1, n, m, i);
    }
  }

  lemma AllDead(f: Function, m: string, i: nat)
    requires i <= |m|
    requires forall j :: 0 <= j < |Body(f)| ==> Dead(f, j, m, i)
    ensures Eval(f, m, i) == No(i, Skip)
  {
    hide Body, Dead;
    PassDead(f, 0, |Body(f)|, m, i);
    assert EvalAlts(f, |Body(f)|, m, i) == No(i, Skip);
  }

  /** The n-th alternative decides when those before it are dead and it succeeds. */
  lemma Decides(f: Function, n: nat, m: string, i: nat)
    requires i + Needs(f) <= |m| && n < |Body(f)|
    requires forall j :: 0 <= j < n ==> Dead(f, j, m, i)
    requires EvalAlt(f, n, m, i).Ok()
    ensures Eval(f, m, i) == EvalAlt(f, n, m, i)
  {
    hide Body, Dead, EvalAlt;
    PassDead(f, 0, n, m, i);
  }

  // ---------------------------------------------------------------- digits, and the end of a nested name

  /** Starts none of the names that are not source names. */
  predicate Dull(c: char) { c != 'T' && c != 'S' && c != 'C' && c != 'D' && c != 'L' && !IsLower(c) }

  lemma NoParamOrSubstitution(m: string, i: nat)
    requires i <= |m| && At(m, i) != 'T' && At(m, i) != 'S'
    ensures Eval(TemplateParam, m, i) == No(i, Skip) && Eval(Substitution, m, i) == No(i, Skip)
  {
    hide Eval, OPERATORS, ReadNumber;
    AllDead(TemplateParam, m, i);
    AllDead(Substitution, m, i);
  }

  lemma NoCtorOrLocal(m: string, i: nat)
    requires i <= |m| && At(m, i) != 'C' && At(m, i) != 'D' && At(m, i) != 'L'
    ensures Eval(CtorDtorName, m, i) == No(i, Skip) && Eval(LocalSourceName, m, i) == No(i, Skip)
  {
    hide Eval, OPERATORS, ReadNumber;
    AllDead(CtorDtorName, m, i);
    AllDead(LocalSourceName, m, i);
  }

  lemma NoOperator(m: string, i: nat)
    requires i <= |m| && At(m, i) != 'c' && At(m, i) != 'v' && !(IsLower(At(m, i)) && IsAlpha(At(m, i + 1)))
    ensures Eval(OperatorName, m, i) == No(i, Skip)
  {
    hide Eval, OPERATORS, ReadNumber;
    AllDead(OperatorName, m, i);
  }

  lemma DullStartsNothing(m: string, i: nat)
    requires i <= |m| && Dull(At(m, i))
    ensures Eval(TemplateParam, m, i) == No(i, Skip) && Eval(Substitution, m, i) == No(i, Skip)
    ensures Eval(CtorDtorName, m, i) == No(i, Skip) && Eval(LocalSourceName, m, i) == No(i, Skip)
    ensures Eval(OperatorName, m, i) == No(i, Skip)
  {
    hide Eval;
    NoParamOrSubstitution(m, i);
    NoCtorOrLocal(m, i);
    NoOperator(m, i);
  }

  /** At the end of the name every function but the two silent ones fails, writing nothing. */
  lemma {:induction false} NothingAtTheEnd(f: Function, m: string)
    requires Plain(f)
    ensures Eval(f, m, |m|) == No(|m|, Skip)
    decreases Rank(f)
  {
    hide Eval, EvalLeaf, Body, Forwards;
    forall k | 0 <= k < |Body(f)| ensures Dead(f, k, m, |m|) {
      NoLeftRecursion(f, k);
      match Body(f)[k]
      case Copy(first, _) => if first.Call? { NothingAtTheEnd(first.f, m); } else { LeafAtTheEnd(first, m); }
      case Just(g) => NothingAtTheEnd(g, m);
      case Token(s, _) => LeafAtTheEnd(s, m);
    }
    AllDead(f, m, |m|);
  }

  lemma LeafAtTheEnd(s: Step, m: string)
    requires IsLeaf(s) && Consumes(s)
    ensures EvalLeaf(s, m, |m|) == No(|m|, Skip)
  {
    if s.Builtins? { NoneFits(BUILTIN_TYPES, 0, p => FitsType(m, |m|, p)); }
    if s.Substitutions? { NoneFits(SUBSTITUTIONS, 0, p => FitsSubstitution(m, |m|, p)); }
    hide OPERATORS, BUILTIN_TYPES, SUBSTITUTIONS;
  }

  lemma {:induction false} NoneFits(list: seq<Abbrev>, k: nat, fits: Abbrev -> bool)
    requires k <= |list| && forall p :: !fits(p)
    ensures Find(list, k, fits) == |list|
    decreases |list| - k
  {
    if k < |list| { NoneFits(list, k + 1, fits); }
  }

  // ---------------------------------------------------------------- decimal lengths

  lemma {:induction false} DigitsSnoc(m: string, i: nat, e: nat, acc: int)
    requires i <= e < |m|
    ensures DigitsValue(m, i, e + 1, acc) == Wrap32(DigitsValue(m, i, e, acc) * 10 + DigitValue(m[e]))
    decreases e - i
  {
    if i < e { DigitsSnoc(m, i + 1, e, Wrap32(acc * 10 + DigitValue(m[i]))); }
  }

  /** The unbounded number that the digits of m[i..e] spell. */
  function Decimal(m: string, i: nat, e: nat): int
    requires i <= e <= |m|
    decreases e - i
  {
    if i == e then 0 else Decimal(m, i, e - 1) * 10 + DigitValue(m[e - 1])
  }

  const WORD := 0x1_0000_0000

  lemma WrapShifts(x: int, k: int)
    ensures Wrap32(x + k * WORD) == Wrap32(x)
  {
    var y := x + 0x8000_0000;
    assert (y + k * WORD) % WORD == y % WORD;
  }

  lemma WrapIsShift(x: int) returns (k: int)
    ensures Wrap32(x) == x + k * WORD
  {
    k := -((x + 0x8000_0000) / WORD);
  }

  lemma WrapsOnce(x: int, factor: int, d: int)
    ensures Wrap32(Wrap32(x) * factor + d) == Wrap32(x * factor + d)
  {
    hide Wrap32;
    var k := WrapIsShift(x);
    assert (x + k * WORD) * factor + d == x * factor + d + (k * factor) * WORD;
    WrapShifts(x * factor + d, k * factor);
  }

  lemma {:induction false} DigitsSpell(m: string, i: nat, e: nat)
    requires i <= e <= |m|
    ensures DigitsValue(m, i, e, 0) == Wrap32(Decimal(m, i, e))
    decreases e - i
  {
    if i < e {
      DigitsSpell(m, i, e - 1);
      DigitsSnoc(m, i, e - 1, 0);
      WrapsOnce(Decimal(m, i, e - 1), 10, DigitValue(m[e - 1]));
    }
  }

  /** ParseNumber reads what the digits spell, with its sign, as a 32-bit int: wrapping at every digit
      comes to the same as wrapping once. */
  lemma NumberIsDecimal(m: string, i: nat)
    requires i <= |m|
    ensures var start := if Has(m, i, 'n') then i + 1 else i; var e := RunEnd(m, start, IsDigit);
        var n := ReadNumber(m, i);
      && (n.ok <==> start < e) && n.cur == e
      && (n.ok ==> n.value == Wrap32(if Has(m, i, 'n') then -Decimal(m, start, e) else Decimal(m, start, e)))
  {
    var start := if Has(m, i, 'n') then i + 1 else i;
    var e := RunEnd(m, start, IsDigit);
    DigitsSpell(m, start, e);
    WrapsOnce(Decimal(m, start, e), if Has(m, i, 'n') then -1 else 1, 0);
  }

  lemma DecIs(n: nat)
    ensures var last := ('0' as int + n % 10) as char;
      Dec(n) == (if n < 10 then "" else Dec(n / 10)) + [last] && DigitValue(last) == n % 10
  {}

  lemma SmallWraps(x: nat)
    requires x < 0x8000_0000
    ensures Wrap32(x) == x
  {}

  lemma NoDigitsYet(m: string, i: nat)
    requires i <= |m|
    ensures DigitsValue(m, i, i, 0) == 0
  {}

  lemma {:induction false} DecValue(m: string, i: nat, n: nat)
    requires i + |Dec(n)| <= |m| && m[i..i + |Dec(n)|] == Dec(n) && n < 0x8000_0000
    ensures DigitsValue(m, i, i + |Dec(n)|, 0) == n
    decreases n
  {
    hide Dec, DigitsValue, Wrap32;
    DecIs(n);
    var front := if n < 10 then "" else Dec(n / 10);
    var e := i + |front|;
    assert m[e] == m[i..e + 1][|front|] == Dec(n)[|front|];
    assert m[i..e] == m[i..e + 1][..|front|] == front;
    DigitsSnoc(m, i, e, 0);
    if n < 10 { NoDigitsYet(m, i); } else { DecValue(m, i, n / 10); }
    SmallWraps(n);
  }

  lemma {:induction false} RunEndsAt(m: string, i: nat, e: nat, inClass: char -> bool)
    requires i <= e <= |m| && (forall j :: i <= j < e ==> inClass(m[j])) && (e < |m| ==> !inClass(m[e]))
    ensures RunEnd(m, i, inClass) == e
    decreases e - i
  {
    if i < e { RunEndsAt(m, i + 1, e, inClass); }
  }

  /** A length written in decimal is read back. */
  lemma ReadsLength(m: string, i: nat, n: nat)
    requires i + |Dec(n)| <= |m| && m[i..i + |Dec(n)|] == Dec(n) && n < 0x8000_0000
    requires i + |Dec(n)| < |m| ==> !IsDigit(m[i + |Dec(n)|])
    ensures ReadNumber(m, i) == Numeral(true, i + |Dec(n)|, n) && IsDigit(At(m, i))
  {
    hide Dec, DigitsValue, RunEnd;
    var e := i + |Dec(n)|;
    forall j | i <= j < e ensures IsDigit(m[j]) { assert m[j] == Dec(n)[j - i]; }
    RunEndsAt(m, i, e, IsDigit);
    DecValue(m, i, n);
  }

  // ---------------------------------------------------------------- one identifier

  predicate IsIdentifier(p: string) {
    && 0 < |p| < 0x8000_0000 && !IsDigit(p[0]) && '\0' !in p
    && !(|p| > 11 && ANONYMOUS <= p)
  }

  /** m holds the length-prefixed identifier p at i. */
  predicate HoldsAt(m: string, i: nat, p: string) {
    i + |Dec(|p|)| + |p| <= |m| && m[i..i + |Dec(|p|)|] == Dec(|p|) && m[i + |Dec(|p|)|..i + |Dec(|p|)| + |p|] == p
  }

  lemma NotAnonymous(m: string, e: nat, p: string)
    requires IsIdentifier(p) && e + |p| <= |m| && m[e..e + |p|] == p
    ensures !IsAnonymous(m, e, |p|)
  {
    assert |p| > 11 ==> m[e..][..11] == p[..11];
  }

  lemma LengthEvaluates(m: string, i: nat, e: nat, p: string)
    requires i <= |m| && ReadNumber(m, i) == Numeral(true, e, |p|) && e + |p| <= |m|
    requires !IsAnonymous(m, e, |p|) && m[e..e + |p|] == p
    ensures EvalLeaf(Length, m, i) == Yes(e + |p|, Emit(p))
  {
    hide ReadNumber, IsAnonymous, Sound, Forwards;
  }

  lemma ReadsIdentifier(m: string, i: nat, p: string)
    requires IsIdentifier(p) && HoldsAt(m, i, p)
    ensures EvalLeaf(Length, m, i) == Yes(i + |Dec(|p|)| + |p|, Emit(p)) && IsDigit(At(m, i))
  {
    hide Dec, EvalLeaf, ReadNumber, IsAnonymous, ANONYMOUS;
    var e := i + |Dec(|p|)|;
    assert m[e] == p[0];
    ReadsLength(m, i, |p|);
    NotAnonymous(m, e, p);
    LengthEvaluates(m, i, e, p);
  }

  lemma ParsesSourceName(m: string, i: nat, p: string)
    requires IsIdentifier(p) && HoldsAt(m, i, p)
    ensures Eval(SourceName, m, i) == Yes(i + |Dec(|p|)| + |p|, Emit(p))
  {
    hide Eval, EvalLeaf, EvalStep, EvalSteps, EvalAlt, IsIdentifier, Forwards, Sound, Fine, Dec;
    ReadsIdentifier(m, i, p);
    LengthAlternative(m, i, i + |Dec(|p|)| + |p|, Emit(p));
    Decides(SourceName, 0, m, i);
  }

  lemma LengthAlternative(m: string, i: nat, end: nat, eff: Effect)
    requires i <= |m| && end <= |m| && EvalLeaf(Length, m, i) == Yes(end, eff)
    ensures EvalAlt(SourceName, 0, m, i) == Yes(end, eff)
  {
    hide Eval, EvalLeaf, Forwards, Sound, Fine;
    assert EvalSteps([], 0, m, end) == Yes(end, Skip);
  }

  lemma ParsesIdentifier(m: string, i: nat, p: string)
    requires IsIdentifier(p) && HoldsAt(m, i, p)
    ensures EvalComponent(m, i) == Yes(i + |Dec(|p|)| + |p|, Emit(p)) && IsDigit(At(m, i))
  {
    hide Eval, EvalLeaf, IsIdentifier, HoldsAt, Forwards, Sound, Dec;
    ReadsIdentifier(m, i, p);
    ParsesSourceName(m, i, p);
    DigitIsDull(At(m, i));
    DullStartsNothing(m, i);
    SourceNameIsUnscoped(m, i);
  }

  lemma DigitIsDull(c: char)
    requires IsDigit(c)
    ensures Dull(c)
  {}

  lemma JustCalls(f: Function, k: nat, g: Function, m: string, i: nat)
    requires k < |Body(f)| && Body(f)[k] == Just(g) && i <= |m|
    ensures EvalAlt(f, k, m, i) == Eval(g, m, i)
  {
    hide Body, Eval;
  }

  /** A source name is an unscoped name if nothing that is tried before it starts there. */
  lemma SourceNameIsUnscoped(m: string, i: nat)
    requires i <= |m| && Eval(SourceName, m, i).Ok()
    requires Eval(OperatorName, m, i) == No(i, Skip) && Eval(CtorDtorName, m, i) == No(i, Skip)
    ensures Eval(UnscopedName, m, i) == Eval(SourceName, m, i)
  {
    hide Eval, EvalLeaf, EvalAlt, Forwards, Sound, Fine;
    JustCalls(UnqualifiedName, 2, SourceName, m, i);
    Decides(UnqualifiedName, 2, m, i);
    JustCalls(UnscopedName, 0, UnqualifiedName, m, i);
    Decides(UnscopedName, 0, m, i);
  }

  /** Where no component starts, the separator is taken back. */
  lemma NoComponentAtE(m: string, i: nat)
    requires Has(m, i, 'E')
    ensures EvalComponent(m, i) == No(i, Skip)
    ensures Eval(TemplateArgs, m, i) == No(i, Undo(Undo(Mute)))
  {
    hide Eval, OPERATORS, BUILTIN_TYPES, Forwards;
    DullStartsNothing(m, i);
    RunEndsAt(m, i, i, IsDigit);
    AllDead(SourceName, m, i);
    AllDead(UnqualifiedName, m, i);
    AllDead(UnscopedName, m, i);
    SilentFailure(TemplateArgs, QuietArgs, "<>", m, i);
  }

  lemma SilentStep(first: Step, m: string, i: nat, r: nat)
    requires i <= |m| && Below(first, r)
    requires || (first == QuietArgs && !Has(m, i, 'I'))
             || (first == QuietTypes && Eval(Type, m, i) == No(i, Skip))
    ensures EvalStep(first, m, i, r) == No(i, Mute)
  {
    hide Eval, Forwards, Sound, Balanced;
  }

  lemma FirstStepFails(f: Function, k: nat, first: Step, rest: seq<Step>, m: string, i: nat, at: nat, eff: Effect)
    requires k < |Body(f)| && Body(f)[k] == Copy(first, rest) && i <= |m| && Below(first, Rank(f)) && !eff.Skip?
    requires EvalStep(first, m, i, Rank(f)) == No(at, eff)
    ensures EvalAlt(f, k, m, i) == No(i, Undo(eff))
  {
    hide Body, Rank, Forwards, EvalStep, EvalSteps, Eval, Sound, Fine, Balanced, Below;
  }

  lemma OnlyAlternativeFails(f: Function, m: string, i: nat, eff: Effect)
    requires i <= |m| && Needs(f) == 0 && |Body(f)| == 1 && !eff.Skip? && EvalAlt(f, 0, m, i) == No(i, eff)
    ensures Eval(f, m, i) == No(i, Undo(eff))
  {
    hide Body, EvalAlt, Forwards, Sound, Fine, Balanced;
    assert EvalAlts(f, 1, m, i) == No(i, Skip);
    assert EvalAlts(f, 0, m, i) == No(i, Undo(eff));
  }

  /** The functions that silence their first step, when it fails writing nothing. */
  lemma SilentFailure(f: Function, first: Step, str: string, m: string, i: nat)
    requires Needs(f) == 0 && Body(f) == [Copy(first, [Say(str)])]
    requires i <= |m|
    requires || (first == QuietArgs && !Has(m, i, 'I'))
             || (first == QuietTypes && Eval(Type, m, i) == No(i, Skip))
    ensures Eval(f, m, i) == No(i, Undo(Undo(Mute)))
  {
    hide Body, Rank, Forwards, EvalStep, EvalSteps, EvalAlt, Eval, Sound, Fine, Balanced, Below;
    NoLeftRecursion(f, 0);
    SilentStep(first, m, i, Rank(f));
    FirstStepFails(f, 0, first, [Say(str)], m, i, i, Mute);
    OnlyAlternativeFails(f, m, i, Undo(Mute));
  }

  // ---------------------------------------------------------------- lists of identifiers

  function Coded(parts: seq<string>): string {
    if parts == [] then "" else Dec(|parts[0]|) + parts[0] + Coded(parts[1..])
  }

  /** The parts as printed by ParsePrefix when the nest level is n. */
  function Spelled(parts: seq<string>, n: nat): string {
    if parts == [] then "" else (if n >= 1 then "::" else "") + parts[0] + Spelled(parts[1..], n + 1)
  }

  predicate AllIdentifiers(parts: seq<string>) {
    forall j :: 0 <= j < |parts| ==> IsIdentifier(parts[j])
  }

  /** A tape in the middle of a nested name. */
  predicate Amid(t: Tape, n: nat) {
    OnTape(t) && t.append && t.nest == n && (n == 0 ==> t.outCur == 0)
  }

  /** What is left on the tape when the text is done: the text, a terminator, and room for the
      separator that was tried after the last part. */
  predicate Leaves(u: Tape, t: Tape, text: string) {
    && OnTape(u) && u.append
    && TextOf(u) == text && |u.bytes| == Max(|t.bytes|, |text| + 3) && u.bytes[|text|] == '\0'
  }

  lemma PartWrites(p: string, t: Tape, n: nat)
    requires IsIdentifier(p) && Amid(t, n) && n < SHORT_MAX
    ensures var u := Write(Slot(Emit(p)), t);
      && Amid(u, n + 1) && TextOf(u) == TextOf(t) + (if n >= 1 then "::" else "") + p
      && |u.bytes| == Max(|t.bytes|, u.outCur + 1)
  {
    var t1 := Write(Separator, t);
    assert n >= 1 ==> t1.bytes[t1.outCur - 1] == TextOf(t1)[t1.outCur - 1] == ':';
    var t2 := Write(Emit(p), t1);
    assert t2 == Write(Then(Separator, Emit(p)), t);
  }

  lemma JoinWrites(a: Effect, b: Effect, t: Tape)
    requires OnTape(t)
    ensures Write(Join(a, b), t) == Write(b, Write(a, t))
  {}

  lemma SeparatorWrites(t: Tape, n: nat)
    requires Amid(t, n) && n >= 1
    ensures var u := Separate(t); u.outCur == t.outCur + 2 && |u.bytes| == Max(|t.bytes|, t.outCur + 3) && Extends(t, u)
  {
    PutGrows(t, "::");
    assert t.outCur > 0 ==> "::"[0] != '<';
  }

  lemma LastSlotWrites(t: Tape, n: nat)
    requires Amid(t, n) && n >= 1
    ensures Leaves(Write(Blank(Skip), t), t, TextOf(t))
        && Leaves(Write(Join(Blank(Skip), Undo(Undo(Undo(Mute)))), t), t, TextOf(t))
  {
    hide Separate, MaybePut, Put;
    var u := Write(Blank(Skip), t);
    SeparatorWrites(t, n);
    assert u == Unseparated(t, Separate(t).bytes);
    assert TextOf(u) == TextOf(t);
    assert Write(Undo(Undo(Undo(Mute))), u) == u by {
      assert Write(Undo(Mute), u) == u;
      assert Write(Undo(Undo(Mute)), u) == u;
    }
    JoinWrites(Blank(Skip), Undo(Undo(Undo(Mute))), t);
  }

  lemma LeavesSince(v: Tape, u: Tape, t: Tape, text: string)
    requires Leaves(v, u, text) && |u.bytes| == Max(|t.bytes|, u.outCur + 1) && u.outCur <= |text|
    ensures Leaves(v, t, text)
  {}

  predicate PartsAt(m: string, i: nat, parts: seq<string>) {
    i + |Coded(parts)| < |m| && m[i..i + |Coded(parts)|] == Coded(parts) && m[i + |Coded(parts)|] == 'E'
  }

  lemma Halves(m: string, i: nat, a: string, b: string)
    requires i + |a| + |b| <= |m| && m[i..i + |a| + |b|] == a + b
    ensures m[i..i + |a|] == a && m[i + |a|..i + |a| + |b|] == b
  {
    var s := m[i..i + |a| + |b|];
    assert m[i..i + |a|] == s[..|a|];
    assert m[i + |a|..i + |a| + |b|] == s[|a|..];
  }

  lemma FirstPart(m: string, i: nat, parts: seq<string>)
    requires PartsAt(m, i, parts) && parts != []
    ensures var p := parts[0]; HoldsAt(m, i, p) && PartsAt(m, i + |Dec(|p|)| + |p|, parts[1..])
  {
    hide Dec;
    var p := parts[0];
    assert Coded(parts) == Dec(|p|) + (p + Coded(parts[1..]));
    Halves(m, i, Dec(|p|), p + Coded(parts[1..]));
    Halves(m, i + |Dec(|p|)|, p, Coded(parts[1..]));
  }

  lemma SpellsOn(parts: seq<string>, n: nat, before: string, after: string)
    requires parts != [] && after == before + (if n >= 1 then "::" else "") + parts[0]
    ensures after + Spelled(parts[1..], n + 1) == before + Spelled(parts, n)
  {
    var sep, rest := if n >= 1 then "::" else "", Spelled(parts[1..], n + 1);
    assert Spelled(parts, n) == sep + parts[0] + rest;
    hide Spelled;
    Regroup(before, sep, parts[0], rest);
  }

  lemma Regroup(a: string, b: string, c: string, d: string)
    ensures (a + b + c) + d == a + (b + c + d)
  {}

  lemma SpellsNothing(n: nat, before: string)
    ensures before + Spelled([], n) == before
  {}

  lemma {:induction false} PrefixRoundTrip(m: string, i: nat, parts: seq<string>, has: bool, t: Tape, n: nat)
    requires AllIdentifiers(parts) && PartsAt(m, i, parts)
    requires Amid(t, n) && n + |parts| <= SHORT_MAX && n + |parts| >= 1
    ensures var r := EvalPrefix(m, i, has);
      && r.Ok() && r.Cur() == i + |Coded(parts)|
      && Leaves(Write(r.res.eff, t), t, TextOf(t) + Spelled(parts, n))
    decreases |parts|
  {
    hide Write, EvalPrefix, EvalComponent, Eval, HoldsAt, IsIdentifier, Forwards, Dec, Leaves, Spelled, Slot, Kept,
        Stays;
    PrefixRound(m, i, has, 0);
    if parts == [] {
      NoComponentAtE(m, i);
      LastSlotWrites(t, n);
      SpellsNothing(n, TextOf(t));
    } else {
      var p := parts[0];
      FirstPart(m, i, parts);
      ParsesIdentifier(m, i, p);
      PartWrites(p, t, n);
      var e, u := i + |Dec(|p|)| + |p|, Write(Slot(Emit(p)), t);
      PrefixRoundTrip(m, e, parts[1..], true, u, n + 1);
      SpellsOn(parts, n, TextOf(t), TextOf(u));
      LeavesSince(Write(EvalPrefix(m, e, true).res.eff, u), u, t, TextOf(t) + Spelled(parts, n));
      JoinWrites(Slot(Emit(p)), EvalPrefix(m, e, true).res.eff, t);
    }
  }

  // ---------------------------------------------------------------- the nested name

  predicate Nesting(m: string, i: nat, parts: seq<string>) {
    Has(m, i, 'N') && AllIdentifiers(parts) && PartsAt(m, i + 1, parts) && 1 <= |parts| <= SHORT_MAX
  }

  function PrefixEffect(m: string, i: nat): Effect
    requires i < |m|
  {
    var r := EvalPrefix(m, i + 1, false);
    if r.Done? then r.res.eff else Skip
  }

  lemma PrefixStep(m: string, i: nat, e: nat)
    requires Has(m, i, 'N') && IsDigit(At(m, i + 1))
    requires EvalPrefix(m, i + 1, false).Ok() && EvalPrefix(m, i + 1, false).Cur() == e
    ensures EvalStep(NestedPrefix, m, i + 1, TOP) == Yes(e, Nest(PrefixEffect(m, i)))
  {
    hide EvalPrefix, Forwards, Sound;
  }

  lemma NestedNameParses(m: string, i: nat, parts: seq<string>)
    requires Nesting(m, i, parts)
    ensures Eval(NestedName, m, i) == Yes(i + |Coded(parts)| + 2, Nest(PrefixEffect(m, i)))
  {
    hide Eval, EvalPrefix, EvalComponent, Forwards, Sound, Write, HoldsAt, Dec, Coded, IsIdentifier, PrefixEffect;
    FirstPart(m, i + 1, parts);
    ParsesIdentifier(m, i + 1, parts[0]);
    PrefixRoundTrip(m, i + 1, parts, false, EMPTY_TAPE.(nest := 0), 0);
    PrefixStep(m, i, i + 1 + |Coded(parts)|);
    NestedChain(m, i, i + 1 + |Coded(parts)|, Nest(PrefixEffect(m, i)));
  }

  lemma NestedChain(m: string, i: nat, e: nat, eff: Effect)
    requires Has(m, i, 'N') && Has(m, e, 'E') && EvalStep(NestedPrefix, m, i + 1, TOP) == Yes(e, eff)
    ensures Eval(NestedName, m, i) == Yes(e + 1, eff)
  {
    hide Eval, EvalStep, EvalSteps, EvalAlt, Forwards, Sound, Fine;
    CharStep('N', m, i, Rank(NestedName));
    CharStep('E', m, e, TOP);
    PrefixThenE(m, i + 1, e, eff);
    NestedAlternative(m, i, e, eff);
    Decides(NestedName, 0, m, i);
  }

  lemma CharStep(c: char, m: string, i: nat, r: nat)
    requires Has(m, i, c)
    ensures EvalStep(Char(c), m, i, r) == Yes(i + 1, Skip)
  {
    hide Eval, Forwards, Sound;
  }

  lemma PrefixThenE(m: string, i: nat, e: nat, eff: Effect)
    requires i <= |m| && e < |m| && EvalStep(NestedPrefix, m, i, TOP) == Yes(e, eff)
        && EvalStep(Char('E'), m, e, TOP) == Yes(e + 1, Skip)
    ensures EvalSteps([NestedPrefix, Char('E')], 0, m, i) == Yes(e + 1, eff)
  {
    hide Eval, EvalStep, Forwards, Sound, Fine;
    var rest := [NestedPrefix, Char('E')];
    assert EvalSteps(rest, 2, m, e + 1) == Yes(e + 1, Skip);
    assert EvalSteps(rest, 1, m, e) == Yes(e + 1, Skip);
  }

  lemma NestedAlternative(m: string, i: nat, e: nat, eff: Effect)
    requires i < |m| && EvalStep(Char('N'), m, i, Rank(NestedName)) == Yes(i + 1, Skip)
    requires EvalSteps([NestedPrefix, Char('E')], 0, m, i + 1) == Yes(e + 1, eff)
    ensures EvalAlt(NestedName, 0, m, i) == Yes(e + 1, eff)
  {
    hide Eval, EvalStep, EvalSteps, Forwards, Sound, Fine;
  }

  lemma NestedNameIsName(m: string, i: nat, parts: seq<string>)
    requires Nesting(m, i, parts)
    ensures Eval(Name, m, i) == Yes(i + |Coded(parts)| + 2, Nest(PrefixEffect(m, i)))
  {
    hide Eval, EvalAlt, Coded, PrefixEffect;
    NestedNameParses(m, i, parts);
    JustCalls(Name, 0, NestedName, m, i);
    Decides(Name, 0, m, i);
  }

  /** The text of a nested name, written from the start of a tape. */
  lemma NestedNameWrites(m: string, i: nat, parts: seq<string>, t: Tape)
    requires Nesting(m, i, parts) && OnTape(t) && t.append && t.outCur == 0
    ensures Leaves(Write(Nest(PrefixEffect(m, i)), t), t, Spelled(parts, 0))
  {
    hide EvalPrefix, Spelled, PartsAt, Coded;
    PrefixRoundTrip(m, i + 1, parts, false, t.(nest := 0), 0);
    assert TextOf(t) + Spelled(parts, 0) == Spelled(parts, 0);
  }

  // ---------------------------------------------------------------- with and without a parameter list

  lemma VoidIsBuiltin(m: string, i: nat)
    requires Has(m, i, 'v')
    ensures Eval(BuiltinType, m, i) == Yes(i + 1, Emit("void"))
  {
    hide Eval, Forwards, Sound, OPERATORS, SUBSTITUTIONS;
    assert EvalLeaf(Builtins, m, i) == Yes(i + 1, Emit("void")) by {
      assert BUILTIN_TYPES[0] == Abbrev('v', ' ', "void");
      assert FitsType(m, i, BUILTIN_TYPES[0]);
    }
    hide BUILTIN_TYPES, Find, EvalLeaf;
    assert EvalAlt(BuiltinType, 0, m, i) == Yes(i + 1, Emit("void"));
    Decides(BuiltinType, 0, m, i);
  }

  lemma NoQualifiers(m: string, i: nat)
    requires Has(m, i, 'v')
    ensures Eval(CVQualifiers, m, i) == No(i, Skip)
  {
    hide Eval, EvalAlt, Forwards, Sound, OPERATORS, SUBSTITUTIONS, BUILTIN_TYPES;
    AllDead(CVQualifiers, m, i);
  }

  lemma NoCompoundType(m: string, i: nat)
    requires Has(m, i, 'v')
    ensures forall j :: 0 <= j < 5 ==> Dead(Type, j, m, i)
  {
    hide Eval, ReadNumber, OPERATORS, SUBSTITUTIONS, BUILTIN_TYPES, Forwards, Sound;
    NoQualifiers(m, i);
  }

  lemma VoidIsAType(m: string, i: nat)
    requires Has(m, i, 'v')
    ensures Eval(Type, m, i) == Yes(i + 1, Emit("void"))
  {
    VoidIsBuiltin(m, i);
    NoCompoundType(m, i);
    hide Dead;
    hide Eval, EvalAlt, Forwards, Sound, Fine, OPERATORS, SUBSTITUTIONS, BUILTIN_TYPES;
    JustCalls(Type, 5, BuiltinType, m, i);
    Decides(Type, 5, m, i);
  }

  lemma OneVoid(m: string, i: nat)
    requires Has(m, i, 'v') && i + 1 == |m|
    ensures EvalStep(QuietTypes, m, i, Rank(BareFunctionType)) == Yes(|m|, Quiet(Emit("void")))
  {
    VoidIsAType(m, i);
    NothingAtTheEnd(Type, m);
    hide Eval, Forwards, Sound, Fine, EvalLeaf;
    assert EvalMany(Type, m, |m|) == Yes(|m|, Skip);
    assert EvalOneOrMore(Type, m, i) == Yes(|m|, Emit("void"));
  }

  /** "v" at the end of a name is a parameter list. */
  lemma VoidIsAParameterList(m: string, i: nat)
    requires Has(m, i, 'v') && i + 1 == |m|
    ensures Eval(BareFunctionType, m, i) == Yes(|m|, Then(Quiet(Emit("void")), Emit("()")))
  {
    hide Eval, EvalStep, EvalSteps, EvalAlt, Forwards, Sound, Fine;
    OneVoid(m, i);
    SaysLast("()", m, |m|, 0);
    CopyStep(BareFunctionType, 0, QuietTypes, [Say("()")], m, i, 0);
    Decides(BareFunctionType, 0, m, i);
  }

  lemma EncodingWithVoid(m: string, i: nat, e: nat, eff: Effect)
    requires i <= e < |m| && Eval(Name, m, i) == Yes(e, eff) && !eff.Skip? && Has(m, e, 'v') && e + 1 == |m|
    ensures Eval(Encoding, m, i) == Yes(|m|, Then(eff, Then(Quiet(Emit("void")), Emit("()"))))
  {
    hide Eval, EvalStep, EvalSteps, Forwards, Sound, Fine, EvalLeaf;
    VoidIsAParameterList(m, e);
    LastStep(Call(BareFunctionType), m, e);
    CallStep(Name, m, i, Rank(Encoding));
    CallStep(BareFunctionType, m, e, TOP);
    assert EvalAlt(Encoding, 0, m, i) == Yes(|m|, Then(eff, Then(Quiet(Emit("void")), Emit("()"))));
    Decides(Encoding, 0, m, i);
  }

  lemma NoParameterListAtTheEnd(m: string, i: nat, eff: Effect)
    requires i <= |m| && Eval(Name, m, i) == Yes(|m|, eff) && !eff.Skip?
    ensures EvalAlt(Encoding, 0, m, i) == No(i, Undo(Then(eff, Undo(Undo(Mute)))))
  {
    hide Eval, EvalStep, EvalSteps, Forwards, Sound, Fine, EvalLeaf;
    NothingAtTheEnd(Type, m);
    SilentFailure(BareFunctionType, QuietTypes, "()", m, |m|);
    LastStep(Call(BareFunctionType), m, |m|);
    CallStep(Name, m, i, Rank(Encoding));
    CallStep(BareFunctionType, m, |m|, TOP);
  }

  lemma CallStep(f: Function, m: string, i: nat, r: nat)
    requires i <= |m| && Rank(f) < r
    ensures EvalStep(Call(f), m, i, r) == Eval(f, m, i)
  {
    hide Eval, Rank, Forwards, Sound, Fine;
  }

  lemma EncodingAlone(m: string, i: nat, eff: Effect)
    requires i <= |m| && Eval(Name, m, i) == Yes(|m|, eff) && !eff.Skip?
    ensures Eval(Encoding, m, i) == Yes(|m|, Then(Undo(Undo(Then(eff, Undo(Undo(Mute))))), eff))
  {
    NoParameterListAtTheEnd(m, i, eff);
    JustCalls(Encoding, 1, Name, m, i);
    hide EvalAlt, Forwards, Sound, Fine, Balanced, Neutral;
    assert EvalAlts(Encoding, 1, m, i) == Yes(|m|, eff);
    assert EvalAlts(Encoding, 0, m, i) == Yes(|m|, Then(Undo(Undo(Then(eff, Undo(Undo(Mute))))), eff));
  }

  // ---------------------------------------------------------------- the round trip

  /** The C string at the start of the bytes is s. */
  predicate Reads0(bytes: seq<char>, s: string) {
    |s| < |bytes| && bytes[..|s|] == s && bytes[|s|] == '\0'
  }

  /** The parts joined by "::". */
  function Joined(parts: seq<string>): string { Spelled(parts, 0) }

  predicate Suitable(parts: seq<string>) {
    1 <= |parts| <= SHORT_MAX && AllIdentifiers(parts)
  }

  lemma MangledStep(m: string)
    requires Has2(m, 0, '_', 'Z')
    ensures EvalStep(Mangled, m, 0, TOP) == Eval(Encoding, m, 2)
  {
    hide Eval, EvalLeaf, Forwards, Sound, Fine, Balanced, Neutral;
  }

  lemma TopLevelIsEncoding(m: string)
    requires Has2(m, 0, '_', 'Z') && Eval(Encoding, m, 2).Ok() && Eval(Encoding, m, 2).Cur() == |m|
    ensures TopLevel(m) == Eval(Encoding, m, 2)
  {
    hide Eval, EvalStep, Forwards, Sound, Fine, IsCloneSuffix;
    MangledStep(m);
  }

  lemma NestsAt2(parts: seq<string>, tail: string)
    requires Suitable(parts)
    ensures var m := "_ZN" + Coded(parts) + "E" + tail;
      Has2(m, 0, '_', 'Z') && Nesting(m, 2, parts) && m[|Coded(parts)| + 4..] == tail
  {
    var m := "_ZN" + Coded(parts) + "E" + tail;
    assert m[3..3 + |Coded(parts)|] == Coded(parts);
    assert m[0] == '_' && m[1] == 'Z' && m[2] == 'N';
  }

  lemma UndoneTry(e: Effect, t: Tape)
    requires OnTape(t)
    ensures Write(Undo(Undo(Then(e, Undo(Undo(Mute))))), t) == t.(bytes := Write(e, t).bytes)
  {
    var u := Write(e, t);
    assert Write(Undo(Mute), u) == u;
    assert Write(Undo(Undo(Mute)), u) == u;
    assert Write(Then(e, Undo(Undo(Mute))), t) == u;
    assert Write(Undo(Then(e, Undo(Undo(Mute)))), t) == t.(bytes := u.bytes);
  }

  function Twice(e: Effect): Effect { Then(Undo(Undo(Then(e, Undo(Undo(Mute))))), e) }

  lemma NestedNameAlone(m: string, parts: seq<string>)
    requires Suitable(parts) && Has2(m, 0, '_', 'Z') && Nesting(m, 2, parts) && |m| == |Coded(parts)| + 4
    ensures TopLevel(m) == Yes(|m|, Twice(Nest(PrefixEffect(m, 2))))
  {
    hide Eval, Coded, PrefixEffect, TopLevel, Nesting, Suitable, Sound, Fine;
    NestedNameIsName(m, 2, parts);
    EncodingAlone(m, 2, Nest(PrefixEffect(m, 2)));
    TopLevelIsEncoding(m);
  }

  lemma NestedNameTwice(m: string, parts: seq<string>)
    requires Nesting(m, 2, parts)
    ensures var u := Write(Twice(Nest(PrefixEffect(m, 2))), EMPTY_TAPE);
      |u.bytes| == |Joined(parts)| + 3 && Reads0(u.bytes, Joined(parts))
  {
    hide Spelled, PrefixEffect, PartsAt, AllIdentifiers, Write;
    var e := Nest(PrefixEffect(m, 2));
    UndoneTry(e, EMPTY_TAPE);
    var t1 := Write(Undo(Undo(Then(e, Undo(Undo(Mute))))), EMPTY_TAPE);
    NestedNameWrites(m, 2, parts, EMPTY_TAPE);
    NestedNameWrites(m, 2, parts, t1);
    ThenWrites(Undo(Undo(Then(e, Undo(Undo(Mute))))), e, EMPTY_TAPE);
  }

  /** "_ZN" <parts> "E" demangles to the parts joined by "::". */
  lemma NestedNameRoundTrip(parts: seq<string>)
    requires Suitable(parts)
    ensures var m := "_ZN" + Coded(parts) + "E";
      && Recognised(m) && Need(m) == |Joined(parts)| + 3
      && Reads0(Written(m).bytes, Joined(parts))
  {
    hide Coded, Joined, Spelled, PrefixEffect, TopLevel, Result, Nesting, Write, AllIdentifiers, Twice, Forwards, Sound;
    var m := "_ZN" + Coded(parts) + "E";
    assert m == m + "";
    NestsAt2(parts, "");
    NestedNameAlone(m, parts);
    NestedNameTwice(m, parts);
    ResultIs(m, 0);
  }

  lemma ThenWrites(a: Effect, b: Effect, t: Tape)
    requires OnTape(t)
    ensures Write(Then(a, b), t) == Write(b, Write(a, t))
  {}

  /** A parameter list after it adds "()". */
  lemma NestedFunctionRoundTrip(parts: seq<string>)
    requires Suitable(parts)
    ensures var m := "_ZN" + Coded(parts) + "E" + "v";
      && Recognised(m) && Need(m) == |Joined(parts)| + 3
      && Reads0(Written(m).bytes, Joined(parts) + "()")
  {
    hide Eval, Coded, Spelled, PrefixEffect, TopLevel, Result, Nesting, Write, Forwards, Sound, Fine;
    var m := "_ZN" + Coded(parts) + "E" + "v";
    NestsAt2(parts, "v");
    assert m[|Coded(parts)| + 4..][0] == 'v';
    NestedNameIsName(m, 2, parts);
    var e := Nest(PrefixEffect(m, 2));
    EncodingWithVoid(m, 2, |Coded(parts)| + 4, e);
    TopLevelIsEncoding(m);
    ResultIs(m, 0);
    NestedNameWrites(m, 2, parts, EMPTY_TAPE);
    var u := Write(e, EMPTY_TAPE);
    ThenWrites(e, Then(Quiet(Emit("void")), Emit("()")), EMPTY_TAPE);
    ParenthesesWrite(u);
    assert Joined(parts) + "()" == TextOf(Put(u, "()"));
  }

  lemma ParenthesesWrite(u: Tape)
    requires OnTape(u) && u.append
    ensures Write(Then(Quiet(Emit("void")), Emit("()")), u) == Put(u, "()")
    ensures |Put(u, "()").bytes| == Max(|u.bytes|, u.outCur + 3)
  {
    assert Write(Quiet(Emit("void")), u) == u;
  }

  /** "_ZN" <parts> "E", with a "v" behind it for a function. */
  function Mangle(parts: seq<string>, isFunction: bool): string {
    if isFunction then "_ZN" + Coded(parts) + "E" + "v" else "_ZN" + Coded(parts) + "E"
  }

  /** Demangling what Mangle made gives the parts back, whatever the buffer held before. */
  lemma NestedNameInAnyBuffer(parts: seq<string>, isFunction: bool, buf: seq<char>)
    requires Suitable(parts) && |Joined(parts)| + 3 <= |buf|
    ensures var m := Mangle(parts, isFunction);
      && Recognised(m) && PrintsTo(m, buf, Joined(parts) + if isFunction then "()" else "")
  {
    hide Coded, Joined, Spelled, TopLevel, Result, Exec, Write, Suitable;
    if isFunction { NestedFunctionRoundTrip(parts); } else { NestedNameRoundTrip(parts); }
    var m := Mangle(parts, isFunction);
    assert Same(Fresh(buf), EMPTY_TAPE);
    MachineFollowsTape(Result(m).eff, Fresh(buf), EMPTY_TAPE);
  }

  /** Demangling m into the buffer does not overflow and leaves the C string s in it. */
  ghost predicate PrintsTo(m: string, buf: seq<char>, s: string) {
    Ends(m) && var t := Exec(Result(m).eff, Fresh(buf)); !t.overflowed && Reads0(t.buf, s)
  }
}
