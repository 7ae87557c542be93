/** One rule for each production of the grammar: where its parts are read and printed, so is the whole. */
module DemangleRules {
  import opened Basics
  import opened DemangleOutput
  import opened DemangleGrammar
  import opened DemangleSpeech
  import opened Demangler
  import opened DemangleRoundTrip
  import opened DemangleRewind
  import opened DemangleSpoken
  import opened DemangleStarts
  import S = DemangleSyntax

  // ---------------------------------------------------------------- alternatives that do not even start

  lemma BySight(f: Function, k: nat, m: string, i: nat)
    requires i <= |m| && k < |Body(f)| && Plain(f) && !AltStarts(Body(f)[k], At(m, i))
    ensures AltFails(f, k, m, i)
  {
    hide Body, EvalAlt, Dead, AltStarts;
    DeadBySight(f, k, m, i);
    DeadFails(f, k, m, i);
  }

  /** Fails(Eval(f)) by the first character. */
  lemma Unstarted(f: Function, m: string, i: nat)
    requires i <= |m| && !Starts(f, At(m, i))
    ensures Fails(Eval(f, m, i))
  {
    hide Eval, Starts;
    NothingStarts(f, m, i);
  }

  // ---------------------------------------------------------------- numbers

  lemma NumberThere(m: string, i: nat, n: S.Num)
    requires HasAt(m, i, S.NumText(n)) && !IsDigit(At(m, i + |S.NumText(n)|))
    ensures var r := ReadNumber(m, i); r.ok && r.cur == i + |S.NumText(n)|
  {
    hide Dec, RunEnd, DigitsValue;
    var d := Dec(n.digits);
    var from := if n.negative then i + 1 else i;
    var e := i + |S.NumText(n)|;
    assert S.NumText(n) == m[i..e];
    forall j | from <= j < e ensures m[j] == d[j - from] && IsDigit(m[j]) { assert m[j] == S.NumText(n)[j - i]; }
    assert m[i] == S.NumText(n)[0];
    RunEndsAt(m, from, e, IsDigit);
  }

  lemma DoesNumber(m: string, i: nat, n: S.Num, v: View)
    requires HasAt(m, i, S.NumText(n)) && !IsDigit(At(m, i + |S.NumText(n)|))
    ensures Does(Number, m, i, i + |S.NumText(n)|, v, v, false)
  {
    NumberThere(m, i, n);
    hide ReadNumber, Does, HasAt;
    DoesLeaf(Number, m, i, i + |S.NumText(n)|, v);
  }

  lemma NoNumber(m: string, i: nat)
    requires i <= |m| && !IsDigit(At(m, i)) && (At(m, i) == 'n' ==> !IsDigit(At(m, i + 1)))
    ensures !ReadNumber(m, i).ok && Fails(EvalStep(Number, m, i, TOP))
  {
    var from := if Has(m, i, 'n') then i + 1 else i;
    RunEndsAt(m, from, from, IsDigit);
    hide RunEnd, DigitsValue, Eval, Forwards;
    BelowTop(Number);
    LeafStep(Number, m, i);
  }

  // ---------------------------------------------------------------- source names

  lemma LengthThere(m: string, i: nat, id: string)
    requires S.GoodId(id) && HasAt(m, i, S.Counted(id))
    ensures EvalLeaf(Length, m, i) == Yes(i + |S.Counted(id)|, Emit(S.IdText(id)))
  {
    hide Dec, ReadNumber, EvalLeaf, IsAnonymous;
    var e := i + |Dec(|id|)|;
    LengthPieces(m, i, id);
    ReadsLength(m, i, |id|);
    AnonymousThere(m, e, id);
    LengthIs(m, i, e, id);
  }

  lemma LengthPieces(m: string, i: nat, id: string)
    requires S.GoodId(id) && HasAt(m, i, S.Counted(id))
    ensures var e := i + |Dec(|id|)|;
      && e + |id| <= |m| && m[i..e] == Dec(|id|) && m[e..e + |id|] == id && !IsDigit(m[e]) && |id| < 0x8000_0000
      && |S.Counted(id)| == |Dec(|id|)| + |id|
  {
    hide Dec;
    var e := i + |Dec(|id|)|;
    Halves(m, i, Dec(|id|), id);
    assert m[e] == m[e..e + |id|][0];
  }

  lemma LengthIs(m: string, i: nat, e: nat, id: string)
    requires i <= |m| && ReadNumber(m, i) == Numeral(true, e, |id|) && e + |id| <= |m| && m[e..e + |id|] == id
    ensures EvalLeaf(Length, m, i)
      == Yes(e + |id|, Emit(if IsAnonymous(m, e, |id|) then "(anonymous namespace)" else id))
  {
    hide ReadNumber, IsAnonymous, Sound, Forwards;
  }

  lemma AnonymousThere(m: string, e: nat, id: string)
    requires e + |id| <= |m| && m[e..e + |id|] == id
    ensures IsAnonymous(m, e, |id|) <==> |id| > 11 && ANONYMOUS <= id
  {
    if |id| > 11 { assert m[e..][..11] == id[..11]; }
  }

  lemma IdIsText(id: string)
    requires S.GoodId(id)
    ensures S.IdText(id) != ""
  {}

  lemma SourceNameRule(m: string, i: nat, id: string, v: View)
    requires S.GoodId(id) && HasAt(m, i, S.Counted(id))
    ensures Says(SourceName, m, i, i + |S.Counted(id)|, v, Add(v, S.IdText(id)), true)
  {
    hide EvalLeaf, Does, Goes, Says, Spoken, HasAt, Add, S.IdText, S.Counted, EvalAlt, S.GoodId;
    var e, w := i + |S.Counted(id)|, Add(v, S.IdText(id));
    LengthThere(m, i, id);
    IdIsText(id);
    IsInside(m, i, S.Counted(id));
    DoesWord(Length, m, i, e, S.IdText(id), v);
    GoesEnd([], m, e, w);
    CopySpoken(SourceName, 0, Length, [], m, i, e, v, w, true, e, w, false);
    Choose(SourceName, 0, m, i, e, v, w);
  }

  lemma IsInside<T>(m: seq<T>, i: nat, part: seq<T>)
    requires HasAt(m, i, part)
    ensures i + |part| <= |m|
  {}

  // ---------------------------------------------------------------- discriminators

  lemma DiscriminatorRule(m: string, i: nat, n: S.Num, v: View)
    requires Has(m, i, '_') && HasAt(m, i + 1, S.NumText(n)) && !IsDigit(At(m, i + 1 + |S.NumText(n)|))
    ensures Eval(Discriminator, m, i) == Yes(i + 1 + |S.NumText(n)|, Skip)
  {
    hide ReadNumber, Eval, EvalStep, EvalSteps, EvalAlt, HasAt, Forwards, S.NumText;
    NumberThere(m, i + 1, n);
    IsInside(m, i + 1, S.NumText(n));
    DiscriminatorAlternative(m, i, i + 1 + |S.NumText(n)|);
    Decides(Discriminator, 0, m, i);
  }

  lemma DiscriminatorAlternative(m: string, i: nat, e: nat)
    requires Has(m, i, '_') && ReadNumber(m, i + 1).ok && ReadNumber(m, i + 1).cur == e
    ensures EvalAlt(Discriminator, 0, m, i) == Yes(e, Skip)
  {
    hide ReadNumber, Forwards, EvalAlt;
    CharStep('_', m, i, Rank(Discriminator));
    LastStep(Number, m, i + 1);
    LeafStep(Number, m, i + 1);
    assert EvalSteps([Number], 0, m, i + 1) == Yes(e, Skip);
    CopyStep(Discriminator, 0, Char('_'), [Number], m, i, 0);
  }

  /** An optional discriminator: it is there, or something that is none follows. */
  lemma DoesDiscriminator(m: string, i: nat, d: Option<S.Num>, v: View)
    requires i <= |m| && HasAt(m, i, S.DiscText(d)) && !S.ShunsAfter(d, At(m, i + |S.DiscText(d)|))
    ensures Does(Opt(Discriminator), m, i, i + |S.DiscText(d)|, v, v, false)
  {
    hide Eval, EvalStep, ReadNumber, Forwards, S.NumText;
    if d.Some? {
      var t := S.NumText(d.value);
      assert S.DiscText(d) == "_" + t;
      assert m[i..i + 1 + |t|] == "_" + t;
      Halves(m, i, "_", t);
      assert m[i] == m[i..i + 1][0];
      DiscriminatorRule(m, i, d.value, v);
    } else {
      NothingStarts(Discriminator, m, i);
    }
    OptIs(Discriminator, m, i);
  }

  lemma OptIs(f: Function, m: string, i: nat)
    requires i <= |m| && Rank(f) < TOP
    ensures EvalStep(Opt(f), m, i, TOP)
      == var p := Eval(f, m, i); if p.Rewinds? || p.Ok() then p else Yes(i, Revert(p.res.eff))
  {
    hide Eval, Forwards, Sound, Fine, Rank;
  }

  // ---------------------------------------------------------------- the lists of abbreviations

  predicate Agrees(p: Abbrev) {
    p.name == S.OperatorText(p.a, p.b) && p.name != "" && IsLower(p.a) && IsAlpha(p.b)
  }

  lemma Operators1(j: nat)
    requires j < |OPERATORS_1|
    ensures Agrees(OPERATORS_1[j])
  {}

  lemma Operators2(j: nat)
    requires j < |OPERATORS_2|
    ensures Agrees(OPERATORS_2[j])
  {}

  lemma Operators3(j: nat)
    requires j < |OPERATORS_3|
    ensures Agrees(OPERATORS_3[j])
  {}

  lemma OperatorEntries(j: nat)
    requires j < |OPERATORS|
    ensures Agrees(OPERATORS[j])
  {
    hide OPERATORS_1, OPERATORS_2, OPERATORS_3, Agrees;
    var n1, n2 := |OPERATORS_1|, |OPERATORS_1| + |OPERATORS_2|;
    if j < n1 { Operators1(j); } else if j < n2 { Operators2(j - n1); } else { Operators3(j - n2); }
  }

  lemma OperatorEntry(a: char, b: char) returns (j: nat)
    requires S.OperatorText(a, b) != ""
    ensures j < |OPERATORS| && OPERATORS[j].a == a && OPERATORS[j].b == b
  {
    match a
    case 'n' => { match b
      { case 'w' => j := 0; case 'a' => j := 1; case 'g' => j := 5; case 'e' => j := 31; case _ => j := 36; } }
    case 'd' => { match b
      { case 'l' => j := 2; case 'a' => j := 3; case 'e' => j := 7; case 'v' => j := 12; case _ => j := 21; } }
    case 'p' => { match b
      { case 's' => j := 4; case 'l' => j := 9; case 'L' => j := 18; case 'p' => j := 39; case 'm' => j := 42;
          case _ => j := 43; } }
    case 'a' => { match b
      { case 'd' => j := 6; case 'n' => j := 14; case 'S' => j := 17; case 'N' => j := 23; case _ => j := 37; } }
    case 'c' => { match b { case 'o' => j := 8; case 'm' => j := 41; case _ => j := 44; } }
    case 'm' => { match b
      { case 'i' => j := 10; case 'l' => j := 11; case 'I' => j := 19; case 'L' => j := 20; case _ => j := 40; } }
    case 'r' => { match b { case 'm' => j := 13; case 'M' => j := 22; case 's' => j := 27; case _ => j := 29; } }
    case 'o' => { match b { case 'r' => j := 15; case 'R' => j := 24; case _ => j := 38; } }
    case 'e' => { match b { case 'o' => j := 16; case 'O' => j := 25; case _ => j := 30; } }
    case 'l' => { match b { case 's' => j := 26; case 'S' => j := 28; case 't' => j := 32; case _ => j := 34; } }
    case 'g' => { match b { case 't' => j := 33; case _ => j := 35; } }
    case 'i' => j := 45;
    case 'q' => j := 46;
    case _ => { match b { case 't' => j := 47; case _ => j := 48; } }
  }

  lemma OperatorThere(m: string, i: nat)
    requires i + 1 < |m| && S.OperatorText(m[i], m[i + 1]) != ""
    ensures EvalLeaf(Operators, m, i) == Yes(i + 2, OperatorEffect(S.OperatorText(m[i], m[i + 1])))
    ensures IsLower(m[i]) && IsAlpha(m[i + 1])
  {
    var j := OperatorEntry(m[i], m[i + 1]);
    hide OPERATORS, S.OperatorText;
    OperatorEntries(j);
    FindHits(OPERATORS, 0, p => FitsOperator(m, i, p), j);
    var f := Find(OPERATORS, 0, p => FitsOperator(m, i, p));
    OperatorEntries(f);
  }

  lemma NoOperatorThere(m: string, i: nat)
    requires i <= |m| && S.OperatorText(At(m, i), At(m, i + 1)) == ""
    ensures EvalLeaf(Operators, m, i) == No(i, Skip)
  {
    hide OPERATORS, S.OperatorText;
    forall j | 0 <= j < |OPERATORS| ensures !FitsOperator(m, i, OPERATORS[j]) { OperatorEntries(j); }
    NoneInList(OPERATORS, 0, p => FitsOperator(m, i, p));
  }

  lemma BuiltinEntry(c: char) returns (j: nat)
    requires S.BuiltinText(c) != ""
    ensures j < |BUILTIN_TYPES| && BUILTIN_TYPES[j].a == c && c != '\0'
  {
    j := if c == 'v' then 0 else if c == 'w' then 1 else if c == 'b' then 2 else if c == 'c' then 3 else
      if c == 'a' then 4 else if c == 'h' then 5 else if c == 's' then 6 else if c == 't' then 7 else
      if c == 'i' then 8 else if c == 'j' then 9 else if c == 'l' then 10 else if c == 'm' then 11 else
      if c == 'x' then 12 else if c == 'y' then 13 else if c == 'n' then 14 else if c == 'o' then 15 else
      if c == 'f' then 16 else if c == 'd' then 17 else if c == 'e' then 18 else if c == 'g' then 19 else 20;
  }

  lemma BuiltinThere(m: string, i: nat)
    requires i < |m| && S.BuiltinText(m[i]) != ""
    ensures EvalLeaf(Builtins, m, i) == Yes(i + 1, Emit(S.BuiltinText(m[i])))
  {
    var j := BuiltinEntry(m[i]);
    hide BUILTIN_TYPES, S.BuiltinText;
    BuiltinEntries(j);
    FindHits(BUILTIN_TYPES, 0, p => FitsType(m, i, p), j);
    var f := Find(BUILTIN_TYPES, 0, p => FitsType(m, i, p));
    BuiltinEntries(f);
  }

  lemma StandardEntries(j: nat)
    requires j < |SUBSTITUTIONS|
    ensures var p := SUBSTITUTIONS[j]; p.name == S.StandardText(p.b) && (p.name == "" <==> p.b == 't')
  {}

  lemma StandardEntry(c: char) returns (j: nat)
    requires S.IsStandard(c)
    ensures j < |SUBSTITUTIONS| && SUBSTITUTIONS[j].b == c && c != '\0'
  {
    j := if c == 't' then 0 else if c == 'a' then 1 else if c == 'b' then 2 else if c == 's' then 3
      else if c == 'i' then 4 else if c == 'o' then 5 else 6;
  }

  lemma StandardThere(m: string, i: nat)
    requires i < |m| && S.IsStandard(m[i])
    ensures EvalLeaf(Substitutions, m, i) == Yes(i + 1, StdEffect(S.StandardText(m[i])))
    ensures S.StandardText(m[i]) == "" <==> m[i] == 't'
  {
    var j := StandardEntry(m[i]);
    hide SUBSTITUTIONS, S.StandardText;
    StandardEntries(j);
    FindHits(SUBSTITUTIONS, 0, p => FitsSubstitution(m, i, p), j);
    var f := Find(SUBSTITUTIONS, 0, p => FitsSubstitution(m, i, p));
    StandardEntries(f);
  }

  // ---------------------------------------------------------------- more ways to put together

  /** The n-th alternative decides when those before it are dead. */
  lemma Alone(f: Function, n: nat, m: string, i: nat, e: nat, v: View, v': View, w: bool)
    requires i + Needs(f) <= |m| && n < |Body(f)| && forall j :: 0 <= j < n ==> Dead(f, j, m, i)
    requires Spoken(EvalAlt(f, n, m, i), e, v, v', w)
    ensures Says(f, m, i, e, v, v', w)
  {
    hide Body, Dead, EvalAlt, Shown, Shuts;
    Decides(f, n, m, i);
  }

  lemma TokenSpoken(f: Function, k: nat, s: Step, m: string, i: nat, e: nat, eff: Effect, v: View, v': View, w: bool)
    requires i <= |m| && k < |Body(f)| && Body(f)[k] == Token(s, "") && IsLeaf(s) && EvalLeaf(s, m, i) == Yes(e, eff)
    requires Spoken(Yes(e, eff), e, v, v', w)
    ensures Spoken(EvalAlt(f, k, m, i), e, v, v', w)
  {
    hide Body, EvalLeaf, Shown, Shuts, Forwards;
    NoLeftRecursion(f, k);
  }

  lemma NestedSpoken(p: Parse, e: nat, u: View, v': View, w: bool)
    requires Spoken(p, e, u.(nest := 0), v', w)
    ensures Spoken(Within(p), e, u, v'.(nest := u.nest), w)
  {}

  lemma DoesNested(f: Function, m: string, i: nat, e: nat, u: View, v': View, w: bool)
    requires Says(f, m, i, e, u.(nest := 0), v', w)
    ensures Does(Nested(f), m, i, e, u, v'.(nest := u.nest), w)
  {
    hide Eval, Spoken, Forwards, Sound, Fine, Within;
    BelowTop(Nested(f));
    NestedIs(f, m, i);
    NestedSpoken(Eval(f, m, i), e, u, v', w);
  }

  lemma NestedIs(f: Function, m: string, i: nat)
    requires i <= |m| && Rank(f) < TOP
    ensures EvalStep(Nested(f), m, i, TOP) == Within(Eval(f, m, i))
  {
    hide Eval, Forwards, Sound, Fine, Rank, Within;
  }

  // ---------------------------------------------------------------- operator names

  lemma ThenSpoken(a: Effect, b: Effect, e: nat, v: View, v1: View, v2: View, w1: bool, w2: bool)
    requires Spoken(Yes(e, a), e, v, v1, w1) && Spoken(Yes(e, b), e, v1, v2, w2)
    ensures Spoken(Yes(e, Then(a, b)), e, v, v2, w1 || w2)
  {}

  lemma EmitSpoken(str: string, e: nat, v: View)
    ensures Spoken(Yes(e, Emit(str)), e, v, Add(v, str), str != "") && Spoken(Yes(e, Skip), e, v, v, false)
  {
    AddKeeps(v, str);
    hide Add;
  }

  lemma OperatorEffectSpoken(text: string, e: nat, v: View)
    requires text != ""
    ensures Spoken(Yes(e, OperatorEffect(text)), e, v, S.PrintSymbol(text, v), true)
  {
    hide Add, Spoken;
    var w := Add(v, "operator");
    var gap := if IsLower(At(text, 0)) then Emit(" ") else Skip;
    var u := if IsLower(At(text, 0)) then Add(w, " ") else w;
    EmitSpoken("operator", e, v);
    EmitSpoken(" ", e, w);
    EmitSpoken(text, e, u);
    ThenSpoken(Emit("operator"), gap, e, v, w, u, true, gap != Skip);
    ThenSpoken(Then(Emit("operator"), gap), Emit(text), e, v, u, Add(u, text), true, true);
  }

  lemma SymbolRule(m: string, i: nat, v: View)
    requires i + 1 < |m| && S.OperatorText(m[i], m[i + 1]) != ""
    ensures Says(OperatorName, m, i, i + 2, v, S.PrintSymbol(S.OperatorText(m[i], m[i + 1]), v), true)
  {
    var text := S.OperatorText(m[i], m[i + 1]);
    OperatorLetters(m[i], m[i + 1]);
    hide S.OperatorText, EvalLeaf, EvalAlt, Spoken, AltFails, Says, OperatorEffect, S.PrintSymbol;
    OperatorThere(m, i);
    OperatorEffectSpoken(text, i + 2, v);
    TokenSpoken(OperatorName, 2, Operators, m, i, i + 2, OperatorEffect(text), v, S.PrintSymbol(text, v), true);
    NoCast(m, i);
    BySight(OperatorName, 1, m, i);
    Choose(OperatorName, 2, m, i, i + 2, v, S.PrintSymbol(text, v));
  }

  lemma OperatorLetters(a: char, b: char)
    requires S.OperatorText(a, b) != ""
    ensures a != 'v' && !(a == 'c' && b == 'v')
  {}

  lemma NoCast(m: string, i: nat)
    requires i <= |m| && !Has2(m, i, 'c', 'v')
    ensures AltFails(OperatorName, 0, m, i)
  {
    hide EvalLeaf, EvalAlt, EvalStep;
    assert EvalLeaf(Two('c', 'v'), m, i) == No(i, Skip) by { TwoNotThere('c', 'v', m, i); }
    LeafStep(Two('c', 'v'), m, i);
    CopyFails(OperatorName, 0, Two('c', 'v'), [Say("operator "), Nested(Type)], m, i);
  }

  lemma TwoNotThere(c: char, d: char, m: string, i: nat)
    requires i <= |m| && !Has2(m, i, c, d)
    ensures EvalLeaf(Two(c, d), m, i) == No(i, Skip)
  {}

  lemma CastRule(m: string, i: nat, e: nat, v: View, v': View)
    requires Has2(m, i, 'c', 'v') && Says(Type, m, i + 2, e, Add(v, "operator ").(nest := 0), v', true)
    ensures Says(OperatorName, m, i, e, v, v'.(nest := v.nest), true)
  {
    hide Says, Does, Goes, Spoken, Add, EvalAlt;
    var rest := [Say("operator "), Nested(Type)];
    var w, end := Add(v, "operator "), v'.(nest := v.nest);
    AddKeeps(v, "operator ");
    SaysWithin(Type, m, i + 2, e, w.(nest := 0), v', true);
    GoesEnd(rest, m, e, end);
    DoesNested(Type, m, i + 2, e, w, v', true);
    GoesOn(rest, 1, m, i + 2, e, w, end, true, e, end, false);
    DoesSay("operator ", m, i + 2, v);
    GoesOn(rest, 0, m, i + 2, i + 2, v, w, true, e, end, true);
    DoesTwo('c', 'v', m, i, v);
    CopySpoken(OperatorName, 0, Two('c', 'v'), rest, m, i, i + 2, v, v, false, e, end, true);
    Choose(OperatorName, 0, m, i, e, v, end);
  }

  lemma VendorRule(m: string, i: nat, id: string, v: View)
    requires Has(m, i, 'v') && IsDigit(At(m, i + 1)) && S.GoodId(id) && HasAt(m, i + 2, S.Counted(id))
    ensures Says(OperatorName, m, i, i + 2 + |S.Counted(id)|, v, Add(v, S.IdText(id)), true)
  {
    hide Says, Does, Goes, Spoken, Add, EvalAlt, S.Counted, S.IdText, S.GoodId, HasAt, AltFails;
    var rest := [Class("0123456789"), Call(SourceName)];
    var e, w := i + 2 + |S.Counted(id)|, Add(v, S.IdText(id));
    IsInside(m, i + 2, S.Counted(id));
    SourceNameRule(m, i + 2, id, v);
    DoesCall(SourceName, m, i + 2, e, v, w, true);
    GoesEnd(rest, m, e, w);
    GoesOn(rest, 1, m, i + 2, e, v, w, true, e, w, false);
    DigitsAre(m[i + 1]);
    DoesClass("0123456789", m, i + 1, v);
    GoesOn(rest, 0, m, i + 1, i + 2, v, v, false, e, w, true);
    DoesChar('v', m, i, v);
    CopySpoken(OperatorName, 1, Char('v'), rest, m, i, i + 1, v, v, false, e, w, true);
    NoCast(m, i);
    Choose(OperatorName, 1, m, i, e, v, w);
  }

  lemma DigitsAre(c: char)
    requires IsDigit(c)
    ensures c in "0123456789" && c != '\0'
  {}

  // ---------------------------------------------------------------- unqualified names

  /** An alternative that is another function, when those before it do not even start. */
  lemma JustRule(f: Function, k: nat, g: Function, m: string, i: nat, e: nat, v: View, v': View, w: bool)
    requires Plain(f) && Needs(f) == 0 && k < |Body(f)| && Body(f)[k] == Just(g) && Says(g, m, i, e, v, v', w)
    requires forall j :: 0 <= j < k ==> !AltStarts(Body(f)[j], At(m, i))
    ensures Says(f, m, i, e, v, v', w)
  {
    hide Body, Spoken, Dead, AltStarts, EvalAlt, Eval;
    JustSpoken(f, k, g, m, i, e, v, v', w);
    forall j | 0 <= j < k ensures Dead(f, j, m, i) { DeadBySight(f, j, m, i); }
    Alone(f, k, m, i, e, v, v', w);
  }

  lemma DoesPrev(m: string, i: nat, v: View)
    requires i <= |m|
    ensures Does(SayPrev, m, i, i, v, Add(v, v.last), v.last != "")
  {
    hide EvalStep, Add;
    BelowTop(SayPrev);
    LeafStep(SayPrev, m, i);
    AddKeeps(v, v.last);
  }

  lemma CtorRule(m: string, i: nat, v: View)
    requires Has(m, i, 'C') && '1' <= At(m, i + 1) <= '3'
    ensures Says(CtorDtorName, m, i, i + 2, v, Add(v, v.last), v.last != "")
  {
    hide Says, Does, Goes, Spoken, Add, EvalAlt;
    var rest := [Class("123"), SayPrev];
    var w := Add(v, v.last);
    GoesEnd(rest, m, i + 2, w);
    DoesPrev(m, i + 2, v);
    GoesOn(rest, 1, m, i + 2, i + 2, v, w, v.last != "", i + 2, w, false);
    DoesClass("123", m, i + 1, v);
    GoesOn(rest, 0, m, i + 1, i + 2, v, v, false, i + 2, w, v.last != "");
    DoesChar('C', m, i, v);
    CopySpoken(CtorDtorName, 0, Char('C'), rest, m, i, i + 1, v, v, false, i + 2, w, v.last != "");
    Alone(CtorDtorName, 0, m, i, i + 2, v, w, v.last != "");
  }

  lemma TildeKeeps(v: View)
    ensures Add(v, "~").last == v.last
  {}

  lemma DtorRule(m: string, i: nat, v: View)
    requires Has(m, i, 'D') && '0' <= At(m, i + 1) <= '2'
    ensures Says(CtorDtorName, m, i, i + 2, v, Add(Add(v, "~"), v.last), true)
  {
    TildeKeeps(v);
    hide Says, Does, Goes, Spoken, Add, EvalAlt, AltFails;
    var rest := [Class("012"), Say("~"), SayPrev];
    var u := Add(v, "~");
    var w := Add(u, v.last);
    GoesEnd(rest, m, i + 2, w);
    DoesPrev(m, i + 2, u);
    GoesOn(rest, 2, m, i + 2, i + 2, u, w, v.last != "", i + 2, w, false);
    DoesSay("~", m, i + 2, v);
    GoesOn(rest, 1, m, i + 2, i + 2, v, u, true, i + 2, w, v.last != "");
    DoesClass("012", m, i + 1, v);
    GoesOn(rest, 0, m, i + 1, i + 2, v, v, false, i + 2, w, true);
    DoesChar('D', m, i, v);
    CopySpoken(CtorDtorName, 1, Char('D'), rest, m, i, i + 1, v, v, false, i + 2, w, true);
    BySight(CtorDtorName, 0, m, i);
    Choose(CtorDtorName, 1, m, i, i + 2, v, w);
  }

  lemma LocalSourceRule(m: string, i: nat, id: string, d: Option<S.Num>, v: View)
    requires Has(m, i, 'L') && S.GoodId(id) && HasAt(m, i + 1, S.Counted(id))
    requires var at := i + 1 + |S.Counted(id)|;
      at <= |m| && HasAt(m, at, S.DiscText(d)) && !S.ShunsAfter(d, At(m, at + |S.DiscText(d)|))
    ensures Says(LocalSourceName, m, i, i + 1 + |S.Counted(id)| + |S.DiscText(d)|, v, Add(v, S.IdText(id)), true)
  {
    hide Says, Does, Goes, Spoken, Add, EvalAlt, S.Counted, S.IdText, S.GoodId, HasAt, S.DiscText, S.ShunsAfter;
    var rest := [Call(SourceName), Opt(Discriminator)];
    var at, w := i + 1 + |S.Counted(id)|, Add(v, S.IdText(id));
    var e := at + |S.DiscText(d)|;
    IsInside(m, at, S.DiscText(d));
    GoesEnd(rest, m, e, w);
    DoesDiscriminator(m, at, d, w);
    GoesOn(rest, 1, m, at, e, w, w, false, e, w, false);
    SourceNameRule(m, i + 1, id, v);
    DoesCall(SourceName, m, i + 1, at, v, w, true);
    GoesOn(rest, 0, m, i + 1, at, v, w, true, e, w, false);
    DoesChar('L', m, i, v);
    CopySpoken(LocalSourceName, 0, Char('L'), rest, m, i, i + 1, v, v, false, e, w, true);
    Choose(LocalSourceName, 0, m, i, e, v, w);
  }

  // ---------------------------------------------------------------- unscoped names

  lemma StdRule(m: string, i: nat, e: nat, v: View, v': View, w: bool)
    requires Has2(m, i, 'S', 't') && Says(UnqualifiedName, m, i + 2, e, Add(v, "std::"), v', w)
    ensures Says(UnscopedName, m, i, e, v, v', true)
  {
    hide Says, Does, Goes, Spoken, Add, EvalAlt, AltFails;
    var rest, u := [Say("std::"), Call(UnqualifiedName)], Add(v, "std::");
    SaysWithin(UnqualifiedName, m, i + 2, e, u, v', w);
    GoesEnd(rest, m, e, v');
    DoesCall(UnqualifiedName, m, i + 2, e, u, v', w);
    GoesOn(rest, 1, m, i + 2, e, u, v', w, e, v', false);
    DoesSay("std::", m, i + 2, v);
    GoesOn(rest, 0, m, i + 2, i + 2, v, u, true, e, v', w);
    DoesTwo('S', 't', m, i, v);
    CopySpoken(UnscopedName, 1, Two('S', 't'), rest, m, i, i + 2, v, v, false, e, v', true);
    BySight(UnscopedName, 0, m, i);
    Choose(UnscopedName, 1, m, i, e, v, v');
  }

  // ---------------------------------------------------------------- lists

  lemma ManyEnd(f: Function, m: string, i: nat)
    requires i <= |m| && Fails(Eval(f, m, i))
    ensures ReadsTo(EvalMany(f, m, i), i)
  {
    hide Eval, EvalMany;
    ManyStep(f, m, i, 0);
  }

  lemma ManyOn(f: Function, m: string, i: nat, e1: nat, e: nat)
    requires i <= |m| && e1 <= |m| && ReadsTo(Eval(f, m, i), e1) && ReadsTo(EvalMany(f, m, e1), e)
    ensures ReadsTo(EvalMany(f, m, i), e) && ReadsTo(EvalOneOrMore(f, m, i), e)
  {
    hide Eval, EvalMany, EvalOneOrMore, Balanced;
    ManyStep(f, m, i, 0);
    OneOrMoreStep(f, m, i, 0);
  }

  lemma DoesQuietTypes(m: string, i: nat, e: nat, v: View)
    requires i <= |m| && ReadsTo(EvalOneOrMore(Type, m, i), e)
    ensures Does(QuietTypes, m, i, e, v, v, false)
  {
    hide EvalOneOrMore, Forwards, Spoken, Balanced, Neutral;
    BelowTop(QuietTypes);
    SilenceSpoken(EvalOneOrMore(Type, m, i), e, v);
  }

  lemma ArgumentsThere(m: string, i: nat, e: nat)
    requires Has(m, i, 'I') && ReadsTo(EvalOneOrMore(TemplateArg, m, i + 1), e) && Has(m, e, 'E')
    ensures ReadsTo(EvalArguments(m, i), e + 1)
  {
    hide EvalOneOrMore, Forwards, Balanced, Neutral;
  }

  lemma DoesQuietArgs(m: string, i: nat, e: nat, v: View)
    requires i <= |m| && ReadsTo(EvalArguments(m, i), e)
    ensures Does(QuietArgs, m, i, e, v, v, false)
  {
    hide EvalArguments, Forwards, Spoken, Balanced, Neutral;
    BelowTop(QuietArgs);
    SilenceSpoken(EvalArguments(m, i), e, v);
  }

  lemma ParametersRule(m: string, i: nat, e: nat, v: View)
    requires i <= |m| && e <= |m| && ReadsTo(EvalOneOrMore(Type, m, i), e)
    ensures Says(BareFunctionType, m, i, e, v, Add(v, "()"), true)
  {
    hide Says, Does, Goes, Spoken, Add, EvalAlt, EvalOneOrMore;
    var rest := [Say("()")];
    GoesEnd(rest, m, e, Add(v, "()"));
    DoesSay("()", m, e, v);
    GoesOn(rest, 0, m, e, e, v, Add(v, "()"), true, e, Add(v, "()"), false);
    DoesQuietTypes(m, i, e, v);
    CopySpoken(BareFunctionType, 0, QuietTypes, rest, m, i, e, v, v, false, e, Add(v, "()"), true);
    Choose(BareFunctionType, 0, m, i, e, v, Add(v, "()"));
  }

  lemma ArgumentsRule(m: string, i: nat, e: nat, v: View)
    requires Has(m, i, 'I') && ReadsTo(EvalOneOrMore(TemplateArg, m, i + 1), e) && Has(m, e, 'E')
    ensures Says(TemplateArgs, m, i, e + 1, v, Add(v, "<>"), true)
  {
    hide Says, Does, Goes, Spoken, Add, EvalAlt, EvalOneOrMore, EvalArguments;
    var rest := [Say("<>")];
    GoesEnd(rest, m, e + 1, Add(v, "<>"));
    DoesSay("<>", m, e + 1, v);
    GoesOn(rest, 0, m, e + 1, e + 1, v, Add(v, "<>"), true, e + 1, Add(v, "<>"), false);
    ArgumentsThere(m, i, e);
    DoesQuietArgs(m, i, e + 1, v);
    CopySpoken(TemplateArgs, 0, QuietArgs, rest, m, i, e + 1, v, v, false, e + 1, Add(v, "<>"), true);
    Choose(TemplateArgs, 0, m, i, e + 1, v, Add(v, "<>"));
  }

  // ---------------------------------------------------------------- substitutions and template parameters

  /** A token on its own that is followed by "?". */
  lemma MarkSpoken(f: Function, k: nat, s: Step, m: string, i: nat, e: nat, v: View)
    requires i <= |m| && k < |Body(f)| && Body(f)[k] == Token(s, "?") && IsLeaf(s) && EvalLeaf(s, m, i) == Yes(e, Skip)
    ensures Spoken(EvalAlt(f, k, m, i), e, v, Add(v, "?"), true)
  {
    hide Body, EvalLeaf, Forwards, Add;
    NoLeftRecursion(f, k);
    AddKeeps(v, "?");
  }

  lemma TokenFails(f: Function, k: nat, s: Step, say: string, m: string, i: nat)
    requires i <= |m| && k < |Body(f)| && Body(f)[k] == Token(s, say) && IsLeaf(s) && Fails(EvalLeaf(s, m, i))
    ensures AltFails(f, k, m, i)
  {
    hide Body, EvalLeaf, Forwards;
    NoLeftRecursion(f, k);
  }

  lemma TwoFails(f: Function, k: nat, c: char, d: char, rest: seq<Step>, m: string, i: nat)
    requires i <= |m| && k < |Body(f)| && Body(f)[k] == Copy(Two(c, d), rest) && !Has2(m, i, c, d)
    ensures AltFails(f, k, m, i)
  {
    hide Body, EvalLeaf, EvalAlt, EvalStep;
    TwoNotThere(c, d, m, i);
    LeafStep(Two(c, d), m, i);
    CopyFails(f, k, Two(c, d), rest, m, i);
  }

  lemma SeqIdThere(m: string, i: nat, id: string)
    requires HasAt(m, i, id) && Has(m, i + |id|, '_') && id != ""
    requires forall j :: 0 <= j < |id| ==> IsDigit(id[j]) || 'A' <= id[j] <= 'Z'
    ensures EvalLeaf(SeqId, m, i) == Yes(i + |id|, Skip) && IsBase36(At(m, i))
  {
    assert m[i..i + |id|] == id;
    forall j | i <= j < i + |id| ensures IsBase36(m[j]) { assert m[j] == m[i..i + |id|][j - i] == id[j - i]; }
    RunEndsAt(m, i, i + |id|, IsBase36);
    hide RunEnd;
  }

  lemma NoSeqId(m: string, i: nat)
    requires i <= |m| && !IsBase36(At(m, i))
    ensures Fails(EvalStep(SeqId, m, i, TOP))
  {
    RunEndsAt(m, i, i, IsBase36);
    hide RunEnd, EvalStep;
    LeafStep(SeqId, m, i);
  }

  lemma BackReferenceRule(m: string, i: nat, v: View)
    requires Has2(m, i, 'S', '_')
    ensures Says(Substitution, m, i, i + 2, v, Add(v, "?"), true)
  {
    hide Spoken, Add, EvalAlt;
    MarkSpoken(Substitution, 0, Two('S', '_'), m, i, i + 2, v);
    Choose(Substitution, 0, m, i, i + 2, v, Add(v, "?"));
  }

  lemma NumberedRule(m: string, i: nat, id: string, v: View)
    requires Has(m, i, 'S') && HasAt(m, i + 1, id) && Has(m, i + 1 + |id|, '_') && id != ""
    requires forall j :: 0 <= j < |id| ==> IsDigit(id[j]) || 'A' <= id[j] <= 'Z'
    ensures Says(Substitution, m, i, i + 2 + |id|, v, Add(v, "?"), true)
  {
    hide Says, Does, Goes, Spoken, Add, EvalAlt, EvalLeaf, AltFails;
    var rest := [SeqId, Char('_'), Say("?")];
    var at, e := i + 1 + |id|, i + 2 + |id|;
    var w := Add(v, "?");
    GoesEnd(rest, m, e, w);
    DoesSay("?", m, e, v);
    GoesOn(rest, 2, m, e, e, v, w, true, e, w, false);
    DoesChar('_', m, at, v);
    GoesOn(rest, 1, m, at, e, v, v, false, e, w, true);
    SeqIdThere(m, i + 1, id);
    DoesLeaf(SeqId, m, i + 1, at, v);
    GoesOn(rest, 0, m, i + 1, at, v, v, false, e, w, true);
    DoesChar('S', m, i, v);
    CopySpoken(Substitution, 1, Char('S'), rest, m, i, i + 1, v, v, false, e, w, true);
    TwoNotThere('S', '_', m, i);
    TokenFails(Substitution, 0, Two('S', '_'), "?", m, i);
    Choose(Substitution, 1, m, i, e, v, w);
  }

  lemma StdEffectSpoken(c: char, e: nat, v: View)
    requires S.StandardText(c) == "" <==> c == 't'
    ensures Spoken(Yes(e, StdEffect(S.StandardText(c))), e, v, S.PrintSubstitute(S.Standard(c), v), true)
  {
    hide S.StandardText, Add, Spoken;
    var name, w := S.StandardText(c), Add(v, "std");
    EmitSpoken("std", e, v);
    if name != "" {
      EmitSpoken("::", e, w);
      EmitSpoken(name, e, Add(w, "::"));
      ThenSpoken(Emit("std"), Emit("::"), e, v, w, Add(w, "::"), true, true);
      ThenSpoken(Then(Emit("std"), Emit("::")), Emit(name), e, v, Add(w, "::"), Add(Add(w, "::"), name), true, true);
    }
  }

  lemma StandardRule(m: string, i: nat, v: View)
    requires Has(m, i, 'S') && S.IsStandard(At(m, i + 1))
    ensures Says(Substitution, m, i, i + 2, v, S.PrintSubstitute(S.Standard(At(m, i + 1)), v), true)
  {
    hide Spoken, EvalAlt, S.PrintSubstitute, AltFails;
    StandardIsLower(At(m, i + 1));
    StandardAlternative(m, i, v);
    NotNumbered(m, i);
    Choose(Substitution, 2, m, i, i + 2, v, S.PrintSubstitute(S.Standard(At(m, i + 1)), v));
  }

  lemma StandardAlternative(m: string, i: nat, v: View)
    requires Has(m, i, 'S') && S.IsStandard(At(m, i + 1))
    ensures Spoken(EvalAlt(Substitution, 2, m, i), i + 2, v, S.PrintSubstitute(S.Standard(At(m, i + 1)), v), true)
  {
    hide Says, Does, Goes, Spoken, EvalAlt, S.IsStandard, S.PrintSubstitute;
    ShortString(m, i);
    var w := S.PrintSubstitute(S.Standard(At(m, i + 1)), v);
    DoesStandard(m, i + 1, v);
    DoesChar('S', m, i, v);
    LastInChain(Substitutions, m, i + 1, i + 2, v, w, true);
    CopySpoken(Substitution, 2, Char('S'), [Substitutions], m, i, i + 1, v, v, false, i + 2, w, true);
  }

  lemma ShortString(m: string, i: nat)
    requires S.IsStandard(At(m, i + 1))
    ensures i + 1 < |m|
  {}

  /** A chain of one step. */
  lemma LastInChain(s: Step, m: string, i: nat, e: nat, v: View, v': View, w: bool)
    requires Does(s, m, i, e, v, v', w) && e <= |m|
    ensures Goes([s], 0, m, i, e, v, v', w)
  {
    hide Does, Goes;
    GoesEnd([s], m, e, v');
    GoesOn([s], 0, m, i, e, v, v', w, e, v', false);
  }

  lemma StandardIsLower(c: char)
    requires S.IsStandard(c)
    ensures IsLower(c)
  {}

  lemma DoesStandard(m: string, i: nat, v: View)
    requires i < |m| && S.IsStandard(m[i])
    ensures Does(Substitutions, m, i, i + 1, v, S.PrintSubstitute(S.Standard(m[i]), v), true)
  {
    hide EvalLeaf, EvalStep, Spoken, S.IsStandard, S.PrintSubstitute, S.StandardText;
    StandardThere(m, i);
    StdEffectSpoken(m[i], i + 1, v);
    BelowTop(Substitutions);
    LeafStep(Substitutions, m, i);
  }

  lemma NotNumbered(m: string, i: nat)
    requires Has(m, i, 'S') && IsLower(At(m, i + 1))
    ensures AltFails(Substitution, 0, m, i) && AltFails(Substitution, 1, m, i)
  {
    hide EvalAlt, EvalLeaf, EvalStep, EvalSteps, AltFails;
    TwoNotThere('S', '_', m, i);
    TokenFails(Substitution, 0, Two('S', '_'), "?", m, i);
    var rest := [SeqId, Char('_'), Say("?")];
    NoSeqId(m, i + 1);
    ChainFailsNow(rest, 0, m, i + 1);
    CharStep('S', m, i, TOP);
    CopyFailsLater(Substitution, 1, Char('S'), rest, m, i, i + 1);
  }

  lemma FirstParamRule(m: string, i: nat, v: View)
    requires Has2(m, i, 'T', '_')
    ensures Says(TemplateParam, m, i, i + 2, v, Add(v, "?"), true)
  {
    hide Spoken, Add, EvalAlt;
    MarkSpoken(TemplateParam, 0, Two('T', '_'), m, i, i + 2, v);
    Choose(TemplateParam, 0, m, i, i + 2, v, Add(v, "?"));
  }

  lemma ParamRule(m: string, i: nat, n: S.Num, v: View)
    requires Has(m, i, 'T') && HasAt(m, i + 1, S.NumText(n)) && Has(m, i + 1 + |S.NumText(n)|, '_')
    ensures Says(TemplateParam, m, i, i + 2 + |S.NumText(n)|, v, Add(v, "?"), true)
  {
    hide Says, Does, Goes, Spoken, Add, EvalAlt, EvalLeaf, AltFails;
    var rest := [Number, Char('_'), Say("?")];
    var at, e := i + 1 + |S.NumText(n)|, i + 2 + |S.NumText(n)|;
    var w := Add(v, "?");
    GoesEnd(rest, m, e, w);
    DoesSay("?", m, e, v);
    GoesOn(rest, 2, m, e, e, v, w, true, e, w, false);
    DoesChar('_', m, at, v);
    GoesOn(rest, 1, m, at, e, v, v, false, e, w, true);
    DoesNumber(m, i + 1, n, v);
    GoesOn(rest, 0, m, i + 1, at, v, v, false, e, w, true);
    DoesChar('T', m, i, v);
    CopySpoken(TemplateParam, 1, Char('T'), rest, m, i, i + 1, v, v, false, e, w, true);
    NumberFirst(m, i + 1, n);
    TwoNotThere('T', '_', m, i);
    TokenFails(TemplateParam, 0, Two('T', '_'), "?", m, i);
    Choose(TemplateParam, 1, m, i, e, v, w);
  }

  /** A number starts with a digit, or with 'n' and a digit. */
  lemma NumberFirst(m: string, i: nat, n: S.Num)
    requires HasAt(m, i, S.NumText(n))
    ensures i < |m| && (IsDigit(m[i]) || m[i] == 'n') && (IsDigit(S.NumText(n)[0]) || S.NumText(n)[0] == 'n')
  {
    hide Dec;
    assert m[i] == m[i..i + |S.NumText(n)|][0];
  }

  // ---------------------------------------------------------------- nested names

  predicate SaysPrefix(m: string, i: nat, has: bool, e: nat, v: View, v': View, w: bool) {
    i <= |m| && Spoken(EvalPrefix(m, i, has), e, v, v', w)
  }

  predicate SaysComponent(m: string, i: nat, e: nat, v: View, v': View, w: bool) {
    i <= |m| && Spoken(EvalComponent(m, i), e, v, v', w)
  }

  lemma ComponentIs(m: string, i: nat)
    requires i <= |m|
    ensures EvalComponent(m, i) ==
      var p := Eval(TemplateParam, m, i);
      if p.Rewinds? || p.Ok() then p
      else
        var q := Eval(Substitution, m, i);
        if q.Rewinds? then Rewinds else Else(p, if q.Ok() then q else Else(q, Eval(UnscopedName, m, i)))
  {
    hide Eval, Forwards, Sound, Fine;
  }

  lemma ParamComponent(m: string, i: nat, e: nat, v: View, v': View, w: bool)
    requires Says(TemplateParam, m, i, e, v, v', w)
    ensures SaysComponent(m, i, e, v, v', w)
  {
    hide Eval, EvalComponent;
    ComponentIs(m, i);
  }

  lemma SubstituteComponent(m: string, i: nat, e: nat, v: View, v': View, w: bool)
    requires Says(Substitution, m, i, e, v, v', w) && Has(m, i, 'S')
    ensures SaysComponent(m, i, e, v, v', w)
  {
    hide Eval, EvalComponent, Shown, Shuts;
    ComponentIs(m, i);
    NothingStarts(TemplateParam, m, i);
  }

  lemma NameComponent(m: string, i: nat, e: nat, v: View, v': View, w: bool)
    requires Says(UnscopedName, m, i, e, v, v', w) && At(m, i) != 'S' && At(m, i) != 'T'
    ensures SaysComponent(m, i, e, v, v', w)
  {
    hide Eval, EvalComponent, Shown, Shuts;
    ComponentIs(m, i);
    NothingStarts(TemplateParam, m, i);
    NothingStarts(Substitution, m, i);
  }

  lemma ThenIs(a: Effect, b: Effect, v: View, s: bool)
    ensures Shown(Then(a, b), v) == Shown(b, Shown(a, v))
    ensures Shuts(Then(a, b), v, s) == Shuts(b, Shown(a, v), Shuts(a, v, s))
  {}

  lemma EndsOfSlot(v: View, s: bool)
    ensures Shown(Separator, v) == Separating(v) && (s ==> Shuts(Separator, v, s))
    ensures Shown(Deeper, v) == v.(nest := Deepened(v.nest)) && Shuts(Deeper, v, s) == s
    ensures Separating(v).append == v.append
  {
    AddKeeps(v, "::");
  }

  lemma SlotSpoken(p: Parse, e: nat, v: View, v1: View, w: bool)
    requires Spoken(p, e, Separating(v), v1, w)
    ensures Spoken(SlotOf(p), e, v, v1.(nest := Deepened(v1.nest)), w)
  {
    hide Shown, Shuts, Add, Separating;
    var c := p.res.eff;
    EndsOfSlot(v, true);
    EndsOfSlot(v, false);
    ThenIs(Separator, c, v, true);
    ThenIs(Separator, c, v, false);
    EndsOfSlot(v1, true);
    EndsOfSlot(v1, false);
    ThenIs(Then(Separator, c), Deeper, v, true);
    ThenIs(Then(Separator, c), Deeper, v, false);
  }

  lemma PrefixOn(m: string, i: nat, has: bool, e1: nat, v: View, v1: View, w1: bool, e: nat, v': View, w2: bool)
    requires SaysComponent(m, i, e1, Separating(v), v1, w1)
    requires SaysPrefix(m, e1, true, e, v1.(nest := Deepened(v1.nest)), v', w2)
    ensures SaysPrefix(m, i, has, e, v, v', w1 || w2)
  {
    hide EvalComponent, EvalPrefix, Eval, Shown, Shuts, SlotOf;
    PrefixRound(m, i, has, 0);
    var p := EvalComponent(m, i);
    SlotSpoken(p, e1, v, v1, w1);
    AndSpoken(SlotOf(p), e1, v, v1.(nest := Deepened(v1.nest)), w1, EvalPrefix(m, e1, true), e, v', w2);
  }

  lemma NoComponent(m: string, i: nat)
    requires i <= |m| && (At(m, i) == 'E' || At(m, i) == 'I')
    ensures EvalComponent(m, i) == No(i, Skip)
  {
    hide Eval, EvalComponent;
    NothingStarts(TemplateParam, m, i);
    NothingStarts(Substitution, m, i);
    NothingStarts(UnscopedName, m, i);
    ComponentIs(m, i);
  }

  lemma BlankSpoken(e: nat, v: View)
    ensures Spoken(Yes(e, Blank(Skip)), e, v, v, false)
    ensures Spoken(Yes(e, Undo(Undo(Undo(Mute)))), e, v, v, false)
  {}

  lemma PrefixEnd(m: string, i: nat, has: bool, v: View)
    requires Has(m, i, 'E')
    ensures SaysPrefix(m, i, has, i, v, v, false)
  {
    hide EvalComponent, EvalPrefix, Eval, Spoken;
    PrefixRound(m, i, has, 0);
    NoComponent(m, i);
    NothingStarts(TemplateArgs, m, i);
    BlankSpoken(i, v);
    AndSpoken(Yes(i, Blank(Skip)), i, v, v, false, Yes(i, Undo(Undo(Undo(Mute)))), i, v, false);
  }

  lemma PrefixArgs(m: string, i: nat, e1: nat, v: View, v1: View, e: nat, v': View, w2: bool)
    requires Has(m, i, 'I') && Says(TemplateArgs, m, i, e1, v, v1, true) && SaysPrefix(m, e1, false, e, v1, v', w2)
    ensures SaysPrefix(m, i, true, e, v, v', true)
  {
    hide EvalComponent, EvalPrefix, Eval, Shown, Shuts;
    PrefixRound(m, i, true, 0);
    NoComponent(m, i);
    BlankSpoken(i, v);
    var q := Eval(TemplateArgs, m, i);
    AndSpoken(Yes(i, Blank(Skip)), i, v, v, false, q, e1, v1, true);
    AndSpoken(And(Yes(i, Blank(Skip)), q), e1, v, v1, true, EvalPrefix(m, e1, false), e, v', w2);
  }

  lemma QualifiersThere(m: string, i: nat, q: S.Quals)
    requires HasAt(m, i, S.MangledQuals(q)) && NoQualifier(At(m, i + |S.MangledQuals(q)|))
    ensures var t := S.MangledQuals(q);
      EvalLeaf(Qualifiers, m, i) == if t != "" then Yes(i + |t|, Skip) else No(i, Skip)
  {
    var t := S.MangledQuals(q);
    assert m[i..i + |t|] == t;
    assert forall j :: 0 <= j < |t| ==> m[i + j] == t[j];
  }

  predicate NoQualifier(c: char) { c != 'r' && c != 'V' && c != 'K' }

  lemma DoesPrefix(m: string, i: nat, q: S.Quals, e: nat, v: View, v': View, w: bool)
    requires HasAt(m, i, S.MangledQuals(q)) && NoQualifier(At(m, i + |S.MangledQuals(q)|))
    requires SaysPrefix(m, i + |S.MangledQuals(q)|, false, e, v.(nest := 0), v', w)
    ensures Does(NestedPrefix, m, i, e, v, v'.(nest := v.nest), w)
  {
    hide EvalPrefix, EvalLeaf, Spoken, S.MangledQuals, Forwards, Sound, HasAt;
    QualifiersThere(m, i, q);
    BelowTop(NestedPrefix);
    NestedSpoken(EvalPrefix(m, i + |S.MangledQuals(q)|, false), e, v, v', w);
  }

  lemma NestedRule(m: string, i: nat, q: S.Quals, e: nat, v: View, v': View)
    requires Has(m, i, 'N') && HasAt(m, i + 1, S.MangledQuals(q)) && NoQualifier(At(m, i + 1 + |S.MangledQuals(q)|))
    requires SaysPrefix(m, i + 1 + |S.MangledQuals(q)|, false, e, v.(nest := 0), v', true) && Has(m, e, 'E')
    ensures Says(Name, m, i, e + 1, v, v'.(nest := v.nest), true)
  {
    hide Says, Does, Goes, Spoken, EvalAlt, S.MangledQuals, HasAt, SaysPrefix, NoQualifier;
    var rest, w := [NestedPrefix, Char('E')], v'.(nest := v.nest);
    GoesEnd(rest, m, e + 1, w);
    DoesChar('E', m, e, w);
    GoesOn(rest, 1, m, e, e + 1, w, w, false, e + 1, w, false);
    DoesPrefix(m, i + 1, q, e, v, v', true);
    GoesOn(rest, 0, m, i + 1, e, v, w, true, e + 1, w, false);
    DoesChar('N', m, i, v);
    CopySpoken(NestedName, 0, Char('N'), rest, m, i, i + 1, v, v, false, e + 1, w, true);
    Choose(NestedName, 0, m, i, e + 1, v, w);
    JustRule(Name, 0, NestedName, m, i, e + 1, v, w, true);
  }

  // ---------------------------------------------------------------- names

  predicate NotNested(c: char) { c != 'N' && c != 'Z' }

  lemma TemplateRule(m: string, i: nat, e1: nat, v: View, v1: View, w1: bool, e: nat, v': View)
    requires Says(UnscopedTemplateName, m, i, e1, v, v1, w1) && Says(TemplateArgs, m, e1, e, v1, v', true)
    requires NotNested(At(m, i))
    ensures Says(Name, m, i, e, v, v', true)
  {
    hide Says, Does, Goes, Spoken, EvalAlt, AltFails;
    SaysWithin(TemplateArgs, m, e1, e, v1, v', true);
    DoesCall(TemplateArgs, m, e1, e, v1, v', true);
    LastInChain(Call(TemplateArgs), m, e1, e, v1, v', true);
    DoesCall(UnscopedTemplateName, m, i, e1, v, v1, w1);
    CopySpoken(Name, 2, Call(UnscopedTemplateName), [Call(TemplateArgs)], m, i, e1, v, v1, w1, e, v', true);
    BySight(Name, 0, m, i);
    BySight(Name, 1, m, i);
    Choose(Name, 2, m, i, e, v, v');
  }

  /** A name with no template arguments behind it. */
  lemma NoTemplate(m: string, i: nat, e: nat, v: View, v': View, w: bool)
    requires Says(UnscopedTemplateName, m, i, e, v, v', w) && At(m, e) != 'I'
    ensures AltFails(Name, 2, m, i)
  {
    hide Eval, Spoken, EvalAlt, EvalStep, EvalSteps, AltFails, Neutral, Balanced, Forwards;
    SaysWithin(UnscopedTemplateName, m, i, e, v, v', w);
    ArgumentsFail(m, e);
    CallIs(UnscopedTemplateName, m, i);
    CopyFailsLater(Name, 2, Call(UnscopedTemplateName), [Call(TemplateArgs)], m, i, e);
  }

  lemma ArgumentsFail(m: string, i: nat)
    requires i <= |m| && At(m, i) != 'I'
    ensures Fails(Eval(TemplateArgs, m, i)) && Fails(EvalSteps([Call(TemplateArgs)], 0, m, i))
  {
    hide Eval, EvalStep, EvalSteps;
    Unstarted(TemplateArgs, m, i);
    CallIs(TemplateArgs, m, i);
    ChainFailsNow([Call(TemplateArgs)], 0, m, i);
  }

  lemma UnscopedRule(m: string, i: nat, e: nat, v: View, v': View)
    requires Says(UnscopedName, m, i, e, v, v', true) && At(m, e) != 'I' && NotNested(At(m, i))
    ensures Says(Name, m, i, e, v, v', true)
  {
    hide Says, Spoken, EvalAlt, AltFails;
    SaysWithin(UnscopedName, m, i, e, v, v', true);
    JustRule(UnscopedTemplateName, 0, UnscopedName, m, i, e, v, v', true);
    NoTemplate(m, i, e, v, v', true);
    BySight(Name, 0, m, i);
    BySight(Name, 1, m, i);
    JustSpoken(Name, 3, UnscopedName, m, i, e, v, v', true);
    Choose(Name, 3, m, i, e, v, v');
  }

  /** At a substitution there is no unscoped name, unless "St" and an unqualified name follow. */
  lemma NoUnscoped(m: string, i: nat)
    requires Has(m, i, 'S') && !(Has(m, i + 1, 't') && S.UnqualifiedFirst(At(m, i + 2)))
    ensures Fails(Eval(UnscopedName, m, i))
  {
    hide Eval, EvalAlt, AltFails, S.UnqualifiedFirst;
    assert !S.UnqualifiedFirst('S') by { CapitalS(); }
    BySight(UnscopedName, 0, m, i);
    if Has(m, i + 1, 't') { NothingBehindStd(m, i); }
    else { TwoFails(UnscopedName, 1, 'S', 't', [Say("std::"), Call(UnqualifiedName)], m, i); }
    FromAlternatives(UnscopedName, m, i);
  }

  lemma CapitalS()
    ensures !S.UnqualifiedFirst('S')
  {}

  lemma NothingBehindStd(m: string, i: nat)
    requires Has2(m, i, 'S', 't') && !S.UnqualifiedFirst(At(m, i + 2))
    ensures AltFails(UnscopedName, 1, m, i)
  {
    hide Eval, EvalAlt, EvalStep, EvalSteps, AltFails, S.UnqualifiedFirst, EvalLeaf;
    var rest := [Say("std::"), Call(UnqualifiedName)];
    Unstarted(UnqualifiedName, m, i + 2);
    CallIs(UnqualifiedName, m, i + 2);
    ChainFailsNow(rest, 1, m, i + 2);
    SayReads("std::", m, i + 2);
    ChainFailsLater(rest, 0, m, i + 2, i + 2);
    TwoReads('S', 't', m, i);
    CopyFailsLater(UnscopedName, 1, Two('S', 't'), rest, m, i, i + 2);
  }

  lemma SayReads(str: string, m: string, i: nat)
    requires i <= |m|
    ensures ReadsTo(EvalStep(Say(str), m, i, TOP), i)
  {
    hide EvalStep;
    LeafStep(Say(str), m, i);
  }

  lemma TwoReads(c: char, d: char, m: string, i: nat)
    requires Has2(m, i, c, d)
    ensures ReadsTo(EvalStep(Two(c, d), m, i, TOP), i + 2)
  {
    hide EvalStep;
    LeafStep(Two(c, d), m, i);
  }

  lemma FromAlternatives(f: Function, m: string, i: nat)
    requires i <= |m| && forall j :: 0 <= j < |Body(f)| ==> AltFails(f, j, m, i)
    ensures Fails(Eval(f, m, i))
  {
    hide Body, EvalAlt, Eval;
    forall j | 0 <= j < |Body(f)| ensures Fails(EvalAlt(f, j, m, i)) { assert AltFails(f, j, m, i); }
    AllFail(f, m, i, 0);
  }

  lemma SubstituteTemplateName(m: string, i: nat, e: nat, v: View, v': View)
    requires Has(m, i, 'S') && Says(Substitution, m, i, e, v, v', true) && Fails(Eval(UnscopedName, m, i))
    ensures Says(UnscopedTemplateName, m, i, e, v, v', true)
  {
    hide Eval, Spoken, EvalAlt, AltFails;
    JustFails(UnscopedTemplateName, 0, UnscopedName, m, i);
    JustSpoken(UnscopedTemplateName, 1, Substitution, m, i, e, v, v', true);
    Choose(UnscopedTemplateName, 1, m, i, e, v, v');
  }

  // ---------------------------------------------------------------- local names

  lemma LocalRule(m: string, i: nat, e1: nat, v: View, v1: View, e2: nat, v2: View, d: Option<S.Num>)
    requires Has(m, i, 'Z') && Says(Encoding, m, i + 1, e1, v, v1, true) && Has(m, e1, 'E')
    requires Says(Name, m, e1 + 1, e2, Add(v1, "::"), v2, true)
    requires HasAt(m, e2, S.DiscText(d)) && !S.ShunsAfter(d, At(m, e2 + |S.DiscText(d)|))
    ensures Says(Name, m, i, e2 + |S.DiscText(d)|, v, v2, true)
  {
    hide Says, Does, Goes, Spoken, Add, EvalAlt, HasAt, S.DiscText, S.ShunsAfter;
    var rest := [Call(Encoding), Char('E'), Say("::"), Call(Name), Opt(Discriminator)];
    var e, u := e2 + |S.DiscText(d)|, Add(v1, "::");
    IsInside(m, e2, S.DiscText(d));
    GoesEnd(rest, m, e, v2);
    DoesDiscriminator(m, e2, d, v2);
    GoesOn(rest, 4, m, e2, e, v2, v2, false, e, v2, false);
    DoesCall(Name, m, e1 + 1, e2, u, v2, true);
    GoesOn(rest, 3, m, e1 + 1, e2, u, v2, true, e, v2, false);
    DoesSay("::", m, e1 + 1, v1);
    GoesOn(rest, 2, m, e1 + 1, e1 + 1, v1, u, true, e, v2, true);
    DoesChar('E', m, e1, v1);
    GoesOn(rest, 1, m, e1, e1 + 1, v1, v1, false, e, v2, true);
    DoesCall(Encoding, m, i + 1, e1, v, v1, true);
    GoesOn(rest, 0, m, i + 1, e1, v, v1, true, e, v2, true);
    DoesChar('Z', m, i, v);
    CopySpoken(LocalName, 0, Char('Z'), rest, m, i, i + 1, v, v, false, e, v2, true);
    Choose(LocalName, 0, m, i, e, v, v2);
    JustRule(Name, 1, LocalName, m, i, e, v, v2, true);
  }

  lemma LocalStringRule(m: string, i: nat, e1: nat, v: View, v1: View, d: Option<S.Num>)
    requires Has(m, i, 'Z') && Says(Encoding, m, i + 1, e1, v, v1, true) && Has2(m, e1, 'E', 's')
    requires HasAt(m, e1 + 2, S.DiscText(d)) && !S.ShunsAfter(d, At(m, e1 + 2 + |S.DiscText(d)|))
    requires Fails(Eval(Name, m, e1 + 1))
    ensures Says(Name, m, i, e1 + 2 + |S.DiscText(d)|, v, v1, true)
  {
    hide Says, Does, Goes, Spoken, Add, EvalAlt, HasAt, S.DiscText, S.ShunsAfter, AltFails, Fails;
    var rest := [Call(Encoding), Two('E', 's'), Opt(Discriminator)];
    var e := e1 + 2 + |S.DiscText(d)|;
    IsInside(m, e1 + 2, S.DiscText(d));
    GoesEnd(rest, m, e, v1);
    DoesDiscriminator(m, e1 + 2, d, v1);
    GoesOn(rest, 2, m, e1 + 2, e, v1, v1, false, e, v1, false);
    DoesTwo('E', 's', m, e1, v1);
    GoesOn(rest, 1, m, e1, e1 + 2, v1, v1, false, e, v1, false);
    DoesCall(Encoding, m, i + 1, e1, v, v1, true);
    GoesOn(rest, 0, m, i + 1, e1, v, v1, true, e, v1, false);
    DoesChar('Z', m, i, v);
    CopySpoken(LocalName, 1, Char('Z'), rest, m, i, i + 1, v, v, false, e, v1, true);
    NoEntity(m, i, e1, v, v1);
    Choose(LocalName, 1, m, i, e, v, v1);
    JustRule(Name, 1, LocalName, m, i, e, v, v1, true);
  }

  lemma NoEntity(m: string, i: nat, e1: nat, v: View, v1: View)
    requires Has(m, i, 'Z') && Says(Encoding, m, i + 1, e1, v, v1, true) && Has(m, e1, 'E')
    requires Fails(Eval(Name, m, e1 + 1))
    ensures AltFails(LocalName, 0, m, i)
  {
    hide Eval, EvalStep, EvalSteps, EvalAlt, AltFails, Spoken, Forwards, Neutral, Balanced;
    var rest := [Call(Encoding), Char('E'), Say("::"), Call(Name), Opt(Discriminator)];
    CallIs(Name, m, e1 + 1);
    ChainFailsNow(rest, 3, m, e1 + 1);
    SayReads("::", m, e1 + 1);
    ChainFailsLater(rest, 2, m, e1 + 1, e1 + 1);
    CharStep('E', m, e1, TOP);
    ChainFailsLater(rest, 1, m, e1, e1 + 1);
    CallReads(Encoding, m, i + 1, e1, v, v1, true);
    ChainFailsLater(rest, 0, m, i + 1, e1);
    CharStep('Z', m, i, TOP);
    CopyFailsLater(LocalName, 0, Char('Z'), rest, m, i, i + 1);
  }

  lemma CallReads(f: Function, m: string, i: nat, e: nat, v: View, v': View, w: bool)
    requires Says(f, m, i, e, v, v', w)
    ensures i <= |m| && e <= |m| && Below(Call(f), TOP) && ReadsTo(EvalStep(Call(f), m, i, TOP), e)
  {
    hide Eval, EvalStep, Shown, Shuts;
    SaysWithin(f, m, i, e, v, v', w);
    BelowTop(Call(f));
    CallIs(f, m, i);
  }

  // ---------------------------------------------------------------- where no operator name is

  lemma NoOperatorName(m: string, i: nat)
    requires i <= |m| && !S.OperatorFirst(At(m, i), At(m, i + 1))
    ensures Fails(Eval(OperatorName, m, i))
  {
    if i + 2 <= |m| {
      hide Eval, EvalAlt, AltFails, EvalLeaf, S.OperatorText;
      NoCast(m, i);
      NoVendor(m, i);
      NoOperatorThere(m, i);
      TokenFails(OperatorName, 2, Operators, "", m, i);
      FromAlternatives(OperatorName, m, i);
    }
  }

  lemma NoVendor(m: string, i: nat)
    requires i <= |m| && !(Has(m, i, 'v') && IsDigit(At(m, i + 1)))
    ensures AltFails(OperatorName, 1, m, i)
  {
    hide Eval, EvalAlt, AltFails, EvalLeaf, EvalStep, EvalSteps;
    if Has(m, i, 'v') {
      var rest := [Class("0123456789"), Call(SourceName)];
      assert Fails(EvalLeaf(Class("0123456789"), m, i + 1)) by { NotADigit(m, i + 1); }
      LeafStep(Class("0123456789"), m, i + 1);
      ChainFailsNow(rest, 0, m, i + 1);
      CharStep('v', m, i, TOP);
      CopyFailsLater(OperatorName, 1, Char('v'), rest, m, i, i + 1);
    } else {
      NotThisChar('v', m, i);
      CopyFails(OperatorName, 1, Char('v'), [Class("0123456789"), Call(SourceName)], m, i);
    }
  }

  lemma NotADigit(m: string, i: nat)
    requires i <= |m| && !IsDigit(At(m, i))
    ensures Fails(EvalLeaf(Class("0123456789"), m, i))
  {}

  lemma NotThisChar(c: char, m: string, i: nat)
    requires i <= |m| && !Has(m, i, c)
    ensures Fails(EvalStep(Char(c), m, i, TOP))
  {
    hide EvalStep;
    LeafStep(Char(c), m, i);
  }

  /** Behind "Es" there is no name, unless the 's' begins the operator name "st" or "sz". */
  lemma NoNameAtS(m: string, i: nat)
    requires Has(m, i, 's') && At(m, i + 1) != 't' && At(m, i + 1) != 'z'
    ensures Fails(Eval(Name, m, i))
  {
    hide Eval, EvalAlt, AltFails, S.OperatorText;
    assert !S.OperatorFirst('s', At(m, i + 1)) by { SizeOnly(At(m, i + 1)); }
    NoOperatorName(m, i);
    JustFails(UnqualifiedName, 0, OperatorName, m, i);
    BySight(UnqualifiedName, 1, m, i);
    BySight(UnqualifiedName, 2, m, i);
    BySight(UnqualifiedName, 3, m, i);
    FromAlternatives(UnqualifiedName, m, i);
    JustFails(UnscopedName, 0, UnqualifiedName, m, i);
    BySight(UnscopedName, 1, m, i);
    FromAlternatives(UnscopedName, m, i);
    NoNameOf(m, i);
  }

  lemma SizeOnly(c: char)
    requires c != 't' && c != 'z'
    ensures !S.OperatorFirst('s', c)
  {}

  lemma NoNameOf(m: string, i: nat)
    requires Has(m, i, 's') && Fails(Eval(UnscopedName, m, i))
    ensures Fails(Eval(Name, m, i))
  {
    hide Eval, EvalAlt, AltFails, EvalStep;
    JustFails(UnscopedTemplateName, 0, UnscopedName, m, i);
    BySight(UnscopedTemplateName, 1, m, i);
    FromAlternatives(UnscopedTemplateName, m, i);
    BySight(Name, 0, m, i);
    BySight(Name, 1, m, i);
    CallIs(UnscopedTemplateName, m, i);
    CopyFails(Name, 2, Call(UnscopedTemplateName), [Call(TemplateArgs)], m, i);
    JustFails(Name, 3, UnscopedName, m, i);
    FromAlternatives(Name, m, i);
  }

  // ---------------------------------------------------------------- encodings

  lemma FuncRule(m: string, i: nat, e1: nat, v: View, v1: View, e: nat)
    requires Says(Name, m, i, e1, v, v1, true) && e <= |m| && ReadsTo(EvalOneOrMore(Type, m, e1), e)
    ensures Says(Encoding, m, i, e, v, Add(v1, "()"), true)
  {
    hide Says, Does, Goes, Spoken, Add, EvalAlt, EvalOneOrMore, ReadsTo;
    SaysWithin(Name, m, i, e1, v, v1, true);
    ParametersRule(m, e1, e, v1);
    DoesCall(BareFunctionType, m, e1, e, v1, Add(v1, "()"), true);
    LastInChain(Call(BareFunctionType), m, e1, e, v1, Add(v1, "()"), true);
    DoesCall(Name, m, i, e1, v, v1, true);
    CopySpoken(Encoding, 0, Call(Name), [Call(BareFunctionType)], m, i, e1, v, v1, true, e, Add(v1, "()"), true);
    Choose(Encoding, 0, m, i, e, v, Add(v1, "()"));
  }

  lemma DataRule(m: string, i: nat, e: nat, v: View, v': View)
    requires Says(Name, m, i, e, v, v', true) && !S.TypeFirst(At(m, e))
    ensures Says(Encoding, m, i, e, v, v', true)
  {
    hide Eval, EvalAlt, EvalStep, EvalSteps, Spoken, AltFails, Neutral, Balanced, S.TypeFirst;
    CallReads(Name, m, i, e, v, v', true);
    Unstarted(BareFunctionType, m, e);
    CallIs(BareFunctionType, m, e);
    ChainFailsNow([Call(BareFunctionType)], 0, m, e);
    CopyFailsLater(Encoding, 0, Call(Name), [Call(BareFunctionType)], m, i, e);
    JustSpoken(Encoding, 1, Name, m, i, e, v, v', true);
    Choose(Encoding, 1, m, i, e, v, v');
  }

  lemma SpecialRule(m: string, i: nat, e: nat, v: View, v': View)
    requires Says(SpecialName, m, i, e, v, v', true) && (At(m, i) == 'T' || At(m, i) == 'G')
    ensures Says(Encoding, m, i, e, v, v', true)
  {
    hide Says, Spoken, EvalAlt, AltFails;
    SaysWithin(SpecialName, m, i, e, v, v', true);
    BySight(Encoding, 0, m, i);
    BySight(Encoding, 1, m, i);
    JustSpoken(Encoding, 2, SpecialName, m, i, e, v, v', true);
    Choose(Encoding, 2, m, i, e, v, v');
  }

  // ---------------------------------------------------------------- call offsets

  lemma VOffsetRule(m: string, i: nat, n: S.Num, vn: S.Num, v: View)
    requires HasAt(m, i, S.NumText(n)) && Has(m, i + |S.NumText(n)|, '_')
    requires var at := i + |S.NumText(n)| + 1; HasAt(m, at, S.NumText(vn)) && Has(m, at + |S.NumText(vn)|, '_')
    ensures Says(VOffset, m, i, i + |S.NumText(n)| + 1 + |S.NumText(vn)|, v, v, false)
  {
    hide Says, Does, Goes, Spoken, EvalAlt, S.NumText, HasAt;
    var rest, at := [Char('_'), Number], i + |S.NumText(n)|;
    var e := at + 1 + |S.NumText(vn)|;
    GoesEnd(rest, m, e, v);
    DoesNumber(m, at + 1, vn, v);
    GoesOn(rest, 1, m, at + 1, e, v, v, false, e, v, false);
    DoesChar('_', m, at, v);
    GoesOn(rest, 0, m, at, at + 1, v, v, false, e, v, false);
    DoesNumber(m, i, n, v);
    CopySpoken(VOffset, 0, Number, rest, m, i, at, v, v, false, e, v, false);
    Alone(VOffset, 0, m, i, e, v, v, false);
  }

  lemma DirectRule(m: string, i: nat, n: S.Num, v: View)
    requires Has(m, i, 'h') && HasAt(m, i + 1, S.NumText(n)) && Has(m, i + 1 + |S.NumText(n)|, '_')
    ensures Says(CallOffset, m, i, i + 2 + |S.NumText(n)|, v, v, false)
  {
    hide Says, Does, Goes, Spoken, EvalAlt, S.NumText, HasAt;
    var rest, at := [Number, Char('_')], i + 1 + |S.NumText(n)|;
    GoesEnd(rest, m, at + 1, v);
    DoesChar('_', m, at, v);
    GoesOn(rest, 1, m, at, at + 1, v, v, false, at + 1, v, false);
    DoesNumber(m, i + 1, n, v);
    GoesOn(rest, 0, m, i + 1, at, v, v, false, at + 1, v, false);
    DoesChar('h', m, i, v);
    CopySpoken(CallOffset, 0, Char('h'), rest, m, i, i + 1, v, v, false, at + 1, v, false);
    Alone(CallOffset, 0, m, i, at + 1, v, v, false);
  }

  lemma VirtualRule(m: string, i: nat, n: S.Num, vn: S.Num, v: View)
    requires Has(m, i, 'v') && HasAt(m, i + 1, S.NumText(n)) && Has(m, i + 1 + |S.NumText(n)|, '_')
    requires var at := i + 2 + |S.NumText(n)|; HasAt(m, at, S.NumText(vn)) && Has(m, at + |S.NumText(vn)|, '_')
    ensures Says(CallOffset, m, i, i + 3 + |S.NumText(n)| + |S.NumText(vn)|, v, v, false)
  {
    hide Says, Does, Goes, Spoken, EvalAlt, S.NumText, HasAt, Dead;
    var rest, at := [Call(VOffset), Char('_')], i + 2 + |S.NumText(n)| + |S.NumText(vn)|;
    GoesEnd(rest, m, at + 1, v);
    DoesChar('_', m, at, v);
    GoesOn(rest, 1, m, at, at + 1, v, v, false, at + 1, v, false);
    VOffsetRule(m, i + 1, n, vn, v);
    DoesCall(VOffset, m, i + 1, at, v, v, false);
    GoesOn(rest, 0, m, i + 1, at, v, v, false, at + 1, v, false);
    DoesChar('v', m, i, v);
    CopySpoken(CallOffset, 1, Char('v'), rest, m, i, i + 1, v, v, false, at + 1, v, false);
    DeadBySight(CallOffset, 0, m, i);
    Alone(CallOffset, 1, m, i, at + 1, v, v, false);
  }

  lemma OffsetRule(m: string, i: nat, o: S.Offset, v: View)
    requires HasAt(m, i, S.MangledOffset(o))
    ensures Says(CallOffset, m, i, i + |S.MangledOffset(o)|, v, v, false)
    ensures i < |m| && (m[i] == 'h' || m[i] == 'v')
  {
    hide Says, S.NumText;
    var t := S.MangledOffset(o);
    assert m[i..i + |t|] == t && m[i] == t[0];
    match o
    case Direct(n) =>
      Pieces3(m, i, "h", S.NumText(n), "_");
      DirectRule(m, i, n, v);
    case Virtual(n, vn) =>
      assert t == "v" + S.NumText(n) + ("_" + S.NumText(vn) + "_");
      Pieces3(m, i, "v", S.NumText(n), "_" + S.NumText(vn) + "_");
      Pieces3(m, i + 1 + |S.NumText(n)|, "_", S.NumText(vn), "_");
      VirtualRule(m, i, n, vn, v);
  }

  lemma Pieces3(m: string, i: nat, a: string, b: string, c: string)
    requires HasAt(m, i, a + b + c)
    ensures HasAt(m, i, a) && HasAt(m, i + |a|, b) && HasAt(m, i + |a| + |b|, c)
    ensures a != "" && a[0] != '\0' ==> Has(m, i, a[0])
    ensures b != "" && b[0] != '\0' ==> Has(m, i + |a|, b[0])
    ensures c != "" && c[0] != '\0' ==> Has(m, i + |a| + |b|, c[0])
  {
    assert a + b + c == a + (b + c);
    Pieces(m, i, a, b + c);
    Pieces(m, i + |a|, b, c);
  }

  lemma Pieces(m: string, i: nat, a: string, b: string)
    requires HasAt(m, i, a + b)
    ensures HasAt(m, i, a) && HasAt(m, i + |a|, b)
    ensures a != "" && a[0] != '\0' ==> Has(m, i, a[0])
    ensures b != "" && b[0] != '\0' ==> Has(m, i + |a|, b[0])
  {
    Halves(m, i, a, b);
    if a != "" { assert m[i] == m[i..i + |a|][0]; }
    if b != "" { assert m[i + |a|] == m[i + |a|..i + |a| + |b|][0]; }
  }

  // ---------------------------------------------------------------- special names

  /** An alternative that finds its first character, but not its second. */
  lemma ClassBehindFails(f: Function, k: nat, c: char, cs: string, rest: seq<Step>, m: string, i: nat)
    requires Has(m, i, c) && k < |Body(f)| && Body(f)[k] == Copy(Char(c), rest) && |rest| > 0 && rest[0] == Class(cs)
    requires At(m, i + 1) !in cs
    ensures AltFails(f, k, m, i)
  {
    hide Body, EvalAlt, EvalStep, EvalSteps, AltFails, EvalLeaf;
    ClassNotThere(cs, m, i + 1);
    LeafStep(Class(cs), m, i + 1);
    ChainFailsNow(rest, 0, m, i + 1);
    CharStep(c, m, i, TOP);
    CopyFailsLater(f, k, Char(c), rest, m, i, i + 1);
  }

  lemma ClassNotThere(cs: string, m: string, i: nat)
    requires i <= |m| && At(m, i) !in cs
    ensures Fails(EvalLeaf(Class(cs), m, i))
  {}

  lemma CallBehindFails(f: Function, k: nat, c: char, g: Function, rest: seq<Step>, m: string, i: nat)
    requires Has(m, i, c) && k < |Body(f)| && Body(f)[k] == Copy(Char(c), rest) && |rest| > 0 && rest[0] == Call(g)
    requires Fails(Eval(g, m, i + 1))
    ensures AltFails(f, k, m, i)
  {
    hide Body, EvalAlt, EvalStep, EvalSteps, AltFails, Eval;
    BelowTop(Call(g));
    CallIs(g, m, i + 1);
    ChainFailsNow(rest, 0, m, i + 1);
    CharStep(c, m, i, TOP);
    CopyFailsLater(f, k, Char(c), rest, m, i, i + 1);
  }

  /** The first alternatives of a special name that starts with 'T' and some other character. */
  lemma NotTypeData(m: string, i: nat)
    requires Has(m, i, 'T') && At(m, i + 1) !in "VTIS"
    ensures AltFails(SpecialName, 0, m, i) && AltFails(SpecialName, 2, m, i)
    ensures At(m, i + 1) != 'c' ==> AltFails(SpecialName, 1, m, i)
    ensures At(m, i + 1) != 'C' ==> AltFails(SpecialName, 4, m, i)
    ensures At(m, i + 1) !in "FJ" ==> AltFails(SpecialName, 5, m, i)
    ensures AltFails(SpecialName, 6, m, i) && AltFails(SpecialName, 7, m, i)
  {
    hide EvalAlt, AltFails;
    ClassBehindFails(SpecialName, 0, 'T', "VTIS", [Class("VTIS"), Call(Type)], m, i);
    if At(m, i + 1) != 'c' {
      TwoFails(SpecialName, 1, 'T', 'c', [Call(CallOffset), Call(CallOffset), Call(Encoding)], m, i);
    }
    BySight(SpecialName, 2, m, i);
    if At(m, i + 1) != 'C' {
      TwoFails(SpecialName, 4, 'T', 'C', [Call(Type), Number, Char('_'), Quietly(Type)], m, i);
    }
    if At(m, i + 1) !in "FJ" { ClassBehindFails(SpecialName, 5, 'T', "FJ", [Class("FJ"), Call(Type)], m, i); }
    BySight(SpecialName, 6, m, i);
    BySight(SpecialName, 7, m, i);
  }

  lemma NoThunk(m: string, i: nat)
    requires Has(m, i, 'T') && At(m, i + 1) != 'h' && At(m, i + 1) != 'v' && i + 1 <= |m|
    ensures AltFails(SpecialName, 3, m, i)
  {
    hide EvalAlt, AltFails, Eval;
    Unstarted(CallOffset, m, i + 1);
    CallBehindFails(SpecialName, 3, 'T', CallOffset, [Call(CallOffset), Call(Encoding)], m, i);
  }

  /** 'T' or 'G', one more character, and a function. */
  lemma TypeDataRule(m: string, i: nat, e: nat, v: View, v': View)
    requires Has(m, i, 'T') && At(m, i + 1) in "VTIS" && Says(Type, m, i + 2, e, v, v', true)
    ensures Says(Encoding, m, i, e, v, v', true)
  {
    hide Says, Does, Goes, Spoken, EvalAlt;
    SaysWithin(Type, m, i + 2, e, v, v', true);
    var rest := [Class("VTIS"), Call(Type)];
    ClassThenCall(rest, "VTIS", Type, m, i + 1, e, v, v');
    DoesChar('T', m, i, v);
    CopySpoken(SpecialName, 0, Char('T'), rest, m, i, i + 1, v, v, false, e, v', true);
    Choose(SpecialName, 0, m, i, e, v, v');
    SpecialRule(m, i, e, v, v');
  }

  lemma ClassThenCall(rest: seq<Step>, cs: string, g: Function, m: string, i: nat, e: nat, v: View, v': View)
    requires rest == [Class(cs), Call(g)] && i < |m| && m[i] in cs && m[i] != '\0' && Says(g, m, i + 1, e, v, v', true)
    ensures Goes(rest, 0, m, i, e, v, v', true)
  {
    hide Says, Does, Goes;
    SaysWithin(g, m, i + 1, e, v, v', true);
    GoesEnd(rest, m, e, v');
    DoesCall(g, m, i + 1, e, v, v', true);
    GoesOn(rest, 1, m, i + 1, e, v, v', true, e, v', false);
    DoesClass(cs, m, i, v);
    GoesOn(rest, 0, m, i, i + 1, v, v, false, e, v', true);
  }

  lemma JavaDataRule(m: string, i: nat, e: nat, v: View, v': View)
    requires Has(m, i, 'T') && At(m, i + 1) in "FJ" && Says(Type, m, i + 2, e, v, v', true)
    ensures Says(Encoding, m, i, e, v, v', true)
  {
    hide Says, Does, Goes, Spoken, EvalAlt, AltFails;
    SaysWithin(Type, m, i + 2, e, v, v', true);
    var rest := [Class("FJ"), Call(Type)];
    ClassThenCall(rest, "FJ", Type, m, i + 1, e, v, v');
    DoesChar('T', m, i, v);
    CopySpoken(SpecialName, 5, Char('T'), rest, m, i, i + 1, v, v, false, e, v', true);
    NotTypeData(m, i);
    NoThunk(m, i);
    Choose(SpecialName, 5, m, i, e, v, v');
    SpecialRule(m, i, e, v, v');
  }

  lemma CovariantRule(m: string, i: nat, e1: nat, e2: nat, e: nat, v: View, v': View)
    requires Has2(m, i, 'T', 'c') && Says(CallOffset, m, i + 2, e1, v, v, false)
        && Says(CallOffset, m, e1, e2, v, v, false) && Says(Encoding, m, e2, e, v, v', true)
    ensures Says(Encoding, m, i, e, v, v', true)
  {
    hide Says, Does, Goes, Spoken, EvalAlt, AltFails;
    SaysWithin(Encoding, m, e2, e, v, v', true);
    var rest := [Call(CallOffset), Call(CallOffset), Call(Encoding)];
    GoesEnd(rest, m, e, v');
    DoesCall(Encoding, m, e2, e, v, v', true);
    GoesOn(rest, 2, m, e2, e, v, v', true, e, v', false);
    DoesCall(CallOffset, m, e1, e2, v, v, false);
    GoesOn(rest, 1, m, e1, e2, v, v, false, e, v', true);
    DoesCall(CallOffset, m, i + 2, e1, v, v, false);
    GoesOn(rest, 0, m, i + 2, e1, v, v, false, e, v', true);
    DoesTwo('T', 'c', m, i, v);
    CopySpoken(SpecialName, 1, Two('T', 'c'), rest, m, i, i + 2, v, v, false, e, v', true);
    ClassBehindFails(SpecialName, 0, 'T', "VTIS", [Class("VTIS"), Call(Type)], m, i);
    Choose(SpecialName, 1, m, i, e, v, v');
    SpecialRule(m, i, e, v, v');
  }

  lemma ThunkRule(m: string, i: nat, e1: nat, e: nat, v: View, v': View)
    requires Has(m, i, 'T') && (At(m, i + 1) == 'h' || At(m, i + 1) == 'v')
    requires Says(CallOffset, m, i + 1, e1, v, v, false) && Says(Encoding, m, e1, e, v, v', true)
    ensures Says(Encoding, m, i, e, v, v', true)
  {
    hide Says, Does, Goes, Spoken, EvalAlt, AltFails;
    SaysWithin(Encoding, m, e1, e, v, v', true);
    var rest := [Call(CallOffset), Call(Encoding)];
    GoesEnd(rest, m, e, v');
    DoesCall(Encoding, m, e1, e, v, v', true);
    GoesOn(rest, 1, m, e1, e, v, v', true, e, v', false);
    DoesCall(CallOffset, m, i + 1, e1, v, v, false);
    GoesOn(rest, 0, m, i + 1, e1, v, v, false, e, v', true);
    DoesChar('T', m, i, v);
    CopySpoken(SpecialName, 3, Char('T'), rest, m, i, i + 1, v, v, false, e, v', true);
    NotTypeData(m, i);
    Choose(SpecialName, 3, m, i, e, v, v');
    SpecialRule(m, i, e, v, v');
  }

  lemma DoesQuietly(f: Function, m: string, i: nat, e: nat, u: View, u': View, w: bool, v: View)
    requires Says(f, m, i, e, u, u', w)
    ensures Does(Quietly(f), m, i, e, v, v, false)
  {
    hide Eval, Forwards, Shown, Shuts, Balanced, Neutral;
    BelowTop(Quietly(f));
    QuietlyIs(f, m, i);
    SilenceSpoken(Eval(f, m, i), e, v);
  }

  lemma QuietlyIs(f: Function, m: string, i: nat)
    requires i <= |m| && Rank(f) < TOP
    ensures EvalStep(Quietly(f), m, i, TOP) == Silently(Eval(f, m, i))
  {
    hide Eval, Forwards, Sound, Fine, Rank, Silently;
  }

  lemma ConstructionAlternative(m: string, i: nat, e1: nat, n: S.Num, e: nat, v: View, v1: View, v2: View)
    requires Has2(m, i, 'T', 'C') && Says(Type, m, i + 2, e1, v, v1, true)
    requires HasAt(m, e1, S.NumText(n)) && Has(m, e1 + |S.NumText(n)|, '_')
    requires Says(Type, m, e1 + |S.NumText(n)| + 1, e, v1, v2, true)
    ensures Spoken(EvalAlt(SpecialName, 4, m, i), e, v, v1, true)
  {
    hide Says, Does, Goes, Spoken, EvalAlt, S.NumText, HasAt;
    var rest, at := [Call(Type), Number, Char('_'), Quietly(Type)], e1 + |S.NumText(n)|;
    SaysWithin(Type, m, at + 1, e, v1, v2, true);
    GoesEnd(rest, m, e, v1);
    DoesQuietly(Type, m, at + 1, e, v1, v2, true, v1);
    GoesOn(rest, 3, m, at + 1, e, v1, v1, false, e, v1, false);
    DoesChar('_', m, at, v1);
    GoesOn(rest, 2, m, at, at + 1, v1, v1, false, e, v1, false);
    DoesNumber(m, e1, n, v1);
    GoesOn(rest, 1, m, e1, at, v1, v1, false, e, v1, false);
    DoesCall(Type, m, i + 2, e1, v, v1, true);
    GoesOn(rest, 0, m, i + 2, e1, v, v1, true, e, v1, false);
    DoesTwo('T', 'C', m, i, v);
    CopySpoken(SpecialName, 4, Two('T', 'C'), rest, m, i, i + 2, v, v, false, e, v1, true);
  }

  lemma ConstructionRule(m: string, i: nat, e1: nat, n: S.Num, e: nat, v: View, v1: View, v2: View)
    requires Has2(m, i, 'T', 'C') && Says(Type, m, i + 2, e1, v, v1, true)
    requires HasAt(m, e1, S.NumText(n)) && Has(m, e1 + |S.NumText(n)|, '_')
    requires Says(Type, m, e1 + |S.NumText(n)| + 1, e, v1, v2, true)
    ensures Says(Encoding, m, i, e, v, v1, true)
  {
    hide Says, Spoken, EvalAlt, AltFails, S.NumText, HasAt;
    ConstructionAlternative(m, i, e1, n, e, v, v1, v2);
    NotTypeData(m, i);
    NoThunk(m, i);
    Choose(SpecialName, 4, m, i, e, v, v1);
    SpecialRule(m, i, e, v, v1);
  }

  /** "GV", "GR" or "GA", and a name or an encoding. */
  lemma GlobalRule(m: string, i: nat, k: nat, d: char, g: Function, e: nat, v: View, v': View)
    requires
      || (k == 2 && d == 'V' && g == Name) || (k == 6 && d == 'R' && g == Name)
      || (k == 7 && d == 'A' && g == Encoding)
    requires Has2(m, i, 'G', d) && Says(g, m, i + 2, e, v, v', true)
    ensures Says(Encoding, m, i, e, v, v', true)
  {
    hide Says, Does, Goes, Spoken, EvalAlt, AltFails;
    SaysWithin(g, m, i + 2, e, v, v', true);
    DoesCall(g, m, i + 2, e, v, v', true);
    LastInChain(Call(g), m, i + 2, e, v, v', true);
    DoesTwo('G', d, m, i, v);
    CopySpoken(SpecialName, k, Two('G', d), [Call(g)], m, i, i + 2, v, v, false, e, v', true);
    NotBeforeG(m, i);
    if k > 2 { TwoFails(SpecialName, 2, 'G', 'V', [Call(Name)], m, i); }
    if k > 6 { TwoFails(SpecialName, 6, 'G', 'R', [Call(Name)], m, i); }
    Choose(SpecialName, k, m, i, e, v, v');
    SpecialRule(m, i, e, v, v');
  }

  lemma NotBeforeG(m: string, i: nat)
    requires Has(m, i, 'G')
    ensures AltFails(SpecialName, 0, m, i) && AltFails(SpecialName, 1, m, i) && AltFails(SpecialName, 3, m, i)
    ensures AltFails(SpecialName, 4, m, i) && AltFails(SpecialName, 5, m, i)
  {
    hide AltFails;
    BySight(SpecialName, 0, m, i);
    BySight(SpecialName, 1, m, i);
    BySight(SpecialName, 3, m, i);
    BySight(SpecialName, 4, m, i);
    BySight(SpecialName, 5, m, i);
  }

  /** "Th" and "Tv" in front of a whole call offset. */
  lemma OldThunkRule(m: string, i: nat, e1: nat, e: nat, v: View, v': View)
    requires Has(m, i, 'T') && (At(m, i + 1) == 'h' || At(m, i + 1) == 'v')
    requires At(m, i + 2) == 'h' || At(m, i + 2) == 'v'
    requires Says(CallOffset, m, i + 2, e1, v, v, false) && Says(Encoding, m, e1, e, v, v', true)
    ensures Says(Encoding, m, i, e, v, v', true)
  {
    hide Says, Spoken, EvalAlt, AltFails, Fails;
    OldThunkAlternative(m, i, e1, e, v, v');
    NotTypeData(m, i);
    NoOffset(m, i + 1);
    CallBehindFails(SpecialName, 3, 'T', CallOffset, [Call(CallOffset), Call(Encoding)], m, i);
    Choose(SpecialName, 8, m, i, e, v, v');
    SpecialRule(m, i, e, v, v');
  }

  lemma OldThunkAlternative(m: string, i: nat, e1: nat, e: nat, v: View, v': View)
    requires Has(m, i, 'T') && (At(m, i + 1) == 'h' || At(m, i + 1) == 'v')
    requires Says(CallOffset, m, i + 2, e1, v, v, false) && Says(Encoding, m, e1, e, v, v', true)
    ensures Spoken(EvalAlt(SpecialName, 8, m, i), e, v, v', true)
  {
    hide Says, Does, Goes, Spoken, EvalAlt;
    SaysWithin(Encoding, m, e1, e, v, v', true);
    var rest := [Class("hv"), Call(CallOffset), Call(Encoding)];
    GoesEnd(rest, m, e, v');
    DoesCall(Encoding, m, e1, e, v, v', true);
    GoesOn(rest, 2, m, e1, e, v, v', true, e, v', false);
    DoesCall(CallOffset, m, i + 2, e1, v, v, false);
    GoesOn(rest, 1, m, i + 2, e1, v, v, false, e, v', true);
    DoesClass("hv", m, i + 1, v);
    GoesOn(rest, 0, m, i + 1, i + 2, v, v, false, e, v', true);
    DoesChar('T', m, i, v);
    CopySpoken(SpecialName, 8, Char('T'), rest, m, i, i + 1, v, v, false, e, v', true);
  }

  lemma NoOffset(m: string, i: nat)
    requires (At(m, i) == 'h' || At(m, i) == 'v') && (At(m, i + 1) == 'h' || At(m, i + 1) == 'v')
    ensures Fails(Eval(CallOffset, m, i))
  {
    hide Eval, EvalAlt, AltFails, EvalStep, EvalSteps;
    if At(m, i) == 'h' {
      NoNumber(m, i + 1);
      ChainFailsNow([Number, Char('_')], 0, m, i + 1);
      CharStep('h', m, i, TOP);
      CopyFailsLater(CallOffset, 0, Char('h'), [Number, Char('_')], m, i, i + 1);
      BySight(CallOffset, 1, m, i);
    } else {
      BySight(CallOffset, 0, m, i);
      Unstarted(VOffset, m, i + 1);
      CallBehindFails(CallOffset, 1, 'v', VOffset, [Call(VOffset), Char('_')], m, i);
    }
    FromAlternatives(CallOffset, m, i);
  }
}
