/** Two names with an identifier of negative length: on one the demangler goes round in circles, on the
    other it comes to an end. */
module DemangleRewind {
  import opened Basics
  import opened DemangleOutput
  import opened DemangleGrammar
  import opened DemangleAllowance
  import opened Demangler
  import opened DemangleRoundTrip

  // ---------------------------------------------------------------- alternatives, with any allowance

  /** Dead alternatives are passed over however often the cursor may move back. */
  lemma {:induction false} PassDeadWith(f: Function, k: nat, n: nat, m: string, i: nat, b: nat)
    requires i <= |m| && k <= n <= |Body(f)|
    requires forall j :: k <= j < n ==> Dead(f, j, m, i)
    ensures EvalAlts(f, k, m, i, b) == EvalAlts(f, n, m, i, b)
    decreases n - k
  {
    hide Body, EvalAlt, Dead;
    if k < n {
      DeadFails(f, k, m, i);
      AltSettles(f, k, m, i, 0, b);
      PassDeadWith(f, k + 1, n, m, i, b);
    }
  }

  /** The n-th alternative decides when those before it are dead and it does not fail. */
  lemma DecidesWith(f: Function, n: nat, m: string, i: nat, b: nat)
    requires i + Needs(f) <= |m| && n < |Body(f)|
    requires forall j :: 0 <= j < n ==> Dead(f, j, m, i)
    requires EvalAlt(f, n, m, i, b).Rewinds? || EvalAlt(f, n, m, i, b).Ok()
    ensures Eval(f, m, i, b) == EvalAlt(f, n, m, i, b)
  {
    hide Body, Dead, EvalAlt;
    PassDeadWith(f, 0, n, m, i, b);
  }

  lemma FirstStepRewinds(f: Function, first: Step, rest: seq<Step>, m: string, i: nat, b: nat)
    requires i + Needs(f) <= |m| && |Body(f)| > 0 && Body(f)[0] == Copy(first, rest)
    requires Below(first, Rank(f)) && EvalStep(first, m, i, Rank(f), b) == Rewinds
    ensures Eval(f, m, i, b) == Rewinds
  {
    hide Body, Rank, Below, EvalStep, EvalSteps, EvalAlt, Eval;
    CopyStep(f, 0, first, rest, m, i, b);
    DecidesWith(f, 0, m, i, b);
  }

  lemma JustCallsWith(f: Function, k: nat, g: Function, m: string, i: nat, b: nat)
    requires k < |Body(f)| && Body(f)[k] == Just(g) && i <= |m|
    ensures EvalAlt(f, k, m, i, b) == Eval(g, m, i, b)
  {
    hide Body, Eval;
  }

  lemma CallStepWith(f: Function, m: string, i: nat, r: nat, b: nat)
    requires i <= |m| && Rank(f) < r
    ensures EvalStep(Call(f), m, i, r, b) == Eval(f, m, i, b)
  {
    hide Eval, Rank, Forwards, Sound, Fine;
  }

  // ---------------------------------------------------------------- an identifier that leads back

  /** The cursor is moved back to `to`, which takes one of the b times it may be. */
  function LedBack(to: nat, b: nat): Parse {
    if b > 0 then Done(Outcome(true, to, Skip, 1)) else Rewinds
  }

  lemma LengthLeads(m: string, i: nat, to: nat, b: nat)
    requires i <= |m|
    requires var n := ReadNumber(m, i); n.ok && n.value < -1 && n.cur + n.value == to
    ensures EvalLeaf(Length, m, i, b) == LedBack(to, b)
  {
    hide ReadNumber, IsAnonymous, Sound, Forwards;
  }

  lemma SourceNameLeads(m: string, i: nat, to: nat, b: nat)
    requires i <= |m| && to <= |m| && EvalLeaf(Length, m, i, b) == LedBack(to, b)
    ensures Eval(SourceName, m, i, b) == LedBack(to, b)
  {
    hide Eval, EvalLeaf, EvalAlt, EvalSteps, Forwards, Sound, Fine;
    assert EvalAlt(SourceName, 0, m, i, b) == LedBack(to, b) by {
      LengthStep(m, i, b);
      CopyStep(SourceName, 0, Length, [], m, i, b);
      if b > 0 { NoStepsLeft([], m, to, b - 1); }
    }
    DecidesWith(SourceName, 0, m, i, b);
  }

  lemma LengthStep(m: string, i: nat, b: nat)
    requires i <= |m|
    ensures EvalStep(Length, m, i, Rank(SourceName), b) == EvalLeaf(Length, m, i, b)
  {
    hide EvalLeaf, Forwards, Sound, Fine;
  }

  /** Where nothing else starts the component of a prefix is led back, too. */
  lemma ComponentLeads(m: string, i: nat, to: nat, b: nat)
    requires i <= |m| && Eval(SourceName, m, i, b) == LedBack(to, b)
    requires NothingElse(m, i)
    ensures EvalComponent(m, i, b) == LedBack(to, b)
  {
    hide Eval, EvalLeaf, EvalAlt, Forwards, Sound, Fine;
    Settles(TemplateParam, m, i, 0, b);
    Settles(Substitution, m, i, 0, b);
    JustCallsWith(UnqualifiedName, 2, SourceName, m, i, b);
    DecidesWith(UnqualifiedName, 2, m, i, b);
    JustCallsWith(UnscopedName, 0, UnqualifiedName, m, i, b);
    DecidesWith(UnscopedName, 0, m, i, b);
  }

  predicate NothingElse(m: string, i: nat)
    requires i <= |m|
  {
    && Eval(TemplateParam, m, i) == No(i, Skip) && Eval(Substitution, m, i) == No(i, Skip)
    && Eval(CtorDtorName, m, i) == No(i, Skip) && Eval(OperatorName, m, i) == No(i, Skip)
  }

  lemma DigitsAfterN(m: string, i: nat)
    requires i + 1 < |m| && m[i] == 'n' && IsDigit(m[i + 1])
    ensures NothingElse(m, i)
  {
    hide Eval;
    assert At(m, i) == 'n' && !IsAlpha(At(m, i + 1));
    NoParamOrSubstitution(m, i);
    NoCtorOrLocal(m, i);
    NoOperator(m, i);
  }

  // ---------------------------------------------------------------- round in circles

  const CIRCLE := "_ZN1an2"

  /** The identifier behind "1a" has length -2: reading it leads from position 5 to position 5. */
  lemma LengthLeadsBack()
    ensures var n := ReadNumber(CIRCLE, 5); n.ok && n.value == -2 && n.cur + n.value == 5
  {
    RunEndsAt(CIRCLE, 6, 7, IsDigit);
    assert DigitsValue(CIRCLE, 6, 7, 0) == DigitsValue(CIRCLE, 7, 7, 2) == 2;
  }

  /** One round of ParsePrefix at position 5 succeeds, writes nothing and ends at position 5. */
  lemma RoundStandsStill(b: nat)
    ensures EvalComponent(CIRCLE, 5, b) == LedBack(5, b)
  {
    hide Eval, EvalLeaf, EvalComponent, ReadNumber, NothingElse;
    LengthLeadsBack();
    LengthLeads(CIRCLE, 5, 5, b);
    SourceNameLeads(CIRCLE, 5, 5, b);
    assert CIRCLE[5] == 'n' && CIRCLE[6] == '2';
    DigitsAfterN(CIRCLE, 5);
    ComponentLeads(CIRCLE, 5, 5, b);
  }

  /** So no number of rounds is enough. */
  lemma {:induction false} PrefixNeverEnds(hasSomething: bool, b: nat)
    ensures EvalPrefix(CIRCLE, 5, hasSomething, b) == Rewinds
    decreases b
  {
    hide EvalComponent, EvalPrefix, Eval;
    RoundStandsStill(b);
    PrefixRound(CIRCLE, 5, hasSomething, b);
    if b > 0 { PrefixNeverEnds(true, b - 1); }
  }

  lemma FromTheStart(b: nat)
    ensures EvalPrefix(CIRCLE, 3, false, b) == Rewinds
  {
    hide EvalComponent, EvalPrefix, Eval, Forwards, Sound, Fine;
    assert HoldsAt(CIRCLE, 3, "a") by { assert Dec(1) == "1"; }
    ParsesIdentifier(CIRCLE, 3, "a");
    ComponentSettles(CIRCLE, 3, 0, b);
    PrefixRound(CIRCLE, 3, false, b);
    PrefixNeverEnds(true, b);
  }

  lemma PrefixStepRewinds(m: string, i: nat, b: nat)
    requires i <= |m| && EvalLeaf(Qualifiers, m, i) == No(i, Skip) && EvalPrefix(m, i, false, b) == Rewinds
    ensures EvalStep(NestedPrefix, m, i, TOP, b) == Rewinds
  {
    hide EvalPrefix, EvalLeaf, Eval, Forwards, Sound, Fine;
    QualifiersSettle(m, i, b);
  }

  lemma NestedNameRewinds(m: string, i: nat, b: nat)
    requires Has(m, i, 'N') && EvalStep(NestedPrefix, m, i + 1, TOP, b) == Rewinds
    ensures Eval(NestedName, m, i, b) == Rewinds
  {
    hide Eval, EvalStep, EvalSteps, EvalAlt, Forwards, Sound, Fine;
    CharStep('N', m, i, Rank(NestedName));
    StepSettles(Char('N'), m, i, Rank(NestedName), 0, b);
    StepsStep([NestedPrefix, Char('E')], 0, m, i + 1, b);
    CopyStep(NestedName, 0, Char('N'), [NestedPrefix, Char('E')], m, i, b);
    DecidesWith(NestedName, 0, m, i, b);
  }

  lemma NoQualifierHere(m: string, i: nat)
    requires i <= |m| && At(m, i) != 'r' && At(m, i) != 'V' && At(m, i) != 'K'
    ensures EvalLeaf(Qualifiers, m, i) == No(i, Skip)
  {}

  lemma MangledStepWith(m: string, b: nat)
    requires Has2(m, 0, '_', 'Z')
    ensures EvalStep(Mangled, m, 0, TOP, b) == Eval(Encoding, m, 2, b)
  {
    hide Eval, EvalLeaf, Forwards, Sound, Fine, Balanced, Neutral;
  }

  lemma TopLevelRewinds(b: nat)
    ensures TopLevel(CIRCLE, b) == Rewinds
  {
    hide EvalPrefix, EvalStep, EvalSteps, EvalAlt, EvalLeaf, Eval, Forwards, Sound, Fine;
    assert At(CIRCLE, 3) == '1' && At(CIRCLE, 2) == 'N' && Has2(CIRCLE, 0, '_', 'Z');
    NoQualifierHere(CIRCLE, 3);
    FromTheStart(b);
    PrefixStepRewinds(CIRCLE, 3, b);
    NestedNameRewinds(CIRCLE, 2, b);
    JustCallsWith(Name, 0, NestedName, CIRCLE, 2, b);
    DecidesWith(Name, 0, CIRCLE, 2, b);
    CallStepWith(Name, CIRCLE, 2, Rank(Encoding), b);
    FirstStepRewinds(Encoding, Call(Name), [Call(BareFunctionType)], CIRCLE, 2, b);
    MangledStepWith(CIRCLE, b);
  }

  /** Demangle("_ZN1an2") never returns: ParsePrefix stands still at position 5, however long it runs. */
  lemma GoesRoundInCircles()
    ensures !Ends(CIRCLE)
    ensures forall b: nat :: b > 0 ==> EvalComponent(CIRCLE, 5, b) == Done(Outcome(true, 5, Skip, 1))
  {
    hide TopLevel, EvalComponent;
    forall b: nat ensures TopLevel(CIRCLE, b) == Rewinds { TopLevelRewinds(b); }
    forall b: nat | b > 0
      ensures EvalComponent(CIRCLE, 5, b) == Done(Outcome(true, 5, Skip, 1)) { RoundStandsStill(b); }
  }

  // ---------------------------------------------------------------- back, and to an end

  const BACK := "_ZN1an3E"

  predicate Fails(p: Parse) { p.Done? && !p.res.ok }

  lemma {:induction false} AltsFail(f: Function, k: nat, m: string, i: nat, b: nat)
    requires i <= |m| && k <= |Body(f)| && forall j :: k <= j < |Body(f)| ==> Fails(EvalAlt(f, j, m, i, b))
    ensures Fails(EvalAlts(f, k, m, i, b))
    decreases |Body(f)| - k
  {
    hide Body, EvalAlt, EvalAlts, Fine;
    AltsStep(f, k, m, i, b);
    if k < |Body(f)| { AltsFail(f, k + 1, m, i, b); }
  }

  lemma AllFail(f: Function, m: string, i: nat, b: nat)
    requires i <= |m| && forall j :: 0 <= j < |Body(f)| ==> Fails(EvalAlt(f, j, m, i, b))
    ensures Fails(Eval(f, m, i, b))
  {
    hide Body, EvalAlt, EvalAlts;
    AltsFail(f, 0, m, i, b);
  }

  lemma FirstStepFailed(f: Function, k: nat, first: Step, rest: seq<Step>, m: string, i: nat, b: nat)
    requires i <= |m| && k < |Body(f)| && Body(f)[k] == Copy(first, rest) && Below(first, Rank(f))
    requires Fails(EvalStep(first, m, i, Rank(f), b))
    ensures Fails(EvalAlt(f, k, m, i, b))
  {
    hide Body, Rank, Below, EvalStep, EvalSteps, EvalAlt;
    CopyStep(f, k, first, rest, m, i, b);
  }

  lemma {:induction false} FindHits(list: seq<Abbrev>, k: nat, fits: Abbrev -> bool, j: nat)
    requires k <= j < |list| && fits(list[j])
    ensures Find(list, k, fits) <= j
    decreases j - k
  {
    if k < j { FindHits(list, k + 1, fits, j); }
  }

  /** "an" is an operator. */
  lemma AnOperator(m: string, i: nat)
    requires i + 1 < |m| && m[i] == 'a' && m[i + 1] == 'n'
    ensures EvalComponent(m, i).Ok() && EvalComponent(m, i).Cur() == i + 2
  {
    hide Eval, EvalAlt, Forwards, Sound, Fine;
    NoParamOrSubstitution(m, i);
    AnAlternative(m, i);
    Decides(OperatorName, 2, m, i) by { CastsAreDead(m, i); }
    JustCalls(UnqualifiedName, 0, OperatorName, m, i);
    Decides(UnqualifiedName, 0, m, i);
    JustCalls(UnscopedName, 0, UnqualifiedName, m, i);
    Decides(UnscopedName, 0, m, i);
  }

  lemma CastsAreDead(m: string, i: nat)
    requires i < |m| && m[i] != 'c' && m[i] != 'v'
    ensures Dead(OperatorName, 0, m, i) && Dead(OperatorName, 1, m, i)
  {
    hide OPERATORS;
  }

  lemma AnAlternative(m: string, i: nat)
    requires i + 1 < |m| && m[i] == 'a' && m[i + 1] == 'n'
    ensures EvalAlt(OperatorName, 2, m, i).Ok() && EvalAlt(OperatorName, 2, m, i).Cur() == i + 2
  {
    assert OPERATORS[14] == Abbrev('a', 'n', "&") && |OPERATORS| > 14;
    hide OPERATORS;
    FindHits(OPERATORS, 0, p => FitsOperator(m, i, p), 14);
    assert OperatorIn(OPERATORS, m, i).Ok();
  }

  /** A length that asks for more than is left. */
  lemma TooLong(m: string, i: nat)
    requires i <= |m| && IsDigit(At(m, i))
    requires var n := ReadNumber(m, i); n.ok && n.value >= 0 && n.cur + n.value > |m|
    ensures EvalComponent(m, i) == No(i, Skip)
  {
    hide Eval, OPERATORS, BUILTIN_TYPES, Forwards, ReadNumber;
    DigitIsDull(At(m, i));
    DullStartsNothing(m, i);
    AllDead(SourceName, m, i);
    AllDead(UnqualifiedName, m, i);
    AllDead(UnscopedName, m, i);
  }

  lemma ThreeIsTooLong()
    ensures EvalComponent(BACK, 6) == No(6, Skip) && Fails(Eval(TemplateArgs, BACK, 6))
  {
    hide Eval, EvalComponent, DigitsValue;
    assert BACK[6] == '3' && BACK[7] == 'E';
    ThreeReads();
    TooLong(BACK, 6);
    SilentFailure(TemplateArgs, QuietArgs, "<>", BACK, 6);
  }

  lemma ThreeReads()
    ensures ReadNumber(BACK, 6) == Numeral(true, 7, 3) && ReadNumber(BACK, 5) == Numeral(true, 7, -3)
  {
    RunEndsAt(BACK, 6, 7, IsDigit);
    assert DigitsValue(BACK, 6, 7, 0) == DigitsValue(BACK, 7, 7, 3) == 3;
  }

  lemma BackLeads()
    ensures EvalComponent(BACK, 5, 1) == LedBack(4, 1)
  {
    hide EvalComponent, Eval, EvalLeaf, ReadNumber, NothingElse, Forwards, Sound, Fine;
    assert BACK[5] == 'n' && BACK[6] == '3';
    ThreeReads();
    LengthLeads(BACK, 5, 4, 1);
    SourceNameLeads(BACK, 5, 4, 1);
    DigitsAfterN(BACK, 5);
    ComponentLeads(BACK, 5, 4, 1);
  }

  lemma PrefixFrom4()
    ensures EvalPrefix(BACK, 4, true).Ok() && EvalPrefix(BACK, 4, true).Cur() == 6
  {
    hide EvalComponent, EvalPrefix, Eval, Forwards, Sound, Fine;
    assert BACK[4] == 'a' && BACK[5] == 'n';
    ThreeIsTooLong();
    PrefixRound(BACK, 6, true, 0);
    AnOperator(BACK, 4);
    PrefixRound(BACK, 4, true, 0);
  }

  lemma FirstOfBack()
    ensures EvalComponent(BACK, 3, 1) == Yes(5, Emit("a"))
  {
    hide EvalComponent, Eval, Forwards, Sound, Fine;
    assert BACK[3] == '1' && BACK[4] == 'a';
    assert HoldsAt(BACK, 3, "a") by { assert Dec(1) == "1"; }
    ParsesIdentifier(BACK, 3, "a");
    ComponentSettles(BACK, 3, 0, 1);
  }

  /** The prefix: "a", back to the 'a', the operator "an", and no more. */
  lemma PrefixOfBack()
    ensures EvalPrefix(BACK, 3, false, 1).Ok() && EvalPrefix(BACK, 3, false, 1).Cur() == 6
  {
    hide EvalComponent, EvalPrefix, Eval, Forwards, Sound, Fine;
    PrefixFrom4();
    BackLeads();
    PrefixRound(BACK, 5, true, 1);
    FirstOfBack();
    PrefixRound(BACK, 3, false, 1);
  }

  lemma NestedNameFails()
    ensures Fails(Eval(NestedName, BACK, 2, 1))
  {
    hide EvalPrefix, EvalStep, EvalSteps, EvalAlt, EvalLeaf, Eval, Forwards, Sound, Fine;
    assert At(BACK, 2) == 'N' && At(BACK, 3) == '1' && At(BACK, 6) == '3';
    PrefixOfBack();
    NoQualifierHere(BACK, 3);
    PrefixStepIs(BACK, 3, 1);
    NoCharStep('E', BACK, 6);
    StepSettles(Char('E'), BACK, 6, TOP, 0, 1 - EvalPrefix(BACK, 3, false, 1).Back());
    StepsStep([NestedPrefix, Char('E')], 0, BACK, 3, 1);
    StepsStep([NestedPrefix, Char('E')], 1, BACK, 6, 1 - EvalPrefix(BACK, 3, false, 1).Back());
    CharStep('N', BACK, 2, Rank(NestedName));
    StepSettles(Char('N'), BACK, 2, Rank(NestedName), 0, 1);
    CopyStep(NestedName, 0, Char('N'), [NestedPrefix, Char('E')], BACK, 2, 1);
    AllFail(NestedName, BACK, 2, 1);
  }

  lemma PrefixStepIs(m: string, i: nat, b: nat)
    requires i <= |m| && EvalLeaf(Qualifiers, m, i) == No(i, Skip)
    ensures EvalStep(NestedPrefix, m, i, TOP, b) == Within(EvalPrefix(m, i, false, b))
  {
    hide EvalPrefix, EvalLeaf, Eval, Forwards, Sound, Fine;
    QualifiersSettle(m, i, b);
  }

  lemma NoCharStep(c: char, m: string, i: nat)
    requires i <= |m| && !Has(m, i, c)
    ensures EvalStep(Char(c), m, i, TOP) == No(i, Skip)
  {
    hide Eval, Forwards, Sound;
  }

  lemma NothingStartsWithN(m: string, i: nat)
    requires Has(m, i, 'N')
    ensures Eval(LocalName, m, i) == No(i, Skip) && Eval(UnscopedName, m, i) == No(i, Skip)
    ensures Eval(UnscopedTemplateName, m, i) == No(i, Skip) && Eval(SpecialName, m, i) == No(i, Skip)
  {
    hide Eval, OPERATORS, BUILTIN_TYPES, Forwards;
    DullStartsNothing(m, i);
    RunEndsAt(m, i, i, IsDigit);
    AllDead(LocalName, m, i);
    AllDead(SpecialName, m, i);
    AllDead(SourceName, m, i);
    AllDead(UnqualifiedName, m, i);
    AllDead(UnscopedName, m, i);
    AllDead(UnscopedTemplateName, m, i);
  }

  lemma NameFails()
    ensures Fails(Eval(Name, BACK, 2, 1)) && Fails(Eval(SpecialName, BACK, 2, 1))
  {
    hide EvalStep, EvalSteps, EvalAlt, Eval, Forwards, Sound, Fine;
    assert At(BACK, 2) == 'N';
    NestedNameFails();
    NothingStartsWithN(BACK, 2);
    Settles(LocalName, BACK, 2, 0, 1);
    Settles(UnscopedName, BACK, 2, 0, 1);
    Settles(UnscopedTemplateName, BACK, 2, 0, 1);
    Settles(SpecialName, BACK, 2, 0, 1);
    JustCallsWith(Name, 0, NestedName, BACK, 2, 1);
    JustCallsWith(Name, 1, LocalName, BACK, 2, 1);
    CallStepWith(UnscopedTemplateName, BACK, 2, Rank(Name), 1);
    FirstStepFailed(Name, 2, Call(UnscopedTemplateName), [Call(TemplateArgs)], BACK, 2, 1);
    JustCallsWith(Name, 3, UnscopedName, BACK, 2, 1);
    AllFail(Name, BACK, 2, 1);
  }

  /** Demangle("_ZN1an3E") goes back once and then returns false. */
  lemma GoesBackAndEnds()
    ensures !Forwards(BACK) && Ends(BACK) && !Recognised(BACK)
  {
    hide EvalStep, EvalSteps, EvalAlt, Eval, TopLevel, Result, Sound, Fine;
    ThreeReads();
    FailsWithOne();
    ResultIs(BACK, 1);
  }

  lemma FailsWithOne()
    ensures Fails(TopLevel(BACK, 1))
  {
    hide EvalStep, EvalSteps, EvalAlt, Eval, Forwards, Sound, Fine;
    assert Has2(BACK, 0, '_', 'Z');
    NameFails();
    CallStepWith(Name, BACK, 2, Rank(Encoding), 1);
    FirstStepFailed(Encoding, 0, Call(Name), [Call(BareFunctionType)], BACK, 2, 1);
    JustCallsWith(Encoding, 1, Name, BACK, 2, 1);
    JustCallsWith(Encoding, 2, SpecialName, BACK, 2, 1);
    AllFail(Encoding, BACK, 2, 1);
    MangledStepWith(BACK, 1);
  }
}
