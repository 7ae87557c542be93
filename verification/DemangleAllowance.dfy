/** How often the cursor may move back does not matter once it is often enough: the outcome of a call is
    that of the C program, and a call has an outcome exactly when the C program comes to an end there
    without leaving the name. */
module DemangleAllowance {
  import opened DemangleOutput
  import opened DemangleGrammar

  lemma LeafSettles(s: Step, m: string, i: nat, b: nat, c: nat)
    requires i <= |m| && IsLeaf(s) && b <= c && EvalLeaf(s, m, i, b).Done?
    ensures EvalLeaf(s, m, i, c) == EvalLeaf(s, m, i, b)
  {
    hide OPERATORS, BUILTIN_TYPES, SUBSTITUTIONS, ReadNumber;
  }

  lemma QualifiersSettle(m: string, i: nat, b: nat)
    requires i <= |m|
    ensures EvalLeaf(Qualifiers, m, i, b) == EvalLeaf(Qualifiers, m, i) && EvalLeaf(Qualifiers, m, i).Done?
    ensures EvalLeaf(Qualifiers, m, i).Back() == 0
  {}

  lemma {:induction false} Settles(f: Function, m: string, i: nat, b: nat, c: nat)
    requires i <= |m| && b <= c && Eval(f, m, i, b).Done?
    ensures Eval(f, m, i, c) == Eval(f, m, i, b)
    decreases b, |m| - i + 1, Rank(f), 4, 0
  {
    hide EvalAlts, Rank, Sound, Forwards, Fine;
    if i + Needs(f) <= |m| { AltsSettle(f, 0, m, i, b, c); }
  }

  lemma {:induction false} AltsSettle(f: Function, k: nat, m: string, i: nat, b: nat, c: nat)
    requires i <= |m| && k <= |Body(f)| && b <= c && EvalAlts(f, k, m, i, b).Done?
    ensures EvalAlts(f, k, m, i, c) == EvalAlts(f, k, m, i, b)
    decreases b, |m| - i + 1, Rank(f), 3, |Body(f)| - k
  {
    hide Body, EvalAlt, Rank, Sound, Forwards, Neutral, Balanced;
    if k < |Body(f)| {
      AltSettles(f, k, m, i, b, c);
      if !EvalAlt(f, k, m, i, b).Ok() { AltsSettle(f, k + 1, m, i, b, c); }
    }
  }

  lemma {:induction false} AltSettles(f: Function, k: nat, m: string, i: nat, b: nat, c: nat)
    requires i <= |m| && k < |Body(f)| && b <= c && EvalAlt(f, k, m, i, b).Done?
    ensures EvalAlt(f, k, m, i, c) == EvalAlt(f, k, m, i, b)
    decreases b, |m| - i + 1, Rank(f), 2, 0
  {
    hide Body, EvalStep, EvalSteps, Eval, EvalLeaf, Rank, Sound, Fine, Forwards, Stays, Gains, Below;
    NoLeftRecursion(f, k);
    match Body(f)[k]
    case Copy(first, rest) =>
      CopyStep(f, k, first, rest, m, i, b);
      CopyStep(f, k, first, rest, m, i, c);
      StepSettles(first, m, i, Rank(f), b, c);
      var p := EvalStep(first, m, i, Rank(f), b);
      if p.Ok() { StepsSettle(rest, 0, m, p.Cur(), b - p.Back(), c - p.Back()); }
    case Just(g) => Settles(g, m, i, b, c);
    case Token(s, _) => LeafSettles(s, m, i, b, c);
  }

  lemma {:induction false} StepsSettle(rest: seq<Step>, j: nat, m: string, i: nat, b: nat, c: nat)
    requires i <= |m| && j <= |rest| && b <= c && EvalSteps(rest, j, m, i, b).Done?
    ensures EvalSteps(rest, j, m, i, c) == EvalSteps(rest, j, m, i, b)
    decreases b, |m| - i + 1, TOP, 2, |rest| - j
  {
    hide EvalStep, Forwards, Neutral, Balanced;
    if j < |rest| {
      StepSettles(rest[j], m, i, TOP, b, c);
      var p := EvalStep(rest[j], m, i, TOP, b);
      if p.Ok() { StepsSettle(rest, j + 1, m, p.Cur(), b - p.Back(), c - p.Back()); }
    }
  }

  lemma {:induction false} StepSettles(s: Step, m: string, i: nat, r: nat, b: nat, c: nat)
    requires i <= |m| && Below(s, r) && b <= c && EvalStep(s, m, i, r, b).Done?
    ensures EvalStep(s, m, i, r, c) == EvalStep(s, m, i, r, b)
    decreases b, |m| - i + 1, r, 1, 0
  {
    hide Forwards, Fine, Neutral, Balanced, Kept, EvalLeaf, Eval, EvalPrefix, EvalMany, EvalOneOrMore, EvalArguments;
    match s
    case Call(f) => Settles(f, m, i, b, c);
    case Opt(f) => Settles(f, m, i, b, c);
    case Many(f) => ManySettles(f, m, i, b, c);
    case Nested(f) => Settles(f, m, i, b, c);
    case NestedPrefix =>
      LeafIsSound(Qualifiers, m, i, b);
      QualifiersSettle(m, i, b);
      QualifiersSettle(m, i, c);
      var q := EvalLeaf(Qualifiers, m, i, b);
      PrefixSettles(m, if q.Ok() then q.Cur() else i, false, b, c);
    case Quietly(f) => Settles(f, m, i, b, c);
    case QuietTypes => OneOrMoreSettles(Type, m, i, b, c);
    case QuietArgs => ArgumentsSettle(m, i, b, c);
    case Mangled => if Has2(m, i, '_', 'Z') { Settles(Encoding, m, i + 2, b, c); }
    case _ => LeafSettles(s, m, i, b, c);
  }

  lemma {:induction false} ManySettles(f: Function, m: string, i: nat, b: nat, c: nat)
    requires i <= |m| && b <= c && EvalMany(f, m, i, b).Done?
    ensures EvalMany(f, m, i, c) == EvalMany(f, m, i, b)
    decreases b, |m| - i + 1, Rank(f) + 1, 0, 0
  {
    hide Eval, EvalMany, Rank, Sound, Fine, Stays, Forwards;
    CallGains(f, m, i, b);
    ManyStep(f, m, i, b);
    ManyStep(f, m, i, c);
    Settles(f, m, i, b, c);
    var p := Eval(f, m, i, b);
    if p.Ok() { ManySettles(f, m, p.Cur(), b - p.Back(), c - p.Back()); }
  }

  lemma {:induction false} OneOrMoreSettles(f: Function, m: string, i: nat, b: nat, c: nat)
    requires i <= |m| && b <= c && EvalOneOrMore(f, m, i, b).Done?
    ensures EvalOneOrMore(f, m, i, c) == EvalOneOrMore(f, m, i, b)
    decreases b, |m| - i + 1, Rank(f) + 1, 0, 0
  {
    hide Eval, EvalMany, EvalOneOrMore, Rank, Sound, Fine, Stays, Gains, Forwards;
    CallGains(f, m, i, b);
    OneOrMoreStep(f, m, i, b);
    OneOrMoreStep(f, m, i, c);
    Settles(f, m, i, b, c);
    var p := Eval(f, m, i, b);
    if p.Ok() { ManySettles(f, m, p.Cur(), b - p.Back(), c - p.Back()); }
  }

  lemma {:induction false} ArgumentsSettle(m: string, i: nat, b: nat, c: nat)
    requires i <= |m| && b <= c && EvalArguments(m, i, b).Done?
    ensures EvalArguments(m, i, c) == EvalArguments(m, i, b)
    decreases b, |m| - i + 1, 0, 0, 0
  {
    hide EvalOneOrMore, Sound, Forwards;
    if Has(m, i, 'I') { OneOrMoreSettles(TemplateArg, m, i + 1, b, c); }
  }

  lemma {:induction false} ComponentSettles(m: string, i: nat, b: nat, c: nat)
    requires i <= |m| && b <= c && EvalComponent(m, i, b).Done?
    ensures EvalComponent(m, i, c) == EvalComponent(m, i, b)
    decreases b, |m| - i + 1, Rank(UnscopedName) + 1, 0, 0
  {
    hide Eval, Forwards, Neutral, Balanced;
    Settles(TemplateParam, m, i, b, c);
    if !Eval(TemplateParam, m, i, b).Ok() {
      Settles(Substitution, m, i, b, c);
      if !Eval(Substitution, m, i, b).Ok() { Settles(UnscopedName, m, i, b, c); }
    }
  }

  lemma {:induction false} PrefixSettles(m: string, i: nat, hasSomething: bool, b: nat, c: nat)
    requires i <= |m| && b <= c && EvalPrefix(m, i, hasSomething, b).Done?
    ensures EvalPrefix(m, i, hasSomething, c) == EvalPrefix(m, i, hasSomething, b)
    decreases b, |m| - i + 1, Rank(UnscopedName) + 1, 0, 1
  {
    hide Eval, EvalComponent, EvalPrefix, Slot, Forwards, Neutral, Balanced, KeepsAppend;
    PrefixRound(m, i, hasSomething, b);
    PrefixRound(m, i, hasSomething, c);
    ComponentSettles(m, i, b, c);
    var p := EvalComponent(m, i, b);
    if p.Ok() {
      PrefixSettles(m, p.Cur(), true, b - p.Back(), c - p.Back());
    } else if hasSomething {
      Settles(TemplateArgs, m, i, b, c);
      var q := Eval(TemplateArgs, m, i, b);
      if q.Ok() { PrefixSettles(m, q.Cur(), false, b - q.Back(), c - q.Back()); }
    }
  }

  /** Two allowances that are both enough give the same outcome. */
  lemma AllowanceDoesNotMatter(m: string, b: nat, c: nat)
    requires TopLevel(m, b).Done? && TopLevel(m, c).Done?
    ensures TopLevel(m, b) == TopLevel(m, c)
  {
    TopLevelSettles(m, if b < c then b else c, if b < c then c else b);
  }

  lemma TopLevelSettles(m: string, b: nat, c: nat)
    requires b <= c && TopLevel(m, b).Done?
    ensures TopLevel(m, c) == TopLevel(m, b)
  {
    hide EvalStep, IsCloneSuffix, Forwards, Neutral, Balanced;
    StepSettles(Mangled, m, 0, TOP, b, c);
  }
}
