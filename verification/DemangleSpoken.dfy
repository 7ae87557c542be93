/** What an attempt reads and says, put together from what its steps read and say.  All of it without a
    backward move. */
module DemangleSpoken {
  import opened DemangleOutput
  import opened DemangleGrammar
  import opened DemangleSpeech
  import opened DemangleRewind

  // ---------------------------------------------------------------- reading and saying

  /** The attempt succeeds and ends at e. */
  predicate ReadsTo(p: Parse, e: nat) { p.Ok() && p.Cur() == e && p.Back() == 0 }

  /** It turns the view v into v'; with w it writes something, so that the text is shut afterwards. */
  predicate Spoken(p: Parse, e: nat, v: View, v': View, w: bool) {
    && ReadsTo(p, e) && Shown(p.res.eff, v) == v' && v'.append == v.append
    && Shuts(p.res.eff, v, true) && (w && v.append ==> Shuts(p.res.eff, v, false))
  }

  predicate Says(f: Function, m: string, i: nat, e: nat, v: View, v': View, w: bool) {
    i <= |m| && Spoken(Eval(f, m, i), e, v, v', w)
  }

  predicate Does(s: Step, m: string, i: nat, e: nat, v: View, v': View, w: bool) {
    i <= |m| && Below(s, TOP) && Spoken(EvalStep(s, m, i, TOP), e, v, v', w)
  }

  /** The steps from the j-th on. */
  predicate Goes(rest: seq<Step>, j: nat, m: string, i: nat, e: nat, v: View, v': View, w: bool) {
    i <= |m| && j <= |rest| && Spoken(EvalSteps(rest, j, m, i), e, v, v', w)
  }

  lemma SaysWithin(f: Function, m: string, i: nat, e: nat, v: View, v': View, w: bool)
    requires Says(f, m, i, e, v, v', w)
    ensures i < e <= |m| && ReadsTo(Eval(f, m, i), e)
  {
    hide Eval, Shown, Shuts, Balanced, Neutral, Forwards;
  }

  // ---------------------------------------------------------------- putting together

  lemma JoinSays(a: Effect, b: Effect, v: View, s: bool)
    ensures Shown(Join(a, b), v) == Shown(b, Shown(a, v))
    ensures Shuts(Join(a, b), v, s) == Shuts(b, Shown(a, v), Shuts(a, v, s))
  {}

  lemma AndSpoken(p: Parse, e: nat, v: View, v1: View, w1: bool, q: Parse, e2: nat, v2: View, w2: bool)
    requires Spoken(p, e, v, v1, w1) && Spoken(q, e2, v1, v2, w2)
    ensures Spoken(And(p, q), e2, v, v2, w1 || w2)
  {
    JoinSays(p.res.eff, q.res.eff, v, true);
    JoinSays(p.res.eff, q.res.eff, v, false);
    hide Shown, Shuts, Join;
  }

  /** After a failed try, an attempt that writes, or any attempt if the try had no effect. */
  lemma ElseSpoken(p: Parse, q: Parse, e: nat, v: View, v': View, w: bool)
    requires Fails(p) && Spoken(q, e, v, v', w) && (w || p.res.eff.Skip?)
    ensures Spoken(Else(p, q), e, v, v', w)
  {
    var a := Revert(p.res.eff);
    JoinSays(a, q.res.eff, v, true);
    JoinSays(a, q.res.eff, v, false);
    assert Shown(a, v) == v && (!v.append ==> Shuts(a, v, true)) && (p.res.eff.Skip? ==> a == Skip);
    hide Shown, Shuts, Join, Revert;
    assert Shuts(q.res.eff, v, Shuts(a, v, true)) by { if v.append && w { assert Shuts(q.res.eff, v, false); } }
  }

  lemma SilenceSpoken(p: Parse, e: nat, v: View)
    requires ReadsTo(p, e) && Balanced(p.res.eff)
    ensures Spoken(Silently(p), e, v, v, false)
  {
    MutedSays(p.res.eff, v.(append := false));
  }

  lemma {:induction false} MutedSays(e: Effect, v: View)
    requires !v.append
    ensures Shown(e, v) == v.(nest := Shown(e, v).nest)
    ensures Balanced(e) ==> Shown(e, v) == v
    decreases e
  {
    match e
    case Then(a, b) => MutedSays(a, v); MutedSays(b, Shown(a, v));
    case Nest(a) => MutedSays(a, v.(nest := 0));
    case Quiet(a) => MutedSays(a, v);
    case _ =>
  }

  // ---------------------------------------------------------------- steps

  lemma StepAnyRank(s: Step, m: string, i: nat, r: nat)
    requires i <= |m| && Below(s, r) && Below(s, TOP)
    ensures EvalStep(s, m, i, r) == EvalStep(s, m, i, TOP)
  {
    hide Eval, EvalMany, EvalPrefix, EvalOneOrMore, EvalArguments, EvalLeaf, Forwards, Sound, Fine, Rank;
  }

  lemma BelowTop(s: Step)
    ensures Below(s, TOP)
  {}

  lemma LeafStep(s: Step, m: string, i: nat)
    requires i <= |m| && IsLeaf(s) && Below(s, TOP)
    ensures EvalStep(s, m, i, TOP) == EvalLeaf(s, m, i)
  {
    hide Eval, EvalLeaf, Forwards, Sound, Fine, Rank;
  }

  /** A token that is there. */
  lemma DoesLeaf(s: Step, m: string, i: nat, e: nat, v: View)
    requires i <= |m| && IsLeaf(s) && EvalLeaf(s, m, i) == Yes(e, Skip)
    ensures Does(s, m, i, e, v, v, false)
  {
    hide EvalLeaf, EvalStep;
    BelowTop(s);
    LeafStep(s, m, i);
  }

  lemma DoesWord(s: Step, m: string, i: nat, e: nat, str: string, v: View)
    requires i <= |m| && IsLeaf(s) && EvalLeaf(s, m, i) == Yes(e, Emit(str)) && str != ""
    ensures Does(s, m, i, e, v, Add(v, str), true)
  {
    hide EvalLeaf, EvalStep, Add;
    BelowTop(s);
    LeafStep(s, m, i);
    AddKeeps(v, str);
  }

  lemma AddKeeps(v: View, str: string)
    ensures Add(v, str).append == v.append && Add(v, str).nest == v.nest
  {}

  lemma DoesChar(c: char, m: string, i: nat, v: View)
    requires Has(m, i, c)
    ensures Does(Char(c), m, i, i + 1, v, v, false)
  {
    hide Does, Sound;
    DoesLeaf(Char(c), m, i, i + 1, v);
  }

  lemma DoesTwo(c: char, d: char, m: string, i: nat, v: View)
    requires Has2(m, i, c, d)
    ensures Does(Two(c, d), m, i, i + 2, v, v, false)
  {
    hide Does, Sound;
    DoesLeaf(Two(c, d), m, i, i + 2, v);
  }

  lemma DoesClass(cs: string, m: string, i: nat, v: View)
    requires i < |m| && m[i] in cs && m[i] != '\0'
    ensures Does(Class(cs), m, i, i + 1, v, v, false)
  {
    hide Does, Sound;
    DoesLeaf(Class(cs), m, i, i + 1, v);
  }

  lemma DoesSay(str: string, m: string, i: nat, v: View)
    requires i <= |m| && str != ""
    ensures Does(Say(str), m, i, i, v, Add(v, str), true)
  {
    hide Does, Sound, Add;
    DoesWord(Say(str), m, i, i, str, v);
  }

  lemma DoesCall(f: Function, m: string, i: nat, e: nat, v: View, v': View, w: bool)
    requires Says(f, m, i, e, v, v', w)
    ensures Does(Call(f), m, i, e, v, v', w)
  {
    hide Eval, Spoken, Forwards, Sound, Fine;
    BelowTop(Call(f));
    CallIs(f, m, i);
  }

  lemma CallIs(f: Function, m: string, i: nat)
    requires i <= |m| && Rank(f) < TOP
    ensures EvalStep(Call(f), m, i, TOP) == Eval(f, m, i)
  {
    hide Eval, Forwards, Sound, Fine, Rank;
  }

  // ---------------------------------------------------------------- chains of steps

  lemma GoesEnd(rest: seq<Step>, m: string, i: nat, v: View)
    requires i <= |m|
    ensures Goes(rest, |rest|, m, i, i, v, v, false)
  {
    hide EvalSteps;
    NoStepsLeft(rest, m, i, 0);
  }

  lemma GoesOn(rest: seq<Step>, j: nat, m: string, i: nat, e1: nat, v: View, v1: View, w1: bool, e: nat, v': View,
      w2: bool)
    requires j < |rest| && Does(rest[j], m, i, e1, v, v1, w1) && Goes(rest, j + 1, m, e1, e, v1, v', w2)
    ensures Goes(rest, j, m, i, e, v, v', w1 || w2)
  {
    hide EvalStep, EvalSteps, Shown, Shuts, Below, Sound, Forwards;
    StepsStep(rest, j, m, i, 0);
    AndSpoken(EvalStep(rest[j], m, i, TOP), e1, v, v1, w1, EvalSteps(rest, j + 1, m, e1), e, v', w2);
  }

  // ---------------------------------------------------------------- alternatives

  lemma CopySpoken(f: Function, k: nat, first: Step, rest: seq<Step>, m: string, i: nat, e1: nat, v: View, v1: View,
      w1: bool, e: nat, v': View, w2: bool)
    requires k < |Body(f)| && Body(f)[k] == Copy(first, rest)
    requires Does(first, m, i, e1, v, v1, w1) && Goes(rest, 0, m, e1, e, v1, v', w2)
    ensures i <= |m| && Spoken(EvalAlt(f, k, m, i), e, v, v', w1 || w2)
  {
    hide Body, EvalStep, EvalSteps, EvalAlt, Shown, Shuts, Below, Sound, Forwards, Rank;
    FirstIsBelow(f, k, first, rest);
    CopyStep(f, k, first, rest, m, i, 0);
    StepAnyRank(first, m, i, Rank(f));
    AndSpoken(EvalStep(first, m, i, TOP), e1, v, v1, w1, EvalSteps(rest, 0, m, e1), e, v', w2);
  }

  lemma FirstIsBelow(f: Function, k: nat, first: Step, rest: seq<Step>)
    requires k < |Body(f)| && Body(f)[k] == Copy(first, rest)
    ensures Below(first, Rank(f)) && Below(first, TOP)
  {
    hide Body, Below, Rank;
    NoLeftRecursion(f, k);
    BelowTop(first);
  }

  predicate AltFails(f: Function, k: nat, m: string, i: nat) {
    k < |Body(f)| && i <= |m| && Fails(EvalAlt(f, k, m, i))
  }

  /** The n-th alternative is the first that does not fail. */
  lemma {:induction false} ChooseFrom(f: Function, k: nat, n: nat, m: string, i: nat, e: nat, v: View, v': View)
    requires i <= |m| && k <= n < |Body(f)| && forall j :: k <= j < n ==> AltFails(f, j, m, i)
    requires Spoken(EvalAlt(f, n, m, i), e, v, v', true)
    ensures Spoken(EvalAlts(f, k, m, i), e, v, v', true)
    decreases n - k
  {
    hide Body, EvalAlt, EvalAlts, Shown, Shuts, Fine;
    AltsStep(f, k, m, i, 0);
    if k < n {
      assert AltFails(f, k, m, i);
      ChooseFrom(f, k + 1, n, m, i, e, v, v');
      ElseSpoken(EvalAlt(f, k, m, i), EvalAlts(f, k + 1, m, i), e, v, v', true);
    }
  }

  lemma Choose(f: Function, n: nat, m: string, i: nat, e: nat, v: View, v': View)
    requires i + Needs(f) <= |m| && n < |Body(f)| && forall j :: 0 <= j < n ==> AltFails(f, j, m, i)
    requires Spoken(EvalAlt(f, n, m, i), e, v, v', true)
    ensures Says(f, m, i, e, v, v', true)
  {
    hide Body, EvalAlt, EvalAlts, Spoken, AltFails;
    ChooseFrom(f, 0, n, m, i, e, v, v');
  }

  // ---------------------------------------------------------------- failures

  lemma ChainFailsNow(rest: seq<Step>, j: nat, m: string, i: nat)
    requires i <= |m| && j < |rest| && Below(rest[j], TOP) && Fails(EvalStep(rest[j], m, i, TOP))
    ensures Fails(EvalSteps(rest, j, m, i))
  {
    hide EvalStep, EvalSteps;
    StepsStep(rest, j, m, i, 0);
  }

  lemma ChainFailsLater(rest: seq<Step>, j: nat, m: string, i: nat, e: nat)
    requires i <= |m| && e <= |m| && j < |rest| && Below(rest[j], TOP) && ReadsTo(EvalStep(rest[j], m, i, TOP), e)
    requires Fails(EvalSteps(rest, j + 1, m, e))
    ensures Fails(EvalSteps(rest, j, m, i))
  {
    hide EvalStep, EvalSteps;
    StepsStep(rest, j, m, i, 0);
  }

  lemma CopyFails(f: Function, k: nat, first: Step, rest: seq<Step>, m: string, i: nat)
    requires i <= |m| && k < |Body(f)| && Body(f)[k] == Copy(first, rest) && Below(first, TOP)
    requires Fails(EvalStep(first, m, i, TOP))
    ensures AltFails(f, k, m, i)
  {
    hide Body, EvalStep, EvalSteps, EvalAlt, Below, Rank;
    FirstIsBelow(f, k, first, rest);
    StepAnyRank(first, m, i, Rank(f));
    CopyStep(f, k, first, rest, m, i, 0);
  }

  lemma CopyFailsLater(f: Function, k: nat, first: Step, rest: seq<Step>, m: string, i: nat, e: nat)
    requires i <= |m| && e <= |m| && k < |Body(f)| && Body(f)[k] == Copy(first, rest) && Below(first, TOP)
    requires ReadsTo(EvalStep(first, m, i, TOP), e) && Fails(EvalSteps(rest, 0, m, e))
    ensures AltFails(f, k, m, i)
  {
    hide Body, EvalStep, EvalSteps, EvalAlt, Below, Rank;
    FirstIsBelow(f, k, first, rest);
    StepAnyRank(first, m, i, Rank(f));
    CopyStep(f, k, first, rest, m, i, 0);
  }

  lemma JustFails(f: Function, k: nat, g: Function, m: string, i: nat)
    requires i <= |m| && k < |Body(f)| && Body(f)[k] == Just(g) && Fails(Eval(g, m, i))
    ensures AltFails(f, k, m, i)
  {
    hide Body, Eval, EvalAlt;
    JustCallsWith(f, k, g, m, i, 0);
  }

  lemma JustSpoken(f: Function, k: nat, g: Function, m: string, i: nat, e: nat, v: View, v': View, w: bool)
    requires k < |Body(f)| && Body(f)[k] == Just(g) && Says(g, m, i, e, v, v', w)
    ensures i <= |m| && Spoken(EvalAlt(f, k, m, i), e, v, v', w)
  {
    hide Body, Eval, EvalAlt, Spoken;
    JustCallsWith(f, k, g, m, i, 0);
  }
}
