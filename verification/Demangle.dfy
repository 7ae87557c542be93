/** The entry point of the demangler and what it promises. */
module Demangler {
  import opened DemangleOutput
  import opened DemangleGrammar
  import opened DemangleState
  import opened DemangleAllowance

  /** The C program comes to an end on m without leaving the name on the left.  Names in which no length
      below -1 is read do (with allowance 0). */
  ghost predicate Ends(m: string) { exists b: nat :: TopLevel(m, b).Done? }

  /** How it ends; by AllowanceDoesNotMatter there is only one such outcome. */
  ghost function Result(m: string): Outcome
    requires Ends(m)
  {
    var b: nat :| TopLevel(m, b).Done?;
    TopLevel(m, b).res
  }

  ghost predicate Recognised(m: string) { Ends(m) && Result(m).ok }

  /** InitState on a buffer, and on a tape. */
  function Fresh(buf: seq<char>): Machine { Machine(buf, 0, 0, -1, -1, true, false) }
  const EMPTY_TAPE := Tape([], 0, 0, -1, -1, true)

  /** All that is ever written for m, with nothing in the way. */
  ghost function Written(m: string): Tape
    requires Ends(m)
  {
    Write(Result(m).eff, EMPTY_TAPE)
  }

  /** The bytes that the longest attempt for m needs. */
  ghost function Need(m: string): nat
    requires Ends(m)
  {
    |Written(m).bytes|
  }

  lemma ResultIs(m: string, b: nat)
    requires TopLevel(m, b).Done?
    ensures Ends(m) && Result(m) == TopLevel(m, b).res
  {
    hide TopLevel;
    var c: nat :| TopLevel(m, c).Done? && Result(m) == TopLevel(m, c).res;
    AllowanceDoesNotMatter(m, b, c);
  }

  /** Where no length below -1 can be read, the C program comes to an end. */
  lemma ForwardsEnds(m: string)
    requires Forwards(m)
    ensures Ends(m)
  {
    hide Forwards;
    assert TopLevel(m, 0).Done?;
  }

  /** Demangle(mangled, out, out_size). */
  method Demangle(mangled: string, out: array<char>) returns (ok: bool)
    requires '\0' !in mangled && Ends(mangled)
    modifies out
    ensures ok <==> Recognised(mangled) && !Exec(Result(mangled).eff, Fresh(old(out[..]))).overflowed
    ensures Need(mangled) <= out.Length ==> ok == Recognised(mangled) && Written(mangled).bytes <= out[..]
  {
    hide TopLevel, Exec, Write, Spills;
    var state := new State(mangled, out);
    ghost var b: nat :| TopLevel(mangled, b).Done?;
    ResultIs(mangled, b);
    ghost var s := Fresh(old(out[..]));
    assert Same(s, EMPTY_TAPE);
    ok := state.ParseTopLevelMangledName(b);
    ok := ok && !state.overflowed;
    MachineFollowsTape(Result(mangled).eff, s, EMPTY_TAPE);
  }

  /** No attempted alternative overflows exactly when the buffer holds Need(m) bytes; any two such
      buffers get the same bytes. */
  lemma SizeDoesNotMatter(m: string, buf1: seq<char>, buf2: seq<char>)
    requires Ends(m)
    ensures var e := Result(m).eff;
      && (Spills(e, Fresh(buf1)) <==> |buf1| < Need(m))
      && (Need(m) <= |buf1| && Need(m) <= |buf2| ==>
            Exec(e, Fresh(buf1)).buf[..Need(m)] == Exec(e, Fresh(buf2)).buf[..Need(m)])
  {
    var e := Result(m).eff;
    assert Same(Fresh(buf1), EMPTY_TAPE) && Same(Fresh(buf2), EMPTY_TAPE);
    MachineFollowsTape(e, Fresh(buf1), EMPTY_TAPE);
    MachineFollowsTape(e, Fresh(buf2), EMPTY_TAPE);
  }

  /** The convention of demangle.cc:460-466, for every function, name, position and output state. */
  lemma ConventionHolds(f: Function, m: string, i: nat, b: nat, s: Machine)
    requires i <= |m| && InBuffer(s) && Eval(f, m, i, b).Done?
    ensures var r := Eval(f, m, i, b).res; var s' := Exec(r.eff, s);
      if r.ok then (i < r.cur || r.back > 0) && r.cur <= |m| && s'.append == s.append && s'.nest == s.nest
      else r.cur == i && s' == s.(buf := s'.buf)
  {
    hide Eval, Exec, Balanced, Neutral;
    var r := Eval(f, m, i, b).res;
    if r.ok { BalancedRestores(r.eff, s); } else { NeutralRestores(r.eff, s); }
  }

  // ---------------------------------------------------------------- evaluating the table

  /** A chain of one step. */
  lemma LastStep(t: Step, m: string, i: nat, b: nat := 0)
    requires i <= |m|
    ensures EvalSteps([t], 0, m, i, b) == EvalStep(t, m, i, TOP, b)
  {
    hide EvalStep, EvalSteps;
    StepsStep([t], 0, m, i, b);
    var p := EvalStep(t, m, i, TOP, b);
    if p.Ok() { NoStepsLeft([t], m, p.Cur(), b - p.Back()); }
  }

  /** The only alternative of a function. */
  lemma OnlyAlternative(f: Function, m: string, i: nat, b: nat := 0)
    requires i <= |m| && Needs(f) == 0 && |Body(f)| == 1
    ensures EvalAlt(f, 0, m, i, b).Ok() ==> Eval(f, m, i, b) == EvalAlt(f, 0, m, i, b)
    ensures Eval(f, m, i, b).Ok() ==> EvalAlt(f, 0, m, i, b).Ok()
  {
    hide Body, EvalAlt;
    assert EvalAlts(f, 1, m, i, b) == No(i, Skip);
    var p := EvalAlt(f, 0, m, i, b);
    assert EvalAlts(f, 0, m, i, b) == if p.Rewinds? || p.Ok() then p else Else(p, EvalAlts(f, 1, m, i, b));
  }

  // ---------------------------------------------------------------- what is not printed

  /** A function whose only alternative silences its first step and then says something. */
  lemma SilencedAlternative(f: Function, first: Step, str: string, m: string, i: nat, b: nat)
    requires Needs(f) == 0 && Body(f) == [Copy(first, [Say(str)])] && (first.QuietTypes? || first.QuietArgs?)
    requires i <= |m| && Eval(f, m, i, b).Ok()
    ensures exists e :: Balanced(e) && Eval(f, m, i, b).res.eff == Then(Quiet(e), Emit(str))
  {
    hide Body, Forwards, Eval, EvalAlt, EvalSteps, EvalStep, Sound, Fine, Balanced, EvalOneOrMore, EvalArguments;
    NoLeftRecursion(f, 0);
    OnlyAlternative(f, m, i, b);
    SilencedEffect(f, first, str, m, i, b);
  }

  lemma SilencedStep(first: Step, m: string, i: nat, r: nat, b: nat) returns (q: Parse)
    requires (first.QuietTypes? || first.QuietArgs?) && i <= |m| && Below(first, r)
    ensures EvalStep(first, m, i, r, b) == Silently(q) && (q.Ok() ==> Balanced(q.res.eff))
  {
    hide Forwards, Fine, Balanced, EvalOneOrMore, EvalArguments, Rank;
    q := if first.QuietTypes? then EvalOneOrMore(Type, m, i, b) else EvalArguments(m, i, b);
  }

  lemma SaysLast(str: string, m: string, i: nat, b: nat)
    requires i <= |m|
    ensures EvalSteps([Say(str)], 0, m, i, b) == Yes(i, Emit(str))
  {
    LastStep(Say(str), m, i, b);
    assert EvalStep(Say(str), m, i, TOP, b) == Yes(i, Emit(str));
  }

  lemma SilencedEffect(f: Function, first: Step, str: string, m: string, i: nat, b: nat)
    requires Body(f) == [Copy(first, [Say(str)])] && (first.QuietTypes? || first.QuietArgs?)
    requires i <= |m| && EvalAlt(f, 0, m, i, b).Ok()
    ensures exists e :: Balanced(e) && EvalAlt(f, 0, m, i, b).res.eff == Then(Quiet(e), Emit(str))
  {
    hide Body, Forwards, EvalAlt, EvalStep, EvalSteps, Sound, Fine, Stays, Gains, Balanced, Rank, Below;
    NoLeftRecursion(f, 0);
    CopyStep(f, 0, first, [Say(str)], m, i, b);
    var q := SilencedStep(first, m, i, Rank(f), b);
    var p := EvalStep(first, m, i, Rank(f), b);
    SaysLast(str, m, p.Cur(), b - p.Back());
    assert Balanced(q.res.eff) && EvalAlt(f, 0, m, i, b).res.eff == Then(Quiet(q.res.eff), Emit(str));
  }

  predicate Adds(e: Effect, t: Tape, str: string)
    requires OnTape(t)
  {
    TextOf(Write(e, t)) == TextOf(t) + (if t.append then str else "")
  }

  lemma MaybePutText(t: Tape, str: string)
    requires OnTape(t) && |str| > 0
    ensures TextOf(MaybePut(t, str)) == TextOf(t)
      + (if t.append then (if str[0] == '<' && t.outCur > 0 && t.bytes[t.outCur - 1] == '<' then " " else "") + str
          else "")
  {
    hide Put;
  }

  lemma SilencedText(e: Effect, str: string, t: Tape)
    requires Balanced(e) && OnTape(t) && |str| > 0
    ensures Adds(Then(Quiet(e), Emit(str)), t,
                 (if str[0] == '<' && t.outCur > 0 && t.bytes[t.outCur - 1] == '<' then " " else "") + str)
  {
    hide MaybePut, Put, PutSpace, Balanced;
    QuietWritesNothing(e, t.(append := false));
    assert Write(Quiet(e), t) == t;
    assert Write(Then(Quiet(e), Emit(str)), t) == MaybePut(t, str);
    MaybePutText(t, str);
  }

  /** A parameter list, however long, is printed as "()". */
  lemma ParameterListIsParentheses(m: string, i: nat, b: nat, t: Tape)
    requires i <= |m| && Eval(BareFunctionType, m, i, b).Ok() && OnTape(t)
    ensures Adds(Eval(BareFunctionType, m, i, b).res.eff, t, "()")
  {
    SilencedAlternative(BareFunctionType, QuietTypes, "()", m, i, b);
    var e :| Balanced(e) && Eval(BareFunctionType, m, i, b).res.eff == Then(Quiet(e), Emit("()"));
    SilencedText(e, "()", t);
  }

  /** Template arguments are printed as "<>", with a space in front after a '<'. */
  lemma TemplateArgsAreBrackets(m: string, i: nat, b: nat, t: Tape)
    requires i <= |m| && Eval(TemplateArgs, m, i, b).Ok() && OnTape(t)
    ensures Adds(Eval(TemplateArgs, m, i, b).res.eff, t,
                 if t.outCur > 0 && t.bytes[t.outCur - 1] == '<' then " <>" else "<>")
  {
    SilencedAlternative(TemplateArgs, QuietArgs, "<>", m, i, b);
    var e :| Balanced(e) && Eval(TemplateArgs, m, i, b).res.eff == Then(Quiet(e), Emit("<>"));
    SilencedText(e, "<>", t);
  }
}
