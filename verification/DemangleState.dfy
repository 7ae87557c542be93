/** The demangler of app/glog/src/demangle.cc at work: one mutable State, changed in place by the
    parse functions and put back from a saved copy when an alternative fails.

    Every method is proved to do what the grammar says: the answer and the new cursor are those of
    `Eval`, which knows only the mangled name and the old cursor, and the output state is the
    effect that `Eval` announces, run on the old output state. */
module DemangleState {
  import opened DemangleOutput
  import opened DemangleGrammar

  /** How the effects of a chain add up. */
  lemma Rules()
    ensures forall s {:trigger Exec(Skip, s)} :: InBuffer(s) ==> Exec(Skip, s) == s
    ensures forall a, b, s {:trigger Exec(Join(a, b), s)} :: InBuffer(s) ==> Exec(Join(a, b), s) == Exec(b, Exec(a, s))
    ensures forall a, s {:trigger Exec(Revert(a), s)} :: InBuffer(s) ==> Exec(Revert(a), s) == s.(buf := Exec(a, s).buf)
  {}

  /** How the brackets of a chain work. */
  lemma BracketRules()
    ensures forall a, s {:trigger Exec(Nest(a), s)} :: InBuffer(s) ==>
        Exec(Nest(a), s) == Exec(a, s.(nest := 0)).(nest := s.nest)
    ensures forall a, s {:trigger Exec(Quiet(a), s)} :: InBuffer(s) ==>
        Exec(Quiet(a), s) == Exec(a, s.(append := false)).(append := s.append)
    ensures forall s {:trigger Exec(Enter, s)} :: InBuffer(s) ==> Exec(Enter, s) == s.(nest := 0)
    ensures forall s {:trigger Exec(Mute, s)} :: InBuffer(s) ==> Exec(Mute, s) == s.(append := false)
  {}

  /** One round of ParsePrefix. */
  lemma RoundRules(e: Effect, s: Machine)
    requires InBuffer(s)
    ensures Exec(Slot(e), s) == Exec(Deeper, Exec(e, Separated(s)))
    ensures Exec(Blank(e), s) == Cancelled(Exec(Revert(e), Separated(s)))
  {
    assert Exec(Then(Separator, e), s) == Exec(e, Separated(s));
  }

  /** A failed call needs no copy: it has already put everything back. */
  lemma FailureUndoes(i: nat, r: Parse, s: Machine)
    requires r.Done? && !r.res.ok && Fine(i, r) && InBuffer(s)
    ensures Exec(r.res.eff, s) == Exec(Revert(r.res.eff), s)
  {
    NeutralRestores(r.res.eff, s);
  }

  /** The whole, begun in output state s, ends like the rest that is still to come, begun now. */
  predicate Follows(all: Parse, s: Machine, rest: Parse, now: Machine)
    requires InBuffer(s) && InBuffer(now)
  {
    && all.Done? && rest.Done? && all.res.ok == rest.res.ok && all.res.cur == rest.res.cur
    && Exec(all.res.eff, s) == Exec(rest.res.eff, now)
  }

  lemma FollowsItself(all: Parse, s: Machine)
    requires InBuffer(s) && all.Done?
    ensures Follows(all, s, all, s)
  {}

  lemma FollowsEnds(all: Parse, s: Machine, rest: Parse, now: Machine)
    requires InBuffer(s) && InBuffer(now) && Follows(all, s, rest, now)
    ensures all.Done? && rest.Done? && all.res.ok == rest.res.ok && all.res.cur == rest.res.cur
    ensures Exec(all.res.eff, s) == Exec(rest.res.eff, now)
  {}

  lemma AndFollows(all: Parse, s: Machine, p: Parse, q: Parse, now: Machine)
    requires InBuffer(s) && InBuffer(now) && p.Ok() && Follows(all, s, And(p, q), now)
    ensures Follows(all, s, q, Exec(p.res.eff, now))
  {
    hide Exec;
    Rules();
  }

  lemma ElseFollows(all: Parse, s: Machine, i: nat, p: Parse, q: Parse, now: Machine)
    requires InBuffer(s) && InBuffer(now) && p.Done? && !p.res.ok && Fine(i, p) && Follows(all, s, Else(p, q), now)
    ensures Follows(all, s, q, Exec(p.res.eff, now))
  {
    hide Exec, Neutral;
    Rules();
    FailureUndoes(i, p, now);
  }

  class State {
    const mangled: string
    const out: array<char>
    var cur: nat
    var outCur: nat
    var prev: nat
    var prevLen: int
    var nest: int
    var append: bool
    var overflowed: bool

    function Output(): (s: Machine)
      reads `outCur, `prev, `prevLen, `nest, `append, `overflowed, out
      ensures |s.buf| == out.Length
    {
      Machine(out[..], outCur, prev, prevLen, nest, append, overflowed)
    }

    ghost predicate Valid()
      reads this, out
    {
      cur <= |mangled| && '\0' !in mangled && InBuffer(Output())
    }

    /** The call ended as r says, from output state s. */
    ghost predicate Meets(r: Parse, s: Machine, ok: bool)
      requires InBuffer(s)
      reads this, out
    {
      && Valid() && r.Done?
      && ok == r.res.ok && cur == r.res.cur
      && Output() == Exec(r.res.eff, s)
    }

    constructor (mangled: string, out: array<char>)
      requires '\0' !in mangled
      ensures Valid() && this.mangled == mangled && this.out == out && cur == 0
      ensures Output() == Machine(out[..], 0, 0, -1, -1, true, false)
    {
      this.mangled, this.out := mangled, out;
      cur, outCur, prev, prevLen, nest, append, overflowed := 0, 0, 0, -1, -1, true, false;
    }

    /** *state = copy: every field, but not the buffer that the fields point into. */
    method Restore(at: nat, copy: Machine)
      requires Valid() && at <= |mangled| && InBuffer(copy) && |copy.buf| == out.Length
      modifies this
      ensures Valid() && cur == at && Output() == copy.(buf := old(Output()).buf)
    {
      cur, outCur, prev, prevLen, nest := at, copy.outCur, copy.prev, copy.prevLen, copy.nest;
      append, overflowed := copy.append, copy.overflowed;
    }

    // -------------------------------------------------------------- output

    method Append(src: Source, n: nat)
      requires Valid() && n > 0
      modifies `outCur, `overflowed, out
      ensures Valid() && Output() == AppendFrom(old(Output()), src, 0, n)
    {
      var i := 0;
      while i < n
        invariant i <= n && InBuffer(Output())
        invariant AppendFrom(old(Output()), src, 0, n) == AppendFrom(Output(), src, i, n)
        invariant i > 0 ==> outCur < out.Length
      {
        if outCur + 1 < out.Length {
          ghost var s := Output();
          var c := match src case Const(str) => if i < |str| then str[i] else '\0'
                             case Output(pos) => if pos + i < out.Length then out[pos + i] else '\0';
          out[outCur] := c;
          outCur := outCur + 1;
          assert Output() == s.(buf := s.buf[s.outCur := c], outCur := s.outCur + 1);
        } else {
          overflowed := true;
          break;
        }
        i := i + 1;
      }
      if !overflowed {
        ghost var s := Output();
        out[outCur] := '\0';
        assert Output() == s.(buf := s.buf[s.outCur := '\0']);
      }
    }

    method MaybeAppendWithLength(src: Source, n: int)
      requires Valid()
      modifies `outCur, `overflowed, `prev, `prevLen, out
      ensures Valid() && Output() == MaybeAppend(old(Output()), src, n)
    {
      if append && n > 0 {
        var c := match src case Const(str) => if 0 < |str| then str[0] else '\0'
                           case Output(pos) => if pos < out.Length then out[pos] else '\0';
        if c == '<' && 0 < outCur && out[outCur - 1] == '<' {
          Append(Const(" "), 1);
        }
        if IsAlpha(c) || c == '_' {
          prev, prevLen := outCur, n;
        }
        Append(src, n);
      }
    }

    method Say(str: string)
      requires Valid()
      modifies `outCur, `overflowed, `prev, `prevLen, out
      ensures Valid() && Output() == Exec(Emit(str), old(Output()))
    {
      if append {
        MaybeAppendWithLength(Const(str), |str|);
      }
    }

    /** MaybeAppendWithLength(state, prev_name, prev_name_length) */
    method AppendPrevName(name: nat, len: int)
      requires Valid() && name == prev && len == prevLen
      modifies `outCur, `overflowed, `prev, `prevLen, out
      ensures Valid() && Output() == Exec(EmitPrev, old(Output()))
    {
      MaybeAppendWithLength(DemangleOutput.Output(name), len);
    }

    method MaybeIncreaseNestLevel()
      requires Valid()
      modifies `nest
      ensures Valid() && Output() == Exec(Deeper, old(Output()))
    {
      if nest > -1 {
        nest := if nest == SHORT_MAX then -SHORT_MAX - 1 else nest + 1;
      }
    }

    method MaybeAppendSeparator()
      requires Valid()
      modifies `outCur, `overflowed, `prev, `prevLen, out
      ensures Valid() && Output() == Separated(old(Output()))
    {
      if nest >= 1 {
        Say("::");
      }
    }

    method MaybeCancelLastSeparator()
      requires Valid()
      modifies `outCur, out
      ensures Valid() && Output() == Cancelled(old(Output()))
    {
      if nest >= 1 && append && 2 <= outCur {
        outCur := outCur - 2;
        out[outCur] := '\0';
      }
    }

    // -------------------------------------------------------------- tokens

    method ParseOneCharToken(c: char) returns (ok: bool)
      requires Valid()
      modifies `cur
      ensures Meets(EvalLeaf(Char(c), mangled, old(cur)), old(Output()), ok)
    {
      ok := Has(mangled, cur, c);
      if ok { cur := cur + 1; }
    }

    method ParseTwoCharToken(a: char, b: char) returns (ok: bool)
      requires Valid()
      modifies `cur
      ensures Meets(EvalLeaf(Two(a, b), mangled, old(cur)), old(Output()), ok)
    {
      ok := Has2(mangled, cur, a, b);
      if ok { cur := cur + 2; }
    }

    method ParseCharClass(cs: string) returns (ok: bool)
      requires Valid()
      modifies `cur
      ensures Meets(EvalLeaf(Class(cs), mangled, old(cur)), old(Output()), ok)
    {
      var p := 0;
      while p < |cs|
        invariant p <= |cs| && cur == old(cur)
        invariant !HasClass(mangled, cur, cs[..p])
      {
        if Has(mangled, cur, cs[p]) {
          cur := cur + 1;
          return true;
        }
        p := p + 1;
      }
      return false;
    }

    /** Where a run of characters of one class ends. */
    method ScanRun(from: nat, inClass: char -> bool) returns (p: nat)
      requires from <= |mangled|
      ensures p == RunEnd(mangled, from, inClass)
    {
      p := from;
      while p < |mangled|
        invariant from <= p <= |mangled|
        invariant RunEnd(mangled, from, inClass) == RunEnd(mangled, p, inClass)
      {
        if !inClass(mangled[p]) { break; }
        p := p + 1;
      }
    }

    /** The value is -1, as the callers preset it, when no number is found. */
    method ParseNumber() returns (ok: bool, value: int)
      requires Valid()
      modifies `cur
      ensures Valid() && Numeral(ok, cur, value) == ReadNumber(mangled, old(cur))
      ensures Output() == old(Output())
    {
      var sign := 1;
      var negative := ParseOneCharToken('n');
      if negative { sign := -1; }
      assert Output() == old(Output());
      var p, number := cur, 0;
      ghost var e := RunEnd(mangled, cur, IsDigit);
      while p < |mangled|
        invariant cur <= p <= e
        invariant RunEnd(mangled, p, IsDigit) == e
        invariant DigitsValue(mangled, cur, e, 0) == DigitsValue(mangled, p, e, number)
      {
        if IsDigit(mangled[p]) {
          number := Wrap32(number * 10 + DigitValue(mangled[p]));
        } else {
          break;
        }
        p := p + 1;
      }
      assert p == e;
      if p != cur {
        cur := p;
        return true, Wrap32(sign * number);
      }
      return false, -1;
    }

    method AtLeastNumCharsRemaining(n: int) returns (r: bool)
      requires Valid()
      ensures r == (cur + n <= |mangled|)
    {
      var i := 0;
      while i < n
        invariant 0 <= i && (i <= n || n < 0) && cur + i <= |mangled|
      {
        if At(mangled, cur + i) == '\0' { return false; }
        i := i + 1;
      }
      return true;
    }

    method IdentifierIsAnonymousNamespace(len: int) returns (r: bool)
      requires Valid() && cur + len <= |mangled|
      ensures r == IsAnonymous(mangled, cur, len)
    {
      if len <= 11 { return false; }
      var i := 0;
      while i < |ANONYMOUS| && At(mangled, cur + i) == ANONYMOUS[i]
        invariant i <= |ANONYMOUS| && cur + i <= |mangled|
        invariant forall j :: 0 <= j < i ==> mangled[cur + j] == ANONYMOUS[j]
      {
        i := i + 1;
      }
      r := i == |ANONYMOUS|;
      assert r ==> ANONYMOUS == mangled[cur..][..i];
      assert !r ==> cur + i == |mangled| || mangled[cur..][i] != ANONYMOUS[i];
    }

    /** A length below -1 appends nothing and moves the cursor back. */
    method ParseIdentifier(len: int, ghost b: nat) returns (ok: bool)
      requires Valid() && Identifier(mangled, cur, len, b).Done?
      modifies this, out
      ensures Meets(Identifier(mangled, old(cur), len, b), old(Output()), ok)
    {
      if len == -1 { return false; }
      var enough := AtLeastNumCharsRemaining(len);
      if !enough { return false; }
      var anonymous := IdentifierIsAnonymousNamespace(len);
      if anonymous {
        Say("(anonymous namespace)");
      } else {
        MaybeAppendWithLength(Const(if len >= 0 then mangled[cur..cur + len] else ""), len);
      }
      cur := cur + len;
      return true;
    }

    /** The scan of kOperatorList. */
    method ScanOperators(list: seq<Abbrev>) returns (ok: bool)
      requires Valid()
      modifies this, out
      ensures Meets(OperatorIn(list, mangled, old(cur)), old(Output()), ok)
    {
      if !(IsLower(At(mangled, cur)) && IsAlpha(At(mangled, cur + 1))) {
        return false;
      }
      ghost var fits := p => FitsOperator(mangled, old(cur), p);
      var k := 0;
      while k < |list|
        invariant k <= |list| && cur == old(cur) && Output() == old(Output())
        invariant Find(list, 0, fits) == Find(list, k, fits)
      {
        if At(mangled, cur) == list[k].a && At(mangled, cur + 1) == list[k].b {
          Say("operator");
          if IsLower(At(list[k].name, 0)) {
            Say(" ");
          }
          Say(list[k].name);
          cur := cur + 2;
          return true;
        }
        k := k + 1;
      }
      return false;
    }

    /** The scan of kBuiltinTypeList. */
    method ScanBuiltinTypes(list: seq<Abbrev>) returns (ok: bool)
      requires Valid()
      modifies this, out
      ensures Meets(BuiltinIn(list, mangled, old(cur)), old(Output()), ok)
    {
      ghost var fits := p => FitsType(mangled, old(cur), p);
      var k := 0;
      while k < |list|
        invariant k <= |list| && cur == old(cur) && Output() == old(Output())
        invariant Find(list, 0, fits) == Find(list, k, fits)
      {
        if Has(mangled, cur, list[k].a) {
          Say(list[k].name);
          cur := cur + 1;
          return true;
        }
        k := k + 1;
      }
      return false;
    }

    /** The scan of kSubstitutionList, after its 'S'. */
    method ScanSubstitutions(list: seq<Abbrev>) returns (ok: bool)
      requires Valid()
      modifies this, out
      ensures Meets(SubstitutionIn(list, mangled, old(cur)), old(Output()), ok)
    {
      ghost var fits := p => FitsSubstitution(mangled, old(cur), p);
      var k := 0;
      while k < |list|
        invariant k <= |list| && cur == old(cur) && Output() == old(Output())
        invariant Find(list, 0, fits) == Find(list, k, fits)
      {
        if Has(mangled, cur, list[k].b) {
          Say("std");
          if list[k].name != "" {
            Say("::");
            Say(list[k].name);
          }
          cur := cur + 1;
          return true;
        }
        k := k + 1;
      }
      return false;
    }

    /** [r] [V] [K], not all missing. */
    method ParseQualifiers() returns (ok: bool)
      requires Valid()
      modifies `cur
      ensures Meets(EvalLeaf(Qualifiers, mangled, old(cur)), old(Output()), ok)
    {
      var r := ParseOneCharToken('r');
      var v := ParseOneCharToken('V');
      var k := ParseOneCharToken('K');
      ok := (if r then 1 else 0) + (if v then 1 else 0) + (if k then 1 else 0) > 0;
    }

    method ParseLeaf(s: Step, ghost b: nat) returns (ok: bool)
      requires Valid() && IsLeaf(s) && EvalLeaf(s, mangled, cur, b).Done?
      modifies this, out
      ensures Meets(EvalLeaf(s, mangled, old(cur), b), old(Output()), ok)
    {
      hide OPERATORS, BUILTIN_TYPES, SUBSTITUTIONS, MaybeAppend, OperatorIn, BuiltinIn, SubstitutionIn;
      match s {
        case Char(c) => ok := ParseOneCharToken(c);
        case Two(c, d) => ok := ParseTwoCharToken(c, d);
        case Class(cs) => ok := ParseCharClass(cs);
        case Number => var value; ok, value := ParseNumber();
        case Float => var p := ScanRun(cur, IsLowerHex); ok := p != cur; cur := p;
        case SeqId => var p := ScanRun(cur, IsBase36); ok := p != cur; cur := p;
        case Length =>
          var length;
          ok, length := ParseNumber();
          if ok { ok := ParseIdentifier(length, b); }
        case Operators => ok := ScanOperators(OPERATORS);
        case Builtins => ok := ScanBuiltinTypes(BUILTIN_TYPES);
        case Substitutions => ok := ScanSubstitutions(SUBSTITUTIONS);
        case Qualifiers => ok := ParseQualifiers();
        case Say(str) => Say(str); ok := true;
        case SayPrev => AppendPrevName(prev, prevLen); ok := true;
        case OptChar(c) => var found := ParseOneCharToken(c); ok := true;
      }
    }

    // -------------------------------------------------------------- the parse functions

    method Parse(f: Function, ghost b: nat) returns (ok: bool)
      requires Valid() && Eval(f, mangled, cur, b).Done?
      modifies this, out
      ensures Meets(Eval(f, mangled, old(cur), b), old(Output()), ok)
      decreases b, |mangled| - cur + 1, Rank(f), 4, 0
    {
      hide Exec, Body, Balanced, Neutral, Fine, Rank, EvalAlt, EvalAlts, Sound, Forwards, Follows;
      Rules();
      var enough := AtLeastNumCharsRemaining(Needs(f));
      if !enough { return false; }
      ghost var i, s, all := cur, Output(), EvalAlts(f, 0, mangled, cur, b);
      FollowsItself(all, s);
      var k := 0;
      while k < |Body(f)|
        invariant k <= |Body(f)| && Valid() && cur == i
        invariant Follows(all, s, EvalAlts(f, k, mangled, i, b), Output())
      {
        ghost var p, s1 := EvalAlt(f, k, mangled, i, b), Output();
        FollowsEnds(all, s, EvalAlts(f, k, mangled, i, b), s1);
        AltsStep(f, k, mangled, i, b);
        ok := ParseAlt(f, k, b);
        if ok { return true; }
        ElseFollows(all, s, i, p, EvalAlts(f, k + 1, mangled, i, b), s1);
        k := k + 1;
      }
      AltsStep(f, k, mangled, i, b);
      FollowsEnds(all, s, EvalAlts(f, k, mangled, i, b), Output());
      return false;
    }

    method ParseAlt(f: Function, k: nat, ghost b: nat) returns (ok: bool)
      requires Valid() && k < |Body(f)| && EvalAlt(f, k, mangled, cur, b).Done?
      modifies this, out
      ensures Meets(EvalAlt(f, k, mangled, old(cur), b), old(Output()), ok)
      ensures !ok ==> cur == old(cur)
      decreases b, |mangled| - cur + 1, Rank(f), 2, 0
    {
      hide Exec, Body, Balanced, Neutral, Rank, Below, Sound, EvalStep, EvalSteps, EvalLeaf;
      Rules();
      NoLeftRecursion(f, k);
      match Body(f)[k] {
        case Copy(first, rest) =>
          var copy, at := Output(), cur;
          ghost var back := EvalStep(first, mangled, cur, Rank(f), b).Back();
          ok := ParseStep(first, Rank(f), b);
          if ok { ok := ParseSteps(rest, b - back); }
          if ok { return true; }
          Restore(at, copy);
        case Just(g) =>
          ok := Parse(g, b);
        case Token(t, say) =>
          LeafIsSound(t, mangled, cur, b);
          ok := ParseLeaf(t, b);
          if ok && say != "" { Say(say); }
      }
    }

    method ParseSteps(rest: seq<Step>, ghost b: nat) returns (ok: bool)
      requires Valid() && EvalSteps(rest, 0, mangled, cur, b).Done?
      modifies this, out
      ensures Meets(EvalSteps(rest, 0, mangled, old(cur), b), old(Output()), ok)
      decreases b, |mangled| - cur + 1, TOP, 2, |rest|
    {
      hide Exec, Balanced, Neutral, Sound, EvalStep, EvalSteps, Follows;
      Rules();
      ghost var s, all := Output(), EvalSteps(rest, 0, mangled, cur, b);
      FollowsItself(all, s);
      ghost var left: nat := b;
      var j := 0;
      while j < |rest|
        invariant j <= |rest| && Valid() && left <= b && (left == b ==> old(cur) <= cur)
        invariant Follows(all, s, EvalSteps(rest, j, mangled, cur, left), Output())
      {
        ghost var p, s1 := EvalStep(rest[j], mangled, cur, TOP, left), Output();
        FollowsEnds(all, s, EvalSteps(rest, j, mangled, cur, left), s1);
        StepsStep(rest, j, mangled, cur, left);
        ok := ParseStep(rest[j], TOP, left);
        if !ok { return false; }
        AndFollows(all, s, p, EvalSteps(rest, j + 1, mangled, cur, left - p.Back()), s1);
        left := left - p.Back();
        j := j + 1;
      }
      FollowsEnds(all, s, EvalSteps(rest, j, mangled, cur, left), Output());
      NoStepsLeft(rest, mangled, cur, left);
      return true;
    }

    method ParseStep(s: Step, ghost r: nat, ghost b: nat) returns (ok: bool)
      requires Valid() && Below(s, r) && EvalStep(s, mangled, cur, r, b).Done?
      modifies this, out
      ensures Meets(EvalStep(s, mangled, old(cur), r, b), old(Output()), ok)
      decreases b, |mangled| - cur + 1, r, 1, 1
    {
      hide Exec, Balanced, Neutral, Sound, Eval, EvalMany, EvalLeaf;
      Rules();
      if IsLeaf(s) {
        ok := ParseLeaf(s, b);
      } else if s.Nested? || s.NestedPrefix? {
        ok := ParseNested(s, r, b);
      } else if IsBracket(s) {
        ok := ParseQuietly(s, r, b);
      } else if s.Opt? {
        ghost var o := Output();
        ok := Parse(s.f, b);
        if !ok { FailureUndoes(old(cur), Eval(s.f, mangled, old(cur), b), o); }
        ok := true;
      } else if s.Many? {
        ok := ZeroOrMore(s.f, b);
      } else if s.Call? {
        ok := Parse(s.f, b);
      } else {
        ok := ParseMangledName(b);
      }
    }

    method ParseMangledName(ghost b: nat) returns (ok: bool)
      requires Valid() && EvalStep(Mangled, mangled, cur, TOP, b).Done?
      modifies this, out
      ensures Meets(EvalStep(Mangled, mangled, old(cur), TOP, b), old(Output()), ok)
      decreases b, |mangled| - cur + 1, 0, 0, 0
    {
      hide Exec, Balanced, Neutral, Sound, Eval;
      Rules();
      ok := ParseTwoCharToken('_', 'Z');
      if ok { ok := Parse(Encoding, b); }
    }

    /** EnterNestedName ... LeaveNestedName */
    method ParseNested(s: Step, ghost r: nat, ghost b: nat) returns (ok: bool)
      requires Valid() && Below(s, r) && (s.Nested? || s.NestedPrefix?) && EvalStep(s, mangled, cur, r, b).Done?
      modifies this, out
      ensures Meets(EvalStep(s, mangled, old(cur), r, b), old(Output()), ok)
      decreases b, |mangled| - cur + 1, r, 1, 0
    {
      Rules();
      BracketRules();
      hide Exec, Balanced, Neutral, Sound, Eval, EvalPrefix, Skip1;
      var level := nest;
      nest := 0;
      if s.Nested? {
        ok := Parse(s.f, b);
      } else {
        var qualified := ParseQualifiers();
        ok := ParsePrefix(b);
      }
      if ok { nest := level; }
    }

    /** DisableAppend ... RestoreAppend */
    method ParseQuietly(s: Step, ghost r: nat, ghost b: nat) returns (ok: bool)
      requires Valid() && Below(s, r) && (s.Quietly? || s.QuietTypes? || s.QuietArgs?)
          && EvalStep(s, mangled, cur, r, b).Done?
      modifies this, out
      ensures Meets(EvalStep(s, mangled, old(cur), r, b), old(Output()), ok)
      decreases b, |mangled| - cur + 1, r, 1, 0
    {
      Rules();
      BracketRules();
      hide Exec, Balanced, Neutral, Sound, Eval, EvalOneOrMore, EvalArguments;
      var flag := append;
      append := false;
      if s.Quietly? {
        ok := Parse(s.f, b);
      } else if s.QuietTypes? {
        ok := OneOrMore(Type, b);
      } else {
        ok := ParseArguments(b);
      }
      if ok { append := flag; }
    }

    method ZeroOrMore(f: Function, ghost b: nat) returns (ok: bool)
      requires Valid() && EvalMany(f, mangled, cur, b).Done?
      modifies this, out
      ensures Meets(EvalMany(f, mangled, old(cur), b), old(Output()), ok) && ok
      decreases b, |mangled| - cur + 1, Rank(f) + 1, 0, 0
    {
      hide Exec, Balanced, Neutral, Sound, Eval, EvalMany, Rank, Follows;
      Rules();
      ghost var s, all := Output(), EvalMany(f, mangled, cur, b);
      FollowsItself(all, s);
      ghost var left: nat := b;
      while true
        invariant Valid() && left <= b && (left == b ==> old(cur) <= cur)
        invariant Follows(all, s, EvalMany(f, mangled, cur, left), Output())
        decreases left, |mangled| - cur
      {
        ghost var i, s1, p := cur, Output(), Eval(f, mangled, cur, left);
        FollowsEnds(all, s, EvalMany(f, mangled, i, left), s1);
        ManyStep(f, mangled, i, left);
        var more := Parse(f, left);
        if !more {
          FailureUndoes(i, p, s1);
          return true;
        }
        AndFollows(all, s, p, EvalMany(f, mangled, cur, left - p.Back()), s1);
        left := left - p.Back();
      }
    }

    method OneOrMore(f: Function, ghost b: nat) returns (ok: bool)
      requires Valid() && EvalOneOrMore(f, mangled, cur, b).Done?
      modifies this, out
      ensures Meets(EvalOneOrMore(f, mangled, old(cur), b), old(Output()), ok)
      decreases b, |mangled| - cur + 1, Rank(f) + 1, 0, 0
    {
      hide Exec, Balanced, Neutral, Sound, Eval, EvalMany, Rank;
      Rules();
      ghost var back := Eval(f, mangled, cur, b).Back();
      ok := Parse(f, b);
      if ok { ok := ZeroOrMore(f, b - back); }
    }

    method ParseArguments(ghost b: nat) returns (ok: bool)
      requires Valid() && EvalArguments(mangled, cur, b).Done?
      modifies this, out
      ensures Meets(EvalArguments(mangled, old(cur), b), old(Output()), ok)
      decreases b, |mangled| - cur + 1, 0, 0, 0
    {
      hide Exec, Balanced, Neutral, Sound, EvalOneOrMore;
      Rules();
      ok := ParseOneCharToken('I');
      if ok { ok := OneOrMore(TemplateArg, b); }
      if ok { ok := ParseOneCharToken('E'); }
    }

    method ParseComponent(ghost b: nat) returns (ok: bool)
      requires Valid() && EvalComponent(mangled, cur, b).Done?
      modifies this, out
      ensures Meets(EvalComponent(mangled, old(cur), b), old(Output()), ok)
      decreases b, |mangled| - cur + 1, Rank(UnscopedName) + 1, 0, 0
    {
      hide Exec, Balanced, Neutral, Sound, Eval;
      Rules();
      ghost var i, s := cur, Output();
      ok := Parse(TemplateParam, b);
      if ok { return true; }
      FailureUndoes(i, Eval(TemplateParam, mangled, i, b), s);
      ghost var s1 := Output();
      ok := Parse(Substitution, b);
      if ok { return true; }
      FailureUndoes(i, Eval(Substitution, mangled, i, b), s1);
      ok := Parse(UnscopedName, b);
    }

    /** One round of ParsePrefix: a separator and a component, or the separator taken back. */
    method ParseSlot(ghost b: nat) returns (found: bool)
      requires Valid() && EvalComponent(mangled, cur, b).Done?
      modifies this, out
      ensures var r := EvalComponent(mangled, old(cur), b).res;
        && Valid() && found == r.ok && cur == r.cur
        && Output() == Exec(if found then Slot(r.eff) else Blank(r.eff), old(Output()))
      decreases b, |mangled| - cur + 1, Rank(UnscopedName) + 1, 0, 1
    {
      hide Exec, Separated, Cancelled, Slot, Balanced, Neutral, Sound, EvalComponent;
      Rules();
      ghost var i, s := cur, Output();
      RoundRules(EvalComponent(mangled, i, b).res.eff, s);
      MaybeAppendSeparator();
      found := ParseComponent(b);
      if found {
        MaybeIncreaseNestLevel();
      } else {
        FailureUndoes(i, EvalComponent(mangled, i, b), Separated(s));
        MaybeCancelLastSeparator();
      }
    }

    method ParsePrefix(ghost b: nat) returns (ok: bool)
      requires Valid() && EvalPrefix(mangled, cur, false, b).Done?
      modifies this, out
      ensures Meets(EvalPrefix(mangled, old(cur), false, b), old(Output()), ok) && ok
      decreases b, |mangled| - cur + 1, Rank(UnscopedName) + 1, 0, 2
    {
      hide Exec, Slot, Balanced, Neutral, Sound, EvalComponent, Eval, EvalPrefix, Follows;
      Rules();
      ghost var s, all := Output(), EvalPrefix(mangled, cur, false, b);
      FollowsItself(all, s);
      ghost var left: nat := b;
      var hasSomething := false;
      while true
        invariant Valid() && left <= b && (left == b ==> old(cur) <= cur && (hasSomething ==> old(cur) < cur))
        invariant Follows(all, s, EvalPrefix(mangled, cur, hasSomething, left), Output())
        decreases left, |mangled| - cur
      {
        ghost var i, s1, p := cur, Output(), EvalComponent(mangled, cur, left);
        FollowsEnds(all, s, EvalPrefix(mangled, i, hasSomething, left), s1);
        PrefixRound(mangled, i, hasSomething, left);
        var found := ParseSlot(left);
        if found {
          AndFollows(all, s, SlotOf(p), EvalPrefix(mangled, cur, true, left - p.Back()), s1);
          hasSomething := true;
          left := left - p.Back();
          continue;
        }
        if !hasSomething { return true; }
        ghost var s2, q := Output(), Eval(TemplateArgs, mangled, i, left);
        var args := Parse(TemplateArgs, left);
        if args {
          AndFollows(all, s, And(SlotOf(p), q), EvalPrefix(mangled, cur, false, left - q.Back()), s1);
          FollowsEnds(all, s, EvalPrefix(mangled, cur, false, left - q.Back()), Output());
          ok := ParsePrefix(left - q.Back());
          return ok;
        }
        FailureUndoes(i, q, s2);
        return true;
      }
    }

    // -------------------------------------------------------------- the entry point

    method IsFunctionCloneSuffix() returns (r: bool)
      requires Valid()
      ensures r == IsCloneSuffix(mangled, cur)
    {
      hide IsCloneSuffix;
      var i := cur;
      while i < |mangled|
        invariant cur <= i <= |mangled|
        invariant IsCloneSuffix(mangled, cur) == IsCloneSuffix(mangled, i)
      {
        CloneSuffixStep(mangled, i);
        if mangled[i] != '.' || !IsAlpha(At(mangled, i + 1)) { return false; }
        var j := ScanRun(i + 2, IsAlpha);
        if At(mangled, j) != '.' || !IsDigit(At(mangled, j + 1)) { return false; }
        i := ScanRun(j + 2, IsDigit);
      }
      CloneSuffixStep(mangled, i);
      return true;
    }

    method ParseTopLevelMangledName(ghost b: nat) returns (ok: bool)
      requires Valid() && cur == 0 && TopLevel(mangled, b).Done?
      modifies this, out
      ensures Meets(TopLevel(mangled, b), old(Output()), ok)
    {
      hide Exec, Balanced, Neutral, Sound, EvalStep, IsCloneSuffix;
      Rules();
      ok := ParseStep(Mangled, TOP, b);
      if ok && cur < |mangled| {
        var clone := IsFunctionCloneSuffix();
        if clone { return true; }
        if mangled[cur] == '@' {
          Say(mangled[cur..]);
          return true;
        }
        return false;
      }
    }
  }
}
