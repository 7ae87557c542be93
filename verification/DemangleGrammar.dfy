/** The parse functions of app/glog/src/demangle.cc:481-1280, transcribed into the small language
    they are written in, and what a program of that language recognises.

    A parse function is a list of alternatives, tried in order.  Most are an `&&` chain of steps
    after "save a copy of the state", with the copy put back on failure; the others are a lone call
    or token, which puts everything back by itself.  `Body` gives each function in these terms.
    `Eval` says what it recognises: its answer, where it leaves the cursor and what it does to the
    output.  `Eval` cannot see the output. */
module DemangleGrammar {
  import opened DemangleOutput

  // ---------------------------------------------------------------- characters

  /** mangled_cur[0]: the terminator is read at the end. */
  function At(m: string, i: nat): char { if i < |m| then m[i] else '\0' }

  predicate Has(m: string, i: nat, c: char) { c != '\0' && At(m, i) == c }
  predicate Has2(m: string, i: nat, a: char, b: char) { Has(m, i, a) && Has(m, i + 1, b) }
  predicate HasClass(m: string, i: nat, cs: string) { At(m, i) != '\0' && At(m, i) in cs }

  /** The first position from i on whose character is not in the class. */
  function RunEnd(m: string, i: nat, inClass: char -> bool): (e: nat)
    requires i <= |m|
    ensures i <= e <= |m|
    ensures forall j :: i <= j < e ==> inClass(m[j])
    ensures e < |m| ==> !inClass(m[e])
    decreases |m| - i
  {
    if i < |m| && inClass(m[i]) then RunEnd(m, i + 1, inClass) else i
  }

  predicate IsLowerHex(c: char) { IsDigit(c) || 'a' <= c <= 'f' }
  predicate IsBase36(c: char) { IsDigit(c) || 'A' <= c <= 'Z' }

  // ---------------------------------------------------------------- numbers and identifiers

  /** Two's complement 32-bit int. */
  function Wrap32(x: int): int {
    (x + 0x8000_0000) % 0x1_0000_0000 - 0x8000_0000
  }

  function DigitValue(c: char): int { c as int - '0' as int }

  /** The digits of m[i..e], read into an int. */
  function DigitsValue(m: string, i: nat, e: nat, acc: int): int
    requires i <= e <= |m|
    decreases e - i
  {
    if i == e then acc else DigitsValue(m, i + 1, e, Wrap32(acc * 10 + DigitValue(m[i])))
  }

  datatype Numeral = Numeral(ok: bool, cur: nat, value: int)

  /** ParseNumber: a lone 'n' is consumed even when no digit follows. */
  function ReadNumber(m: string, i: nat): (r: Numeral)
    requires i <= |m|
    ensures i <= r.cur <= |m| && (r.ok ==> i < r.cur)
  {
    var start := if Has(m, i, 'n') then i + 1 else i;
    var e := RunEnd(m, start, IsDigit);
    if e == start then Numeral(false, start, -1)
    else Numeral(true, e, Wrap32((if Has(m, i, 'n') then -1 else 1) * DigitsValue(m, start, e, 0)))
  }

  /** Nowhere in m can a length below -1 be read. */
  ghost predicate Forwards(m: string) {
    forall p :: 0 <= p <= |m| ==> ReadNumber(m, p).value >= -1
  }

  const ANONYMOUS := "_GLOBAL__N_"

  predicate IsAnonymous(m: string, i: nat, len: int)
    requires i <= |m|
  {
    len > 11 && ANONYMOUS <= m[i..]
  }

  // ---------------------------------------------------------------- abbreviations

  datatype Abbrev = Abbrev(a: char, b: char, name: string)

  const OPERATORS_1: seq<Abbrev> := [
    Abbrev('n', 'w', "new"), Abbrev('n', 'a', "new[]"), Abbrev('d', 'l', "delete"),
    Abbrev('d', 'a', "delete[]"), Abbrev('p', 's', "+"), Abbrev('n', 'g', "-"), Abbrev('a', 'd', "&"),
    Abbrev('d', 'e', "*"), Abbrev('c', 'o', "~"), Abbrev('p', 'l', "+"), Abbrev('m', 'i', "-"),
    Abbrev('m', 'l', "*"), Abbrev('d', 'v', "/"), Abbrev('r', 'm', "%"), Abbrev('a', 'n', "&"),
    Abbrev('o', 'r', "|"), Abbrev('e', 'o', "^")]
  const OPERATORS_2: seq<Abbrev> := [
    Abbrev('a', 'S', "="), Abbrev('p', 'L', "+="), Abbrev('m', 'I', "-="), Abbrev('m', 'L', "*="),
    Abbrev('d', 'V', "/="), Abbrev('r', 'M', "%="), Abbrev('a', 'N', "&="), Abbrev('o', 'R', "|="),
    Abbrev('e', 'O', "^="), Abbrev('l', 's', "<<"), Abbrev('r', 's', ">>"), Abbrev('l', 'S', "<<="),
    Abbrev('r', 'S', ">>="), Abbrev('e', 'q', "=="), Abbrev('n', 'e', "!="), Abbrev('l', 't', "<"),
    Abbrev('g', 't', ">")]
  const OPERATORS_3: seq<Abbrev> := [
    Abbrev('l', 'e', "<="), Abbrev('g', 'e', ">="), Abbrev('n', 't', "!"), Abbrev('a', 'a', "&&"),
    Abbrev('o', 'o', "||"), Abbrev('p', 'p', "++"), Abbrev('m', 'm', "--"), Abbrev('c', 'm', ","),
    Abbrev('p', 'm', "->*"), Abbrev('p', 't', "->"), Abbrev('c', 'l', "()"), Abbrev('i', 'x', "[]"),
    Abbrev('q', 'u', "?"), Abbrev('s', 't', "sizeof"), Abbrev('s', 'z', "sizeof")]

  /** kOperatorList, in three parts. */
  const OPERATORS: seq<Abbrev> := OPERATORS_1 + OPERATORS_2 + OPERATORS_3

  const BUILTIN_TYPES: seq<Abbrev> := [
    Abbrev('v', ' ', "void"), Abbrev('w', ' ', "wchar_t"), Abbrev('b', ' ', "bool"), Abbrev('c', ' ', "char"),
    Abbrev('a', ' ', "signed char"), Abbrev('h', ' ', "unsigned char"), Abbrev('s', ' ', "short"),
    Abbrev('t', ' ', "unsigned short"), Abbrev('i', ' ', "int"), Abbrev('j', ' ', "unsigned int"),
    Abbrev('l', ' ', "long"), Abbrev('m', ' ', "unsigned long"), Abbrev('x', ' ', "long long"),
    Abbrev('y', ' ', "unsigned long long"), Abbrev('n', ' ', "__int128"),
    Abbrev('o', ' ', "unsigned __int128"), Abbrev('f', ' ', "float"), Abbrev('d', ' ', "double"),
    Abbrev('e', ' ', "long double"), Abbrev('g', ' ', "__float128"), Abbrev('z', ' ', "ellipsis")]

  const SUBSTITUTIONS: seq<Abbrev> := [
    Abbrev('S', 't', ""), Abbrev('S', 'a', "allocator"), Abbrev('S', 'b', "basic_string"),
    Abbrev('S', 's', "string"), Abbrev('S', 'i', "istream"), Abbrev('S', 'o', "ostream"),
    Abbrev('S', 'd', "iostream")]

  /** The first entry from k on that fits, or the end of the list. */
  function Find(list: seq<Abbrev>, k: nat, fits: Abbrev -> bool): (f: nat)
    requires k <= |list|
    ensures k <= f <= |list|
    ensures f < |list| ==> fits(list[f])
    decreases |list| - k
  {
    if k < |list| && !fits(list[k]) then Find(list, k + 1, fits) else k
  }

  predicate FitsOperator(m: string, i: nat, p: Abbrev) { At(m, i) == p.a && At(m, i + 1) == p.b }
  predicate FitsType(m: string, i: nat, p: Abbrev) { Has(m, i, p.a) }
  predicate FitsSubstitution(m: string, i: nat, p: Abbrev) { Has(m, i, p.b) }

  function OperatorEffect(name: string): (e: Effect)
    ensures Balanced(e)
  {
    Then(Then(Emit("operator"), if IsLower(At(name, 0)) then Emit(" ") else Skip), Emit(name))
  }

  function StdEffect(name: string): (e: Effect)
    ensures Balanced(e)
  {
    if name != "" then Then(Then(Emit("std"), Emit("::")), Emit(name)) else Emit("std")
  }

  // ---------------------------------------------------------------- the language

  /** The parse functions that follow the convention of demangle.cc:460-466. */
  datatype Function =
    | Encoding | Name | UnscopedName | UnscopedTemplateName | NestedName | UnqualifiedName | SourceName
    | LocalSourceName | OperatorName | SpecialName | CallOffset | VOffset | CtorDtorName | Type | CVQualifiers
    | BuiltinType | FunctionType | BareFunctionType | ClassEnumType | ArrayType | PointerToMemberType | TemplateParam
    | TemplateTemplateParam | TemplateArgs | TemplateArg | Expression | ExprPrimary | LocalName | Discriminator
    | Substitution

  datatype Step =
    | Char(c: char) | Two(c: char, d: char)    // ParseOneCharToken, ParseTwoCharToken
    | Class(cs: string)                        // ParseCharClass
    | Number | Float | SeqId                   // ParseNumber(state, NULL) = ParseNVOffset, ParseFloatNumber, ParseSeqId
    | Length                                   // ParseNumber, then ParseIdentifier of that length
    | Operators | Builtins | Substitutions     // the scans of the three lists
    | Qualifiers                               // [r] [V] [K], not all missing
    | Say(str: string) | SayPrev               // MaybeAppend, MaybeAppendWithLength(prev_name, prev_name_length)
    | OptChar(c: char)                         // Optional(ParseOneCharToken)
    | Call(f: Function) | Opt(f: Function) | Many(f: Function)    // ParseF, Optional(ParseF), ZeroOrMore(ParseF)
    | Nested(f: Function)                      // EnterNestedName && ParseF && LeaveNestedName(copy.nest_level)
    | NestedPrefix                             // the same around Optional(ParseCVQualifiers) && ParsePrefix
    | Quietly(f: Function)                     // DisableAppend && ParseF, then RestoreAppend(copy.append)
    | QuietTypes                               // the same around OneOrMore(ParseType)
    | QuietArgs                                // the same around 'I', OneOrMore(ParseTemplateArg), 'E'
    | Mangled                                  // ParseMangledName: "_Z" stays consumed on failure

  datatype Alt =
    | Copy(first: Step, rest: seq<Step>)       // State copy = *state; the steps, or *state = copy
    | Just(f: Function)                        // ParseF on its own
    | Token(s: Step, say: string)              // a token on its own, and MaybeAppend(say)

  function Body(f: Function): seq<Alt> {
    match f
    case Encoding => [Copy(Call(Name), [Call(BareFunctionType)]), Just(Name), Just(SpecialName)]
    case Name => [Just(NestedName), Just(LocalName), Copy(Call(UnscopedTemplateName), [Call(TemplateArgs)]),
        Just(UnscopedName)]
    case UnscopedName => [Just(UnqualifiedName), Copy(Two('S', 't'), [Say("std::"), Call(UnqualifiedName)])]
    case UnscopedTemplateName => [Just(UnscopedName), Just(Substitution)]
    case NestedName => [Copy(Char('N'), [NestedPrefix, Char('E')])]
    case UnqualifiedName => [Just(OperatorName), Just(CtorDtorName), Just(SourceName), Just(LocalSourceName)]
    case SourceName => [Copy(Length, [])]
    case LocalSourceName => [Copy(Char('L'), [Call(SourceName), Opt(Discriminator)])]
    case OperatorName => [
      Copy(Two('c', 'v'), [Say("operator "), Nested(Type)]),
      Copy(Char('v'), [Class("0123456789"), Call(SourceName)]),
      Token(Operators, "")]
    case SpecialName => [
      Copy(Char('T'), [Class("VTIS"), Call(Type)]),
      Copy(Two('T', 'c'), [Call(CallOffset), Call(CallOffset), Call(Encoding)]),
      Copy(Two('G', 'V'), [Call(Name)]),
      Copy(Char('T'), [Call(CallOffset), Call(Encoding)]),
      Copy(Two('T', 'C'), [Call(Type), Number, Char('_'), Quietly(Type)]),
      Copy(Char('T'), [Class("FJ"), Call(Type)]),
      Copy(Two('G', 'R'), [Call(Name)]),
      Copy(Two('G', 'A'), [Call(Encoding)]),
      Copy(Char('T'), [Class("hv"), Call(CallOffset), Call(Encoding)])]
    case CallOffset => [Copy(Char('h'), [Number, Char('_')]), Copy(Char('v'), [Call(VOffset), Char('_')])]
    case VOffset => [Copy(Number, [Char('_'), Number])]
    case CtorDtorName => [Copy(Char('C'), [Class("123"), SayPrev]), Copy(Char('D'), [Class("012"), Say("~"), SayPrev])]
    case Type => [
      Copy(Call(CVQualifiers), [Call(Type)]),
      Copy(Class("OPRCG"), [Call(Type)]),
      Copy(Two('D', 'p'), [Call(Type)]),
      Copy(Char('D'), [Class("tT"), Call(Expression), Char('E')]),
      Copy(Char('U'), [Call(SourceName), Call(Type)]),
      Just(BuiltinType), Just(FunctionType), Just(ClassEnumType), Just(ArrayType), Just(PointerToMemberType),
      Just(Substitution),
      Copy(Call(TemplateTemplateParam), [Call(TemplateArgs)]),
      Just(TemplateParam)]
    case CVQualifiers => [Token(Qualifiers, "")]
    case BuiltinType => [Token(Builtins, ""), Copy(Char('u'), [Call(SourceName)])]
    case FunctionType => [Copy(Char('F'), [OptChar('Y'), Call(BareFunctionType), Char('E')])]
    case BareFunctionType => [Copy(QuietTypes, [Say("()")])]
    case ClassEnumType => [Just(Name)]
    case ArrayType => [
      Copy(Char('A'), [Number, Char('_'), Call(Type)]),
      Copy(Char('A'), [Opt(Expression), Char('_'), Call(Type)])]
    case PointerToMemberType => [Copy(Char('M'), [Call(Type), Call(Type)])]
    case TemplateParam => [Token(Two('T', '_'), "?"), Copy(Char('T'), [Number, Char('_'), Say("?")])]
    case TemplateTemplateParam => [Just(TemplateParam), Just(Substitution)]
    case TemplateArgs => [Copy(QuietArgs, [Say("<>")])]
    case TemplateArg => [
      Copy(Char('I'), [Many(TemplateArg), Char('E')]),
      Just(Type), Just(ExprPrimary),
      Copy(Char('X'), [Call(Expression), Char('E')])]
    case Expression => [
      Just(TemplateParam), Just(ExprPrimary),
      Copy(Call(OperatorName), [Call(Expression), Call(Expression), Call(Expression)]),
      Copy(Call(OperatorName), [Call(Expression), Call(Expression)]),
      Copy(Call(OperatorName), [Call(Expression)]),
      Copy(Two('s', 't'), [Call(Type)]),
      Copy(Two('s', 'r'), [Call(Type), Call(UnqualifiedName), Call(TemplateArgs)]),
      Copy(Two('s', 'r'), [Call(Type), Call(UnqualifiedName)])]
    case ExprPrimary => [
      Copy(Char('L'), [Call(Type), Number, Char('E')]),
      Copy(Char('L'), [Call(Type), Float, Char('E')]),
      Copy(Char('L'), [Mangled, Char('E')]),
      Copy(Two('L', 'Z'), [Call(Encoding), Char('E')])]
    case LocalName => [
      Copy(Char('Z'), [Call(Encoding), Char('E'), Say("::"), Call(Name), Opt(Discriminator)]),
      Copy(Char('Z'), [Call(Encoding), Two('E', 's'), Opt(Discriminator)])]
    case Discriminator => [Copy(Char('_'), [Number])]
    case Substitution => [
      Token(Two('S', '_'), "?"),
      Copy(Char('S'), [SeqId, Char('_'), Say("?")]),
      Copy(Char('S'), [Substitutions])]
  }

  /** ParseOperatorName first asks for two characters. */
  function Needs(f: Function): nat { if f.OperatorName? then 2 else 0 }

  // ---------------------------------------------------------------- no left recursion

  /** Before it has consumed anything, a function calls only functions of lower rank. */
  function Rank(f: Function): nat {
    match f
    case Type => 7
    case Encoding => 6 case ClassEnumType => 6
    case Name => 5
    case UnscopedTemplateName => 4
    case UnscopedName => 3
    case UnqualifiedName => 2 case TemplateTemplateParam => 1 case Expression => 1
    case BareFunctionType => 8 case TemplateArg => 8
    case _ => 0
  }

  const TOP := 9

  predicate IsBracket(s: Step) { s.Nested? || s.NestedPrefix? || s.Quietly? || s.QuietTypes? || s.QuietArgs? }
  predicate IsLeaf(s: Step) { !(s.Call? || s.Opt? || s.Many? || s.Mangled? || IsBracket(s)) }

  predicate Consumes(s: Step) {
    !(s.Say? || s.SayPrev? || s.OptChar? || s.Opt? || s.Many? || s.NestedPrefix?)
  }

  /** A token that stays where it is when it fails. */
  predicate Lone(s: Step) {
    s.Two? || s.Operators? || s.Builtins? || s.Qualifiers?
  }

  /** Calls nothing of rank r or above at the place where it starts. */
  predicate Below(s: Step, r: nat) {
    match s
    case Call(f) => Rank(f) < r case Opt(f) => Rank(f) < r case Many(f) => Rank(f) < r
    case Nested(f) => Rank(f) < r case Quietly(f) => Rank(f) < r
    case QuietTypes => Rank(Type) < r
    case NestedPrefix => Rank(UnscopedName) < r
    case _ => true
  }

  /** Does not start by silencing the output. */
  predicate Plain(f: Function) { !f.BareFunctionType? && !f.TemplateArgs? }

  predicate Ranked(f: Function, a: Alt) {
    match a
    case Copy(first, _) =>
      Consumes(first) && Below(first, Rank(f)) && (Plain(f) ==> IsLeaf(first) || (first.Call? && Plain(first.f)))
    case Just(g) => Rank(g) < Rank(f) && Plain(g)
    case Token(s, _) => Lone(s)
  }

  predicate Big(f: Function) { f.Expression? || f.SpecialName? }
  predicate Middling(f: Function) { f.Name? || f.UnqualifiedName? || f.TemplateArg? || f.Encoding? }

  lemma TypeIsRanked(k: nat)
    requires k < |Body(Type)|
    ensures Ranked(Type, Body(Type)[k])
  {}

  lemma BigIsRanked(f: Function, k: nat)
    requires Big(f) && k < |Body(f)|
    ensures Ranked(f, Body(f)[k])
  {}

  lemma MiddlingIsRanked(f: Function, k: nat)
    requires Middling(f) && k < |Body(f)|
    ensures Ranked(f, Body(f)[k])
  {}

  predicate Small(f: Function) {
    f.NestedName? || f.SourceName? || f.LocalSourceName? || f.VOffset? || f.CVQualifiers? || f.FunctionType? ||
    f.BareFunctionType? || f.ClassEnumType?
  }

  lemma SmallIsRanked(f: Function, k: nat)
    requires Small(f) && k < |Body(f)|
    ensures Ranked(f, Body(f)[k])
  {}

  predicate Tokens(f: Function) {
    f.OperatorName? || f.Substitution? || f.ExprPrimary? || f.TemplateParam? || f.CtorDtorName? || f.CallOffset?
  }

  lemma TokensAreRanked(f: Function, k: nat)
    requires Tokens(f) && k < |Body(f)|
    ensures Ranked(f, Body(f)[k])
  {}

  lemma OthersAreRanked(f: Function, k: nat)
    requires !f.Type? && !Big(f) && !Middling(f) && !Small(f) && !Tokens(f) && k < |Body(f)|
    ensures Ranked(f, Body(f)[k])
  {}

  /** The functions are not left-recursive, and no alternative accepts the empty string. */
  lemma NoLeftRecursion(f: Function, k: nat)
    requires k < |Body(f)|
    ensures Ranked(f, Body(f)[k])
  {
    hide Body, Ranked;
    if f.Type? { TypeIsRanked(k); }
    else if Big(f) { BigIsRanked(f, k); }
    else if Middling(f) { MiddlingIsRanked(f, k); }
    else if Small(f) { SmallIsRanked(f, k); }
    else if Tokens(f) { TokensAreRanked(f, k); }
    else { OthersAreRanked(f, k); }
  }

  // ---------------------------------------------------------------- results

  /** How one call of a parse function ends; `back` counts how often the cursor moved backwards on the way. */
  datatype Outcome = Outcome(ok: bool, cur: nat, eff: Effect, back: nat := 0)

  /** An identifier whose length reads as a number below -1 moves the C cursor backwards
      (demangle.cc:692-704).  A call that has to do so more often than it is allowed has no outcome, nor
      has one that would leave the name on the left. */
  datatype Parse = Rewinds | Done(res: Outcome) {
    predicate Ok() { Done? && res.ok }
    function Cur(): nat { if Done? then res.cur else 0 }
    function Back(): nat { if Done? then res.back else 0 }
  }

  function Yes(cur: nat, eff: Effect): Parse { Done(Outcome(true, cur, eff)) }
  function No(cur: nat, eff: Effect): Parse { Done(Outcome(false, cur, eff)) }

  /** p && q, where q starts where p stopped. */
  function And(p: Parse, q: Parse): Parse {
    if !p.Ok() then p
    else if q.Rewinds? then Rewinds
    else Done(Outcome(q.res.ok, q.res.cur, Join(p.res.eff, q.res.eff), p.res.back + q.res.back))
  }

  /** Alternatives: p has failed and left everything but buffer bytes as it was. */
  function Else(p: Parse, q: Parse): Parse
    requires p.Done?
  {
    if q.Rewinds? then Rewinds else Done(q.res.(eff := Join(Revert(p.res.eff), q.res.eff)))
  }

  /** The copy is put back on failure. */
  function Restored(i: nat, p: Parse): Parse {
    if p.Rewinds? || p.Ok() then p else No(i, Revert(p.res.eff))
  }

  /** Between EnterNestedName and LeaveNestedName. */
  function Within(p: Parse): Parse {
    if p.Rewinds? then Rewinds
    else Done(p.res.(eff := if p.res.ok then Nest(p.res.eff) else Join(Enter, p.res.eff)))
  }

  /** Between DisableAppend and RestoreAppend. */
  function Silently(p: Parse): Parse {
    if p.Rewinds? then Rewinds
    else Done(p.res.(eff := if p.res.ok then Quiet(p.res.eff) else Join(Mute, p.res.eff)))
  }

  /** Stays inside the name; a success gives back the append flag and the nest level. */
  predicate Sound(m: string, p: Parse) {
    p.Done? ==> p.res.cur <= |m| && (p.res.ok ==> Balanced(p.res.eff))
  }

  /** The convention of demangle.cc:460-466: advance on success (unless an identifier led back), change
      nothing on failure. */
  predicate Fine(i: nat, p: Parse) {
    p.Done? ==>
      if p.res.ok then i < p.res.cur || p.res.back > 0 else p.res.cur == i && p.res.back == 0 && Neutral(p.res.eff)
  }

  /** A success has consumed something, or nothing, unless an identifier led back. */
  predicate Gains(i: nat, p: Parse) { p.Ok() ==> i < p.res.cur || p.res.back > 0 }
  predicate Stays(i: nat, p: Parse) { p.Ok() ==> i <= p.res.cur || p.res.back > 0 }

  /** Stays inside the name; a success gives back the append flag. */
  predicate Kept(m: string, p: Parse) {
    p.Done? ==> p.res.cur <= |m| && (p.res.ok ==> KeepsAppend(p.res.eff))
  }

  lemma SoundIsKept(m: string, p: Parse)
    requires Sound(m, p)
    ensures Kept(m, p)
  {
    if p.Ok() { BalancedKeepsAppend(p.res.eff); }
  }

  lemma WithinIsSound(m: string, p: Parse)
    requires Kept(m, p)
    ensures Sound(m, Within(p))
  {}

  lemma SilentlyIsSound(m: string, p: Parse)
    requires Sound(m, p)
    ensures Sound(m, Silently(p))
  {}

  // ---------------------------------------------------------------- recognition

  function Run(m: string, i: nat, inClass: char -> bool): Parse
    requires i <= |m|
  {
    var e := RunEnd(m, i, inClass);
    if e != i then Yes(e, Skip) else No(i, Skip)
  }

  /** A negative length prints nothing and moves back. */
  function Identifier(m: string, i: nat, len: int, b: nat := 0): Parse
    requires i <= |m|
  {
    if len == -1 || i + len > |m| then No(i, Skip)
    else if len < 0 then (if b > 0 && i + len >= 0 then Done(Outcome(true, i + len, Skip, 1)) else Rewinds)
    else Yes(i + len, Emit(if IsAnonymous(m, i, len) then "(anonymous namespace)" else m[i..i + len]))
  }

  function SourceLength(m: string, i: nat, b: nat := 0): (r: Parse)
    requires i <= |m|
    ensures r.Back() <= b && Sound(m, r) && Gains(i, r) && (Forwards(m) ==> r.Done?)
  {
    var n := ReadNumber(m, i);
    if n.ok then Identifier(m, n.cur, n.value, b) else No(n.cur, Skip)
  }

  function OperatorIn(list: seq<Abbrev>, m: string, i: nat): Parse {
    if IsLower(At(m, i)) && IsAlpha(At(m, i + 1)) then
      var f := Find(list, 0, p => FitsOperator(m, i, p));
      if f < |list| then Yes(i + 2, OperatorEffect(list[f].name)) else No(i, Skip)
    else No(i, Skip)
  }

  function BuiltinIn(list: seq<Abbrev>, m: string, i: nat): Parse {
    var f := Find(list, 0, p => FitsType(m, i, p));
    if f < |list| then Yes(i + 1, Emit(list[f].name)) else No(i, Skip)
  }

  function SubstitutionIn(list: seq<Abbrev>, m: string, i: nat): Parse {
    var f := Find(list, 0, p => FitsSubstitution(m, i, p));
    if f < |list| then Yes(i + 1, StdEffect(list[f].name)) else No(i, Skip)
  }

  function Skip1(m: string, i: nat, c: char): nat { if Has(m, i, c) then i + 1 else i }

  function EvalLeaf(s: Step, m: string, i: nat, b: nat := 0): Parse
    requires i <= |m| && IsLeaf(s)
  {
    match s
    case Char(c) => if Has(m, i, c) then Yes(i + 1, Skip) else No(i, Skip)
    case Two(c, d) => if Has2(m, i, c, d) then Yes(i + 2, Skip) else No(i, Skip)
    case Class(cs) => if HasClass(m, i, cs) then Yes(i + 1, Skip) else No(i, Skip)
    case Number => var n := ReadNumber(m, i); Done(Outcome(n.ok, n.cur, Skip))
    case Float => Run(m, i, IsLowerHex)
    case SeqId => Run(m, i, IsBase36)
    case Length => SourceLength(m, i, b)
    case Operators => OperatorIn(OPERATORS, m, i)
    case Builtins => BuiltinIn(BUILTIN_TYPES, m, i)
    case Substitutions => SubstitutionIn(SUBSTITUTIONS, m, i)
    case Qualifiers =>
      var e := Skip1(m, Skip1(m, Skip1(m, i, 'r'), 'V'), 'K');
      if i < e then Yes(e, Skip) else No(i, Skip)
    case Say(str) => Yes(i, Emit(str))
    case SayPrev => Yes(i, EmitPrev)
    case OptChar(c) => Yes(Skip1(m, i, c), Skip)
  }

  lemma LeafIsSound(s: Step, m: string, i: nat, b: nat)
    requires i <= |m| && IsLeaf(s)
    ensures var r := EvalLeaf(s, m, i, b);
      && r.Back() <= b && Sound(m, r) && Stays(i, r) && (Consumes(s) ==> Gains(i, r))
      && (Lone(s) ==> Fine(i, r)) && (Forwards(m) ==> r.Done?)
  {
    hide OPERATORS, BUILTIN_TYPES, SUBSTITUTIONS;
  }

  /** One call of a parse function.  It terminates because every call made before a character is
      consumed goes to a function of lower rank, and the cursor moves back at most b times. */
  function Eval(f: Function, m: string, i: nat, b: nat := 0): (r: Parse)
    requires i <= |m|
    ensures r.Back() <= b && Sound(m, r) && Fine(i, r)
    ensures Forwards(m) ==> r.Done?
    decreases b, |m| - i + 1, Rank(f), 4, 0
  {
    if i + Needs(f) > |m| then No(i, Skip) else EvalAlts(f, 0, m, i, b)
  }

  /** The alternatives of f from the k-th on. */
  function EvalAlts(f: Function, k: nat, m: string, i: nat, b: nat := 0): (r: Parse)
    requires i <= |m| && k <= |Body(f)|
    ensures r.Back() <= b && Sound(m, r) && Fine(i, r)
    ensures Forwards(m) ==> r.Done?
    decreases b, |m| - i + 1, Rank(f), 3, |Body(f)| - k
  {
    if k == |Body(f)| then No(i, Skip)
    else
      var p := EvalAlt(f, k, m, i, b);
      if p.Rewinds? || p.Ok() then p else Else(p, EvalAlts(f, k + 1, m, i, b))
  }

  function EvalAlt(f: Function, k: nat, m: string, i: nat, b: nat := 0): (r: Parse)
    requires i <= |m| && k < |Body(f)|
    ensures r.Back() <= b && Sound(m, r) && Fine(i, r)
    ensures Forwards(m) ==> r.Done?
    decreases b, |m| - i + 1, Rank(f), 2, 0
  {
    NoLeftRecursion(f, k);
    hide Body;
    match Body(f)[k]
    case Copy(first, rest) =>
      var p := EvalStep(first, m, i, Rank(f), b);
      Restored(i, if p.Ok() then And(p, EvalSteps(rest, 0, m, p.Cur(), b - p.Back())) else p)
    case Just(g) => Eval(g, m, i, b)
    case Token(s, say) =>
      LeafIsSound(s, m, i, b);
      var p := EvalLeaf(s, m, i, b);
      And(p, Yes(p.Cur(), if say != "" then Emit(say) else Skip))
  }

  /** The steps of a chain from the j-th on. */
  function EvalSteps(rest: seq<Step>, j: nat, m: string, i: nat, b: nat := 0): (r: Parse)
    requires i <= |m| && j <= |rest|
    ensures r.Back() <= b && Sound(m, r) && Stays(i, r)
    ensures Forwards(m) ==> r.Done?
    decreases b, |m| - i + 1, TOP, 2, |rest| - j
  {
    if j == |rest| then Yes(i, Skip)
    else
      var p := EvalStep(rest[j], m, i, TOP, b);
      if p.Ok() then And(p, EvalSteps(rest, j + 1, m, p.Cur(), b - p.Back())) else p
  }

  function EvalStep(s: Step, m: string, i: nat, r: nat, b: nat := 0): (p: Parse)
    requires i <= |m| && Below(s, r)
    ensures p.Back() <= b && Sound(m, p) && Stays(i, p) && (Consumes(s) ==> Gains(i, p))
    ensures Forwards(m) ==> p.Done?
    decreases b, |m| - i + 1, r, 1, 0
  {
    hide Forwards, Neutral, Balanced, KeepsAppend, Kept, Rank, EvalLeaf;
    match s
    case Call(f) => Eval(f, m, i, b)
    case Opt(f) =>
      var p := Eval(f, m, i, b);
      if p.Rewinds? || p.Ok() then p else Yes(i, Revert(p.res.eff))
    case Many(f) => EvalMany(f, m, i, b)
    case Nested(f) =>
      var p := Eval(f, m, i, b);
      SoundIsKept(m, p);
      WithinIsSound(m, p);
      Within(p)
    case NestedPrefix =>
      LeafIsSound(Qualifiers, m, i, b);
      var q := EvalLeaf(Qualifiers, m, i, b);
      var p := EvalPrefix(m, if q.Ok() then q.Cur() else i, false, b);
      WithinIsSound(m, p);
      Within(p)
    case Quietly(f) => SilentlyIsSound(m, Eval(f, m, i, b)); Silently(Eval(f, m, i, b))
    case QuietTypes => SilentlyIsSound(m, EvalOneOrMore(Type, m, i, b)); Silently(EvalOneOrMore(Type, m, i, b))
    case QuietArgs => SilentlyIsSound(m, EvalArguments(m, i, b)); Silently(EvalArguments(m, i, b))
    case Mangled =>
      if Has2(m, i, '_', 'Z') then Eval(Encoding, m, i + 2, b) else No(i, Skip)
    case _ => LeafIsSound(s, m, i, b); EvalLeaf(s, m, i, b)
  }

  /** ZeroOrMore. */
  function EvalMany(f: Function, m: string, i: nat, b: nat := 0): (r: Parse)
    requires i <= |m|
    ensures r.Back() <= b && Sound(m, r) && Stays(i, r) && (r.Done? ==> r.res.ok)
    ensures Forwards(m) ==> r.Done?
    decreases b, |m| - i + 1, Rank(f) + 1, 0, 0
  {
    var p := Eval(f, m, i, b);
    if p.Rewinds? then Rewinds
    else if p.Ok() then And(p, EvalMany(f, m, p.Cur(), b - p.Back()))
    else Yes(i, Revert(p.res.eff))
  }

  /** OneOrMore. */
  function EvalOneOrMore(f: Function, m: string, i: nat, b: nat := 0): (r: Parse)
    requires i <= |m|
    ensures r.Back() <= b && Sound(m, r) && Gains(i, r)
    ensures Forwards(m) ==> r.Done?
    decreases b, |m| - i + 1, Rank(f) + 1, 0, 0
  {
    var p := Eval(f, m, i, b);
    if p.Ok() then And(p, EvalMany(f, m, p.Cur(), b - p.Back())) else p
  }

  /** 'I', OneOrMore(ParseTemplateArg), 'E'. */
  function EvalArguments(m: string, i: nat, b: nat := 0): (r: Parse)
    requires i <= |m|
    ensures r.Back() <= b && Sound(m, r) && Gains(i, r)
    ensures Forwards(m) ==> r.Done?
    decreases b, |m| - i + 1, 0, 0, 0
  {
    if Has(m, i, 'I') then
      var q := EvalOneOrMore(TemplateArg, m, i + 1, b);
      And(q, if q.Ok() && Has(m, q.Cur(), 'E') then Yes(q.Cur() + 1, Skip) else No(q.Cur(), Skip))
    else No(i, Skip)
  }

  /** One round of ParsePrefix: a template parameter, a substitution or an unscoped name. */
  function EvalComponent(m: string, i: nat, b: nat := 0): (r: Parse)
    requires i <= |m|
    ensures r.Back() <= b && Sound(m, r) && Fine(i, r)
    ensures Forwards(m) ==> r.Done?
    decreases b, |m| - i + 1, Rank(UnscopedName) + 1, 0, 0
  {
    var p := Eval(TemplateParam, m, i, b);
    if p.Rewinds? || p.Ok() then p
    else
      var q := Eval(Substitution, m, i, b);
      if q.Rewinds? then Rewinds
      else Else(p, if q.Ok() then q else Else(q, Eval(UnscopedName, m, i, b)))
  }

  /** ParsePrefix from one round of its loop on: it never fails, and leaves the nest level raised. */
  function EvalPrefix(m: string, i: nat, hasSomething: bool, b: nat := 0): (r: Parse)
    requires i <= |m|
    ensures r.Back() <= b && Kept(m, r) && Stays(i, r) && (r.Done? ==> r.res.ok)
    ensures Forwards(m) ==> r.Done?
    decreases b, |m| - i + 1, Rank(UnscopedName) + 1, 0, 1
  {
    var p := EvalComponent(m, i, b);
    if p.Rewinds? then Rewinds
    else if p.Ok() then
      BalancedKeepsAppend(p.res.eff);
      And(Done(p.res.(eff := Slot(p.res.eff))), EvalPrefix(m, p.Cur(), true, b - p.Back()))
    else
      var blank := Yes(i, Blank(p.res.eff));
      if !hasSomething then blank
      else
        var q := Eval(TemplateArgs, m, i, b);
        if q.Rewinds? then Rewinds
        else if q.Ok() then
          BalancedKeepsAppend(q.res.eff);
          And(And(blank, q), EvalPrefix(m, q.Cur(), false, b - q.Back()))
        else And(blank, Yes(i, Revert(q.res.eff)))
  }

  // ---------------------------------------------------------------- the loops, round by round

  lemma AltsStep(f: Function, k: nat, m: string, i: nat, b: nat)
    requires i <= |m| && k <= |Body(f)|
    ensures EvalAlts(f, k, m, i, b) ==
      if k == |Body(f)| then No(i, Skip)
      else var p := EvalAlt(f, k, m, i, b); if p.Rewinds? || p.Ok() then p else Else(p, EvalAlts(f, k + 1, m, i, b))
    ensures k < |Body(f)| ==> Fine(i, EvalAlt(f, k, m, i, b))
  {
    hide Body, EvalAlt;
  }

  lemma FirstStepGains(f: Function, k: nat, first: Step, rest: seq<Step>, m: string, i: nat, b: nat)
    requires i <= |m| && k < |Body(f)| && Body(f)[k] == Copy(first, rest) && Below(first, Rank(f))
    ensures var p := EvalStep(first, m, i, Rank(f), b);
      p.Cur() <= |m| && p.Back() <= b && (p.Ok() ==> i < p.Cur() || p.Back() > 0)
  {
    hide Body, EvalStep, Rank, Below, Neutral, Balanced, Forwards;
    NoLeftRecursion(f, k);
  }

  lemma CopyStep(f: Function, k: nat, first: Step, rest: seq<Step>, m: string, i: nat, b: nat)
    requires i <= |m| && k < |Body(f)| && Body(f)[k] == Copy(first, rest) && Below(first, Rank(f))
    ensures var p := EvalStep(first, m, i, Rank(f), b);
      && p.Cur() <= |m| && p.Back() <= b && (p.Ok() ==> i < p.Cur() || p.Back() > 0)
      && EvalAlt(f, k, m, i, b) ==
          Restored(i, if p.Ok() then And(p, EvalSteps(rest, 0, m, p.Cur(), b - p.Back())) else p)
  {
    hide Body, EvalStep, EvalSteps, Rank, Below, Neutral, Balanced, Sound, Fine, Gains, Stays, Forwards;
    FirstStepGains(f, k, first, rest, m, i, b);
  }

  lemma StepsStep(rest: seq<Step>, j: nat, m: string, i: nat, b: nat)
    requires i <= |m| && j < |rest|
    ensures EvalSteps(rest, j, m, i, b) ==
      var p := EvalStep(rest[j], m, i, TOP, b);
      if p.Ok() then And(p, EvalSteps(rest, j + 1, m, p.Cur(), b - p.Back())) else p
  {
    hide EvalStep;
  }

  lemma NoStepsLeft(rest: seq<Step>, m: string, i: nat, b: nat)
    requires i <= |m|
    ensures EvalSteps(rest, |rest|, m, i, b) == Yes(i, Skip)
  {}

  lemma CallGains(f: Function, m: string, i: nat, b: nat)
    requires i <= |m|
    ensures var p := Eval(f, m, i, b); p.Cur() <= |m| && p.Back() <= b && (p.Ok() ==> i < p.Cur() || p.Back() > 0)
  {
    hide Eval, Rank, Neutral, Balanced, Forwards;
  }

  lemma ManyStep(f: Function, m: string, i: nat, b: nat)
    requires i <= |m|
    ensures EvalMany(f, m, i, b) ==
      var p := Eval(f, m, i, b);
      if p.Rewinds? then Rewinds
      else if p.Ok() then And(p, EvalMany(f, m, p.Cur(), b - p.Back()))
      else Yes(i, Revert(p.res.eff))
  {
    hide Eval, Rank, Neutral, Balanced, Forwards;
  }

  lemma OneOrMoreStep(f: Function, m: string, i: nat, b: nat)
    requires i <= |m|
    ensures EvalOneOrMore(f, m, i, b) ==
      var p := Eval(f, m, i, b); if p.Ok() then And(p, EvalMany(f, m, p.Cur(), b - p.Back())) else p
  {
    hide Eval, EvalMany, Rank, Neutral, Balanced, Forwards;
  }

  /** The slot of a component, or a blank one. */
  function SlotOf(p: Parse): Parse
    requires p.Done?
  {
    if p.res.ok then Done(p.res.(eff := Slot(p.res.eff))) else Done(p.res.(ok := true, eff := Blank(p.res.eff)))
  }

  lemma PrefixRound(m: string, i: nat, hasSomething: bool, b: nat)
    requires i <= |m|
    ensures var p := EvalComponent(m, i, b); var q := Eval(TemplateArgs, m, i, b);
      EvalPrefix(m, i, hasSomething, b) ==
        if p.Rewinds? then Rewinds
        else if p.Ok() then And(SlotOf(p), EvalPrefix(m, p.Cur(), true, b - p.Back()))
        else if !hasSomething then SlotOf(p)
        else if q.Rewinds? then Rewinds
        else if q.Ok() then And(And(SlotOf(p), q), EvalPrefix(m, q.Cur(), false, b - q.Back()))
        else And(SlotOf(p), Yes(i, Revert(q.res.eff)))
    ensures var p := EvalComponent(m, i, b); p.Done? && !p.res.ok ==> p.res.cur == i && p.res.back == 0
  {
    hide EvalComponent, Eval;
  }

  // ---------------------------------------------------------------- the whole name

  /** (.<alpha>+.<digit>+)* up to the end of the name. */
  predicate IsCloneSuffix(m: string, i: nat)
    requires i <= |m|
    decreases |m| - i
  {
    i == |m| ||
    (Has(m, i, '.') && IsAlpha(At(m, i + 1)) &&
     var j := RunEnd(m, i + 2, IsAlpha);
     Has(m, j, '.') && IsDigit(At(m, j + 1)) && IsCloneSuffix(m, RunEnd(m, j + 2, IsDigit)))
  }

  lemma CloneSuffixStep(m: string, i: nat)
    requires i <= |m|
    ensures IsCloneSuffix(m, i) <==>
      || i == |m|
      || (Has(m, i, '.') && IsAlpha(At(m, i + 1)) &&
          var j := RunEnd(m, i + 2, IsAlpha);
          Has(m, j, '.') && IsDigit(At(m, j + 1)) && IsCloneSuffix(m, RunEnd(m, j + 2, IsDigit)))
  {}

  /** ParseTopLevelMangledName. */
  function TopLevel(m: string, b: nat := 0): (r: Parse)
    ensures r.Back() <= b && Sound(m, r)
    ensures Forwards(m) ==> r.Done?
  {
    var p := EvalStep(Mangled, m, 0, TOP, b);
    if !p.Ok() || p.Cur() == |m| || IsCloneSuffix(m, p.Cur()) then p
    else if m[p.Cur()] == '@' then And(p, Yes(p.Cur(), Emit(m[p.Cur()..])))
    else Done(p.res.(ok := false))
  }
}
