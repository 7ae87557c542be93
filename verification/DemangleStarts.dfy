/** The characters that a parse function can start with.  On any other it fails and writes nothing. */
module DemangleStarts {
  import opened DemangleOutput
  import opened DemangleGrammar
  import opened DemangleRoundTrip
  import opened DemangleSyntax

  predicate Starts(f: Function, c: char) {
    match f
    case Encoding => NameFirst(c) || c == 'T' || c == 'G'
    case Name => NameFirst(c)
    case UnscopedName => UnqualifiedFirst(c) || c == 'S'
    case UnscopedTemplateName => UnqualifiedFirst(c) || c == 'S'
    case NestedName => c == 'N'
    case UnqualifiedName => UnqualifiedFirst(c)
    case SourceName => IsDigit(c) || c == 'n'
    case LocalSourceName => c == 'L'
    case OperatorName => IsLower(c)
    case SpecialName => c == 'T' || c == 'G'
    case CallOffset => c == 'h' || c == 'v'
    case VOffset => IsDigit(c) || c == 'n'
    case CtorDtorName => c == 'C' || c == 'D'
    case Type => TypeFirst(c)
    case CVQualifiers => c == 'r' || c == 'V' || c == 'K'
    case BuiltinType => BuiltinText(c) != "" || c == 'u'
    case FunctionType => c == 'F'
    case BareFunctionType => TypeFirst(c)
    case ClassEnumType => NameFirst(c)
    case ArrayType => c == 'A'
    case PointerToMemberType => c == 'M'
    case TemplateParam => c == 'T'
    case TemplateTemplateParam => c == 'T' || c == 'S'
    case TemplateArgs => c == 'I'
    case TemplateArg => TypeFirst(c) || c == 'I' || c == 'X'
    case Expression => ExprFirst(c)
    case ExprPrimary => c == 'L'
    case LocalName => c == 'Z'
    case Discriminator => c == '_'
    case Substitution => c == 'S'
  }

  predicate StepStarts(s: Step, c: char) {
    match s
    case Char(x) => c == x
    case Two(x, _) => c == x
    case Class(cs) => c in cs
    case Number => IsDigit(c) || c == 'n'
    case Length => IsDigit(c) || c == 'n'
    case Operators => IsLower(c)
    case Builtins => BuiltinText(c) != ""
    case Qualifiers => c == 'r' || c == 'V' || c == 'K'
    case Call(f) => Starts(f, c)
    case QuietTypes => TypeFirst(c)
    case QuietArgs => c == 'I'
    case _ => true
  }

  predicate AltStarts(a: Alt, c: char) {
    match a
    case Copy(first, _) => StepStarts(first, c)
    case Just(g) => Starts(g, c)
    case Token(s, _) => StepStarts(s, c)
  }

  // ---------------------------------------------------------------- the table is that of the functions

  lemma TypeStarts(k: nat, c: char)
    requires k < |Body(Type)| && AltStarts(Body(Type)[k], c)
    ensures Starts(Type, c)
  {}

  lemma BigStarts(f: Function, k: nat, c: char)
    requires Big(f) && k < |Body(f)| && AltStarts(Body(f)[k], c)
    ensures Starts(f, c)
  {}

  lemma MiddlingStarts(f: Function, k: nat, c: char)
    requires Middling(f) && k < |Body(f)| && AltStarts(Body(f)[k], c)
    ensures Starts(f, c)
  {}

  lemma SmallStarts(f: Function, k: nat, c: char)
    requires Small(f) && k < |Body(f)| && AltStarts(Body(f)[k], c)
    ensures Starts(f, c)
  {}

  lemma TokensStart(f: Function, k: nat, c: char)
    requires Tokens(f) && k < |Body(f)| && AltStarts(Body(f)[k], c)
    ensures Starts(f, c)
  {}

  lemma OthersStart(f: Function, k: nat, c: char)
    requires !f.Type? && !Big(f) && !Middling(f) && !Small(f) && !Tokens(f) && k < |Body(f)| && AltStarts(Body(f)[k], c)
    ensures Starts(f, c)
  {}

  lemma StartsAsItsAlternatives(f: Function, k: nat, c: char)
    requires k < |Body(f)| && AltStarts(Body(f)[k], c)
    ensures Starts(f, c)
  {
    hide Body, AltStarts, Starts;
    if f.Type? { TypeStarts(k, c); }
    else if Big(f) { BigStarts(f, k, c); }
    else if Middling(f) { MiddlingStarts(f, k, c); }
    else if Small(f) { SmallStarts(f, k, c); }
    else if Tokens(f) { TokensStart(f, k, c); }
    else { OthersStart(f, k, c); }
  }

  // ---------------------------------------------------------------- anything else fails

  lemma {:induction false} NoneInList(list: seq<Abbrev>, k: nat, fits: Abbrev -> bool)
    requires k <= |list| && forall j :: k <= j < |list| ==> !fits(list[j])
    ensures Find(list, k, fits) == |list|
    decreases |list| - k
  {
    if k < |list| { NoneInList(list, k + 1, fits); }
  }

  lemma BuiltinEntries(j: nat)
    requires j < |BUILTIN_TYPES|
    ensures var p := BUILTIN_TYPES[j]; p.name == BuiltinText(p.a) && p.name != ""
  {}

  lemma LeafNothing(s: Step, m: string, i: nat)
    requires i <= |m| && IsLeaf(s) && Consumes(s) && !StepStarts(s, At(m, i))
    ensures !EvalLeaf(s, m, i).Ok() && EvalLeaf(s, m, i) == No(EvalLeaf(s, m, i).Cur(), Skip)
  {
    hide BUILTIN_TYPES, OPERATORS, SUBSTITUTIONS, BuiltinText;
    if s.Builtins? {
      forall j | 0 <= j < |BUILTIN_TYPES| ensures !FitsType(m, i, BUILTIN_TYPES[j]) { BuiltinEntries(j); }
      NoneInList(BUILTIN_TYPES, 0, p => FitsType(m, i, p));
    }
  }

  lemma LoneStays(s: Step, m: string, i: nat)
    requires i <= |m| && Lone(s) && !EvalLeaf(s, m, i).Ok() && EvalLeaf(s, m, i).Done?
    ensures EvalLeaf(s, m, i).Cur() == i
  {
    hide BUILTIN_TYPES, OPERATORS;
  }

  /** How a function fails that does not even start: the silent ones have muted the output. */
  function Untouched(f: Function, i: nat): Parse { No(i, if Plain(f) then Skip else Undo(Undo(Mute))) }

  lemma {:induction false} NothingStarts(f: Function, m: string, i: nat)
    requires i <= |m| && !Starts(f, At(m, i))
    ensures Eval(f, m, i) == Untouched(f, i)
    decreases Rank(f)
  {
    hide Eval, EvalLeaf, Body, Forwards, Starts, StepStarts;
    if f.BareFunctionType? {
      SilentStarts(At(m, i));
      NothingStarts(Type, m, i);
      SilentBodies();
      SilentFailure(f, QuietTypes, "()", m, i);
    } else if f.TemplateArgs? {
      SilentStarts(At(m, i));
      SilentBodies();
      SilentFailure(f, QuietArgs, "<>", m, i);
    } else {
      forall k | 0 <= k < |Body(f)| ensures Dead(f, k, m, i) {
        NoLeftRecursion(f, k);
        if AltStarts(Body(f)[k], At(m, i)) { StartsAsItsAlternatives(f, k, At(m, i)); }
        match Body(f)[k]
        case Copy(first, _) =>
          if first.Call? { CallStarts(first.f, At(m, i)); NothingStarts(first.f, m, i); }
          else { LeafNothing(first, m, i); }
        case Just(g) => NothingStarts(g, m, i);
        case Token(s, _) => LeafNothing(s, m, i); LoneStays(s, m, i);
      }
      AllDead(f, m, i);
    }
  }

  lemma CallStarts(f: Function, c: char)
    ensures StepStarts(Call(f), c) == Starts(f, c)
  {}

  lemma SilentStarts(c: char)
    ensures Starts(BareFunctionType, c) == Starts(Type, c) && Starts(TemplateArgs, c) == (c == 'I')
  {}

  lemma SilentBodies()
    ensures Body(BareFunctionType) == [Copy(QuietTypes, [Say("()")])]
    ensures Body(TemplateArgs) == [Copy(QuietArgs, [Say("<>")])]
  {}

  lemma DeadBySight(f: Function, k: nat, m: string, i: nat)
    requires i <= |m| && k < |Body(f)| && Plain(f) && !AltStarts(Body(f)[k], At(m, i))
    ensures Dead(f, k, m, i)
  {
    hide Body, Eval, EvalLeaf, Starts, StepStarts, Forwards, Rank, Below;
    NoLeftRecursion(f, k);
    match Body(f)[k]
    case Copy(first, _) =>
      if first.Call? { CallStarts(first.f, At(m, i)); NothingStarts(first.f, m, i); }
      else { LeafNothing(first, m, i); }
    case Just(g) => NothingStarts(g, m, i);
    case Token(s, _) => LeafNothing(s, m, i); LoneStays(s, m, i);
  }
}
