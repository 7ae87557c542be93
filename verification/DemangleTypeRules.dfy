/** The rules for types, expressions and template arguments. */
module DemangleTypeRules {
  import opened Basics
  import opened DemangleOutput
  import opened DemangleGrammar
  import opened DemangleSpeech
  import opened DemangleRoundTrip
  import opened DemangleRewind
  import opened DemangleSpoken
  import opened DemangleStarts
  import opened DemangleRules
  import S = DemangleSyntax

  // ---------------------------------------------------------------- types

  /** What the alternatives of a type start with. */
  predicate TypeAlt(j: nat, c: char) {
    match j
    case 0 => !NoQualifier(c)
    case 1 => c in "OPRCG"
    case 2 => c == 'D'
    case 3 => c == 'D'
    case 4 => c == 'U'
    case 5 => S.BuiltinText(c) != "" || c == 'u'
    case 6 => c == 'F'
    case 7 => S.NameFirst(c)
    case 8 => c == 'A'
    case 9 => c == 'M'
    case 10 => c == 'S'
    case _ => c == 'S' || c == 'T'
  }

  lemma TypeAltIs(j: nat, c: char)
    requires j < |Body(Type)|
    ensures AltStarts(Body(Type)[j], c) ==> TypeAlt(j, c)
  {
    hide S.BuiltinText, S.NameFirst;
  }

  lemma Earlier(j: nat, m: string, i: nat)
    requires i <= |m| && j < |Body(Type)| && !TypeAlt(j, At(m, i))
    ensures AltFails(Type, j, m, i) && Dead(Type, j, m, i)
  {
    hide Body, TypeAlt, AltStarts, AltFails, Dead;
    TypeAltIs(j, At(m, i));
    BySight(Type, j, m, i);
    DeadBySight(Type, j, m, i);
  }

  /** A type that is another function, when no alternative before it starts. */
  lemma JustType(k: nat, g: Function, m: string, i: nat, e: nat, v: View, v': View)
    requires k < |Body(Type)| && Body(Type)[k] == Just(g) && Says(g, m, i, e, v, v', true)
    requires forall j: nat :: j < k ==> !TypeAlt(j, At(m, i))
    ensures Says(Type, m, i, e, v, v', true)
  {
    hide Body, Spoken, Dead, TypeAlt, EvalAlt, Eval;
    JustSpoken(Type, k, g, m, i, e, v, v', true);
    forall j | 0 <= j < k ensures Dead(Type, j, m, i) { Earlier(j, m, i); }
    Alone(Type, k, m, i, e, v, v', true);
  }

  lemma QualifiedRule(m: string, i: nat, q: S.Quals, e: nat, v: View, v': View)
    requires HasAt(m, i, S.MangledQuals(q)) && S.MangledQuals(q) != "" && NoQualifier(At(m, i + |S.MangledQuals(q)|))
    requires Says(Type, m, i + |S.MangledQuals(q)|, e, v, v', true)
    ensures Says(Type, m, i, e, v, v', true)
  {
    hide Says, Does, Goes, Spoken, EvalAlt, EvalLeaf, HasAt, S.MangledQuals, NoQualifier;
    var at := i + |S.MangledQuals(q)|;
    SaysWithin(Type, m, at, e, v, v', true);
    QualifiersThere(m, i, q);
    EmitSpoken("", at, v);
    TokenSpoken(CVQualifiers, 0, Qualifiers, m, i, at, Skip, v, v, false);
    Alone(CVQualifiers, 0, m, i, at, v, v, false);
    DoesCall(Type, m, at, e, v, v', true);
    LastInChain(Call(Type), m, at, e, v, v', true);
    DoesCall(CVQualifiers, m, i, at, v, v, false);
    CopySpoken(Type, 0, Call(CVQualifiers), [Call(Type)], m, i, at, v, v, false, e, v', true);
    Choose(Type, 0, m, i, e, v, v');
  }

  lemma ModifiedRule(m: string, i: nat, e: nat, v: View, v': View)
    requires i < |m| && m[i] in "OPRCG" && Says(Type, m, i + 1, e, v, v', true)
    ensures Says(Type, m, i, e, v, v', true)
  {
    hide Says, Does, Goes, Spoken, EvalAlt, AltFails;
    SaysWithin(Type, m, i + 1, e, v, v', true);
    DoesCall(Type, m, i + 1, e, v, v', true);
    LastInChain(Call(Type), m, i + 1, e, v, v', true);
    DoesClass("OPRCG", m, i, v);
    CopySpoken(Type, 1, Class("OPRCG"), [Call(Type)], m, i, i + 1, v, v, false, e, v', true);
    Earlier(0, m, i);
    Choose(Type, 1, m, i, e, v, v');
  }

  lemma NotBeforeD(m: string, i: nat)
    requires Has(m, i, 'D')
    ensures AltFails(Type, 0, m, i) && AltFails(Type, 1, m, i)
  {
    hide AltFails;
    Earlier(0, m, i);
    Earlier(1, m, i);
  }

  lemma ExpansionRule(m: string, i: nat, e: nat, v: View, v': View)
    requires Has2(m, i, 'D', 'p') && Says(Type, m, i + 2, e, v, v', true)
    ensures Says(Type, m, i, e, v, v', true)
  {
    hide Says, Does, Goes, Spoken, EvalAlt, AltFails;
    SaysWithin(Type, m, i + 2, e, v, v', true);
    DoesCall(Type, m, i + 2, e, v, v', true);
    LastInChain(Call(Type), m, i + 2, e, v, v', true);
    DoesTwo('D', 'p', m, i, v);
    CopySpoken(Type, 2, Two('D', 'p'), [Call(Type)], m, i, i + 2, v, v, false, e, v', true);
    NotBeforeD(m, i);
    Choose(Type, 2, m, i, e, v, v');
  }

  lemma DecltypeRule(m: string, i: nat, e: nat, v: View, v': View)
    requires Has(m, i, 'D') && At(m, i + 1) in "tT" && Says(Expression, m, i + 2, e, v, v', true) && Has(m, e, 'E')
    ensures Says(Type, m, i, e + 1, v, v', true)
  {
    hide Says, Does, Goes, Spoken, EvalAlt, AltFails;
    SaysWithin(Expression, m, i + 2, e, v, v', true);
    var rest := [Class("tT"), Call(Expression), Char('E')];
    GoesEnd(rest, m, e + 1, v');
    DoesChar('E', m, e, v');
    GoesOn(rest, 2, m, e, e + 1, v', v', false, e + 1, v', false);
    DoesCall(Expression, m, i + 2, e, v, v', true);
    GoesOn(rest, 1, m, i + 2, e, v, v', true, e + 1, v', false);
    DoesClass("tT", m, i + 1, v);
    GoesOn(rest, 0, m, i + 1, i + 2, v, v, false, e + 1, v', true);
    DoesChar('D', m, i, v);
    CopySpoken(Type, 3, Char('D'), rest, m, i, i + 1, v, v, false, e + 1, v', true);
    NotBeforeD(m, i);
    TwoFails(Type, 2, 'D', 'p', [Call(Type)], m, i);
    Choose(Type, 3, m, i, e + 1, v, v');
  }

  lemma VendorQualifiedRule(m: string, i: nat, id: string, e: nat, v: View, v': View)
    requires Has(m, i, 'U') && S.GoodId(id) && HasAt(m, i + 1, S.Counted(id))
    requires Says(Type, m, i + 1 + |S.Counted(id)|, e, Add(v, S.IdText(id)), v', true)
    ensures Says(Type, m, i, e, v, v', true)
  {
    hide Says, Does, Goes, Spoken, EvalAlt, AltFails, Add, S.IdText, S.Counted, S.GoodId, HasAt;
    var rest, at, u := [Call(SourceName), Call(Type)], i + 1 + |S.Counted(id)|, Add(v, S.IdText(id));
    SaysWithin(Type, m, at, e, u, v', true);
    GoesEnd(rest, m, e, v');
    DoesCall(Type, m, at, e, u, v', true);
    GoesOn(rest, 1, m, at, e, u, v', true, e, v', false);
    SourceNameRule(m, i + 1, id, v);
    DoesCall(SourceName, m, i + 1, at, v, u, true);
    GoesOn(rest, 0, m, i + 1, at, v, u, true, e, v', true);
    DoesChar('U', m, i, v);
    CopySpoken(Type, 4, Char('U'), rest, m, i, i + 1, v, v, false, e, v', true);
    NotBeforeU(m, i);
    Choose(Type, 4, m, i, e, v, v');
  }

  lemma NotBeforeU(m: string, i: nat)
    requires Has(m, i, 'U')
    ensures forall j :: 0 <= j < 4 ==> AltFails(Type, j, m, i)
  {
    hide AltFails;
    Earlier(0, m, i);
    Earlier(1, m, i);
    Earlier(2, m, i);
    Earlier(3, m, i);
  }

  lemma BuiltinRule(m: string, i: nat, v: View)
    requires i < |m| && S.BuiltinText(m[i]) != ""
    ensures Says(Type, m, i, i + 1, v, Add(v, S.BuiltinText(m[i])), true)
  {
    BuiltinLetters(m[i]);
    hide Spoken, EvalAlt, EvalLeaf, Add, S.BuiltinText;
    var text := S.BuiltinText(m[i]);
    BuiltinThere(m, i);
    EmitSpoken(text, i + 1, v);
    TokenSpoken(BuiltinType, 0, Builtins, m, i, i + 1, Emit(text), v, Add(v, text), true);
    Choose(BuiltinType, 0, m, i, i + 1, v, Add(v, text));
    BuiltinIsType(m, i, i + 1, v, Add(v, text));
  }

  lemma BuiltinIsType(m: string, i: nat, e: nat, v: View, v': View)
    requires Says(BuiltinType, m, i, e, v, v', true) && IsLower(At(m, i)) && At(m, i) != 'r'
    ensures Says(Type, m, i, e, v, v', true)
  {
    hide Says;
    JustType(5, BuiltinType, m, i, e, v, v');
  }

  lemma BuiltinLetters(c: char)
    requires S.BuiltinText(c) != ""
    ensures IsLower(c) && c != 'r' && c != 'u'
  {}

  lemma VendorTypeRule(m: string, i: nat, id: string, v: View)
    requires Has(m, i, 'u') && S.GoodId(id) && HasAt(m, i + 1, S.Counted(id))
    ensures Says(Type, m, i, i + 1 + |S.Counted(id)|, v, Add(v, S.IdText(id)), true)
  {
    hide Says, Does, Goes, Spoken, EvalAlt, AltFails, Add, S.IdText, S.Counted, S.GoodId, HasAt;
    var e, w := i + 1 + |S.Counted(id)|, Add(v, S.IdText(id));
    IsInside(m, i + 1, S.Counted(id));
    SourceNameRule(m, i + 1, id, v);
    DoesCall(SourceName, m, i + 1, e, v, w, true);
    LastInChain(Call(SourceName), m, i + 1, e, v, w, true);
    DoesChar('u', m, i, v);
    CopySpoken(BuiltinType, 1, Char('u'), [Call(SourceName)], m, i, i + 1, v, v, false, e, w, true);
    assert S.BuiltinText('u') == "";
    BySight(BuiltinType, 0, m, i);
    Choose(BuiltinType, 1, m, i, e, v, w);
    BuiltinIsType(m, i, e, v, w);
  }

  lemma DoesY(m: string, i: nat, isC: bool, v: View)
    requires i <= |m| && (isC <==> Has(m, i, 'Y'))
    ensures Does(OptChar('Y'), m, i, if isC then i + 1 else i, v, v, false)
  {
    hide Does;
    DoesLeaf(OptChar('Y'), m, i, if isC then i + 1 else i, v);
  }

  lemma FunctionTypeRule(m: string, i: nat, isC: bool, e: nat, v: View)
    requires Has(m, i, 'F') && (isC <==> Has(m, i + 1, 'Y')) && Has(m, e, 'E')
    requires var at := if isC then i + 2 else i + 1; ReadsTo(EvalOneOrMore(Type, m, at), e)
    ensures Says(Type, m, i, e + 1, v, Add(v, "()"), true)
  {
    hide Says, Does, Goes, Spoken, EvalAlt, Add, EvalOneOrMore, ReadsTo;
    var rest, w := [OptChar('Y'), Call(BareFunctionType), Char('E')], Add(v, "()");
    var at := if isC then i + 2 else i + 1;
    GoesEnd(rest, m, e + 1, w);
    DoesChar('E', m, e, w);
    GoesOn(rest, 2, m, e, e + 1, w, w, false, e + 1, w, false);
    ParametersRule(m, at, e, v);
    DoesCall(BareFunctionType, m, at, e, v, w, true);
    GoesOn(rest, 1, m, at, e, v, w, true, e + 1, w, false);
    DoesY(m, i + 1, isC, v);
    GoesOn(rest, 0, m, i + 1, at, v, v, false, e + 1, w, true);
    DoesChar('F', m, i, v);
    CopySpoken(FunctionType, 0, Char('F'), rest, m, i, i + 1, v, v, false, e + 1, w, true);
    Choose(FunctionType, 0, m, i, e + 1, v, w);
    FunctionIsType(m, i, e + 1, v, w);
  }

  lemma FunctionIsType(m: string, i: nat, e: nat, v: View, v': View)
    requires Has(m, i, 'F') && Says(FunctionType, m, i, e, v, v', true)
    ensures Says(Type, m, i, e, v, v', true)
  {
    hide Says;
    JustType(6, FunctionType, m, i, e, v, v');
  }

  /** A class name, where nothing that is tried before a name starts. */
  lemma ClassRule(m: string, i: nat, e: nat, v: View, v': View)
    requires Says(Name, m, i, e, v, v', true) && S.ClassFirst(At(m, i))
    ensures Says(Type, m, i, e, v, v', true)
  {
    hide Says;
    JustRule(ClassEnumType, 0, Name, m, i, e, v, v', true);
    JustType(7, ClassEnumType, m, i, e, v, v');
  }

  lemma ArrayIsType(m: string, i: nat, e: nat, v: View, v': View)
    requires Has(m, i, 'A') && Says(ArrayType, m, i, e, v, v', true)
    ensures Says(Type, m, i, e, v, v', true)
  {
    hide Says;
    JustType(8, ArrayType, m, i, e, v, v');
  }

  lemma ArrayRule(m: string, i: nat, n: S.Num, e: nat, v: View, v': View)
    requires Has(m, i, 'A') && HasAt(m, i + 1, S.NumText(n)) && Has(m, i + 1 + |S.NumText(n)|, '_')
    requires Says(Type, m, i + 2 + |S.NumText(n)|, e, v, v', true)
    ensures Says(Type, m, i, e, v, v', true)
  {
    hide Says, Does, Goes, Spoken, EvalAlt, S.NumText, HasAt;
    var rest, at := [Number, Char('_'), Call(Type)], i + 1 + |S.NumText(n)|;
    SaysWithin(Type, m, at + 1, e, v, v', true);
    GoesEnd(rest, m, e, v');
    DoesCall(Type, m, at + 1, e, v, v', true);
    GoesOn(rest, 2, m, at + 1, e, v, v', true, e, v', false);
    DoesChar('_', m, at, v);
    GoesOn(rest, 1, m, at, at + 1, v, v, false, e, v', true);
    DoesNumber(m, i + 1, n, v);
    GoesOn(rest, 0, m, i + 1, at, v, v, false, e, v', true);
    DoesChar('A', m, i, v);
    CopySpoken(ArrayType, 0, Char('A'), rest, m, i, i + 1, v, v, false, e, v', true);
    Choose(ArrayType, 0, m, i, e, v, v');
    ArrayIsType(m, i, e, v, v');
  }

  lemma NoDimension(m: string, i: nat)
    requires Has(m, i, 'A') && i + 1 <= |m|
    requires !IsDigit(At(m, i + 1)) && (At(m, i + 1) == 'n' ==> !IsDigit(At(m, i + 2)))
    ensures AltFails(ArrayType, 0, m, i)
  {
    hide EvalAlt, EvalStep, EvalSteps, AltFails;
    var rest := [Number, Char('_'), Call(Type)];
    NoNumber(m, i + 1);
    ChainFailsNow(rest, 0, m, i + 1);
    CharStep('A', m, i, TOP);
    CopyFailsLater(ArrayType, 0, Char('A'), rest, m, i, i + 1);
  }

  /** An array whose dimension is an expression, or missing. */
  lemma ArrayOfRule(m: string, i: nat, at: nat, v: View, u: View, w: bool, e: nat, v': View)
    requires Has(m, i, 'A') && Does(Opt(Expression), m, i + 1, at, v, u, w) && Has(m, at, '_')
    requires !IsDigit(At(m, i + 1)) && (At(m, i + 1) == 'n' ==> !IsDigit(At(m, i + 2)))
    requires Says(Type, m, at + 1, e, u, v', true)
    ensures Says(Type, m, i, e, v, v', true)
  {
    hide Says, Does, Goes, Spoken, EvalAlt, AltFails;
    var rest := [Opt(Expression), Char('_'), Call(Type)];
    SaysWithin(Type, m, at + 1, e, u, v', true);
    GoesEnd(rest, m, e, v');
    DoesCall(Type, m, at + 1, e, u, v', true);
    GoesOn(rest, 2, m, at + 1, e, u, v', true, e, v', false);
    DoesChar('_', m, at, u);
    GoesOn(rest, 1, m, at, at + 1, u, u, false, e, v', true);
    GoesOn(rest, 0, m, i + 1, at, v, u, w, e, v', true);
    DoesChar('A', m, i, v);
    CopySpoken(ArrayType, 1, Char('A'), rest, m, i, i + 1, v, v, false, e, v', true);
    NoDimension(m, i);
    Choose(ArrayType, 1, m, i, e, v, v');
    ArrayIsType(m, i, e, v, v');
  }

  lemma DoesOpt(f: Function, m: string, i: nat, e: nat, v: View, v': View, w: bool)
    requires Says(f, m, i, e, v, v', w)
    ensures Does(Opt(f), m, i, e, v, v', w)
  {
    hide Eval, EvalStep, Spoken;
    SaysWithin(f, m, i, e, v, v', w);
    BelowTop(Opt(f));
    OptIs(f, m, i);
  }

  lemma DoesNothing(f: Function, m: string, i: nat, v: View)
    requires i <= |m| && Plain(f) && !Starts(f, At(m, i))
    ensures Does(Opt(f), m, i, i, v, v, false)
  {
    hide Eval, EvalStep, Starts;
    NothingStarts(f, m, i);
    BelowTop(Opt(f));
    OptIs(f, m, i);
  }

  lemma MemberPointerRule(m: string, i: nat, e1: nat, v: View, v1: View, e: nat, v': View)
    requires Has(m, i, 'M') && Says(Type, m, i + 1, e1, v, v1, true) && Says(Type, m, e1, e, v1, v', true)
    ensures Says(Type, m, i, e, v, v', true)
  {
    hide Says, Does, Goes, Spoken, EvalAlt;
    var rest := [Call(Type), Call(Type)];
    SaysWithin(Type, m, e1, e, v1, v', true);
    GoesEnd(rest, m, e, v');
    DoesCall(Type, m, e1, e, v1, v', true);
    GoesOn(rest, 1, m, e1, e, v1, v', true, e, v', false);
    DoesCall(Type, m, i + 1, e1, v, v1, true);
    GoesOn(rest, 0, m, i + 1, e1, v, v1, true, e, v', true);
    DoesChar('M', m, i, v);
    CopySpoken(PointerToMemberType, 0, Char('M'), rest, m, i, i + 1, v, v, false, e, v', true);
    Choose(PointerToMemberType, 0, m, i, e, v, v');
    MemberIsType(m, i, e, v, v');
  }

  lemma MemberIsType(m: string, i: nat, e: nat, v: View, v': View)
    requires Has(m, i, 'M') && Says(PointerToMemberType, m, i, e, v, v', true)
    ensures Says(Type, m, i, e, v, v', true)
  {
    hide Says;
    JustType(9, PointerToMemberType, m, i, e, v, v');
  }

  /** At an 'S' or a 'T' none of the earlier kinds of type starts, but perhaps a class name. */
  lemma NotBeforeS(m: string, i: nat)
    requires Has(m, i, 'S') || Has(m, i, 'T')
    ensures forall j :: 0 <= j < 10 && j != 7 ==> AltFails(Type, j, m, i)
  {
    hide AltFails, Body;
    ManyKindsOfType();
    forall j | 0 <= j < 10 && j != 7 ensures AltFails(Type, j, m, i) {
      assert !TypeAlt(j, At(m, i)) by { NothingAtS(j); }
      Earlier(j, m, i);
    }
  }

  lemma ManyKindsOfType()
    ensures |Body(Type)| == 13
  {}

  lemma NothingAtS(j: nat)
    requires j < 10 && j != 7
    ensures !TypeAlt(j, 'S') && !TypeAlt(j, 'T')
  {}

  /** A substitution that is not "St" and has no arguments behind it is no name. */
  lemma SubstitutionIsNoName(m: string, i: nat, e: nat, v: View, v': View)
    requires Has(m, i, 'S') && At(m, i + 1) != 't' && Says(Substitution, m, i, e, v, v', true) && At(m, e) != 'I'
    ensures Fails(Eval(ClassEnumType, m, i))
  {
    hide Eval, EvalAlt, AltFails, Spoken;
    NoUnscoped(m, i);
    SubstituteTemplateName(m, i, e, v, v');
    NoTemplate(m, i, e, v, v', true);
    BySight(Name, 0, m, i);
    BySight(Name, 1, m, i);
    JustFails(Name, 3, UnscopedName, m, i);
    FromAlternatives(Name, m, i);
    JustFails(ClassEnumType, 0, Name, m, i);
    FromAlternatives(ClassEnumType, m, i);
  }

  lemma SubstitutedRule(m: string, i: nat, e: nat, v: View, v': View)
    requires Has(m, i, 'S') && At(m, i + 1) != 't' && Says(Substitution, m, i, e, v, v', true) && At(m, e) != 'I'
    ensures Says(Type, m, i, e, v, v', true)
  {
    hide Eval, EvalAlt, AltFails, Spoken;
    NotBeforeS(m, i);
    SubstitutionIsNoName(m, i, e, v, v');
    JustFails(Type, 7, ClassEnumType, m, i);
    JustSpoken(Type, 10, Substitution, m, i, e, v, v', true);
    Choose(Type, 10, m, i, e, v, v');
  }

  lemma NotBeforeT(m: string, i: nat)
    requires Has(m, i, 'T')
    ensures forall j :: 0 <= j < 11 ==> AltFails(Type, j, m, i)
  {
    hide AltFails;
    NotBeforeS(m, i);
    Earlier(7, m, i);
    Earlier(10, m, i);
  }

  lemma ParamTemplateRule(m: string, i: nat, e1: nat, v: View, v1: View, e: nat, v': View)
    requires Has(m, i, 'T') && Says(TemplateParam, m, i, e1, v, v1, true) && Says(TemplateArgs, m, e1, e, v1, v', true)
    ensures Says(Type, m, i, e, v, v', true)
  {
    hide Says, Does, Goes, Spoken, EvalAlt, AltFails;
    SaysWithin(TemplateArgs, m, e1, e, v1, v', true);
    JustRule(TemplateTemplateParam, 0, TemplateParam, m, i, e1, v, v1, true);
    DoesCall(TemplateTemplateParam, m, i, e1, v, v1, true);
    DoesCall(TemplateArgs, m, e1, e, v1, v', true);
    LastInChain(Call(TemplateArgs), m, e1, e, v1, v', true);
    CopySpoken(Type, 11, Call(TemplateTemplateParam), [Call(TemplateArgs)], m, i, e1, v, v1, true, e, v', true);
    NotBeforeT(m, i);
    Choose(Type, 11, m, i, e, v, v');
  }

  lemma ParamTypeRule(m: string, i: nat, e: nat, v: View, v': View)
    requires Has(m, i, 'T') && Says(TemplateParam, m, i, e, v, v', true) && At(m, e) != 'I'
    ensures Says(Type, m, i, e, v, v', true)
  {
    hide Says, Spoken, EvalAlt, AltFails, Eval, EvalStep, EvalSteps;
    NotBeforeT(m, i);
    JustRule(TemplateTemplateParam, 0, TemplateParam, m, i, e, v, v', true);
    CallReads(TemplateTemplateParam, m, i, e, v, v', true);
    ArgumentsFail(m, e);
    CopyFailsLater(Type, 11, Call(TemplateTemplateParam), [Call(TemplateArgs)], m, i, e);
    JustSpoken(Type, 12, TemplateParam, m, i, e, v, v', true);
    Choose(Type, 12, m, i, e, v, v');
  }

  // ---------------------------------------------------------------- expressions

  lemma ParamExprRule(m: string, i: nat, e: nat, v: View, v': View)
    requires Says(TemplateParam, m, i, e, v, v', true)
    ensures Says(Expression, m, i, e, v, v', true)
  {
    hide Says;
    JustRule(Expression, 0, TemplateParam, m, i, e, v, v', true);
  }

  lemma PrimaryExprRule(m: string, i: nat, e: nat, v: View, v': View)
    requires Has(m, i, 'L') && Says(ExprPrimary, m, i, e, v, v', true)
    ensures Says(Expression, m, i, e, v, v', true)
  {
    hide Says;
    JustRule(Expression, 1, ExprPrimary, m, i, e, v, v', true);
  }

  lemma NotSimple(m: string, i: nat)
    requires i <= |m| && At(m, i) != 'T' && At(m, i) != 'L'
    ensures AltFails(Expression, 0, m, i) && AltFails(Expression, 1, m, i)
  {
    hide AltFails;
    BySight(Expression, 0, m, i);
    BySight(Expression, 1, m, i);
  }

  /** An operator with `k` operands behind it, where one operand too many is asked for. */
  lemma TooFew1(m: string, i: nat, e0: nat, v: View, v0: View, e1: nat, v1: View)
    requires Says(OperatorName, m, i, e0, v, v0, true) && Says(Expression, m, e0, e1, v0, v1, true)
    requires Fails(Eval(Expression, m, e1))
    ensures AltFails(Expression, 2, m, i) && AltFails(Expression, 3, m, i)
  {
    hide Eval, EvalAlt, EvalStep, EvalSteps, AltFails, Says;
    CallReads(OperatorName, m, i, e0, v, v0, true);
    CallReads(Expression, m, e0, e1, v0, v1, true);
    CallIs(Expression, m, e1);
    var three, two := [Call(Expression), Call(Expression), Call(Expression)], [Call(Expression), Call(Expression)];
    ChainFailsNow(three, 1, m, e1);
    ChainFailsLater(three, 0, m, e0, e1);
    CopyFailsLater(Expression, 2, Call(OperatorName), three, m, i, e0);
    ChainFailsNow(two, 1, m, e1);
    ChainFailsLater(two, 0, m, e0, e1);
    CopyFailsLater(Expression, 3, Call(OperatorName), two, m, i, e0);
  }

  lemma TooFew2(m: string, i: nat, e0: nat, v: View, v0: View, e1: nat, v1: View, e2: nat, v2: View)
    requires Says(OperatorName, m, i, e0, v, v0, true) && Says(Expression, m, e0, e1, v0, v1, true)
    requires Says(Expression, m, e1, e2, v1, v2, true) && Fails(Eval(Expression, m, e2))
    ensures AltFails(Expression, 2, m, i)
  {
    hide Eval, EvalAlt, EvalStep, EvalSteps, AltFails, Says;
    CallReads(OperatorName, m, i, e0, v, v0, true);
    CallReads(Expression, m, e0, e1, v0, v1, true);
    CallReads(Expression, m, e1, e2, v1, v2, true);
    CallIs(Expression, m, e2);
    var three := [Call(Expression), Call(Expression), Call(Expression)];
    ChainFailsNow(three, 2, m, e2);
    ChainFailsLater(three, 1, m, e1, e2);
    ChainFailsLater(three, 0, m, e0, e1);
    CopyFailsLater(Expression, 2, Call(OperatorName), three, m, i, e0);
  }

  lemma OperatorsAreNotSimple(m: string, i: nat, e: nat, v: View, v': View)
    requires Says(OperatorName, m, i, e, v, v', true)
    ensures i < |m| && At(m, i) != 'T' && At(m, i) != 'L'
  {
    hide Eval, Spoken;
    SaysWithin(OperatorName, m, i, e, v, v', true);
    if !IsLower(At(m, i)) { Unstarted(OperatorName, m, i); }
  }

  lemma Apply1Rule(m: string, i: nat, e0: nat, v: View, v0: View, e1: nat, v1: View)
    requires Says(OperatorName, m, i, e0, v, v0, true) && Says(Expression, m, e0, e1, v0, v1, true)
    requires Fails(Eval(Expression, m, e1))
    ensures Says(Expression, m, i, e1, v, v1, true)
  {
    hide Says, Does, Goes, Spoken, EvalAlt, AltFails, Fails;
    OperatorsAreNotSimple(m, i, e0, v, v0);
    SaysWithin(Expression, m, e0, e1, v0, v1, true);
    DoesCall(Expression, m, e0, e1, v0, v1, true);
    LastInChain(Call(Expression), m, e0, e1, v0, v1, true);
    DoesCall(OperatorName, m, i, e0, v, v0, true);
    CopySpoken(Expression, 4, Call(OperatorName), [Call(Expression)], m, i, e0, v, v0, true, e1, v1, true);
    NotSimple(m, i);
    TooFew1(m, i, e0, v, v0, e1, v1);
    Choose(Expression, 4, m, i, e1, v, v1);
  }

  lemma Apply2Rule(m: string, i: nat, e0: nat, v: View, v0: View, e1: nat, v1: View, e2: nat, v2: View)
    requires Says(OperatorName, m, i, e0, v, v0, true) && Says(Expression, m, e0, e1, v0, v1, true)
    requires Says(Expression, m, e1, e2, v1, v2, true) && Fails(Eval(Expression, m, e2))
    ensures Says(Expression, m, i, e2, v, v2, true)
  {
    hide Says, Does, Goes, Spoken, EvalAlt, AltFails, Fails;
    OperatorsAreNotSimple(m, i, e0, v, v0);
    SaysWithin(Expression, m, e1, e2, v1, v2, true);
    var rest := [Call(Expression), Call(Expression)];
    GoesEnd(rest, m, e2, v2);
    DoesCall(Expression, m, e1, e2, v1, v2, true);
    GoesOn(rest, 1, m, e1, e2, v1, v2, true, e2, v2, false);
    DoesCall(Expression, m, e0, e1, v0, v1, true);
    GoesOn(rest, 0, m, e0, e1, v0, v1, true, e2, v2, true);
    DoesCall(OperatorName, m, i, e0, v, v0, true);
    CopySpoken(Expression, 3, Call(OperatorName), rest, m, i, e0, v, v0, true, e2, v2, true);
    NotSimple(m, i);
    TooFew2(m, i, e0, v, v0, e1, v1, e2, v2);
    Choose(Expression, 3, m, i, e2, v, v2);
  }

  lemma Apply3Rule(m: string, i: nat, e0: nat, v: View, v0: View, e1: nat, v1: View, e2: nat, v2: View, e3: nat,
      v3: View)
    requires Says(OperatorName, m, i, e0, v, v0, true) && Says(Expression, m, e0, e1, v0, v1, true)
    requires Says(Expression, m, e1, e2, v1, v2, true) && Says(Expression, m, e2, e3, v2, v3, true)
    ensures Says(Expression, m, i, e3, v, v3, true)
  {
    hide Says, Does, Goes, Spoken, EvalAlt, AltFails;
    OperatorsAreNotSimple(m, i, e0, v, v0);
    SaysWithin(Expression, m, e2, e3, v2, v3, true);
    var rest := [Call(Expression), Call(Expression), Call(Expression)];
    GoesEnd(rest, m, e3, v3);
    DoesCall(Expression, m, e2, e3, v2, v3, true);
    GoesOn(rest, 2, m, e2, e3, v2, v3, true, e3, v3, false);
    DoesCall(Expression, m, e1, e2, v1, v2, true);
    GoesOn(rest, 1, m, e1, e2, v1, v2, true, e3, v3, true);
    DoesCall(Expression, m, e0, e1, v0, v1, true);
    GoesOn(rest, 0, m, e0, e1, v0, v1, true, e3, v3, true);
    DoesCall(OperatorName, m, i, e0, v, v0, true);
    CopySpoken(Expression, 2, Call(OperatorName), rest, m, i, e0, v, v0, true, e3, v3, true);
    NotSimple(m, i);
    Choose(Expression, 2, m, i, e3, v, v3);
  }

  /** No operand behind an operator. */
  lemma NoOperand(m: string, i: nat, e: nat, v: View, v': View)
    requires Says(OperatorName, m, i, e, v, v', true) && Fails(Eval(Expression, m, e))
    ensures AltFails(Expression, 2, m, i) && AltFails(Expression, 3, m, i) && AltFails(Expression, 4, m, i)
  {
    hide Eval, EvalAlt, EvalStep, EvalSteps, AltFails, Says;
    CallReads(OperatorName, m, i, e, v, v', true);
    CallIs(Expression, m, e);
    var three, two := [Call(Expression), Call(Expression), Call(Expression)], [Call(Expression), Call(Expression)];
    ChainFailsNow(three, 0, m, e);
    CopyFailsLater(Expression, 2, Call(OperatorName), three, m, i, e);
    ChainFailsNow(two, 0, m, e);
    CopyFailsLater(Expression, 3, Call(OperatorName), two, m, i, e);
    ChainFailsNow([Call(Expression)], 0, m, e);
    CopyFailsLater(Expression, 4, Call(OperatorName), [Call(Expression)], m, i, e);
  }

  lemma NoOperatorFails(m: string, i: nat)
    requires i <= |m| && Fails(Eval(OperatorName, m, i))
    ensures AltFails(Expression, 2, m, i) && AltFails(Expression, 3, m, i) && AltFails(Expression, 4, m, i)
  {
    hide Eval, EvalAlt, EvalStep, EvalSteps, AltFails;
    BelowTop(Call(OperatorName));
    CallIs(OperatorName, m, i);
    var three, two := [Call(Expression), Call(Expression), Call(Expression)], [Call(Expression), Call(Expression)];
    CopyFails(Expression, 2, Call(OperatorName), three, m, i);
    CopyFails(Expression, 3, Call(OperatorName), two, m, i);
    CopyFails(Expression, 4, Call(OperatorName), [Call(Expression)], m, i);
  }

  lemma ScopeAndSize()
    ensures S.OperatorFirst('s', 't') && !S.OperatorFirst('s', 'r')
  {}

  lemma LastAlternatives()
    ensures |Body(Expression)| == 8 && Body(Expression)[5] == Copy(Two('s', 't'), [Call(Type)])
    ensures Body(Expression)[6]
      == Copy(Two('s', 'r'), [Call(Type), Call(UnqualifiedName), Call(TemplateArgs)])
    ensures Body(Expression)[7] == Copy(Two('s', 'r'), [Call(Type), Call(UnqualifiedName)])
  {}

  /** Where two characters are neither an operator name nor "st" or "sr", and no parameter or literal
      starts, there is no expression. */
  lemma NoExpression(m: string, i: nat)
    requires i <= |m| && At(m, i) != 'T' && At(m, i) != 'L' && !S.OperatorFirst(At(m, i), At(m, i + 1))
    requires !(At(m, i) == 's' && At(m, i + 1) == 'r')
    ensures Fails(Eval(Expression, m, i))
  {
    hide Eval, EvalAlt, AltFails, S.OperatorText, S.OperatorFirst, Body;
    ScopeAndSize();
    LastAlternatives();
    NotSimple(m, i);
    NoOperatorName(m, i);
    NoOperatorFails(m, i);
    TwoFails(Expression, 5, 's', 't', [Call(Type)], m, i);
    TwoFails(Expression, 6, 's', 'r', [Call(Type), Call(UnqualifiedName), Call(TemplateArgs)], m, i);
    TwoFails(Expression, 7, 's', 'r', [Call(Type), Call(UnqualifiedName)], m, i);
    FromAlternatives(Expression, m, i);
  }

  lemma SizeOfRule(m: string, i: nat, e: nat, v: View, v': View)
    requires Has2(m, i, 's', 't') && Says(Type, m, i + 2, e, v, v', true) && Fails(Eval(Expression, m, i + 2))
    ensures Says(Expression, m, i, e, v, v', true)
  {
    hide Says, Does, Goes, Spoken, EvalAlt, AltFails, Fails, S.PrintSymbol;
    SaysWithin(Type, m, i + 2, e, v, v', true);
    DoesCall(Type, m, i + 2, e, v, v', true);
    LastInChain(Call(Type), m, i + 2, e, v, v', true);
    DoesTwo('s', 't', m, i, v);
    CopySpoken(Expression, 5, Two('s', 't'), [Call(Type)], m, i, i + 2, v, v, false, e, v', true);
    NotSimple(m, i);
    SymbolRule(m, i, v);
    NoOperand(m, i, i + 2, v, S.PrintSymbol(S.OperatorText('s', 't'), v));
    Choose(Expression, 5, m, i, e, v, v');
  }

  lemma BeforeScope(m: string, i: nat)
    requires Has2(m, i, 's', 'r')
    ensures forall j :: 0 <= j < 6 ==> AltFails(Expression, j, m, i)
  {
    hide Eval, AltFails, EvalAlt, S.OperatorFirst, Body;
    ScopeAndSize();
    LastAlternatives();
    NotSimple(m, i);
    NoOperatorName(m, i);
    NoOperatorFails(m, i);
    TwoFails(Expression, 5, 's', 't', [Call(Type)], m, i);
  }

  lemma ScopeArgsRule(m: string, i: nat, e1: nat, v: View, v1: View, e2: nat, v2: View, w: bool, e: nat, v': View)
    requires Has2(m, i, 's', 'r') && Says(Type, m, i + 2, e1, v, v1, true)
    requires Says(UnqualifiedName, m, e1, e2, v1, v2, w) && Says(TemplateArgs, m, e2, e, v2, v', true)
    ensures Says(Expression, m, i, e, v, v', true)
  {
    hide Says, Does, Goes, Spoken, EvalAlt, AltFails;
    SaysWithin(TemplateArgs, m, e2, e, v2, v', true);
    var rest := [Call(Type), Call(UnqualifiedName), Call(TemplateArgs)];
    GoesEnd(rest, m, e, v');
    DoesCall(TemplateArgs, m, e2, e, v2, v', true);
    GoesOn(rest, 2, m, e2, e, v2, v', true, e, v', false);
    DoesCall(UnqualifiedName, m, e1, e2, v1, v2, w);
    GoesOn(rest, 1, m, e1, e2, v1, v2, w, e, v', true);
    DoesCall(Type, m, i + 2, e1, v, v1, true);
    GoesOn(rest, 0, m, i + 2, e1, v, v1, true, e, v', true);
    DoesTwo('s', 'r', m, i, v);
    CopySpoken(Expression, 6, Two('s', 'r'), rest, m, i, i + 2, v, v, false, e, v', true);
    BeforeScope(m, i);
    Choose(Expression, 6, m, i, e, v, v');
  }

  lemma ScopeRule(m: string, i: nat, e1: nat, v: View, v1: View, e: nat, v': View, w: bool)
    requires Has2(m, i, 's', 'r') && Says(Type, m, i + 2, e1, v, v1, true)
    requires Says(UnqualifiedName, m, e1, e, v1, v', w) && At(m, e) != 'I'
    ensures Says(Expression, m, i, e, v, v', true)
  {
    hide Says, Does, Goes, Spoken, EvalAlt, AltFails;
    SaysWithin(UnqualifiedName, m, e1, e, v1, v', w);
    var rest := [Call(Type), Call(UnqualifiedName)];
    GoesEnd(rest, m, e, v');
    DoesCall(UnqualifiedName, m, e1, e, v1, v', w);
    GoesOn(rest, 1, m, e1, e, v1, v', w, e, v', false);
    DoesCall(Type, m, i + 2, e1, v, v1, true);
    GoesOn(rest, 0, m, i + 2, e1, v, v1, true, e, v', w);
    DoesTwo('s', 'r', m, i, v);
    CopySpoken(Expression, 7, Two('s', 'r'), rest, m, i, i + 2, v, v, false, e, v', true);
    BeforeScope(m, i);
    NoScopeArgs(m, i, e1, v, v1, e, v', w);
    Choose(Expression, 7, m, i, e, v, v');
  }

  lemma NoArgsBehind(m: string, i: nat, e: nat, v: View, v': View, w: bool)
    requires Says(UnqualifiedName, m, i, e, v, v', w) && At(m, e) != 'I'
    ensures i <= |m| && Fails(EvalSteps([Call(Type), Call(UnqualifiedName), Call(TemplateArgs)], 1, m, i))
  {
    hide Says, Eval, EvalStep, EvalSteps;
    var rest := [Call(Type), Call(UnqualifiedName), Call(TemplateArgs)];
    CallReads(UnqualifiedName, m, i, e, v, v', w);
    Unstarted(TemplateArgs, m, e);
    CallIs(TemplateArgs, m, e);
    ChainFailsNow(rest, 2, m, e);
    ChainFailsLater(rest, 1, m, i, e);
  }

  lemma NoScopeArgs(m: string, i: nat, e1: nat, v: View, v1: View, e: nat, v': View, w: bool)
    requires Has2(m, i, 's', 'r') && Says(Type, m, i + 2, e1, v, v1, true)
    requires Says(UnqualifiedName, m, e1, e, v1, v', w) && At(m, e) != 'I'
    ensures AltFails(Expression, 6, m, i)
  {
    hide Says, Eval, EvalAlt, EvalStep, EvalSteps, AltFails, Body, Fails, ReadsTo;
    LastAlternatives();
    var rest := [Call(Type), Call(UnqualifiedName), Call(TemplateArgs)];
    CallReads(Type, m, i + 2, e1, v, v1, true);
    NoArgsBehind(m, e1, e, v1, v', w);
    ChainFailsLater(rest, 0, m, i + 2, e1);
    TwoReads('s', 'r', m, i);
    CopyFailsLater(Expression, 6, Two('s', 'r'), rest, m, i, i + 2);
  }

  // ---------------------------------------------------------------- literals

  lemma NumberLiteralRule(m: string, i: nat, e1: nat, n: S.Num, v: View, v': View)
    requires Has(m, i, 'L') && Says(Type, m, i + 1, e1, v, v', true)
    requires HasAt(m, e1, S.NumText(n)) && Has(m, e1 + |S.NumText(n)|, 'E')
    ensures Says(ExprPrimary, m, i, e1 + |S.NumText(n)| + 1, v, v', true)
  {
    hide Says, Does, Goes, Spoken, EvalAlt, S.NumText, HasAt;
    var rest, at := [Call(Type), Number, Char('E')], e1 + |S.NumText(n)|;
    GoesEnd(rest, m, at + 1, v');
    DoesChar('E', m, at, v');
    GoesOn(rest, 2, m, at, at + 1, v', v', false, at + 1, v', false);
    DoesNumber(m, e1, n, v');
    GoesOn(rest, 1, m, e1, at, v', v', false, at + 1, v', false);
    DoesCall(Type, m, i + 1, e1, v, v', true);
    GoesOn(rest, 0, m, i + 1, e1, v, v', true, at + 1, v', false);
    DoesChar('L', m, i, v);
    CopySpoken(ExprPrimary, 0, Char('L'), rest, m, i, i + 1, v, v, false, at + 1, v', true);
    Choose(ExprPrimary, 0, m, i, at + 1, v, v');
  }

  predicate IsHex(hex: string) {
    (forall j :: 0 <= j < |hex| ==> IsLowerHex(hex[j])) && exists j :: 0 <= j < |hex| && !IsDigit(hex[j])
  }

  lemma FloatThere(m: string, i: nat, hex: string)
    requires HasAt(m, i, hex) && IsHex(hex) && Has(m, i + |hex|, 'E')
    ensures EvalLeaf(Float, m, i) == Yes(i + |hex|, Skip)
    ensures var n := ReadNumber(m, i); n.cur < i + |hex| && IsLowerHex(m[n.cur])
  {
    var e := i + |hex|;
    assert m[i..e] == hex;
    forall j | i <= j < e ensures IsLowerHex(m[j]) { assert m[j] == m[i..e][j - i] == hex[j - i]; }
    RunEndsAt(m, i, e, IsLowerHex);
    var k :| 0 <= k < |hex| && !IsDigit(hex[k]);
    assert m[i + k] == m[i..e][k] == hex[k];
    assert RunEnd(m, i, IsDigit) <= i + k;
    assert !Has(m, i, 'n');
  }

  lemma NoDecimal(m: string, i: nat, hex: string)
    requires HasAt(m, i, hex) && IsHex(hex) && Has(m, i + |hex|, 'E')
    ensures Fails(EvalSteps([Call(Type), Number, Char('E')], 1, m, i))
  {
    hide EvalStep, EvalSteps, ReadNumber, IsHex, HasAt;
    var rest := [Call(Type), Number, Char('E')];
    FloatThere(m, i, hex);
    var n := ReadNumber(m, i);
    LeafStep(Number, m, i);
    if n.ok {
      NotThisChar('E', m, n.cur);
      ChainFailsNow(rest, 2, m, n.cur);
      ChainFailsLater(rest, 1, m, i, n.cur);
    } else {
      ChainFailsNow(rest, 1, m, i);
    }
  }

  /** The digits of a hexadecimal number are not all of a decimal one. */
  lemma NotANumberLiteral(m: string, i: nat, e1: nat, hex: string, v: View, v': View)
    requires Has(m, i, 'L') && Says(Type, m, i + 1, e1, v, v', true)
    requires HasAt(m, e1, hex) && IsHex(hex) && Has(m, e1 + |hex|, 'E')
    ensures AltFails(ExprPrimary, 0, m, i)
  {
    hide Says, EvalAlt, EvalStep, EvalSteps, AltFails, IsHex, HasAt, Fails, ReadsTo;
    var rest := [Call(Type), Number, Char('E')];
    CallReads(Type, m, i + 1, e1, v, v', true);
    NoDecimal(m, e1, hex);
    ChainFailsLater(rest, 0, m, i + 1, e1);
    CharReads('L', m, i);
    CopyFailsLater(ExprPrimary, 0, Char('L'), rest, m, i, i + 1);
  }

  lemma CharReads(c: char, m: string, i: nat)
    requires Has(m, i, c)
    ensures ReadsTo(EvalStep(Char(c), m, i, TOP), i + 1)
  {
    hide EvalStep;
    CharStep(c, m, i, TOP);
  }

  lemma FloatLiteralRule(m: string, i: nat, e1: nat, hex: string, v: View, v': View)
    requires Has(m, i, 'L') && Says(Type, m, i + 1, e1, v, v', true)
    requires HasAt(m, e1, hex) && IsHex(hex) && Has(m, e1 + |hex|, 'E')
    ensures Says(ExprPrimary, m, i, e1 + |hex| + 1, v, v', true)
  {
    hide Says, Does, Goes, Spoken, EvalAlt, EvalLeaf, AltFails, IsHex, HasAt, ReadNumber;
    var rest, at := [Call(Type), Float, Char('E')], e1 + |hex|;
    GoesEnd(rest, m, at + 1, v');
    DoesChar('E', m, at, v');
    GoesOn(rest, 2, m, at, at + 1, v', v', false, at + 1, v', false);
    FloatThere(m, e1, hex);
    DoesLeaf(Float, m, e1, at, v');
    GoesOn(rest, 1, m, e1, at, v', v', false, at + 1, v', false);
    DoesCall(Type, m, i + 1, e1, v, v', true);
    GoesOn(rest, 0, m, i + 1, e1, v, v', true, at + 1, v', false);
    DoesChar('L', m, i, v);
    CopySpoken(ExprPrimary, 1, Char('L'), rest, m, i, i + 1, v, v, false, at + 1, v', true);
    NotANumberLiteral(m, i, e1, hex, v, v');
    Choose(ExprPrimary, 1, m, i, at + 1, v, v');
  }

  lemma DoesMangled(m: string, i: nat, e: nat, v: View, v': View)
    requires Has2(m, i, '_', 'Z') && Says(Encoding, m, i + 2, e, v, v', true)
    ensures Does(Mangled, m, i, e, v, v', true)
  {
    hide Eval, Forwards, Sound, Fine, Spoken;
    BelowTop(Mangled);
  }

  /** Where no type starts behind 'L'. */
  lemma NoTypedLiteral(m: string, i: nat)
    requires Has(m, i, 'L') && i + 1 <= |m| && Fails(Eval(Type, m, i + 1))
    ensures AltFails(ExprPrimary, 0, m, i) && AltFails(ExprPrimary, 1, m, i)
  {
    hide AltFails, Eval;
    CallBehindFails(ExprPrimary, 0, 'L', Type, [Call(Type), Number, Char('E')], m, i);
    CallBehindFails(ExprPrimary, 1, 'L', Type, [Call(Type), Float, Char('E')], m, i);
  }

  lemma ExternalRule(m: string, i: nat, e: nat, v: View, v': View)
    requires Has(m, i, 'L') && Has2(m, i + 1, '_', 'Z') && Says(Encoding, m, i + 3, e, v, v', true) && Has(m, e, 'E')
    ensures Says(ExprPrimary, m, i, e + 1, v, v', true)
  {
    hide Says, Does, Goes, Spoken, EvalAlt, AltFails, Fails;
    var rest := [Mangled, Char('E')];
    GoesEnd(rest, m, e + 1, v');
    DoesChar('E', m, e, v');
    GoesOn(rest, 1, m, e, e + 1, v', v', false, e + 1, v', false);
    DoesMangled(m, i + 1, e, v, v');
    GoesOn(rest, 0, m, i + 1, e, v, v', true, e + 1, v', false);
    DoesChar('L', m, i, v);
    CopySpoken(ExprPrimary, 2, Char('L'), rest, m, i, i + 1, v, v, false, e + 1, v', true);
    Unstarted(Type, m, i + 1);
    NoTypedLiteral(m, i);
    Choose(ExprPrimary, 2, m, i, e + 1, v, v');
  }

  /** "LZ" is followed by an encoding, not by a type: the local name would need an entity. */
  lemma NoLocalType(m: string, i: nat, e: nat, v: View, v': View)
    requires Has(m, i, 'Z') && Says(Encoding, m, i + 1, e, v, v', true) && Has(m, e, 'E')
    requires !S.NameFirst(At(m, e + 1))
    ensures Fails(Eval(Type, m, i))
  {
    hide Says, Eval, EvalAlt, AltFails, S.NameFirst;
    NoLocalName(m, i, e, v, v');
    NoNameAtZ(m, i);
    JustFails(ClassEnumType, 0, Name, m, i);
    FromAlternatives(ClassEnumType, m, i);
    NoTypeAtZ(m, i);
  }

  lemma NoLocalName(m: string, i: nat, e: nat, v: View, v': View)
    requires Has(m, i, 'Z') && Says(Encoding, m, i + 1, e, v, v', true) && Has(m, e, 'E')
    requires !S.NameFirst(At(m, e + 1))
    ensures Fails(Eval(LocalName, m, i))
  {
    hide Says, Eval, EvalAlt, AltFails, S.NameFirst;
    SmallS();
    Unstarted(Name, m, e + 1);
    NoEntity(m, i, e, v, v');
    NoString(m, i, e, v, v');
    FromAlternatives(LocalName, m, i);
  }

  lemma NoString(m: string, i: nat, e: nat, v: View, v': View)
    requires Has(m, i, 'Z') && Says(Encoding, m, i + 1, e, v, v', true) && Has(m, e, 'E') && At(m, e + 1) != 's'
    ensures AltFails(LocalName, 1, m, i)
  {
    hide Says, Eval, EvalAlt, EvalStep, EvalSteps, AltFails, EvalLeaf;
    var rest := [Call(Encoding), Two('E', 's'), Opt(Discriminator)];
    CallReads(Encoding, m, i + 1, e, v, v', true);
    TwoNotThere('E', 's', m, e);
    LeafStep(Two('E', 's'), m, e);
    ChainFailsNow(rest, 1, m, e);
    ChainFailsLater(rest, 0, m, i + 1, e);
    CharStep('Z', m, i, TOP);
    CopyFailsLater(LocalName, 1, Char('Z'), rest, m, i, i + 1);
  }

  lemma SmallS()
    ensures S.NameFirst('s')
  {}

  lemma NoNameAtZ(m: string, i: nat)
    requires Has(m, i, 'Z') && Fails(Eval(LocalName, m, i))
    ensures Fails(Eval(Name, m, i))
  {
    hide Eval, EvalAlt, AltFails;
    BySight(Name, 0, m, i);
    JustFails(Name, 1, LocalName, m, i);
    BySight(Name, 2, m, i);
    BySight(Name, 3, m, i);
    FromAlternatives(Name, m, i);
  }

  /** A type that could only be a class name. */
  lemma NoTypeAtZ(m: string, i: nat)
    requires (Has(m, i, 'Z') || Has(m, i, 'L')) && Fails(Eval(ClassEnumType, m, i))
    ensures Fails(Eval(Type, m, i))
  {
    hide Eval, EvalAlt, AltFails, Body;
    ManyKindsOfType();
    ClassIsSeventh();
    forall j | 0 <= j < 13 ensures AltFails(Type, j, m, i) {
      if j == 7 {
        JustFails(Type, 7, ClassEnumType, m, i);
      } else {
        OnlyAClass(j);
        Earlier(j, m, i);
      }
    }
    FromAlternatives(Type, m, i);
  }

  lemma ClassIsSeventh()
    ensures Body(Type)[7] == Just(ClassEnumType)
  {}

  lemma OnlyAClass(j: nat)
    requires j < 13 && j != 7
    ensures !TypeAlt(j, 'Z') && !TypeAlt(j, 'L')
  {}

  lemma OldExternalRule(m: string, i: nat, e: nat, v: View, v': View)
    requires Has2(m, i, 'L', 'Z') && Says(Encoding, m, i + 2, e, v, v', true) && Has(m, e, 'E')
    requires !S.NameFirst(At(m, e + 1))
    ensures Says(ExprPrimary, m, i, e + 1, v, v', true)
  {
    hide Says, Does, Goes, Spoken, EvalAlt, AltFails, Fails, S.NameFirst;
    var rest := [Call(Encoding), Char('E')];
    GoesEnd(rest, m, e + 1, v');
    DoesChar('E', m, e, v');
    GoesOn(rest, 1, m, e, e + 1, v', v', false, e + 1, v', false);
    DoesCall(Encoding, m, i + 2, e, v, v', true);
    GoesOn(rest, 0, m, i + 2, e, v, v', true, e + 1, v', false);
    DoesTwo('L', 'Z', m, i, v);
    CopySpoken(ExprPrimary, 3, Two('L', 'Z'), rest, m, i, i + 2, v, v, false, e + 1, v', true);
    NoLocalType(m, i + 1, e, v, v');
    NoTypedLiteral(m, i);
    NotMangled(m, i);
    Choose(ExprPrimary, 3, m, i, e + 1, v, v');
  }

  lemma NotMangled(m: string, i: nat)
    requires Has2(m, i, 'L', 'Z')
    ensures AltFails(ExprPrimary, 2, m, i)
  {
    hide EvalAlt, EvalStep, EvalSteps, AltFails;
    BelowTop(Mangled);
    MangledFails(m, i + 1);
    ChainFailsNow([Mangled, Char('E')], 0, m, i + 1);
    CharStep('L', m, i, TOP);
    CopyFailsLater(ExprPrimary, 2, Char('L'), [Mangled, Char('E')], m, i, i + 1);
  }

  lemma MangledFails(m: string, i: nat)
    requires i <= |m| && !Has2(m, i, '_', 'Z')
    ensures Fails(EvalStep(Mangled, m, i, TOP))
  {
    hide Eval, Forwards, Sound, Fine;
  }

  // ---------------------------------------------------------------- template arguments

  lemma TypeArgRule(m: string, i: nat, e: nat, v: View, v': View)
    requires Says(Type, m, i, e, v, v', true) && At(m, i) != 'I'
    ensures Says(TemplateArg, m, i, e, v, v', true)
  {
    hide Says;
    JustRule(TemplateArg, 1, Type, m, i, e, v, v', true);
  }

  /** "L" and something that is no length: not a local name, so not a type. */
  lemma LiteralIsNoType(m: string, i: nat)
    requires Has(m, i, 'L') && i + 1 <= |m| && !IsDigit(At(m, i + 1)) && At(m, i + 1) != 'n'
    ensures Fails(Eval(Type, m, i))
  {
    hide Eval, EvalAlt, AltFails, EvalStep, EvalSteps;
    Unstarted(SourceName, m, i + 1);
    CallBehindFails(LocalSourceName, 0, 'L', SourceName, [Call(SourceName), Opt(Discriminator)], m, i);
    FromAlternatives(LocalSourceName, m, i);
    NoNameAtL(m, i);
    JustFails(ClassEnumType, 0, Name, m, i);
    FromAlternatives(ClassEnumType, m, i);
    NoTypeAtZ(m, i);
  }

  lemma NoNameAtL(m: string, i: nat)
    requires Has(m, i, 'L') && Fails(Eval(LocalSourceName, m, i))
    ensures Fails(Eval(Name, m, i))
  {
    hide Eval, EvalAlt, AltFails;
    BySight(UnqualifiedName, 0, m, i);
    BySight(UnqualifiedName, 1, m, i);
    BySight(UnqualifiedName, 2, m, i);
    JustFails(UnqualifiedName, 3, LocalSourceName, m, i);
    FromAlternatives(UnqualifiedName, m, i);
    JustFails(UnscopedName, 0, UnqualifiedName, m, i);
    BySight(UnscopedName, 1, m, i);
    FromAlternatives(UnscopedName, m, i);
    NoNameFrom(m, i);
  }

  lemma NoNameFrom(m: string, i: nat)
    requires Has(m, i, 'L') && Fails(Eval(UnscopedName, m, i))
    ensures Fails(Eval(Name, m, i))
  {
    hide Eval, EvalAlt, AltFails, EvalStep;
    JustFails(UnscopedTemplateName, 0, UnscopedName, m, i);
    BySight(UnscopedTemplateName, 1, m, i);
    FromAlternatives(UnscopedTemplateName, m, i);
    BySight(Name, 0, m, i);
    BySight(Name, 1, m, i);
    CallIs(UnscopedTemplateName, m, i);
    CopyFails(Name, 2, Call(UnscopedTemplateName), [Call(TemplateArgs)], m, i);
    JustFails(Name, 3, UnscopedName, m, i);
    FromAlternatives(Name, m, i);
  }

  lemma PrimaryArgRule(m: string, i: nat, e: nat, v: View, v': View)
    requires Has(m, i, 'L') && i + 1 <= |m| && !IsDigit(At(m, i + 1)) && At(m, i + 1) != 'n'
    requires Says(ExprPrimary, m, i, e, v, v', true)
    ensures Says(TemplateArg, m, i, e, v, v', true)
  {
    hide Says, Spoken, EvalAlt, AltFails, Fails;
    LiteralIsNoType(m, i);
    BySight(TemplateArg, 0, m, i);
    JustFails(TemplateArg, 1, Type, m, i);
    JustSpoken(TemplateArg, 2, ExprPrimary, m, i, e, v, v', true);
    Choose(TemplateArg, 2, m, i, e, v, v');
  }

  lemma ExprArgRule(m: string, i: nat, e: nat, v: View, v': View)
    requires Has(m, i, 'X') && Says(Expression, m, i + 1, e, v, v', true) && Has(m, e, 'E')
    ensures Says(TemplateArg, m, i, e + 1, v, v', true)
  {
    hide Says, Does, Goes, Spoken, EvalAlt, AltFails;
    var rest := [Call(Expression), Char('E')];
    GoesEnd(rest, m, e + 1, v');
    DoesChar('E', m, e, v');
    GoesOn(rest, 1, m, e, e + 1, v', v', false, e + 1, v', false);
    DoesCall(Expression, m, i + 1, e, v, v', true);
    GoesOn(rest, 0, m, i + 1, e, v, v', true, e + 1, v', false);
    DoesChar('X', m, i, v);
    CopySpoken(TemplateArg, 3, Char('X'), rest, m, i, i + 1, v, v, false, e + 1, v', true);
    BySight(TemplateArg, 0, m, i);
    BySight(TemplateArg, 1, m, i);
    BySight(TemplateArg, 2, m, i);
    Choose(TemplateArg, 3, m, i, e + 1, v, v');
  }

  /** An argument pack: any number of arguments between 'I' and 'E'. */
  lemma PackReads(m: string, i: nat, e: nat)
    requires Has(m, i, 'I') && ReadsTo(EvalMany(TemplateArg, m, i + 1), e) && Has(m, e, 'E')
    ensures ReadsTo(Eval(TemplateArg, m, i), e + 1)
  {
    hide Eval, EvalMany, EvalStep, EvalSteps, EvalAlt;
    var rest := [Many(TemplateArg), Char('E')];
    NoStepsLeft(rest, m, e + 1, 0);
    CharReads('E', m, e);
    StepsStep(rest, 1, m, e, 0);
    ManyIs(m, i + 1);
    StepsStep(rest, 0, m, i + 1, 0);
    CharStep('I', m, i, TOP);
    PackAlternative(m, i, e + 1);
  }

  lemma ManyIs(m: string, i: nat)
    requires i <= |m|
    ensures EvalStep(Many(TemplateArg), m, i, TOP) == EvalMany(TemplateArg, m, i)
  {
    hide EvalMany, Forwards, Sound, Stays;
  }

  lemma PackAlternative(m: string, i: nat, e: nat)
    requires Has(m, i, 'I') && ReadsTo(EvalSteps([Many(TemplateArg), Char('E')], 0, m, i + 1), e)
    ensures ReadsTo(Eval(TemplateArg, m, i), e)
  {
    hide Eval, EvalStep, EvalSteps, EvalAlt;
    FirstIsBelow(TemplateArg, 0, Char('I'), [Many(TemplateArg), Char('E')]);
    CharStep('I', m, i, Rank(TemplateArg));
    CopyStep(TemplateArg, 0, Char('I'), [Many(TemplateArg), Char('E')], m, i, 0);
    Decides(TemplateArg, 0, m, i);
  }
}
