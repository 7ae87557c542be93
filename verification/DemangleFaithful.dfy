/** Demangling a mangled tree prints the tree. */
module DemangleFaithful {
  import opened Basics
  import opened DemangleOutput
  import opened DemangleGrammar
  import opened DemangleSpeech
  import opened Demangler
  import opened DemangleRoundTrip
  import opened DemangleRewind
  import opened DemangleSpoken
  import opened DemangleStarts
  import opened DemangleRules
  import opened DemangleTypeRules
  import opened DemangleSyntax

  // ---------------------------------------------------------------- what is there, and what is said

  /** The text is there, and the character behind it is one that may follow. */
  predicate OperHere(op: Oper, m: string, i: nat) {
    GoodOper(op) && HasAt(m, i, MangledOper(op)) && !ShunsOper(op, At(m, i + |MangledOper(op)|))
  }

  predicate OperSaid(op: Oper, m: string, i: nat, v: View) {
    Says(OperatorName, m, i, i + |MangledOper(op)|, v, PrintOper(op, v), true)
  }

  predicate UnqualifiedHere(u: Unqualified, m: string, i: nat) {
    && GoodUnqualified(u) && HasAt(m, i, MangledUnqualified(u))
    && !ShunsUnqualified(u, At(m, i + |MangledUnqualified(u)|))
  }

  /** A constructor without a name in front of it prints nothing. */
  predicate UnqualifiedSaid(u: Unqualified, m: string, i: nat, v: View) {
    Says(UnqualifiedName, m, i, i + |MangledUnqualified(u)|, v, PrintUnqualified(u, v), !u.Ctor?)
  }

  predicate NameHere(n: Name, m: string, i: nat) {
    GoodName(n) && HasAt(m, i, MangledName(n)) && !ShunsName(n, At(m, i + |MangledName(n)|))
  }

  predicate NameSaid(n: Name, m: string, i: nat, v: View) {
    Says(Name, m, i, i + |MangledName(n)|, v, PrintName(n, v), true)
  }

  predicate EncodingHere(x: Encoding, m: string, i: nat) {
    GoodEncoding(x) && HasAt(m, i, MangledEncoding(x)) && !ShunsEncoding(x, At(m, i + |MangledEncoding(x)|))
  }

  predicate EncodingSaid(x: Encoding, m: string, i: nat, v: View) {
    Says(Encoding, m, i, i + |MangledEncoding(x)|, v, PrintEncoding(x, v), true)
  }

  predicate TypeHere(t: Type, m: string, i: nat) {
    GoodType(t) && HasAt(m, i, MangledType(t)) && !ShunsType(t, At(m, i + |MangledType(t)|))
  }

  predicate TypeSaid(t: Type, m: string, i: nat, v: View) {
    Says(Type, m, i, i + |MangledType(t)|, v, PrintType(t, v), true)
  }

  predicate PrimaryHere(p: Primary, m: string, i: nat) {
    GoodPrimary(p) && HasAt(m, i, MangledPrimary(p)) && !ShunsPrimary(p, At(m, i + |MangledPrimary(p)|))
  }

  predicate PrimarySaid(p: Primary, m: string, i: nat, v: View) {
    Says(ExprPrimary, m, i, i + |MangledPrimary(p)|, v, PrintPrimary(p, v), true)
  }

  predicate ExprHere(e: Expr, m: string, i: nat) {
    GoodExpr(e) && HasAt(m, i, MangledExpr(e)) && !ShunsExpr(e, At(m, i + |MangledExpr(e)|))
  }

  predicate ExprSaid(e: Expr, m: string, i: nat, v: View) {
    Says(Expression, m, i, i + |MangledExpr(e)|, v, PrintExpr(e, v), true)
  }

  // ---------------------------------------------------------------- first characters

  lemma FirstAt(m: string, i: nat, s: string)
    requires HasAt(m, i, s) && s != ""
    ensures At(m, i) == First(s)
  {
    assert m[i] == m[i..i + |s|][0];
  }

  /** The character behind the first of two pieces. */
  lemma Behind(m: string, i: nat, a: string, b: string)
    requires HasAt(m, i, a + b) && b != ""
    ensures HasAt(m, i, a) && HasAt(m, i + |a|, b) && At(m, i + |a|) == First(b)
  {
    Pieces(m, i, a, b);
    FirstAt(m, i + |a|, b);
  }

  lemma Starter(f: Function, m: string, i: nat, e: nat, v: View, v': View, w: bool)
    requires Says(f, m, i, e, v, v', w)
    ensures Starts(f, At(m, i))
  {
    hide Eval, Starts, Shown, Shuts;
    if !Starts(f, At(m, i)) { Unstarted(f, m, i); }
  }

  lemma Weaker(f: Function, m: string, i: nat, e: nat, v: View, v': View, w: bool)
    requires Says(f, m, i, e, v, v', w)
    ensures Says(f, m, i, e, v, v', false)
  {
    hide Eval, Shown, Shuts;
  }

  // ---------------------------------------------------------------- substitutions and parameters

  lemma ParsesSubstitute(s: Substitute, m: string, i: nat, v: View)
    requires GoodSubstitute(s) && HasAt(m, i, MangledSubstitute(s))
    ensures Says(Substitution, m, i, i + |MangledSubstitute(s)|, v, PrintSubstitute(s, v), true) && Has(m, i, 'S')
  {
    hide Says, Add, IsStandard, StandardText;
    match s
    case Numbered(id) =>
      Pieces3(m, i, "S", id, "_");
      if id == "" { BackReferenceRule(m, i, v); } else { NumberedRule(m, i, id, v); }
    case Standard(c) =>
      Pieces(m, i, "S", [c]);
      FirstAt(m, i + 1, [c]);
      StandardRule(m, i, v);
  }

  lemma ParsesParam(p: Param, m: string, i: nat, v: View)
    requires HasAt(m, i, MangledParam(p))
    ensures Says(TemplateParam, m, i, i + |MangledParam(p)|, v, PrintParam(v), true) && Has(m, i, 'T')
  {
    hide Says, Add, NumText;
    var t := if p.number.Some? then NumText(p.number.value) else "";
    Pieces3(m, i, "T", t, "_");
    if p.number.Some? { ParamRule(m, i, p.number.value, v); } else { FirstParamRule(m, i, v); }
  }

  // ---------------------------------------------------------------- operators and unqualified names

  lemma ParsesOper(op: Oper, m: string, i: nat, v: View)
    requires OperHere(op, m, i)
    ensures OperSaid(op, m, i, v)
    decreases op, 0
  {
    hide Says, Add, PrintSymbol, OperatorText, Counted, IdText, GoodId, PrintType, MangledType, ShunsType, GoodType;
    match op
    case Symbol(a, b) =>
      Pieces(m, i, [a], [b]) by { assert [a, b] == [a] + [b]; }
      FirstAt(m, i, [a]);
      FirstAt(m, i + 1, [b]);
      SymbolRule(m, i, v);
    case Cast(to) =>
      Pieces(m, i, "cv", MangledType(to));
      TwoThere(m, i, 'c', 'v');
      ParsesType(to, m, i + 2, Add(v, "operator ").(nest := 0));
      CastRule(m, i, i + 2 + |MangledType(to)|, v, PrintType(to, Add(v, "operator ").(nest := 0)));
    case Vendor(digit, id) =>
      Pieces3(m, i, "v", [digit], Counted(id));
      FirstAt(m, i + 1, [digit]);
      VendorRule(m, i, id, v);
  }

  lemma TwoThere(m: string, i: nat, a: char, b: char)
    requires HasAt(m, i, [a, b]) && a != '\0' && b != '\0'
    ensures Has2(m, i, a, b)
  {
    assert m[i..i + 2] == [a, b];
    assert m[i] == m[i..i + 2][0] && m[i + 1] == m[i..i + 2][1];
  }

  lemma CountedFirst(m: string, i: nat, id: string)
    requires HasAt(m, i, Counted(id))
    ensures IsDigit(At(m, i))
  {
    hide Dec;
    Pieces(m, i, Dec(|id|), id);
    FirstAt(m, i, Dec(|id|));
  }

  /** An unqualified name is one of four kinds, told apart by the first character. */
  lemma AsUnqualified(k: nat, g: Function, m: string, i: nat, e: nat, v: View, v': View, w: bool)
    requires k < 4 && Body(UnqualifiedName)[k] == Just(g) && Says(g, m, i, e, v, v', w)
    requires k >= 1 ==> !IsLower(At(m, i))
    requires k >= 2 ==> At(m, i) != 'C' && At(m, i) != 'D'
    requires k >= 3 ==> !IsDigit(At(m, i))
    ensures Says(UnqualifiedName, m, i, e, v, v', w)
  {
    hide Says;
    JustRule(UnqualifiedName, k, g, m, i, e, v, v', w);
  }

  lemma ParsesUnqualified(u: Unqualified, m: string, i: nat, v: View)
    requires UnqualifiedHere(u, m, i)
    ensures UnqualifiedSaid(u, m, i, v)
    decreases u, 0
  {
    hide Says, Add, Counted, IdText, GoodId, PrintOper, MangledOper, ShunsOper, GoodOper, DiscText, ShunsAfter;
    var e := i + |MangledUnqualified(u)|;
    match u
    case Source(id) =>
      SourceNameRule(m, i, id, v);
      CountedFirst(m, i, id);
      AsUnqualified(2, SourceName, m, i, e, v, PrintUnqualified(u, v), true);
    case LocalSource(id, disc) =>
      Pieces3(m, i, "L", Counted(id), DiscText(disc));
      LocalSourceRule(m, i, id, disc, v);
      AsUnqualified(3, LocalSourceName, m, i, e, v, PrintUnqualified(u, v), true);
    case Operator(op) =>
      ParsesOper(op, m, i, v);
      AsUnqualified(0, OperatorName, m, i, e, v, PrintUnqualified(u, v), true);
    case Ctor(kind) =>
      Pieces(m, i, "C", [kind]);
      FirstAt(m, i + 1, [kind]);
      CtorRule(m, i, v);
      Weaker(CtorDtorName, m, i, e, v, PrintUnqualified(u, v), v.last != "");
      AsUnqualified(1, CtorDtorName, m, i, e, v, PrintUnqualified(u, v), false);
    case Dtor(kind) =>
      Pieces(m, i, "D", [kind]);
      FirstAt(m, i + 1, [kind]);
      DtorRule(m, i, v);
      AsUnqualified(1, CtorDtorName, m, i, e, v, PrintUnqualified(u, v), true);
  }

  function Scoped(std: bool, u: Unqualified): string { (if std then "St" else "") + MangledUnqualified(u) }

  lemma ParsesScoped(std: bool, u: Unqualified, m: string, i: nat, v: View)
    requires GoodUnqualified(u) && Leading(u) && HasAt(m, i, Scoped(std, u))
        && !ShunsUnqualified(u, At(m, i + |Scoped(std, u)|))
    ensures Says(UnscopedName, m, i, i + |Scoped(std, u)|, v, PrintScoped(std, u, v), true) && NotNested(At(m, i))
    decreases u, 1
  {
    hide Says, Add, MangledUnqualified, PrintUnqualified, ShunsUnqualified, GoodUnqualified, HasAt;
    var at, e := if std then i + 2 else i, i + |Scoped(std, u)|;
    Pieces(m, i, if std then "St" else "", MangledUnqualified(u));
    if std {
      TwoThere(m, i, 'S', 't');
      ParsesUnqualified(u, m, i + 2, Add(v, "std::"));
      StdRule(m, i, e, v, PrintUnqualified(u, Add(v, "std::")), true);
    } else {
      ParsesUnqualified(u, m, i, v);
      AsUnscoped(m, i, e, v, PrintUnqualified(u, v), true);
    }
  }

  lemma AsUnscoped(m: string, i: nat, e: nat, v: View, v': View, w: bool)
    requires Says(UnqualifiedName, m, i, e, v, v', w)
    ensures Says(UnscopedName, m, i, e, v, v', w) && UnqualifiedFirst(At(m, i)) && NotNested(At(m, i))
  {
    hide Says;
    Starter(UnqualifiedName, m, i, e, v, v', w);
    JustRule(UnscopedName, 0, UnqualifiedName, m, i, e, v, v', w);
  }

  // ---------------------------------------------------------------- template arguments

  const ANY := View("", "", 0, true)

  lemma ParsesArgs(args: Args, m: string, i: nat, v: View)
    requires args.Args? && GoodArgs(args) && HasAt(m, i, MangledArgs(args))
    ensures Says(TemplateArgs, m, i, i + |MangledArgs(args)|, v, PrintArgs(v), true) && Has(m, i, 'I')
    decreases args, 2
  {
    hide Says, Add, MangledArgList, GoodArgs, EvalMany, EvalOneOrMore, ReadsTo;
    Pieces3(m, i, "I", MangledArgList(args), "E");
    Join2(m, i + 1, MangledArgList(args), "E");
    ParsesArgList(args, m, i + 1);
    ArgumentsRule(m, i, i + 1 + |MangledArgList(args)|, v);
  }

  lemma Join2(m: string, i: nat, a: string, b: string)
    requires HasAt(m, i, a) && HasAt(m, i + |a|, b)
    ensures HasAt(m, i, a + b)
  {
    assert m[i..i + |a| + |b|] == m[i..i + |a|] + m[i + |a|..i + |a| + |b|];
  }

  lemma ParsesArgList(args: Args, m: string, i: nat)
    requires GoodArgs(args) && HasAt(m, i, MangledArgList(args) + "E")
    ensures i + |MangledArgList(args)| <= |m|
    ensures ReadsTo(EvalMany(TemplateArg, m, i), i + |MangledArgList(args)|)
    ensures args.Args? ==> ReadsTo(EvalOneOrMore(TemplateArg, m, i), i + |MangledArgList(args)|)
    decreases args, 1
  {
    hide EvalMany, EvalOneOrMore, Eval, ReadsTo, MangledArg, ArgHere, GoodArgs, HasAt;
    if args.NoArgs? {
      EndHere(m, i);
      Unstarted(TemplateArg, m, i);
      ManyEnd(TemplateArg, m, i);
    } else {
      var a, tail := MangledArg(args.head), MangledArgList(args.tail);
      ArgPieces(args, m, i);
      ParsesArg(args.head, m, i);
      ParsesArgList(args.tail, m, i + |a|);
      ManyOn(TemplateArg, m, i, i + |a|, i + |a| + |tail|);
    }
  }

  lemma EndHere(m: string, i: nat)
    requires HasAt(m, i, [] + "E")
    ensures Has(m, i, 'E')
  {
    assert [] + "E" == "E";
    FirstAt(m, i, "E");
  }

  lemma ArgPieces(args: Args, m: string, i: nat)
    requires args.Args? && GoodArgs(args) && HasAt(m, i, MangledArgList(args) + "E")
    ensures ArgHere(args.head, m, i) && GoodArgs(args.tail)
    ensures HasAt(m, i + |MangledArg(args.head)|, MangledArgList(args.tail) + "E")
  {
    hide MangledArg, ShunsArg, GoodArg, HasAt;
    var a, tail := MangledArg(args.head), MangledArgList(args.tail);
    assert a + tail + "E" == a + (tail + "E");
    Behind(m, i, a, tail + "E");
  }

  predicate ArgHere(a: Arg, m: string, i: nat) {
    GoodArg(a) && HasAt(m, i, MangledArg(a)) && !ShunsArg(a, At(m, i + |MangledArg(a)|))
  }

  lemma ParsesArg(a: Arg, m: string, i: nat)
    requires ArgHere(a, m, i)
    ensures i + |MangledArg(a)| <= |m| && ReadsTo(Eval(TemplateArg, m, i), i + |MangledArg(a)|)
    decreases a, 1
  {
    hide Eval, ReadsTo, ArgHere, MangledArg;
    match a
    case TypeArg(t) => ParsesTypeArg(a, m, i);
    case PrimaryArg(literal) => ParsesPrimaryArg(a, m, i);
    case PackArg(args) => ParsesPackArg(a, m, i);
    case ExprArg(e) => ParsesExprArg(a, m, i);
  }

  lemma ParsesTypeArg(a: Arg, m: string, i: nat)
    requires a.TypeArg? && ArgHere(a, m, i)
    ensures i + |MangledArg(a)| <= |m| && ReadsTo(Eval(TemplateArg, m, i), i + |MangledArg(a)|)
    decreases a, 0
  {
    hide Says, Eval, ReadsTo, MangledType, ShunsType, GoodType, PrintType;
    var e, v' := i + |MangledArg(a)|, PrintType(a.t, ANY);
    ParsesType(a.t, m, i, ANY);
    Starter(Type, m, i, e, ANY, v', true);
    TypeArgRule(m, i, e, ANY, v');
    SaysWithin(TemplateArg, m, i, e, ANY, v', true);
  }

  lemma ParsesPrimaryArg(a: Arg, m: string, i: nat)
    requires a.PrimaryArg? && ArgHere(a, m, i)
    ensures i + |MangledArg(a)| <= |m| && ReadsTo(Eval(TemplateArg, m, i), i + |MangledArg(a)|)
    decreases a, 0
  {
    hide Says, Eval, ReadsTo, MangledPrimary, ShunsPrimary, GoodPrimary, PrintPrimary;
    var e, v' := i + |MangledArg(a)|, PrintPrimary(a.literal, ANY);
    ParsesPrimary(a.literal, m, i, ANY);
    LiteralHead(a.literal, m, i);
    PrimaryArgRule(m, i, e, ANY, v');
    SaysWithin(TemplateArg, m, i, e, ANY, v', true);
  }

  lemma ParsesPackArg(a: Arg, m: string, i: nat)
    requires a.PackArg? && ArgHere(a, m, i)
    ensures i + |MangledArg(a)| <= |m| && ReadsTo(Eval(TemplateArg, m, i), i + |MangledArg(a)|)
    decreases a, 0
  {
    hide Eval, EvalMany, EvalOneOrMore, ReadsTo, MangledArgList, GoodArgs;
    IsInside(m, i, MangledArg(a));
    Pieces3(m, i, "I", MangledArgList(a.args), "E");
    Join2(m, i + 1, MangledArgList(a.args), "E");
    ParsesArgList(a.args, m, i + 1);
    PackReads(m, i, i + 1 + |MangledArgList(a.args)|);
  }

  lemma ParsesExprArg(a: Arg, m: string, i: nat)
    requires a.ExprArg? && ArgHere(a, m, i)
    ensures i + |MangledArg(a)| <= |m| && ReadsTo(Eval(TemplateArg, m, i), i + |MangledArg(a)|)
    decreases a, 0
  {
    hide Says, Eval, ReadsTo, MangledExpr, ShunsExpr, GoodExpr, PrintExpr;
    var x, v' := MangledExpr(a.e), PrintExpr(a.e, ANY);
    Pieces3(m, i, "X", x, "E");
    ParsesExpr(a.e, m, i + 1, ANY);
    ExprArgRule(m, i, i + 1 + |x|, ANY, v');
    SaysWithin(TemplateArg, m, i, i + |MangledArg(a)|, ANY, v', true);
  }

  /** What follows the 'L' of a literal is no length. */
  lemma LiteralHead(p: Primary, m: string, i: nat)
    requires PrimaryHere(p, m, i)
    ensures Has(m, i, 'L') && i + 1 <= |m| && !IsDigit(At(m, i + 1)) && At(m, i + 1) != 'n'
  {
    hide MangledType, MangledEncoding, GoodType, GoodEncoding, NumText;
    match p
    case Integer(t, n) =>
      NonEmptyType(t);
      assert MangledPrimary(p) == "L" + (MangledType(t) + (NumText(n) + "E"));
      Pieces(m, i, "L", MangledType(t) + (NumText(n) + "E"));
      Pieces(m, i + 1, MangledType(t), NumText(n) + "E");
      FirstAt(m, i + 1, MangledType(t));
    case Float(t, hex) =>
      NonEmptyType(t);
      assert MangledPrimary(p) == "L" + (MangledType(t) + (hex + "E"));
      Pieces(m, i, "L", MangledType(t) + (hex + "E"));
      Pieces(m, i + 1, MangledType(t), hex + "E");
      FirstAt(m, i + 1, MangledType(t));
    case External(e) =>
      assert MangledPrimary(p) == "L" + ("_" + ("Z" + MangledEncoding(e) + "E"));
      Pieces(m, i, "L", "_" + ("Z" + MangledEncoding(e) + "E"));
      Pieces(m, i + 1, "_", "Z" + MangledEncoding(e) + "E");
    case OldExternal(e) =>
      assert MangledPrimary(p) == "L" + ("Z" + (MangledEncoding(e) + "E"));
      Pieces(m, i, "L", "Z" + (MangledEncoding(e) + "E"));
      Pieces(m, i + 1, "Z", MangledEncoding(e) + "E");
  }

  lemma NonEmptyType(t: Type)
    requires GoodType(t)
    ensures MangledType(t) != ""
  {}

  lemma NonEmptyTypes(ts: Types)
    requires GoodTypes(ts)
    ensures MangledTypes(ts) != ""
  {
    hide MangledType, GoodType;
    NonEmptyType(ts.t);
  }

  // ---------------------------------------------------------------- nested names

  predicate Writes(p: Part) { !(p.NamePart? && p.u.Ctor?) }

  lemma ParsesPart(p: Part, m: string, i: nat, v: View)
    requires !p.ArgsPart? && GoodPart(p) && HasAt(m, i, MangledPart(p)) && !ShunsPart(p, At(m, i + |MangledPart(p)|))
    ensures SaysComponent(m, i, i + |MangledPart(p)|, v, PrintComponent(p, v), Writes(p))
    decreases p, 0
  {
    hide Says, Add, MangledUnqualified, PrintUnqualified, ShunsUnqualified, GoodUnqualified, MangledSubstitute,
        MangledParam, PrintSubstitute, PrintParam, GoodSubstitute, SaysComponent;
    var e, v' := i + |MangledPart(p)|, PrintComponent(p, v);
    match p
    case SubstitutePart(s) =>
      ParsesSubstitute(s, m, i, v);
      SubstituteComponent(m, i, e, v, v', true);
    case ParamPart(q) =>
      ParsesParam(q, m, i, v);
      ParamComponent(m, i, e, v, v', true);
    case NamePart(u) =>
      ParsesUnqualified(u, m, i, v);
      AsUnscoped(m, i, e, v, v', Writes(p));
      NameComponent(m, i, e, v, v', Writes(p));
  }

  lemma WeakerPrefix(m: string, i: nat, has: bool, e: nat, v: View, v': View, w: bool, w': bool)
    requires SaysPrefix(m, i, has, e, v, v', w) && (w' ==> w)
    ensures SaysPrefix(m, i, has, e, v, v', w')
  {
    hide EvalPrefix, Shown, Shuts;
  }

  lemma ParsesParts(ps: Parts, m: string, i: nat, has: bool, v: View)
    requires GoodParts(ps, has) && HasAt(m, i, MangledParts(ps) + "E")
    ensures SaysPrefix(m, i, has, i + |MangledParts(ps)|, v, PrintParts(ps, v), ps.Parts? && Writes(ps.head))
    decreases ps, 0
  {
    hide Says, SaysComponent, SaysPrefix, MangledPart, PrintComponent, PrintArgs, GoodPart, ShunsPart, MangledArgs;
    if ps.NoParts? {
      FirstAt(m, i, "E");
      PrefixEnd(m, i, has, v);
    } else {
      var p, tail := MangledPart(ps.head), MangledParts(ps.tail);
      var e1, e, v1 := i + |p|, i + |p| + |tail|, PrintPart(ps.head, v);
      assert p + tail + "E" == p + (tail + "E");
      Behind(m, i, p, tail + "E");
      ParsesParts(ps.tail, m, e1, !ps.head.ArgsPart?, v1);
      var w2 := ps.tail.Parts? && Writes(ps.tail.head);
      if ps.head.ArgsPart? {
        ArgsPartIs(ps.head);
        ParsesArgs(ps.head.args, m, i, v);
        PrefixArgs(m, i, e1, v, v1, e, PrintParts(ps, v), w2);
      } else {
        ParsesPart(ps.head, m, i, Separating(v));
        PrefixOn(m, i, has, e1, v, PrintComponent(ps.head, Separating(v)), Writes(ps.head), e, PrintParts(ps, v), w2);
        WeakerPrefix(m, i, has, e, v, PrintParts(ps, v), Writes(ps.head) || w2, Writes(ps.head));
      }
    }
  }

  lemma ArgsPartIs(p: Part)
    requires p.ArgsPart? && GoodPart(p)
    ensures p.args.Args? && GoodArgs(p.args) && MangledPart(p) == MangledArgs(p.args)
  {
    hide MangledArgs, GoodArgs;
  }

  // ---------------------------------------------------------------- names

  lemma ParsesName(n: Name, m: string, i: nat, v: View)
    requires NameHere(n, m, i)
    ensures NameSaid(n, m, i, v)
    decreases n, 1
  {
    hide NameHere, NameSaid;
    match n
    case Unscoped(_, _) => ParsesUnscoped(n, m, i, v);
    case Template(_, _, _) => ParsesTemplate(n, m, i, v);
    case SubstituteTemplate(_, _) => ParsesSubstituteTemplate(n, m, i, v);
    case Nested(_, _) => ParsesNested(n, m, i, v);
    case Local(_, _, _) => ParsesLocal(n, m, i, v);
    case LocalString(_, _) => ParsesLocalString(n, m, i, v);
  }

  lemma ParsesUnscoped(n: Name, m: string, i: nat, v: View)
    requires n.Unscoped? && NameHere(n, m, i)
    ensures NameSaid(n, m, i, v)
    decreases n, 0
  {
    hide Says, MangledUnqualified, PrintScoped, ShunsUnqualified, GoodUnqualified;
    ParsesScoped(n.std, n.u, m, i, v);
    UnscopedRule(m, i, i + |MangledName(n)|, v, PrintName(n, v));
  }

  lemma ParsesTemplate(n: Name, m: string, i: nat, v: View)
    requires n.Template? && NameHere(n, m, i)
    ensures NameSaid(n, m, i, v)
    decreases n, 0
  {
    hide Says, MangledUnqualified, PrintScoped, ShunsUnqualified, GoodUnqualified, MangledArgList, GoodArgs, PrintArgs;
    var front := Scoped(n.std, n.u);
    var e1, w := i + |front|, PrintScoped(n.std, n.u, v);
    Pieces(m, i, front, MangledArgs(n.args));
    ParsesArgs(n.args, m, e1, w);
    ParsesScoped(n.std, n.u, m, i, v);
    JustRule(UnscopedTemplateName, 0, UnscopedName, m, i, e1, v, w, true);
    TemplateRule(m, i, e1, v, w, true, i + |MangledName(n)|, PrintName(n, v));
  }

  lemma ParsesSubstituteTemplate(n: Name, m: string, i: nat, v: View)
    requires n.SubstituteTemplate? && NameHere(n, m, i)
    ensures NameSaid(n, m, i, v)
    decreases n, 0
  {
    hide Says, PrintSubstitute, GoodSubstitute, MangledArgList, GoodArgs, PrintArgs;
    var front := MangledSubstitute(n.s);
    var e1, w := i + |front|, PrintSubstitute(n.s, v);
    Pieces(m, i, front, MangledArgs(n.args));
    ParsesSubstitute(n.s, m, i, v);
    ParsesArgs(n.args, m, e1, w);
    NotStdName(n.s, m, i);
    NoUnscoped(m, i);
    SubstituteTemplateName(m, i, e1, v, w);
    TemplateRule(m, i, e1, v, w, true, i + |MangledName(n)|, PrintName(n, v));
  }

  /** A substitution with arguments is not "St" and a name. */
  lemma NotStdName(s: Substitute, m: string, i: nat)
    requires GoodSubstitute(s) && HasAt(m, i, MangledSubstitute(s)) && Has(m, i + |MangledSubstitute(s)|, 'I')
    ensures !(Has(m, i + 1, 't') && UnqualifiedFirst(At(m, i + 2)))
  {
    match s
    case Numbered(id) => NotStd(s, m, i);
    case Standard(c) =>
  }

  lemma NotStd(s: Substitute, m: string, i: nat)
    requires GoodSubstitute(s) && HasAt(m, i, MangledSubstitute(s)) && s != Standard('t')
    ensures At(m, i + 1) != 't'
  {
    match s
    case Numbered(id) =>
      assert "S" + id + "_" == "S" + (id + "_");
      Pieces(m, i, "S", id + "_");
      FirstAt(m, i + 1, id + "_");
    case Standard(c) =>
      Pieces(m, i, "S", [c]);
      FirstAt(m, i + 1, [c]);
  }

  lemma ParsesNested(n: Name, m: string, i: nat, v: View)
    requires n.Nested? && NameHere(n, m, i)
    ensures NameSaid(n, m, i, v)
    decreases n, 0
  {
    hide Says, SaysPrefix, GoodParts, MangledParts, PrintParts, MangledQuals, HasAt, ShunsName, GoodStart, NoQualifier;
    var q, parts := MangledQuals(n.quals), MangledParts(n.parts);
    assert MangledName(n) == "N" + q + (parts + "E");
    Pieces3(m, i, "N", q, parts + "E");
    ParsesParts(n.parts, m, i + 1 + |q|, false, v.(nest := 0));
    Pieces(m, i + 1 + |q|, parts, "E");
    StartIs(n.parts, m, i + 1 + |q|);
    NestedRule(m, i, n.quals, i + 1 + |q| + |parts|, v, PrintParts(n.parts, v.(nest := 0)));
  }

  lemma StartIs(ps: Parts, m: string, i: nat)
    requires ps.Parts? && GoodStart(ps.head) && GoodParts(ps, false) && HasAt(m, i, MangledParts(ps) + "E")
    ensures Writes(ps.head) && NoQualifier(At(m, i))
  {
    hide GoodPart, MangledPart;
    var p, tail := MangledPart(ps.head), MangledParts(ps.tail);
    NonEmptyPart(ps.head);
    assert p + tail + "E" == p + (tail + "E");
    Pieces(m, i, p, tail + "E");
    FirstAt(m, i, p);
  }

  lemma NonEmptyPart(p: Part)
    requires GoodPart(p)
    ensures MangledPart(p) != ""
  {
    hide Dec, MangledType, MangledArgList, MangledUnqualified;
    if p.NamePart? { NonEmptyUnqualified(p.u); }
  }

  lemma ParsesLocal(n: Name, m: string, i: nat, v: View)
    requires n.Local? && NameHere(n, m, i)
    ensures NameSaid(n, m, i, v)
    decreases n, 0
  {
    hide Says, Add, MangledEncoding, PrintEncoding, GoodEncoding, ShunsEncoding, DiscText, ShunsAfter, HasAt;
    var x, y, d := MangledEncoding(n.scope), MangledName(n.entity), DiscText(n.disc);
    LocalPieces(n, m, i);
    ParsesEncoding(n.scope, m, i + 1, v);
    var u := Add(PrintEncoding(n.scope, v), "::");
    EntityEnds(n, m, i);
    ParsesName(n.entity, m, i + 2 + |x|, u);
    LocalRule(m, i, i + 1 + |x|, v, PrintEncoding(n.scope, v), i + 2 + |x| + |y|, PrintName(n.entity, u), n.disc);
  }

  lemma LocalPieces(n: Name, m: string, i: nat)
    requires n.Local? && HasAt(m, i, MangledName(n))
    ensures var x, y, d := MangledEncoding(n.scope), MangledName(n.entity), DiscText(n.disc);
      && |MangledName(n)| == 2 + |x| + |y| + |d|
      && Has(m, i, 'Z') && HasAt(m, i + 1, x) && Has(m, i + 1 + |x|, 'E') && HasAt(m, i + 2 + |x|, y)
      && HasAt(m, i + 2 + |x| + |y|, d)
  {
    hide MangledEncoding, DiscText, HasAt;
    var x, y, d := MangledEncoding(n.scope), MangledName(n.entity), DiscText(n.disc);
    assert MangledName(n) == "Z" + x + ("E" + y + d);
    Pieces3(m, i, "Z", x, "E" + y + d);
    Pieces3(m, i + 1 + |x|, "E", y, d);
  }

  lemma EntityEnds(n: Name, m: string, i: nat)
    requires n.Local? && NameHere(n, m, i)
    ensures var x, y := MangledEncoding(n.scope), MangledName(n.entity);
      !ShunsName(n.entity, At(m, i + 2 + |x| + |y|))
  {
    hide MangledEncoding, HasAt, NumText, GoodEncoding;
    LocalPieces(n, m, i);
    if n.disc.Some? {
      var x, y := MangledEncoding(n.scope), MangledName(n.entity);
      Pieces(m, i + 2 + |x| + |y|, "_", NumText(n.disc.value));
    }
  }

  lemma ParsesLocalString(n: Name, m: string, i: nat, v: View)
    requires n.LocalString? && NameHere(n, m, i)
    ensures NameSaid(n, m, i, v)
    decreases n, 0
  {
    hide Says, MangledEncoding, PrintEncoding, GoodEncoding, ShunsEncoding, DiscText, ShunsAfter, HasAt, Eval;
    var x, d := MangledEncoding(n.scope), DiscText(n.disc);
    assert MangledName(n) == "Z" + x + ("E" + "s" + d);
    Pieces3(m, i, "Z", x, "E" + "s" + d);
    Pieces3(m, i + 1 + |x|, "E", "s", d);
    ParsesEncoding(n.scope, m, i + 1, v);
    StringEnds(n, m, i + 3 + |x|);
    NoNameAtS(m, i + 2 + |x|);
    LocalStringRule(m, i, i + 1 + |x|, v, PrintEncoding(n.scope, v), n.disc);
  }

  lemma StringEnds(n: Name, m: string, at: nat)
    requires n.LocalString? && HasAt(m, at, DiscText(n.disc)) && !ShunsName(n, At(m, at + |DiscText(n.disc)|))
    ensures At(m, at) != 't' && At(m, at) != 'z' && !ShunsAfter(n.disc, At(m, at + |DiscText(n.disc)|))
  {
    hide NumText;
    if n.disc.Some? { Pieces(m, at, "_", NumText(n.disc.value)); }
  }

  // ---------------------------------------------------------------- encodings

  lemma ParsesTypes(ts: Types, m: string, i: nat)
    requires GoodTypes(ts) && HasAt(m, i, MangledTypes(ts)) && !ShunsTypes(ts, At(m, i + |MangledTypes(ts)|))
    requires !TypeFirst(At(m, i + |MangledTypes(ts)|))
    ensures i + |MangledTypes(ts)| <= |m| && ReadsTo(EvalMany(Type, m, i), i + |MangledTypes(ts)|)
    ensures ReadsTo(EvalOneOrMore(Type, m, i), i + |MangledTypes(ts)|)
    decreases ts, 0
  {
    hide Says, Eval, EvalMany, EvalOneOrMore, ReadsTo, MangledType, GoodType, ShunsType, PrintType, TypeFirst;
    var t, e := MangledType(ts.t), i + |MangledTypes(ts)|;
    IsInside(m, i, MangledTypes(ts));
    match ts
    case LastType(_) =>
      ParsesType(ts.t, m, i, ANY);
      Unstarted(Type, m, e);
      ManyEnd(Type, m, e);
      SaysWithin(Type, m, i, e, ANY, PrintType(ts.t, ANY), true);
      ManyOn(Type, m, i, e, e);
    case MoreTypes(_, more) =>
      NonEmptyTypes(more);
      Behind(m, i, t, MangledTypes(more));
      ParsesType(ts.t, m, i, ANY);
      ParsesTypes(more, m, i + |t|);
      SaysWithin(Type, m, i, i + |t|, ANY, PrintType(ts.t, ANY), true);
      ManyOn(Type, m, i, i + |t|, e);
  }

  lemma ParsesEncoding(x: Encoding, m: string, i: nat, v: View)
    requires EncodingHere(x, m, i)
    ensures EncodingSaid(x, m, i, v)
    decreases x, 2
  {
    hide EncodingHere, EncodingSaid;
    match x
    case Func(_, _) => ParsesFunc(x, m, i, v);
    case Data(_) => ParsesData(x, m, i, v);
    case TypeData(_, _) => ParsesTypeData(x, m, i, v);
    case JavaData(_, _) => ParsesTypeData(x, m, i, v);
    case Covariant(_, _, _) => ParsesCovariant(x, m, i, v);
    case Guard(_) => ParsesGlobal(x, m, i, v);
    case Temporary(_) => ParsesGlobal(x, m, i, v);
    case Hidden(_) => ParsesHidden(x, m, i, v);
    case Thunk(_, _) => ParsesThunk(x, m, i, v);
    case OldThunk(_, _, _) => ParsesOldThunk(x, m, i, v);
    case Construction(_, _, _) => ParsesConstruction(x, m, i, v);
  }

  lemma ParsesFunc(x: Encoding, m: string, i: nat, v: View)
    requires x.Func? && EncodingHere(x, m, i)
    ensures EncodingSaid(x, m, i, v)
    decreases x, 1
  {
    hide Says, Add, ReadsTo, EvalMany, EvalOneOrMore, MangledName, MangledTypes, GoodName, GoodTypes, ShunsName,
        ShunsTypes, PrintName, TypeFirst;
    var n := MangledName(x.name);
    NonEmptyTypes(x.params);
    Behind(m, i, n, MangledTypes(x.params));
    ParsesName(x.name, m, i, v);
    ParsesTypes(x.params, m, i + |n|);
    FuncRule(m, i, i + |n|, v, PrintName(x.name, v), i + |MangledEncoding(x)|);
  }

  lemma ParsesData(x: Encoding, m: string, i: nat, v: View)
    requires x.Data? && EncodingHere(x, m, i)
    ensures EncodingSaid(x, m, i, v)
    decreases x, 1
  {
    hide Says, MangledName, GoodName, ShunsName, PrintName, TypeFirst;
    ParsesName(x.name, m, i, v);
    DataRule(m, i, i + |MangledEncoding(x)|, v, PrintName(x.name, v));
  }

  lemma ParsesTypeData(x: Encoding, m: string, i: nat, v: View)
    requires (x.TypeData? || x.JavaData?) && EncodingHere(x, m, i)
    ensures EncodingSaid(x, m, i, v)
    decreases x, 1
  {
    hide Says, MangledType, GoodType, ShunsType, PrintType;
    Pieces3(m, i, "T", [x.kind], MangledType(x.t));
    FirstAt(m, i + 1, [x.kind]);
    ParsesType(x.t, m, i + 2, v);
    if x.TypeData? { TypeDataRule(m, i, i + |MangledEncoding(x)|, v, PrintType(x.t, v)); }
    else { JavaDataRule(m, i, i + |MangledEncoding(x)|, v, PrintType(x.t, v)); }
  }

  lemma ParsesCovariant(x: Encoding, m: string, i: nat, v: View)
    requires x.Covariant? && EncodingHere(x, m, i)
    ensures EncodingSaid(x, m, i, v)
    decreases x, 1
  {
    hide Says, MangledOffset, EncodingHere, HasAt;
    CovariantPieces(x, m, i);
    var e1 := i + 2 + |MangledOffset(x.o1)|;
    var e2 := e1 + |MangledOffset(x.o2)|;
    OffsetRule(m, i + 2, x.o1, v);
    OffsetRule(m, e1, x.o2, v);
    ParsesEncoding(x.base, m, e2, v);
    CovariantRule(m, i, e1, e2, i + |MangledEncoding(x)|, v, PrintEncoding(x.base, v));
  }

  lemma CovariantPieces(x: Encoding, m: string, i: nat)
    requires x.Covariant? && EncodingHere(x, m, i)
    ensures var a, b := MangledOffset(x.o1), MangledOffset(x.o2);
      && Has2(m, i, 'T', 'c') && HasAt(m, i + 2, a) && HasAt(m, i + 2 + |a|, b)
      && EncodingHere(x.base, m, i + 2 + |a| + |b|)
  {
    hide HasAt, MangledOffset;
    var a, b, c := MangledOffset(x.o1), MangledOffset(x.o2), MangledEncoding(x.base);
    assert MangledEncoding(x) == "Tc" + a + (b + c);
    Pieces3(m, i, "Tc", a, b + c);
    Pieces(m, i + 2 + |a|, b, c);
    TwoThere(m, i, 'T', 'c');
  }

  lemma ParsesGlobal(x: Encoding, m: string, i: nat, v: View)
    requires (x.Guard? || x.Temporary?) && EncodingHere(x, m, i)
    ensures EncodingSaid(x, m, i, v)
    decreases x, 1
  {
    hide Says, MangledName, GoodName, ShunsName, PrintName;
    var e, v' := i + |MangledEncoding(x)|, PrintName(x.name, v);
    var k, d := if x.Guard? then 2 else 6, if x.Guard? then 'V' else 'R';
    Pieces(m, i, ['G', d], MangledName(x.name));
    TwoThere(m, i, 'G', d);
    ParsesName(x.name, m, i + 2, v);
    GlobalRule(m, i, k, d, Name, e, v, v');
  }

  lemma ParsesHidden(x: Encoding, m: string, i: nat, v: View)
    requires x.Hidden? && EncodingHere(x, m, i)
    ensures EncodingSaid(x, m, i, v)
    decreases x, 1
  {
    hide Says;
    Pieces(m, i, "GA", MangledEncoding(x.base));
    TwoThere(m, i, 'G', 'A');
    ParsesEncoding(x.base, m, i + 2, v);
    GlobalRule(m, i, 7, 'A', Encoding, i + |MangledEncoding(x)|, v, PrintEncoding(x.base, v));
  }

  lemma ParsesThunk(x: Encoding, m: string, i: nat, v: View)
    requires x.Thunk? && EncodingHere(x, m, i)
    ensures EncodingSaid(x, m, i, v)
    decreases x, 1
  {
    hide Says, MangledOffset;
    var a, b := MangledOffset(x.o), MangledEncoding(x.base);
    Pieces3(m, i, "T", a, b);
    OffsetRule(m, i + 1, x.o, v);
    ParsesEncoding(x.base, m, i + 1 + |a|, v);
    ThunkRule(m, i, i + 1 + |a|, i + |MangledEncoding(x)|, v, PrintEncoding(x.base, v));
  }

  lemma ParsesOldThunk(x: Encoding, m: string, i: nat, v: View)
    requires x.OldThunk? && EncodingHere(x, m, i)
    ensures EncodingSaid(x, m, i, v)
    decreases x, 1
  {
    hide Says, MangledOffset;
    var a, b := MangledOffset(x.o), MangledEncoding(x.base);
    assert MangledEncoding(x) == "T" + [x.kind] + (a + b);
    Pieces3(m, i, "T", [x.kind], a + b);
    Pieces(m, i + 2, a, b);
    FirstAt(m, i + 1, [x.kind]);
    OffsetRule(m, i + 2, x.o, v);
    ParsesEncoding(x.base, m, i + 2 + |a|, v);
    OldThunkRule(m, i, i + 2 + |a|, i + |MangledEncoding(x)|, v, PrintEncoding(x.base, v));
  }

  lemma ParsesConstruction(x: Encoding, m: string, i: nat, v: View)
    requires x.Construction? && EncodingHere(x, m, i)
    ensures EncodingSaid(x, m, i, v)
    decreases x, 1
  {
    hide Says, MangledType, PrintType, NumText, HasAt, EncodingHere, TypeHere;
    ConstructionPieces(x, m, i);
    var e1, u := i + 2 + |MangledType(x.t)|, PrintType(x.t, v);
    var at := e1 + |NumText(x.n)| + 1;
    ParsesType(x.t, m, i + 2, v);
    ParsesType(x.inner, m, at, u);
    ConstructionRule(m, i, e1, x.n, i + |MangledEncoding(x)|, v, u, PrintType(x.inner, u));
  }

  lemma ConstructionPieces(x: Encoding, m: string, i: nat)
    requires x.Construction? && EncodingHere(x, m, i)
    ensures var a, b := MangledType(x.t), NumText(x.n);
      && Has2(m, i, 'T', 'C') && TypeHere(x.t, m, i + 2) && HasAt(m, i + 2 + |a|, b) && Has(m, i + 2 + |a| + |b|, '_')
      && TypeHere(x.inner, m, i + 3 + |a| + |b|)
  {
    hide HasAt, NumText, MangledType, GoodType, ShunsType;
    var a, b, c := MangledType(x.t), NumText(x.n), MangledType(x.inner);
    assert MangledEncoding(x) == "TC" + a + (b + "_" + c);
    Pieces3(m, i, "TC", a, b + "_" + c);
    Pieces3(m, i + 2 + |a|, b, "_", c);
    TwoThere(m, i, 'T', 'C');
    NumberFirst(m, i + 2 + |a|, x.n);
    FirstAt(m, i + 2 + |a|, b);
  }

  // ---------------------------------------------------------------- types

  lemma ParsesType(t: Type, m: string, i: nat, v: View)
    requires TypeHere(t, m, i)
    ensures TypeSaid(t, m, i, v)
    decreases t, 1
  {
    hide TypeHere, TypeSaid;
    match t
    case Builtin(_) => ParsesSimple(t, m, i, v);
    case VendorType(_) => ParsesSimple(t, m, i, v);
    case Qualified(_, _) => ParsesQualified(t, m, i, v);
    case Modified(_, _) => ParsesModified(t, m, i, v);
    case Expansion(_) => ParsesExpansion(t, m, i, v);
    case Decltype(_, _) => ParsesDecltype(t, m, i, v);
    case VendorQualified(_, _) => ParsesVendorQualified(t, m, i, v);
    case FunctionType(_, _) => ParsesFunctionType(t, m, i, v);
    case Class(_) => ParsesClass(t, m, i, v);
    case Array(_, _) => ParsesArray(t, m, i, v);
    case ArrayOf(_, _) => ParsesArrayOf(t, m, i, v);
    case ArrayUnknown(_) => ParsesArrayUnknown(t, m, i, v);
    case MemberPointer(_, _) => ParsesMemberPointer(t, m, i, v);
    case Substituted(_) => ParsesSubstituted(t, m, i, v);
    case ParamType(_) => ParsesParamType(t, m, i, v);
    case ParamTemplate(_, _) => ParsesParamTemplate(t, m, i, v);
  }

  lemma ParsesSimple(t: Type, m: string, i: nat, v: View)
    requires (t.Builtin? || t.VendorType?) && TypeHere(t, m, i)
    ensures TypeSaid(t, m, i, v)
    decreases t, 0
  {
    hide Says, Add, BuiltinText, Counted, IdText, GoodId;
    match t
    case Builtin(c) =>
      FirstAt(m, i, [c]);
      BuiltinRule(m, i, v);
    case VendorType(id) =>
      Pieces(m, i, "u", Counted(id));
      VendorTypeRule(m, i, id, v);
  }

  lemma ParsesQualified(t: Type, m: string, i: nat, v: View)
    requires t.Qualified? && TypeHere(t, m, i)
    ensures TypeSaid(t, m, i, v)
    decreases t, 0
  {
    hide Says, NoQualifier, MangledQuals;
    QualsText(t.quals);
    var q := MangledQuals(t.quals);
    NonEmptyType(t.t);
    NoQualifierFirst(t.t);
    Behind(m, i, q, MangledType(t.t));
    ParsesType(t.t, m, i + |q|, v);
    QualifiedRule(m, i, t.quals, i + |MangledType(t)|, v, PrintType(t.t, v));
  }

  lemma QualsText(q: Quals)
    ensures q.r || q.V || q.K ==> MangledQuals(q) != ""
  {}

  lemma NoQualifierFirst(t: Type)
    requires GoodType(t) && !t.Qualified?
    ensures NoQualifier(First(MangledType(t)))
  {
    hide NumText, Counted, MangledExpr, MangledName, MangledArgs, MangledTypes;
  }

  lemma ParsesModified(t: Type, m: string, i: nat, v: View)
    requires t.Modified? && TypeHere(t, m, i)
    ensures TypeSaid(t, m, i, v)
    decreases t, 0
  {
    hide Says, TypeHere;
    ModifiedPieces(t, m, i);
    ParsesType(t.t, m, i + 1, v);
    ModifiedRule(m, i, i + |MangledType(t)|, v, PrintType(t.t, v));
  }

  lemma ModifiedPieces(t: Type, m: string, i: nat)
    requires t.Modified? && TypeHere(t, m, i)
    ensures i < |m| && m[i] in "OPRCG" && TypeHere(t.t, m, i + 1) && |MangledType(t)| == 1 + |MangledType(t.t)|
  {
    hide MangledType, GoodType, ShunsType;
    ModifiedIs(t, At(m, i + |MangledType(t)|));
    Pieces(m, i, [t.c], MangledType(t.t));
    FirstAt(m, i, [t.c]);
  }

  lemma ModifiedIs(t: Type, c: char)
    requires t.Modified?
    ensures MangledType(t) == [t.c] + MangledType(t.t) && ShunsType(t, c) == ShunsType(t.t, c)
    ensures GoodType(t) == (t.c in "OPRCG" && GoodType(t.t))
  {}

  lemma ParsesExpansion(t: Type, m: string, i: nat, v: View)
    requires t.Expansion? && TypeHere(t, m, i)
    ensures TypeSaid(t, m, i, v)
    decreases t, 0
  {
    hide Says;
    Pieces(m, i, "Dp", MangledType(t.t));
    TwoThere(m, i, 'D', 'p');
    ParsesType(t.t, m, i + 2, v);
    ExpansionRule(m, i, i + |MangledType(t)|, v, PrintType(t.t, v));
  }

  lemma ParsesDecltype(t: Type, m: string, i: nat, v: View)
    requires t.Decltype? && TypeHere(t, m, i)
    ensures TypeSaid(t, m, i, v)
    decreases t, 0
  {
    hide Says, MangledExpr, GoodExpr, PrintExpr, ShunsExpr;
    var x := MangledExpr(t.e);
    assert MangledType(t) == "D" + [t.c] + (x + "E");
    Pieces3(m, i, "D", [t.c], x + "E");
    Pieces(m, i + 2, x, "E");
    FirstAt(m, i + 1, [t.c]);
    ParsesExpr(t.e, m, i + 2, v);
    DecltypeRule(m, i, i + 2 + |x|, v, PrintExpr(t.e, v));
  }

  lemma ParsesVendorQualified(t: Type, m: string, i: nat, v: View)
    requires t.VendorQualified? && TypeHere(t, m, i)
    ensures TypeSaid(t, m, i, v)
    decreases t, 0
  {
    hide Says, Add, Counted, IdText, GoodId, TypeHere, HasAt;
    VendorPieces(t, m, i);
    var u := Add(v, IdText(t.id));
    ParsesType(t.t, m, i + 1 + |Counted(t.id)|, u);
    VendorQualifiedRule(m, i, t.id, i + |MangledType(t)|, v, PrintType(t.t, u));
  }

  lemma VendorPieces(t: Type, m: string, i: nat)
    requires t.VendorQualified? && TypeHere(t, m, i)
    ensures var c := Counted(t.id);
      && Has(m, i, 'U') && GoodId(t.id) && HasAt(m, i + 1, c) && TypeHere(t.t, m, i + 1 + |c|)
      && |MangledType(t)| == 1 + |c| + |MangledType(t.t)|
  {
    hide MangledType, GoodType, ShunsType, Counted, GoodId, HasAt;
    VendorIs(t, At(m, i + |MangledType(t)|));
    Pieces3(m, i, "U", Counted(t.id), MangledType(t.t));
  }

  lemma VendorIs(t: Type, c: char)
    requires t.VendorQualified?
    ensures MangledType(t) == "U" + Counted(t.id) + MangledType(t.t) && ShunsType(t, c) == ShunsType(t.t, c)
    ensures GoodType(t) == (GoodId(t.id) && GoodType(t.t))
  {
    hide Counted, GoodId;
  }

  lemma ParsesFunctionType(t: Type, m: string, i: nat, v: View)
    requires t.FunctionType? && TypeHere(t, m, i)
    ensures TypeSaid(t, m, i, v)
    decreases t, 0
  {
    hide Says, Add, MangledTypes, GoodTypes, ShunsTypes, EvalOneOrMore, EvalMany, ReadsTo, TypeHere, HasAt;
    var at := if t.isC then i + 2 else i + 1;
    FunctionPieces(t, m, i);
    ParsesTypes(t.params, m, at);
    if !t.isC { TypesStart(t.params, m, i + 1); }
    FunctionTypeRule(m, i, t.isC, at + |MangledTypes(t.params)|, v);
  }

  lemma FunctionPieces(t: Type, m: string, i: nat)
    requires t.FunctionType? && TypeHere(t, m, i)
    ensures var at, x := if t.isC then i + 2 else i + 1, MangledTypes(t.params);
      && Has(m, i, 'F') && (t.isC ==> Has(m, i + 1, 'Y')) && HasAt(m, at, x) && Has(m, at + |x|, 'E')
      && GoodTypes(t.params) && |MangledType(t)| == at - i + |x| + 1
  {
    hide HasAt, MangledTypes, GoodTypes;
    var y, x := if t.isC then "Y" else "", MangledTypes(t.params);
    assert MangledType(t) == "F" + y + (x + "E");
    Pieces3(m, i, "F", y, x + "E");
    Pieces(m, i + 1 + |y|, x, "E");
  }

  lemma TypesStart(ts: Types, m: string, i: nat)
    requires i <= |m| && ReadsTo(EvalOneOrMore(Type, m, i), i + |MangledTypes(ts)|)
    ensures TypeFirst(At(m, i)) && At(m, i) != 'Y'
  {
    hide Eval, EvalMany, EvalOneOrMore, TypeFirst, MangledTypes;
    OneOrMoreStep(Type, m, i, 0);
    if !TypeFirst(At(m, i)) { Unstarted(Type, m, i); }
    CapitalY();
  }

  lemma CapitalY()
    ensures !TypeFirst('Y')
  {}

  lemma ParsesClass(t: Type, m: string, i: nat, v: View)
    requires t.Class? && TypeHere(t, m, i)
    ensures TypeSaid(t, m, i, v)
    decreases t, 0
  {
    hide Says, MangledName, GoodName, PrintName, ShunsName, ClassFirst;
    NonEmptyType(t);
    FirstAt(m, i, MangledName(t.name));
    ParsesName(t.name, m, i, v);
    ClassRule(m, i, i + |MangledType(t)|, v, PrintName(t.name, v));
  }

  lemma ParsesArray(t: Type, m: string, i: nat, v: View)
    requires t.Array? && TypeHere(t, m, i)
    ensures TypeSaid(t, m, i, v)
    decreases t, 0
  {
    hide Says, NumText, TypeHere, HasAt;
    var at := i + 1 + |NumText(t.n)|;
    ArrayPieces(t, m, i);
    ParsesType(t.t, m, at + 1, v);
    ArrayRule(m, i, t.n, i + |MangledType(t)|, v, PrintType(t.t, v));
  }

  lemma ArrayPieces(t: Type, m: string, i: nat)
    requires t.Array? && TypeHere(t, m, i)
    ensures var n := NumText(t.n);
      Has(m, i, 'A') && HasAt(m, i + 1, n) && Has(m, i + 1 + |n|, '_') && TypeHere(t.t, m, i + 2 + |n|)
  {
    hide NumText, HasAt, MangledType, GoodType, ShunsType;
    var n, x := NumText(t.n), MangledType(t.t);
    ArrayIs(t, At(m, i + |MangledType(t)|));
    Pieces3(m, i, "A", n, "_" + x);
    Pieces(m, i + 1 + |n|, "_", x);
  }

  lemma ArrayIs(t: Type, c: char)
    requires t.Array?
    ensures MangledType(t) == "A" + NumText(t.n) + ("_" + MangledType(t.t))
    ensures GoodType(t) == GoodType(t.t) && ShunsType(t, c) == ShunsType(t.t, c)
  {}

  lemma ParsesArrayOf(t: Type, m: string, i: nat, v: View)
    requires t.ArrayOf? && TypeHere(t, m, i)
    ensures TypeSaid(t, m, i, v)
    decreases t, 0
  {
    hide Says, Does, MangledExpr, PrintExpr, ExprHere, TypeHere;
    var at, u := i + 1 + |MangledExpr(t.e)|, PrintExpr(t.e, v);
    ArrayOfPieces(t, m, i);
    ParsesExpr(t.e, m, i + 1, v);
    ParsesType(t.t, m, at + 1, u);
    DoesOpt(Expression, m, i + 1, at, v, u, true);
    ExprIsNoNumber(m, i + 1, at, v, u);
    ArrayOfRule(m, i, at, v, u, true, i + |MangledType(t)|, PrintType(t, v));
  }

  lemma ArrayOfPieces(t: Type, m: string, i: nat)
    requires t.ArrayOf? && TypeHere(t, m, i)
    ensures var x := MangledExpr(t.e);
      Has(m, i, 'A') && ExprHere(t.e, m, i + 1) && Has(m, i + 1 + |x|, '_') && TypeHere(t.t, m, i + 2 + |x|)
  {
    hide HasAt, MangledExpr, GoodExpr, ShunsExpr;
    var x := MangledExpr(t.e);
    assert MangledType(t) == "A" + x + ("_" + MangledType(t.t));
    Pieces3(m, i, "A", x, "_" + MangledType(t.t));
    Pieces(m, i + 1 + |x|, "_", MangledType(t.t));
  }

  /** An expression does not start with a number. */
  lemma ExprIsNoNumber(m: string, i: nat, e: nat, v: View, v': View)
    requires Says(Expression, m, i, e, v, v', true)
    ensures !IsDigit(At(m, i)) && (At(m, i) == 'n' ==> !IsDigit(At(m, i + 1)))
  {
    Starter(Expression, m, i, e, v, v', true);
    if At(m, i) == 'n' && IsDigit(At(m, i + 1)) {
      DigitsAreNoOperators(At(m, i + 1));
      hide Eval, OperatorFirst;
      SaysWithin(Expression, m, i, e, v, v', true);
      NoExpression(m, i);
    }
  }

  lemma DigitsAreNoOperators(c: char)
    requires IsDigit(c)
    ensures !OperatorFirst('n', c)
  {}

  lemma ParsesArrayUnknown(t: Type, m: string, i: nat, v: View)
    requires t.ArrayUnknown? && TypeHere(t, m, i)
    ensures TypeSaid(t, m, i, v)
    decreases t, 0
  {
    hide Says, Does, TypeHere;
    UnknownPieces(t, m, i);
    ParsesType(t.t, m, i + 2, v);
    DoesNothing(Expression, m, i + 1, v);
    ArrayOfRule(m, i, i + 1, v, v, false, i + |MangledType(t)|, PrintType(t, v));
  }

  lemma UnknownPieces(t: Type, m: string, i: nat)
    requires t.ArrayUnknown? && TypeHere(t, m, i)
    ensures Has2(m, i, 'A', '_') && TypeHere(t.t, m, i + 2) && |MangledType(t)| == 2 + |MangledType(t.t)|
  {
    hide HasAt, MangledType, GoodType, ShunsType;
    UnknownIs(t, At(m, i + |MangledType(t)|));
    Pieces(m, i, "A_", MangledType(t.t));
    TwoThere(m, i, 'A', '_');
  }

  lemma UnknownIs(t: Type, c: char)
    requires t.ArrayUnknown?
    ensures MangledType(t) == "A_" + MangledType(t.t)
    ensures GoodType(t) == GoodType(t.t) && ShunsType(t, c) == ShunsType(t.t, c)
  {}

  lemma ParsesMemberPointer(t: Type, m: string, i: nat, v: View)
    requires t.MemberPointer? && TypeHere(t, m, i)
    ensures TypeSaid(t, m, i, v)
    decreases t, 0
  {
    hide Says, TypeHere;
    var at, u := i + 1 + |MangledType(t.owner)|, PrintType(t.owner, v);
    MemberPieces(t, m, i);
    ParsesType(t.owner, m, i + 1, v);
    ParsesType(t.t, m, at, u);
    MemberPointerRule(m, i, at, v, u, i + |MangledType(t)|, PrintType(t, v));
  }

  lemma MemberPieces(t: Type, m: string, i: nat)
    requires t.MemberPointer? && TypeHere(t, m, i)
    ensures Has(m, i, 'M') && TypeHere(t.owner, m, i + 1) && TypeHere(t.t, m, i + 1 + |MangledType(t.owner)|)
  {
    hide HasAt, MangledType, GoodType, ShunsType;
    MemberIs(t, At(m, i + |MangledType(t)|));
    NonEmptyType(t.t);
    Pieces(m, i, "M", MangledType(t.owner) + MangledType(t.t));
    Behind(m, i + 1, MangledType(t.owner), MangledType(t.t));
  }

  lemma MemberIs(t: Type, c: char)
    requires t.MemberPointer?
    ensures MangledType(t) == "M" + (MangledType(t.owner) + MangledType(t.t))
    ensures GoodType(t) ==> GoodType(t.owner) && GoodType(t.t) && !ShunsType(t.owner, First(MangledType(t.t)))
    ensures ShunsType(t, c) == ShunsType(t.t, c)
  {}

  lemma ParsesSubstituted(t: Type, m: string, i: nat, v: View)
    requires t.Substituted? && TypeHere(t, m, i)
    ensures TypeSaid(t, m, i, v)
    decreases t, 0
  {
    hide Says, MangledSubstitute, PrintSubstitute, GoodSubstitute;
    ParsesSubstitute(t.s, m, i, v);
    NotStd(t.s, m, i);
    SubstitutedRule(m, i, i + |MangledType(t)|, v, PrintSubstitute(t.s, v));
  }

  lemma ParsesParamType(t: Type, m: string, i: nat, v: View)
    requires t.ParamType? && TypeHere(t, m, i)
    ensures TypeSaid(t, m, i, v)
    decreases t, 0
  {
    hide Says, MangledParam, PrintParam;
    ParsesParam(t.p, m, i, v);
    ParamTypeRule(m, i, i + |MangledType(t)|, v, PrintParam(v));
  }

  lemma ParsesParamTemplate(t: Type, m: string, i: nat, v: View)
    requires t.ParamTemplate? && TypeHere(t, m, i)
    ensures TypeSaid(t, m, i, v)
    decreases t, 0
  {
    hide Says, MangledParam, PrintParam, MangledArgs, PrintArgs, GoodArgs;
    var p := MangledParam(t.p);
    Pieces(m, i, p, MangledArgs(t.args));
    ParsesParam(t.p, m, i, v);
    ParsesArgs(t.args, m, i + |p|, PrintParam(v));
    ParamTemplateRule(m, i, i + |p|, v, PrintParam(v), i + |MangledType(t)|, PrintType(t, v));
  }

  // ---------------------------------------------------------------- literals and expressions

  lemma ParsesPrimary(p: Primary, m: string, i: nat, v: View)
    requires PrimaryHere(p, m, i)
    ensures PrimarySaid(p, m, i, v)
    decreases p, 1
  {
    hide PrimaryHere, PrimarySaid;
    match p
    case Integer(_, _) => ParsesInteger(p, m, i, v);
    case Float(_, _) => ParsesFloat(p, m, i, v);
    case External(_) => ParsesExternal(p, m, i, v);
    case OldExternal(_) => ParsesExternal(p, m, i, v);
  }

  lemma ParsesInteger(p: Primary, m: string, i: nat, v: View)
    requires p.Integer? && PrimaryHere(p, m, i)
    ensures PrimarySaid(p, m, i, v)
    decreases p, 0
  {
    hide Says, MangledType, PrintType, NumText, HasAt, PrimaryHere, TypeHere;
    IntegerPieces(p, m, i);
    ParsesType(p.t, m, i + 1, v);
    NumberLiteralRule(m, i, i + 1 + |MangledType(p.t)|, p.n, v, PrintType(p.t, v));
  }

  lemma IntegerPieces(p: Primary, m: string, i: nat)
    requires p.Integer? && PrimaryHere(p, m, i)
    ensures var t, n := MangledType(p.t), NumText(p.n);
      && Has(m, i, 'L') && TypeHere(p.t, m, i + 1) && HasAt(m, i + 1 + |t|, n) && Has(m, i + 1 + |t| + |n|, 'E')
      && |MangledPrimary(p)| == |t| + |n| + 2
  {
    hide MangledType, GoodType, ShunsType, NumText, HasAt, LiteralFirst;
    var t, n := MangledType(p.t), NumText(p.n);
    assert MangledPrimary(p) == "L" + t + (n + "E");
    Pieces3(m, i, "L", t, n + "E");
    Pieces(m, i + 1 + |t|, n, "E");
    NumberFirst(m, i + 1 + |t|, p.n);
    FirstAt(m, i + 1 + |t|, n);
  }

  lemma ParsesFloat(p: Primary, m: string, i: nat, v: View)
    requires p.Float? && PrimaryHere(p, m, i)
    ensures PrimarySaid(p, m, i, v)
    decreases p, 0
  {
    hide Says, MangledType, PrintType, HasAt, IsHex, PrimaryHere, TypeHere;
    FloatPieces(p, m, i);
    ParsesType(p.t, m, i + 1, v);
    FloatLiteralRule(m, i, i + 1 + |MangledType(p.t)|, p.hex, v, PrintType(p.t, v));
  }

  lemma FloatPieces(p: Primary, m: string, i: nat)
    requires p.Float? && PrimaryHere(p, m, i)
    ensures var t := MangledType(p.t);
      && Has(m, i, 'L') && TypeHere(p.t, m, i + 1) && HasAt(m, i + 1 + |t|, p.hex) && IsHex(p.hex)
      && Has(m, i + 1 + |t| + |p.hex|, 'E')
  {
    hide MangledType, GoodType, ShunsType, HasAt;
    var t := MangledType(p.t);
    assert MangledPrimary(p) == "L" + t + (p.hex + "E");
    HexIsNotEmpty(p.hex);
    Pieces3(m, i, "L", t, p.hex + "E");
    Pieces(m, i + 1 + |t|, p.hex, "E");
    FirstAt(m, i + 1 + |t|, p.hex);
  }

  lemma HexIsNotEmpty(hex: string)
    requires IsHex(hex)
    ensures hex != ""
  {}

  lemma ParsesExternal(p: Primary, m: string, i: nat, v: View)
    requires (p.External? || p.OldExternal?) && PrimaryHere(p, m, i)
    ensures PrimarySaid(p, m, i, v)
    decreases p, 0
  {
    hide Says, MangledEncoding, PrintEncoding, EncodingHere, PrimaryHere, NameFirst;
    var at := if p.External? then i + 3 else i + 2;
    ExternalPieces(p, m, i);
    ParsesEncoding(p.e, m, at, v);
    if p.External? { ExternalRule(m, i, at + |MangledEncoding(p.e)|, v, PrintEncoding(p.e, v)); }
    else { OldExternalRule(m, i, at + |MangledEncoding(p.e)|, v, PrintEncoding(p.e, v)); }
  }

  lemma ExternalPieces(p: Primary, m: string, i: nat)
    requires (p.External? || p.OldExternal?) && PrimaryHere(p, m, i)
    ensures var at := if p.External? then i + 3 else i + 2;
      && EncodingHere(p.e, m, at) && Has(m, at + |MangledEncoding(p.e)|, 'E')
      && |MangledPrimary(p)| == at - i + |MangledEncoding(p.e)| + 1
    ensures p.External? ==> Has(m, i, 'L') && Has2(m, i + 1, '_', 'Z')
    ensures p.OldExternal? ==> Has2(m, i, 'L', 'Z') && !NameFirst(At(m, i + |MangledPrimary(p)|))
  {
    hide MangledEncoding, GoodEncoding, ShunsEncoding, NameFirst, HasAt;
    var x := MangledEncoding(p.e);
    match p
    case External(e) =>
      assert MangledPrimary(p) == "L" + "_Z" + (x + "E");
      Pieces3(m, i, "L", "_Z", x + "E");
      Behind(m, i + 3, x, "E");
      TwoThere(m, i + 1, '_', 'Z');
    case OldExternal(e) =>
      assert MangledPrimary(p) == "LZ" + (x + "E");
      Pieces(m, i, "LZ", x + "E");
      Behind(m, i + 2, x, "E");
      TwoThere(m, i, 'L', 'Z');
  }

  lemma ParsesExpr(e: Expr, m: string, i: nat, v: View)
    requires ExprHere(e, m, i)
    ensures ExprSaid(e, m, i, v)
    decreases e, 1
  {
    hide ExprHere, ExprSaid;
    match e
    case ParamExpr(_) => ParsesOperand(e, m, i, v);
    case PrimaryExpr(_) => ParsesOperand(e, m, i, v);
    case Apply1(_, _) => ParsesApply1(e, m, i, v);
    case Apply2(_, _, _) => ParsesApply2(e, m, i, v);
    case Apply3(_, _, _, _) => ParsesApply3(e, m, i, v);
    case SizeOf(_) => ParsesSizeOf(e, m, i, v);
    case ScopeOf(_, _, _) => ParsesScopeOf(e, m, i, v);
  }

  lemma ParsesOperand(e: Expr, m: string, i: nat, v: View)
    requires (e.ParamExpr? || e.PrimaryExpr?) && ExprHere(e, m, i)
    ensures ExprSaid(e, m, i, v)
    decreases e, 0
  {
    hide Says, MangledParam, PrintParam, MangledPrimary, PrintPrimary, GoodPrimary, ShunsPrimary;
    var end := i + |MangledExpr(e)|;
    match e
    case ParamExpr(p) =>
      ParsesParam(p, m, i, v);
      ParamExprRule(m, i, end, v, PrintParam(v));
    case PrimaryExpr(literal) =>
      ParsesPrimary(literal, m, i, v);
      LiteralHead(literal, m, i);
      PrimaryExprRule(m, i, end, v, PrintPrimary(literal, v));
  }

  lemma NonEmptyExpr(e: Expr)
    requires GoodExpr(e)
    ensures MangledExpr(e) != ""
  {
    hide MangledType, MangledEncoding, NumText, Counted;
  }

  /** Where no expression starts, there is none. */
  lemma NoMore(m: string, i: nat)
    requires i <= |m| && !ExprFirst(At(m, i))
    ensures Fails(Eval(Expression, m, i))
  {
    hide Eval;
    Unstarted(Expression, m, i);
  }

  lemma ParsesApply1(e: Expr, m: string, i: nat, v: View)
    requires e.Apply1? && ExprHere(e, m, i)
    ensures ExprSaid(e, m, i, v)
    decreases e, 0
  {
    hide Says, MangledOper, PrintOper, OperHere, ExprHere, Fails, ExprFirst;
    var e0, v0, end := i + |MangledOper(e.op)|, PrintOper(e.op, v), i + |MangledExpr(e)|;
    Apply1Pieces(e, m, i);
    ParsesOper(e.op, m, i, v);
    ParsesExpr(e.a, m, e0, v0);
    NoMore(m, end);
    Apply1Rule(m, i, e0, v, v0, end, PrintExpr(e.a, v0));
  }

  lemma Apply1Is(e: Expr, c: char)
    requires e.Apply1?
    ensures MangledExpr(e) == MangledOper(e.op) + MangledExpr(e.a)
    ensures GoodExpr(e) ==> GoodOper(e.op) && GoodExpr(e.a) && !ShunsOper(e.op, First(MangledExpr(e.a)))
    ensures ShunsExpr(e, c) == (ExprFirst(c) || ShunsExpr(e.a, c))
  {}

  lemma Apply1Pieces(e: Expr, m: string, i: nat)
    requires e.Apply1? && ExprHere(e, m, i)
    ensures OperHere(e.op, m, i) && ExprHere(e.a, m, i + |MangledOper(e.op)|)
    ensures i + |MangledExpr(e)| <= |m| && !ExprFirst(At(m, i + |MangledExpr(e)|))
  {
    hide MangledOper, GoodOper, ShunsOper, HasAt, MangledExpr, GoodExpr, ShunsExpr, ExprFirst;
    Apply1Is(e, At(m, i + |MangledExpr(e)|));
    IsInside(m, i, MangledExpr(e));
    NonEmptyExpr(e.a);
    Behind(m, i, MangledOper(e.op), MangledExpr(e.a));
  }

  lemma ParsesApply2(e: Expr, m: string, i: nat, v: View)
    requires e.Apply2? && ExprHere(e, m, i)
    ensures ExprSaid(e, m, i, v)
    decreases e, 0
  {
    hide Says, MangledOper, PrintOper, OperHere, ExprHere, Fails, ExprFirst;
    var e0, v0, end := i + |MangledOper(e.op)|, PrintOper(e.op, v), i + |MangledExpr(e)|;
    var e1, v1 := e0 + |MangledExpr(e.a)|, PrintExpr(e.a, v0);
    Apply2Pieces(e, m, i);
    ParsesOper(e.op, m, i, v);
    ParsesExpr(e.a, m, e0, v0);
    ParsesExpr(e.b, m, e1, v1);
    NoMore(m, end);
    Apply2Rule(m, i, e0, v, v0, e1, v1, end, PrintExpr(e.b, v1));
  }

  lemma Apply2Is(e: Expr, c: char)
    requires e.Apply2?
    ensures MangledExpr(e) == MangledOper(e.op) + MangledExpr(e.a) + MangledExpr(e.b)
    ensures GoodExpr(e) ==>
        && GoodOper(e.op) && GoodExpr(e.a) && GoodExpr(e.b) && !ShunsOper(e.op, First(MangledExpr(e.a)))
        && !ShunsExpr(e.a, First(MangledExpr(e.b)))
    ensures ShunsExpr(e, c) == (ExprFirst(c) || ShunsExpr(e.b, c))
  {}

  lemma Apply2Pieces(e: Expr, m: string, i: nat)
    requires e.Apply2? && ExprHere(e, m, i)
    ensures var o, a, b := MangledOper(e.op), MangledExpr(e.a), MangledExpr(e.b);
      && OperHere(e.op, m, i) && ExprHere(e.a, m, i + |o|) && ExprHere(e.b, m, i + |o| + |a|)
      && i + |MangledExpr(e)| <= |m| && !ExprFirst(At(m, i + |MangledExpr(e)|))
  {
    hide MangledOper, GoodOper, ShunsOper, HasAt, MangledExpr, GoodExpr, ShunsExpr, ExprFirst;
    Apply2Is(e, At(m, i + |MangledExpr(e)|));
    IsInside(m, i, MangledExpr(e));
    NonEmptyExpr(e.a);
    NonEmptyExpr(e.b);
    var o, a, b := MangledOper(e.op), MangledExpr(e.a), MangledExpr(e.b);
    Pieces3(m, i, o, a, b);
    FirstAt(m, i + |o|, a);
    FirstAt(m, i + |o| + |a|, b);
  }

  lemma ParsesApply3(e: Expr, m: string, i: nat, v: View)
    requires e.Apply3? && ExprHere(e, m, i)
    ensures ExprSaid(e, m, i, v)
    decreases e, 0
  {
    hide Says, MangledOper, PrintOper, OperHere, ExprHere;
    var e0, v0 := i + |MangledOper(e.op)|, PrintOper(e.op, v);
    var e1, v1 := e0 + |MangledExpr(e.a)|, PrintExpr(e.a, v0);
    var e2, v2 := e1 + |MangledExpr(e.b)|, PrintExpr(e.b, v1);
    Apply3Pieces(e, m, i);
    ParsesOper(e.op, m, i, v);
    ParsesExpr(e.a, m, e0, v0);
    ParsesExpr(e.b, m, e1, v1);
    ParsesExpr(e.c, m, e2, v2);
    Apply3Rule(m, i, e0, v, v0, e1, v1, e2, v2, i + |MangledExpr(e)|, PrintExpr(e.c, v2));
  }

  lemma Apply3Is(e: Expr, c: char)
    requires e.Apply3?
    ensures MangledExpr(e) == MangledOper(e.op) + MangledExpr(e.a) + MangledExpr(e.b) + MangledExpr(e.c)
    ensures GoodExpr(e) ==>
        && GoodOper(e.op) && GoodExpr(e.a) && GoodExpr(e.b) && GoodExpr(e.c)
        && !ShunsOper(e.op, First(MangledExpr(e.a)))
        && !ShunsExpr(e.a, First(MangledExpr(e.b))) && !ShunsExpr(e.b, First(MangledExpr(e.c)))
    ensures ShunsExpr(e, c) == ShunsExpr(e.c, c)
  {}

  lemma Apply3Pieces(e: Expr, m: string, i: nat)
    requires e.Apply3? && ExprHere(e, m, i)
    ensures var o, a, b := MangledOper(e.op), MangledExpr(e.a), MangledExpr(e.b);
      && OperHere(e.op, m, i) && ExprHere(e.a, m, i + |o|) && ExprHere(e.b, m, i + |o| + |a|)
      && ExprHere(e.c, m, i + |o| + |a| + |b|)
  {
    hide MangledOper, GoodOper, ShunsOper, HasAt, MangledExpr, GoodExpr, ShunsExpr;
    Apply3Is(e, At(m, i + |MangledExpr(e)|));
    NonEmptyExpr(e.a);
    NonEmptyExpr(e.b);
    NonEmptyExpr(e.c);
    var o, a, b, c := MangledOper(e.op), MangledExpr(e.a), MangledExpr(e.b), MangledExpr(e.c);
    Pieces(m, i, o + a + b, c);
    Pieces3(m, i, o, a, b);
    FirstAt(m, i + |o|, a);
    FirstAt(m, i + |o| + |a|, b);
    FirstAt(m, i + |o| + |a| + |b|, c);
  }

  lemma ParsesSizeOf(e: Expr, m: string, i: nat, v: View)
    requires e.SizeOf? && ExprHere(e, m, i)
    ensures ExprSaid(e, m, i, v)
    decreases e, 0
  {
    hide Says, Fails, MangledType, GoodType, PrintType, ShunsType;
    Pieces(m, i, "st", MangledType(e.t));
    TwoThere(m, i, 's', 't');
    ParsesType(e.t, m, i + 2, v);
    TypeIsNoExpr(e, m, i);
    SizeOfRule(m, i, i + |MangledExpr(e)|, v, PrintType(e.t, v));
  }

  lemma TypeIsNoExpr(e: Expr, m: string, i: nat)
    requires e.SizeOf? && ExprHere(e, m, i)
    ensures Fails(Eval(Expression, m, i + 2))
  {
    hide Eval, OperatorFirst, ExprFirst;
    NonEmptyType(e.t);
    Pieces(m, i, "st", MangledType(e.t));
    FirstAt(m, i + 2, MangledType(e.t));
    if e.t.Builtin? {
      BuiltinLetters(e.t.c);
      NoExpression(m, i + 2);
    } else {
      NoMore(m, i + 2);
    }
  }

  lemma ParsesScopeOf(e: Expr, m: string, i: nat, v: View)
    requires e.ScopeOf? && ExprHere(e, m, i)
    ensures ExprSaid(e, m, i, v)
    decreases e, 0
  {
    hide Says, MangledType, PrintType, MangledUnqualified, PrintUnqualified, MangledArgs, GoodArgs, PrintArgs, TypeHere,
        UnqualifiedHere, HasAt, ShunsUnqualified, GoodType, GoodUnqualified;
    var e1, v1, end := i + 2 + |MangledType(e.t)|, PrintType(e.t, v), i + |MangledExpr(e)|;
    var e2, v2 := e1 + |MangledUnqualified(e.u)|, PrintUnqualified(e.u, v1);
    ScopePieces(e, m, i);
    ParsesType(e.t, m, i + 2, v);
    ParsesUnqualified(e.u, m, e1, v1);
    if e.args.NoArgs? {
      ScopeRule(m, i, e1, v, v1, end, v2, !e.u.Ctor?);
    } else {
      ParsesArgs(e.args, m, e2, v2);
      ScopeArgsRule(m, i, e1, v, v1, e2, v2, !e.u.Ctor?, end, PrintExpr(e, v));
    }
  }

  lemma ScopeIs(e: Expr, c: char)
    requires e.ScopeOf?
    ensures MangledExpr(e) == "sr" + MangledType(e.t)
      + (MangledUnqualified(e.u) + if e.args.NoArgs? then "" else MangledArgs(e.args))
    ensures GoodExpr(e) ==>
        && GoodType(e.t) && GoodUnqualified(e.u) && !ShunsType(e.t, First(MangledUnqualified(e.u)))
        && (e.args.Args? ==> !ShunsUnqualified(e.u, 'I'))
    ensures ShunsExpr(e, c) == (e.args.NoArgs? && (c == 'I' || ShunsUnqualified(e.u, c)))
  {}

  lemma ScopePieces(e: Expr, m: string, i: nat)
    requires e.ScopeOf? && ExprHere(e, m, i)
    ensures var a, b := MangledType(e.t), MangledUnqualified(e.u);
      && Has2(m, i, 's', 'r') && TypeHere(e.t, m, i + 2) && UnqualifiedHere(e.u, m, i + 2 + |a|)
      && (e.args.Args? ==> HasAt(m, i + 2 + |a| + |b|, MangledArgs(e.args)))
  {
    hide MangledType, GoodType, ShunsType, MangledUnqualified, ShunsUnqualified, GoodUnqualified, MangledArgList,
        GoodArgs, HasAt, MangledExpr, GoodExpr, ShunsExpr;
    ScopeIs(e, At(m, i + |MangledExpr(e)|));
    NonEmptyUnqualified(e.u);
    var a, b, c := MangledType(e.t), MangledUnqualified(e.u), if e.args.NoArgs? then "" else MangledArgs(e.args);
    Pieces3(m, i, "sr", a, b + c);
    Pieces(m, i + 2 + |a|, b, c);
    TwoThere(m, i, 's', 'r');
    FirstAt(m, i + 2 + |a|, b);
  }

  lemma NonEmptyUnqualified(u: Unqualified)
    ensures MangledUnqualified(u) != ""
  {
    hide MangledType;
  }

  // ---------------------------------------------------------------- whole symbols

  lemma {:induction false} ClonesAreSuffix(c: Clones, m: string, i: nat)
    requires GoodClones(c) && HasAt(m, i, ClonesText(c)) && i + |ClonesText(c)| == |m|
    ensures IsCloneSuffix(m, i)
    decreases c
  {
    hide IsCloneSuffix, RunEnd, HasAt;
    CloneSuffixStep(m, i);
    if c.Clones? {
      var j := i + 1 + |c.letters|;
      var e := j + 1 + |c.digits|;
      ClonePieces(c, m, i);
      ClonesAreSuffix(c.more, m, e);
      ClonesStart(c.more, m, e);
      FirstAt(m, i + 1, c.letters);
      FirstAt(m, j + 1, c.digits);
      RunIs(m, i + 1, c.letters, IsAlpha);
      RunIs(m, j + 1, c.digits, IsDigit);
    }
  }

  lemma ClonesStart(c: Clones, m: string, i: nat)
    requires HasAt(m, i, ClonesText(c)) && i + |ClonesText(c)| == |m|
    ensures i < |m| ==> m[i] == '.'
  {
    if c.Clones? { NextClone(c, m, i); }
  }

  lemma ClonePieces(c: Clones, m: string, i: nat)
    requires c.Clones? && HasAt(m, i, ClonesText(c))
    ensures var a, d := c.letters, c.digits;
      && Has(m, i, '.') && HasAt(m, i + 1, a) && Has(m, i + 1 + |a|, '.') && HasAt(m, i + 2 + |a|, d)
      && HasAt(m, i + 2 + |a| + |d|, ClonesText(c.more))
  {
    hide HasAt, ClonesText;
    var a, d, more := c.letters, c.digits, ClonesText(c.more);
    ClonesIs(c);
    Pieces3(m, i, ".", a, "." + d + more);
    Pieces3(m, i + 1 + |a|, ".", d, more);
  }

  lemma ClonesIs(c: Clones)
    requires c.Clones?
    ensures ClonesText(c) == "." + c.letters + ("." + c.digits + ClonesText(c.more))
  {
    var a, d, more := c.letters, c.digits, ClonesText(c.more);
    assert "." + a + "." + d + more == "." + a + ("." + d + more);
  }

  lemma NextClone(c: Clones, m: string, i: nat)
    requires c.Clones? && HasAt(m, i, ClonesText(c))
    ensures Has(m, i, '.')
  {
    ClonePieces(c, m, i);
  }

  lemma RunIs(m: string, i: nat, part: string, inClass: char -> bool)
    requires HasAt(m, i, part) && part != "" && (forall j :: 0 <= j < |part| ==> inClass(part[j]))
    requires i + |part| < |m| ==> !inClass(m[i + |part|])
    ensures i + 1 <= |m| && RunEnd(m, i + 1, inClass) == i + |part|
  {
    var e := i + |part|;
    assert m[i..e] == part;
    forall j | i <= j < e ensures inClass(m[j]) { assert m[j] == m[i..e][j - i] == part[j - i]; }
    RunEndsAt(m, i + 1, e, inClass);
  }

  /** The character behind the encoding takes part in neither. */
  lemma SuffixEnds(x: Encoding, suffix: Suffix, m: string, e: nat)
    requires HasAt(m, e, SuffixText(suffix)) && e + |SuffixText(suffix)| == |m|
    ensures !ShunsEncoding(x, At(m, e)) && (e < |m| && suffix.Version? ==> m[e] == '@')
  {
    hide ClonesText;
    match suffix
    case Version(text) => Pieces(m, e, "@", text);
    case Cloned(clones) => if clones.Clones? { NextClone(clones, m, e); } else { NoClonesAt(m, e); }
  }

  lemma NoClonesAt(m: string, e: nat)
    requires HasAt(m, e, ClonesText(NoClones)) && e + |ClonesText(NoClones)| == |m|
    ensures e == |m|
  {}

  lemma SymbolPieces(x: Encoding, suffix: Suffix)
    requires GoodEncoding(x)
    ensures var m, e := MangledSymbol(x, suffix), 2 + |MangledEncoding(x)|;
      && Has2(m, 0, '_', 'Z') && EncodingHere(x, m, 2) && HasAt(m, e, SuffixText(suffix))
      && e + |SuffixText(suffix)| == |m| && m[e..] == SuffixText(suffix) && (suffix.Version? ==> e < |m| && m[e] == '@')
  {
    hide MangledEncoding, SuffixText, GoodEncoding, ShunsEncoding;
    var m, y := MangledSymbol(x, suffix), SuffixText(suffix);
    assert HasAt(m, 0, "_Z" + MangledEncoding(x) + y) by { assert m[0..|m|] == m; }
    Pieces3(m, 0, "_Z", MangledEncoding(x), y);
    TwoThere(m, 0, '_', 'Z');
    SuffixEnds(x, suffix, m, 2 + |MangledEncoding(x)|);
    VersionIsThere(suffix);
  }

  lemma VersionIsThere(suffix: Suffix)
    ensures suffix.Version? ==> SuffixText(suffix) != "" && SuffixText(suffix)[0] == '@'
  {}

  /** Without a backward move, and with everything that Printed shows. */
  lemma SymbolSpoken(x: Encoding, suffix: Suffix)
    requires GoodEncoding(x) && GoodSuffix(suffix)
    ensures var m := MangledSymbol(x, suffix);
      var p := TopLevel(m);
      p.Ok() && Shown(p.res.eff, START).text == Printed(x, suffix) && Shuts(p.res.eff, START, false)
  {
    hide MangledEncoding, SuffixText, GoodEncoding, EncodingHere, PrintEncoding, EvalStep, IsCloneSuffix, Shown, Shuts,
        Add, MangledSymbol, HasAt, TopLevel, GoodClones, ClonesText, Sound;
    var m, e, v := MangledSymbol(x, suffix), 2 + |MangledEncoding(x)|, PrintEncoding(x, START);
    SymbolPieces(x, suffix);
    ParsesEncoding(x, m, 2, START);
    DoesMangled(m, 0, e, START, v);
    match suffix
    case Cloned(clones) =>
      CloneIs(suffix);
      ClonesAreSuffix(clones, m, e);
      TopIs(m);
    case Version(text) =>
      TopIs(m);
      if e == |m| || IsCloneSuffix(m, e) { NotAClone(m, e); }
      EmitSpoken(SuffixText(suffix), |m|, v);
      VersionIsThere(suffix);
      AndSpoken(EvalStep(Mangled, m, 0, TOP), e, START, v, true, Yes(|m|, Emit(SuffixText(suffix))), |m|,
        Add(v, SuffixText(suffix)), true);
      SameAnd(EvalStep(Mangled, m, 0, TOP), |m|, e, SuffixText(suffix), START);
  }

  lemma CloneIs(suffix: Suffix)
    requires suffix.Cloned?
    ensures SuffixText(suffix) == ClonesText(suffix.clones)
  {}

  lemma NotAClone(m: string, e: nat)
    requires e < |m| && m[e] == '@'
    ensures !IsCloneSuffix(m, e)
  {}

  lemma TopIs(m: string)
    ensures var p := EvalStep(Mangled, m, 0, TOP);
      && p.Cur() <= |m|
      && TopLevel(m) ==
        if !p.Ok() || p.Cur() == |m| || IsCloneSuffix(m, p.Cur()) then p
        else if m[p.Cur()] == '@' then And(p, Yes(p.Cur(), Emit(m[p.Cur()..])))
        else Done(p.res.(ok := false))
  {
    hide EvalStep, IsCloneSuffix, Forwards, Balanced, Neutral;
  }

  /** Where the version ends does not matter for what is said. */
  lemma SameAnd(p: Parse, e: nat, e': nat, str: string, v: View)
    requires p.Ok() && And(p, Yes(e, Emit(str))).Ok()
    ensures And(p, Yes(e', Emit(str))).Ok()
    ensures And(p, Yes(e', Emit(str))).res.eff == And(p, Yes(e, Emit(str))).res.eff
  {
    hide Join;
  }

  lemma StartIsEmpty()
    ensures OnTape(EMPTY_TAPE) && ViewOf(EMPTY_TAPE) == START
  {}

  lemma TapeReads(t: Tape)
    requires OnTape(t) && Shut(t)
    ensures Reads0(t.bytes, ViewOf(t).text)
  {}

  /** Every mangled symbol is recognised, and all that is ever written for it begins with what it prints. */
  lemma SymbolIsRecognised(x: Encoding, suffix: Suffix)
    requires GoodEncoding(x) && GoodSuffix(suffix)
    ensures var m := MangledSymbol(x, suffix);
      Recognised(m) && Reads0(Written(m).bytes, Printed(x, suffix))
  {
    hide TopLevel, Shown, Shuts, Write, MangledSymbol, Printed, Result, GoodEncoding, GoodSuffix, ViewOf, Shut, Reads0,
        Ends;
    var m := MangledSymbol(x, suffix);
    SymbolSpoken(x, suffix);
    ResultIs(m, 0);
    StartIsEmpty();
    var eff := Result(m).eff;
    WriteShows(eff, EMPTY_TAPE);
    WriteShuts(eff, EMPTY_TAPE, false);
    TapeReads(Write(eff, EMPTY_TAPE));
  }

  /** A clone suffix is the text of some clones. */
  lemma {:induction false} SuffixIsClones(m: string, i: nat) returns (c: Clones)
    requires i <= |m| && IsCloneSuffix(m, i)
    ensures GoodClones(c) && ClonesText(c) == m[i..]
    decreases |m| - i
  {
    hide IsCloneSuffix;
    CloneSuffixStep(m, i);
    if i == |m| {
      c := NoClones;
    } else {
      var j := RunEnd(m, i + 2, IsAlpha);
      var e := RunEnd(m, j + 2, IsDigit);
      var more := SuffixIsClones(m, e);
      c := Clones(m[i + 1..j], m[j + 1..e], more);
      OneClone(m, i, j, e);
    }
  }

  lemma OneClone(m: string, i: nat, j: nat, e: nat)
    requires i < j < e <= |m| && m[i] == '.' && m[j] == '.'
    ensures "." + m[i + 1..j] + "." + m[j + 1..e] + m[e..] == m[i..]
  {}

  /** What stands behind the text of a tree, without running into it, is accepted exactly when it is the marks of
      clones, a version or nothing. */
  lemma RecognisedExactly(x: Encoding, tail: string)
    requires GoodEncoding(x) && (tail == "" || !ShunsEncoding(x, tail[0]))
    ensures Recognised("_Z" + MangledEncoding(x) + tail)
      <==> exists suffix :: GoodSuffix(suffix) && SuffixText(suffix) == tail
  {
    hide TopLevel, Result, MangledEncoding, GoodEncoding, ShunsEncoding, GoodSuffix, SuffixText, IsCloneSuffix;
    var m, e := "_Z" + MangledEncoding(x) + tail, 2 + |MangledEncoding(x)|;
    if suffix :| GoodSuffix(suffix) && SuffixText(suffix) == tail { SymbolIsRecognised(x, suffix); }
    TailIsJudged(x, tail);
    ResultIs(m, 0);
    if tail != "" && tail[0] == '@' {
      VersionIs(tail);
    } else if tail == "" || IsCloneSuffix(m, e) {
      if tail == "" { assert e == |m|; CloneSuffixStep(m, e); }
      var c := SuffixIsClones(m, e);
      ClonesAreASuffix(c, tail);
    }
  }

  lemma VersionIs(tail: string)
    requires tail != "" && tail[0] == '@'
    ensures GoodSuffix(Version(tail[1..])) && SuffixText(Version(tail[1..])) == tail
  {}

  lemma ClonesAreASuffix(c: Clones, tail: string)
    requires GoodClones(c) && ClonesText(c) == tail
    ensures GoodSuffix(Cloned(c)) && SuffixText(Cloned(c)) == tail
  {}

  lemma TailIsJudged(x: Encoding, tail: string)
    requires GoodEncoding(x) && (tail == "" || !ShunsEncoding(x, tail[0]))
    ensures var m, e := "_Z" + MangledEncoding(x) + tail, 2 + |MangledEncoding(x)|;
      && e <= |m| && m[e..] == tail && TopLevel(m).Done?
      && TopLevel(m).res.ok == (tail == "" || tail[0] == '@' || IsCloneSuffix(m, e))
  {
    hide MangledEncoding, GoodEncoding, ShunsEncoding, EncodingHere, PrintEncoding, EvalStep, IsCloneSuffix, Shown,
        Shuts, Add, HasAt, TopLevel, Sound;
    var m, e := "_Z" + MangledEncoding(x) + tail, 2 + |MangledEncoding(x)|;
    TailPieces(x, tail);
    ParsesEncoding(x, m, 2, START);
    DoesMangled(m, 0, e, START, PrintEncoding(x, START));
    TopIs(m);
  }

  lemma TailPieces(x: Encoding, tail: string)
    requires GoodEncoding(x) && (tail == "" || !ShunsEncoding(x, tail[0]))
    ensures var m, e := "_Z" + MangledEncoding(x) + tail, 2 + |MangledEncoding(x)|;
      Has2(m, 0, '_', 'Z') && EncodingHere(x, m, 2) && e <= |m| && m[e..] == tail
  {
    hide MangledEncoding, GoodEncoding;
    var m, e := "_Z" + MangledEncoding(x) + tail, 2 + |MangledEncoding(x)|;
    assert HasAt(m, 0, m) by { assert m[0..|m|] == m; }
    Pieces3(m, 0, "_Z", MangledEncoding(x), tail);
    TwoThere(m, 0, '_', 'Z');
  }

  /** Demangling the symbol of any tree leaves the C string that is printed for the tree in the buffer,
      whatever the buffer held before, if it has room for the longest attempt. */
  lemma DemanglesFaithfully(x: Encoding, suffix: Suffix, buf: seq<char>)
    requires GoodEncoding(x) && GoodSuffix(suffix)
    ensures var m := MangledSymbol(x, suffix);
      Recognised(m) && (Need(m) <= |buf| ==> PrintsTo(m, buf, Printed(x, suffix)))
  {
    hide TopLevel, Write, MangledSymbol, Printed, Result, GoodEncoding, GoodSuffix, Exec, Ends;
    var m := MangledSymbol(x, suffix);
    SymbolIsRecognised(x, suffix);
    assert Same(Fresh(buf), EMPTY_TAPE);
    MachineFollowsTape(Result(m).eff, Fresh(buf), EMPTY_TAPE);
  }

  /** An enumerator as a template argument: behind the 'L' its type is taken for a local name, so the argument
      ends before the value. */
  lemma EnumeratorIsMisread(id: string, n: Num, m: string, i: nat)
    requires GoodId(id) && HasAt(m, i, "L" + Counted(id) + NumText(n) + "E")
    ensures ReadsTo(Eval(TemplateArg, m, i), i + 1 + |Counted(id)|)
  {
    hide Says, Add, Counted, NumText, GoodId, IdText, PrintType, HasAt, Eval;
    var u := LocalSource(id, None);
    var t := Type.Class(Name.Unscoped(false, u));
    var c, d := Counted(id), NumText(n);
    assert "L" + c + d + "E" == "L" + c + (d + "E");
    Pieces3(m, i, "L", c, d + "E");
    Pieces(m, i + 1 + |c|, d, "E");
    NumberFirst(m, i + 1 + |c|, n);
    LocalTypeHere(id, m, i);
    ParsesTypeArg(TypeArg(t), m, i);
  }

  lemma LocalTypeHere(id: string, m: string, i: nat)
    requires GoodId(id) && HasAt(m, i, "L") && HasAt(m, i + 1, Counted(id))
    requires IsDigit(At(m, i + 1 + |Counted(id)|)) || At(m, i + 1 + |Counted(id)|) == 'n'
    ensures var a := TypeArg(Type.Class(Name.Unscoped(false, LocalSource(id, None))));
      ArgHere(a, m, i) && |MangledArg(a)| == 1 + |Counted(id)|
  {
    hide Counted, GoodId, HasAt;
    var u := LocalSource(id, None);
    var n := Name.Unscoped(false, u);
    var text := "L" + Counted(id);
    assert MangledUnqualified(u) == text + "" == text;
    assert MangledName(n) == "" + text == text;
    Join2(m, i, "L", Counted(id));
    assert GoodUnqualified(u) && Leading(u);
    assert GoodName(n) && First(text) == 'L';
    assert GoodType(Type.Class(n));
    assert !ShunsUnqualified(u, At(m, i + |text|));
    assert !ShunsName(n, At(m, i + |text|));
    assert !ShunsType(Type.Class(n), At(m, i + |text|));
    var a := TypeArg(Type.Class(n));
    assert MangledType(Type.Class(n)) == text;
    assert MangledArg(a) == text && GoodArg(a) && !ShunsArg(a, At(m, i + |text|));
  }

  /** Printing an encoding leaves the append flag on. */
  lemma EncodingKeepsAppend(x: Encoding)
    requires GoodEncoding(x)
    ensures PrintEncoding(x, START).append
  {
    hide MangledSymbol, MangledEncoding, GoodEncoding, PrintEncoding, EncodingHere, Eval, Shown, Shuts, SuffixText,
        HasAt;
    var none := Cloned(NoClones);
    SymbolPieces(x, none);
    ParsesEncoding(x, MangledSymbol(x, none), 2, START);
  }
}
