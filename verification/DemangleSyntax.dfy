/** Names as trees: how a tree is mangled and what is printed for it.  Nothing here looks at the table of
    the parse functions. */
module DemangleSyntax {
  import opened Basics
  import opened DemangleOutput
  import opened DemangleSpeech

  // ---------------------------------------------------------------- the trees

  datatype Num = Num(negative: bool, digits: nat)

  datatype Oper =
    | Symbol(a: char, b: char)                  // nw, pl, ...
    | Cast(to: Type)                            // cv <type>
    | Vendor(digit: char, id: string)           // v <digit> <source-name>

  datatype Unqualified =
    | Source(id: string)
    | LocalSource(id: string, disc: Option<Num>)
    | Operator(op: Oper)
    | Ctor(kind: char)
    | Dtor(kind: char)

  /** S_, S1_, ...; Sa, Ss, ... */
  datatype Substitute = Numbered(seqId: string) | Standard(c: char)

  /** T_, T0_, ... */
  datatype Param = Param(number: Option<Num>)

  datatype Part = SubstitutePart(s: Substitute) | ParamPart(p: Param) | NamePart(u: Unqualified) | ArgsPart(args: Args)
  datatype Parts = NoParts | Parts(head: Part, tail: Parts)

  /** [r] [V] [K] */
  datatype Quals = Quals(r: bool, V: bool, K: bool)

  datatype Name =
    | Unscoped(std: bool, u: Unqualified)
    | Template(std: bool, u: Unqualified, args: Args)
    | SubstituteTemplate(s: Substitute, args: Args)
    | Nested(quals: Quals, parts: Parts)
    | Local(scope: Encoding, entity: Name, disc: Option<Num>)
    | LocalString(scope: Encoding, disc: Option<Num>)

  datatype Offset = Direct(n: Num) | Virtual(n: Num, vn: Num)

  datatype Encoding =
    | Func(name: Name, params: Types)
    | Data(name: Name)
    | TypeData(kind: char, t: Type)                           // T [VTIS]
    | Covariant(o1: Offset, o2: Offset, base: Encoding)       // Tc
    | Guard(name: Name)                                       // GV
    | Thunk(o: Offset, base: Encoding)                        // T
    | Construction(t: Type, n: Num, inner: Type)             // TC
    | JavaData(kind: char, t: Type)                           // T [FJ]
    | Temporary(name: Name)                                   // GR
    | Hidden(base: Encoding)                                  // GA
    | OldThunk(kind: char, o: Offset, base: Encoding)         // T [hv]

  datatype Types = LastType(t: Type) | MoreTypes(t: Type, more: Types)

  datatype Type =
    | Builtin(c: char)
    | VendorType(id: string)                    // u
    | Qualified(quals: Quals, t: Type)
    | Modified(c: char, t: Type)                // O P R C G
    | Expansion(t: Type)                        // Dp
    | Decltype(c: char, e: Expr)                // Dt, DT
    | VendorQualified(id: string, t: Type)      // U
    | FunctionType(isC: bool, params: Types)    // F
    | Class(name: Name)
    | Array(n: Num, t: Type)                    // A
    | ArrayOf(e: Expr, t: Type)
    | ArrayUnknown(t: Type)
    | MemberPointer(owner: Type, t: Type)         // M
    | Substituted(s: Substitute)
    | ParamType(p: Param)
    | ParamTemplate(p: Param, args: Args)

  datatype Arg = TypeArg(t: Type) | PrimaryArg(literal: Primary) | PackArg(args: Args) | ExprArg(e: Expr)
  datatype Args = NoArgs | Args(head: Arg, tail: Args)

  datatype Primary =
    | Integer(t: Type, n: Num)
    | Float(t: Type, hex: string)
    | External(e: Encoding)                     // L_Z
    | OldExternal(e: Encoding)                  // LZ

  datatype Expr =
    | ParamExpr(p: Param)
    | PrimaryExpr(literal: Primary)
    | Apply1(op: Oper, a: Expr)
    | Apply2(op: Oper, a: Expr, b: Expr)
    | Apply3(op: Oper, a: Expr, b: Expr, c: Expr)
    | SizeOf(t: Type)                           // st
    | ScopeOf(t: Type, u: Unqualified, args: Args)    // sr, with or without arguments

  // ---------------------------------------------------------------- the mangled name

  function NumText(n: Num): string { (if n.negative then "n" else "") + Dec(n.digits) }
  function Counted(id: string): string { Dec(|id|) + id }
  function DiscText(d: Option<Num>): string { if d.Some? then "_" + NumText(d.value) else "" }

  function MangledQuals(q: Quals): string
    { (if q.r then "r" else "") + (if q.V then "V" else "") + (if q.K then "K" else "") }

  function MangledSubstitute(s: Substitute): string {
    match s
    case Numbered(id) => "S" + id + "_"
    case Standard(c) => "S" + [c]
  }

  function MangledParam(p: Param): string { "T" + (if p.number.Some? then NumText(p.number.value) else "") + "_" }

  function MangledOffset(o: Offset): string {
    match o
    case Direct(n) => "h" + NumText(n) + "_"
    case Virtual(n, vn) => "v" + NumText(n) + "_" + NumText(vn) + "_"
  }

  function MangledOper(op: Oper): string {
    match op
    case Symbol(a, b) => [a, b]
    case Cast(to) => "cv" + MangledType(to)
    case Vendor(digit, id) => "v" + [digit] + Counted(id)
  }

  function MangledUnqualified(u: Unqualified): string {
    match u
    case Source(id) => Counted(id)
    case LocalSource(id, disc) => "L" + Counted(id) + DiscText(disc)
    case Operator(op) => MangledOper(op)
    case Ctor(kind) => "C" + [kind]
    case Dtor(kind) => "D" + [kind]
  }

  function MangledPart(p: Part): string {
    match p
    case SubstitutePart(s) => MangledSubstitute(s)
    case ParamPart(q) => MangledParam(q)
    case NamePart(u) => MangledUnqualified(u)
    case ArgsPart(args) => MangledArgs(args)
  }

  function MangledParts(ps: Parts): string
    { if ps.NoParts? then "" else MangledPart(ps.head) + MangledParts(ps.tail) }

  function MangledName(n: Name): string {
    match n
    case Unscoped(std, u) => (if std then "St" else "") + MangledUnqualified(u)
    case Template(std, u, args) => (if std then "St" else "") + MangledUnqualified(u) + MangledArgs(args)
    case SubstituteTemplate(s, args) => MangledSubstitute(s) + MangledArgs(args)
    case Nested(quals, parts) => "N" + MangledQuals(quals) + MangledParts(parts) + "E"
    case Local(scope, entity, disc) =>
      "Z" + MangledEncoding(scope) + "E" + MangledName(entity) + DiscText(disc)
    case LocalString(scope, disc) => "Z" + MangledEncoding(scope) + "Es" + DiscText(disc)
  }

  function MangledEncoding(x: Encoding): string {
    match x
    case Func(name, params) => MangledName(name) + MangledTypes(params)
    case Data(name) => MangledName(name)
    case TypeData(kind, t) => "T" + [kind] + MangledType(t)
    case Covariant(o1, o2, base) => "Tc" + MangledOffset(o1) + MangledOffset(o2) + MangledEncoding(base)
    case Guard(name) => "GV" + MangledName(name)
    case Thunk(o, base) => "T" + MangledOffset(o) + MangledEncoding(base)
    case Construction(t, n, inner) => "TC" + MangledType(t) + NumText(n) + "_" + MangledType(inner)
    case JavaData(kind, t) => "T" + [kind] + MangledType(t)
    case Temporary(name) => "GR" + MangledName(name)
    case Hidden(base) => "GA" + MangledEncoding(base)
    case OldThunk(kind, o, base) => "T" + [kind] + MangledOffset(o) + MangledEncoding(base)
  }

  function MangledTypes(ts: Types): string {
    match ts
    case LastType(t) => MangledType(t)
    case MoreTypes(t, more) => MangledType(t) + MangledTypes(more)
  }

  function MangledType(t: Type): string {
    match t
    case Builtin(c) => [c]
    case VendorType(id) => "u" + Counted(id)
    case Qualified(quals, u) => MangledQuals(quals) + MangledType(u)
    case Modified(c, u) => [c] + MangledType(u)
    case Expansion(u) => "Dp" + MangledType(u)
    case Decltype(c, e) => "D" + [c] + MangledExpr(e) + "E"
    case VendorQualified(id, u) => "U" + Counted(id) + MangledType(u)
    case FunctionType(isC, params) => "F" + (if isC then "Y" else "") + MangledTypes(params) + "E"
    case Class(name) => MangledName(name)
    case Array(n, u) => "A" + NumText(n) + "_" + MangledType(u)
    case ArrayOf(e, u) => "A" + MangledExpr(e) + "_" + MangledType(u)
    case ArrayUnknown(u) => "A_" + MangledType(u)
    case MemberPointer(owner, u) => "M" + MangledType(owner) + MangledType(u)
    case Substituted(s) => MangledSubstitute(s)
    case ParamType(p) => MangledParam(p)
    case ParamTemplate(p, args) => MangledParam(p) + MangledArgs(args)
  }

  /** "I" <template-arg>+ "E" */
  function MangledArgs(args: Args): string
    decreases args, 1
  {
    "I" + MangledArgList(args) + "E"
  }

  function MangledArgList(args: Args): string
    decreases args, 0
  {
    if args.NoArgs? then "" else MangledArg(args.head) + MangledArgList(args.tail)
  }

  function MangledArg(a: Arg): string {
    match a
    case TypeArg(t) => MangledType(t)
    case PrimaryArg(literal) => MangledPrimary(literal)
    case PackArg(args) => "I" + MangledArgList(args) + "E"
    case ExprArg(e) => "X" + MangledExpr(e) + "E"
  }

  function MangledPrimary(p: Primary): string {
    match p
    case Integer(t, n) => "L" + MangledType(t) + NumText(n) + "E"
    case Float(t, hex) => "L" + MangledType(t) + hex + "E"
    case External(e) => "L_Z" + MangledEncoding(e) + "E"
    case OldExternal(e) => "LZ" + MangledEncoding(e) + "E"
  }

  function MangledExpr(e: Expr): string {
    match e
    case ParamExpr(p) => MangledParam(p)
    case PrimaryExpr(literal) => MangledPrimary(literal)
    case Apply1(op, a) => MangledOper(op) + MangledExpr(a)
    case Apply2(op, a, b) => MangledOper(op) + MangledExpr(a) + MangledExpr(b)
    case Apply3(op, a, b, c) => MangledOper(op) + MangledExpr(a) + MangledExpr(b) + MangledExpr(c)
    case SizeOf(t) => "st" + MangledType(t)
    case ScopeOf(t, u, args) =>
      "sr" + MangledType(t) + MangledUnqualified(u) + (if args.NoArgs? then "" else MangledArgs(args))
  }

  // ---------------------------------------------------------------- what stands for the abbreviations

  /** The symbol of a two-letter operator name, "" if there is none. */
  function OperatorText(a: char, b: char): string {
    match a
    case 'n' => match b {
      case 'w' => "new" case 'a' => "new[]" case 'g' => "-" case 'e' => "!=" case 't' => "!" case _ => "" }
    case 'd' => match b {
      case 'l' => "delete" case 'a' => "delete[]" case 'e' => "*" case 'v' => "/" case 'V' => "/=" case _ => "" }
    case 'p' => match b {
      case 's' => "+" case 'l' => "+" case 'L' => "+=" case 'p' => "++" case 'm' => "->*" case 't' => "->"
      case _ => "" }
    case 'a' => match b {
      case 'd' => "&" case 'n' => "&" case 'S' => "=" case 'N' => "&=" case 'a' => "&&" case _ => "" }
    case 'c' => match b { case 'o' => "~" case 'm' => "," case 'l' => "()" case _ => "" }
    case 'm' => match b {
      case 'i' => "-" case 'l' => "*" case 'I' => "-=" case 'L' => "*=" case 'm' => "--" case _ => "" }
    case 'r' => match b { case 'm' => "%" case 'M' => "%=" case 's' => ">>" case 'S' => ">>=" case _ => "" }
    case 'o' => match b { case 'r' => "|" case 'R' => "|=" case 'o' => "||" case _ => "" }
    case 'e' => match b { case 'o' => "^" case 'O' => "^=" case 'q' => "==" case _ => "" }
    case 'l' => match b { case 's' => "<<" case 'S' => "<<=" case 't' => "<" case 'e' => "<=" case _ => "" }
    case 'g' => match b { case 't' => ">" case 'e' => ">=" case _ => "" }
    case 'i' => if b == 'x' then "[]" else ""
    case 'q' => if b == 'u' then "?" else ""
    case 's' => if b == 't' || b == 'z' then "sizeof" else ""
    case _ => ""
  }

  function BuiltinText(c: char): string {
    match c
    case 'v' => "void" case 'w' => "wchar_t" case 'b' => "bool" case 'c' => "char" case 'a' => "signed char"
    case 'h' => "unsigned char" case 's' => "short" case 't' => "unsigned short" case 'i' => "int"
    case 'j' => "unsigned int" case 'l' => "long" case 'm' => "unsigned long" case 'x' => "long long"
    case 'y' => "unsigned long long" case 'n' => "__int128" case 'o' => "unsigned __int128" case 'f' => "float"
    case 'd' => "double" case 'e' => "long double" case 'g' => "__float128" case 'z' => "ellipsis"
    case _ => ""
  }

  /** What follows "std::" for Sa, Ss, ...; St is "std" alone. */
  function StandardText(c: char): string {
    match c
    case 'a' => "allocator" case 'b' => "basic_string" case 's' => "string" case 'i' => "istream"
    case 'o' => "ostream" case 'd' => "iostream"
    case _ => ""
  }

  predicate IsStandard(c: char) { c == 't' || StandardText(c) != "" }

  function IdText(id: string): string
    { if |id| > 11 && "_GLOBAL__N_" <= id then "(anonymous namespace)" else id }

  // ---------------------------------------------------------------- what is printed

  /** "operator+", but "operator new". */
  function PrintSymbol(text: string, v: View): View {
    var w := Add(v, "operator");
    Add(if text != "" && IsLower(text[0]) then Add(w, " ") else w, text)
  }

  function PrintOper(op: Oper, v: View): View {
    match op
    case Symbol(a, b) => PrintSymbol(OperatorText(a, b), v)
    case Cast(to) => PrintType(to, Add(v, "operator ").(nest := 0)).(nest := v.nest)
    case Vendor(_, id) => Add(v, IdText(id))
  }

  /** A constructor repeats the last name; so does a destructor, after "~". */
  function PrintUnqualified(u: Unqualified, v: View): View
    decreases u, 0
  {
    match u
    case Source(id) => Add(v, IdText(id))
    case LocalSource(id, _) => Add(v, IdText(id))
    case Operator(op) => PrintOper(op, v)
    case Ctor(_) => Add(v, v.last)
    case Dtor(_) => Add(Add(v, "~"), v.last)
  }

  function PrintSubstitute(s: Substitute, v: View): View {
    match s
    case Numbered(_) => Add(v, "?")
    case Standard(c) => if c == 't' then Add(v, "std") else Add(Add(Add(v, "std"), "::"), StandardText(c))
  }

  function PrintParam(v: View): View { Add(v, "?") }
  function PrintArgs(v: View): View { Add(v, "<>") }

  function PrintComponent(p: Part, v: View): View
    decreases p, 0
  {
    match p
    case SubstitutePart(s) => PrintSubstitute(s, v)
    case ParamPart(_) => PrintParam(v)
    case NamePart(u) => PrintUnqualified(u, v)
    case ArgsPart(_) => PrintArgs(v)
  }

  /** Arguments follow directly; other parts are separated from those before. */
  function PrintPart(p: Part, v: View): View
    decreases p, 1
  {
    if p.ArgsPart? then PrintArgs(v)
    else var w := PrintComponent(p, Separating(v)); w.(nest := Deepened(w.nest))
  }

  function PrintParts(ps: Parts, v: View): View
    { if ps.NoParts? then v else PrintParts(ps.tail, PrintPart(ps.head, v)) }

  function PrintScoped(std: bool, u: Unqualified, v: View): View
    decreases u, 1
  {
    PrintUnqualified(u, if std then Add(v, "std::") else v)
  }

  function PrintName(n: Name, v: View): View {
    match n
    case Unscoped(std, u) => PrintScoped(std, u, v)
    case Template(std, u, _) => PrintArgs(PrintScoped(std, u, v))
    case SubstituteTemplate(s, _) => PrintArgs(PrintSubstitute(s, v))
    case Nested(_, parts) => PrintParts(parts, v.(nest := 0)).(nest := v.nest)
    case Local(scope, entity, _) => PrintName(entity, Add(PrintEncoding(scope, v), "::"))
    case LocalString(scope, _) => PrintEncoding(scope, v)
  }

  /** Parameter lists are not spelled out. */
  function PrintEncoding(x: Encoding, v: View): View {
    match x
    case Func(name, _) => Add(PrintName(name, v), "()")
    case Data(name) => PrintName(name, v)
    case TypeData(_, t) => PrintType(t, v)
    case Covariant(_, _, base) => PrintEncoding(base, v)
    case Guard(name) => PrintName(name, v)
    case Thunk(_, base) => PrintEncoding(base, v)
    case Construction(t, _, _) => PrintType(t, v)
    case JavaData(_, t) => PrintType(t, v)
    case Temporary(name) => PrintName(name, v)
    case Hidden(base) => PrintEncoding(base, v)
    case OldThunk(_, _, base) => PrintEncoding(base, v)
  }

  function PrintType(t: Type, v: View): View {
    match t
    case Builtin(c) => Add(v, BuiltinText(c))
    case VendorType(id) => Add(v, IdText(id))
    case Qualified(_, u) => PrintType(u, v)
    case Modified(_, u) => PrintType(u, v)
    case Expansion(u) => PrintType(u, v)
    case Decltype(_, e) => PrintExpr(e, v)
    case VendorQualified(id, u) => PrintType(u, Add(v, IdText(id)))
    case FunctionType(_, _) => Add(v, "()")
    case Class(name) => PrintName(name, v)
    case Array(_, u) => PrintType(u, v)
    case ArrayOf(e, u) => PrintType(u, PrintExpr(e, v))
    case ArrayUnknown(u) => PrintType(u, v)
    case MemberPointer(owner, u) => PrintType(u, PrintType(owner, v))
    case Substituted(s) => PrintSubstitute(s, v)
    case ParamType(_) => PrintParam(v)
    case ParamTemplate(_, _) => PrintArgs(PrintParam(v))
  }

  function PrintPrimary(p: Primary, v: View): View {
    match p
    case Integer(t, _) => PrintType(t, v)
    case Float(t, _) => PrintType(t, v)
    case External(e) => PrintEncoding(e, v)
    case OldExternal(e) => PrintEncoding(e, v)
  }

  function PrintExpr(e: Expr, v: View): View {
    match e
    case ParamExpr(_) => PrintParam(v)
    case PrimaryExpr(literal) => PrintPrimary(literal, v)
    case Apply1(op, a) => PrintExpr(a, PrintOper(op, v))
    case Apply2(op, a, b) => PrintExpr(b, PrintExpr(a, PrintOper(op, v)))
    case Apply3(op, a, b, c) => PrintExpr(c, PrintExpr(b, PrintExpr(a, PrintOper(op, v))))
    case SizeOf(t) => PrintType(t, v)
    case ScopeOf(t, u, args) =>
      var w := PrintUnqualified(u, PrintType(t, v));
      if args.NoArgs? then w else PrintArgs(w)
  }

  // ---------------------------------------------------------------- which characters can start what

  predicate UnqualifiedFirst(c: char) { IsLower(c) || IsDigit(c) || c == 'C' || c == 'D' || c == 'L' }
  predicate NameFirst(c: char) { UnqualifiedFirst(c) || c == 'N' || c == 'Z' || c == 'S' }
  predicate TypeFirst(c: char) { NameFirst(c) || c in "VKOPRGUFAMT" }
  predicate ExprFirst(c: char) { IsLower(c) || c == 'T' || c == 'L' }

  /** The two characters could be taken for an operator name. */
  predicate OperatorFirst(a: char, b: char) {
    OperatorText(a, b) != "" || (a == 'c' && b == 'v') || (a == 'v' && IsDigit(b))
  }

  // ---------------------------------------------------------------- what must not follow

  /** A character behind the tree that would be taken for a part of it. */
  predicate Joinable(c: char) { IsAlpha(c) || IsDigit(c) || c == '_' }

  function ShunsOper(op: Oper, c: char): (r: bool)
    ensures r ==> Joinable(c) && c != 'E'
  {
    op.Cast? && ShunsType(op.to, c)
  }

  function ShunsAfter(disc: Option<Num>, c: char): (r: bool)
    ensures r ==> Joinable(c) && c != 'E'
  {
    if disc.Some? then IsDigit(c) else c == '_'
  }

  function ShunsUnqualified(u: Unqualified, c: char): (r: bool)
    ensures r ==> Joinable(c) && c != 'E'
  {
    match u
    case LocalSource(_, disc) => ShunsAfter(disc, c)
    case Operator(op) => ShunsOper(op, c)
    case _ => false
  }

  function ShunsName(n: Name, c: char): (r: bool)
    ensures r ==> Joinable(c) && c != 'E'
  {
    match n
    case Unscoped(_, u) => c == 'I' || ShunsUnqualified(u, c)
    case Local(_, entity, disc) => ShunsAfter(disc, c) || (disc.None? && ShunsName(entity, c))
    case LocalString(_, disc) => ShunsAfter(disc, c) || (disc.None? && (c == 't' || c == 'z'))
    case _ => false
  }

  function ShunsEncoding(x: Encoding, c: char): (r: bool)
    ensures r ==> Joinable(c) && c != 'E'
  {
    match x
    case Func(_, params) => TypeFirst(c) || ShunsTypes(params, c)
    case Data(name) => TypeFirst(c) || ShunsName(name, c)
    case TypeData(_, t) => ShunsType(t, c)
    case Covariant(_, _, base) => ShunsEncoding(base, c)
    case Guard(name) => ShunsName(name, c)
    case Thunk(_, base) => ShunsEncoding(base, c)
    case Construction(_, _, inner) => ShunsType(inner, c)
    case JavaData(_, t) => ShunsType(t, c)
    case Temporary(name) => ShunsName(name, c)
    case Hidden(base) => ShunsEncoding(base, c)
    case OldThunk(_, _, base) => ShunsEncoding(base, c)
  }

  function ShunsTypes(ts: Types, c: char): (r: bool)
    ensures r ==> Joinable(c) && c != 'E'
  {
    match ts
    case LastType(t) => ShunsType(t, c)
    case MoreTypes(_, more) => ShunsTypes(more, c)
  }

  function ShunsType(t: Type, c: char): (r: bool)
    ensures r ==> Joinable(c) && c != 'E'
  {
    match t
    case Qualified(_, u) => ShunsType(u, c)
    case Modified(_, u) => ShunsType(u, c)
    case Expansion(u) => ShunsType(u, c)
    case VendorQualified(_, u) => ShunsType(u, c)
    case Class(name) => ShunsName(name, c)
    case Array(_, u) => ShunsType(u, c)
    case ArrayOf(_, u) => ShunsType(u, c)
    case ArrayUnknown(u) => ShunsType(u, c)
    case MemberPointer(_, u) => ShunsType(u, c)
    case Substituted(_) => c == 'I'
    case ParamType(_) => c == 'I'
    case _ => false
  }

  function ShunsPrimary(p: Primary, c: char): (r: bool)
    ensures r ==> Joinable(c) && c != 'E'
  {
    p.OldExternal? && NameFirst(c)
  }

  function ShunsExpr(e: Expr, c: char): (r: bool)
    ensures r ==> Joinable(c) && c != 'E'
  {
    match e
    case ParamExpr(_) => false
    case PrimaryExpr(literal) => ShunsPrimary(literal, c)
    case Apply1(_, a) => ExprFirst(c) || ShunsExpr(a, c)
    case Apply2(_, _, b) => ExprFirst(c) || ShunsExpr(b, c)
    case Apply3(_, _, _, d) => ShunsExpr(d, c)
    case SizeOf(t) => ShunsType(t, c) || (t.Builtin? && (OperatorFirst(t.c, c) || (t.c == 's' && c == 'r')))
    case ScopeOf(_, u, args) => args.NoArgs? && (c == 'I' || ShunsUnqualified(u, c))
  }

  function ShunsArg(a: Arg, c: char): (r: bool)
    ensures r ==> Joinable(c) && c != 'E'
  {
    match a
    case TypeArg(t) => ShunsType(t, c)
    case PrimaryArg(literal) => ShunsPrimary(literal, c)
    case _ => false
  }

  function ShunsPart(p: Part, c: char): (r: bool)
    ensures r ==> Joinable(c) && c != 'E'
  {
    p.NamePart? && ShunsUnqualified(p.u, c)
  }

  // ---------------------------------------------------------------- names that can be mangled

  function First(s: string): char { if s == "" then '\0' else s[0] }

  /** A non-empty identifier that does not start with a digit. */
  predicate GoodId(id: string) { 0 < |id| < 0x8000_0000 && !IsDigit(id[0]) && '\0' !in id }

  predicate GoodSubstitute(s: Substitute) {
    match s
    case Numbered(id) => forall j :: 0 <= j < |id| ==> IsDigit(id[j]) || 'A' <= id[j] <= 'Z'
    case Standard(c) => IsStandard(c)
  }

  predicate GoodOper(op: Oper) {
    match op
    case Symbol(a, b) => OperatorText(a, b) != ""
    case Cast(to) => GoodType(to)
    case Vendor(digit, id) => IsDigit(digit) && GoodId(id)
  }

  predicate GoodUnqualified(u: Unqualified) {
    match u
    case Source(id) => GoodId(id)
    case LocalSource(id, _) => GoodId(id)
    case Operator(op) => GoodOper(op)
    case Ctor(kind) => '1' <= kind <= '3'
    case Dtor(kind) => '0' <= kind <= '2'
  }

  /** Not a constructor or destructor: those stand behind other parts of a nested name. */
  predicate Leading(u: Unqualified) { !u.Ctor? && !u.Dtor? }

  predicate GoodPart(p: Part) {
    match p
    case SubstitutePart(s) => GoodSubstitute(s)
    case ParamPart(_) => true
    case NamePart(u) => GoodUnqualified(u)
    case ArgsPart(args) => args.Args? && GoodArgs(args)
  }

  /** Template arguments belong to a part in front of them. */
  predicate GoodParts(ps: Parts, argsMayCome: bool) {
    ps.Parts? ==>
      && GoodPart(ps.head) && (ps.head.ArgsPart? ==> argsMayCome)
      && !ShunsPart(ps.head, First(MangledParts(ps.tail) + "E")) && GoodParts(ps.tail, !ps.head.ArgsPart?)
  }

  predicate GoodStart(p: Part) {
    (p.NamePart? ==> Leading(p.u)) && var c := First(MangledPart(p)); c != 'r' && c != 'V' && c != 'K'
  }

  predicate GoodName(n: Name) {
    match n
    case Unscoped(_, u) => GoodUnqualified(u) && Leading(u)
    case Template(_, u, args) =>
      GoodUnqualified(u) && Leading(u) && !ShunsUnqualified(u, 'I') && args.Args? && GoodArgs(args)
    case SubstituteTemplate(s, args) => GoodSubstitute(s) && args.Args? && GoodArgs(args)
    case Nested(_, parts) => parts.Parts? && GoodStart(parts.head) && GoodParts(parts, false)
    case Local(scope, entity, disc) =>
      GoodEncoding(scope) && GoodName(entity) && (disc.Some? ==> !ShunsName(entity, '_'))
    case LocalString(scope, _) => GoodEncoding(scope)
  }

  predicate GoodEncoding(x: Encoding) {
    match x
    case Func(name, params) => GoodName(name) && GoodTypes(params) && !ShunsName(name, First(MangledTypes(params)))
    case Data(name) => GoodName(name)
    case TypeData(kind, t) => kind in "VTIS" && GoodType(t)
    case Covariant(_, _, base) => GoodEncoding(base)
    case Guard(name) => GoodName(name)
    case Thunk(_, base) => GoodEncoding(base)
    case Construction(t, n, inner) => GoodType(t) && GoodType(inner) && !ShunsType(t, First(NumText(n)))
    case JavaData(kind, t) => kind in "FJ" && GoodType(t)
    case Temporary(name) => GoodName(name)
    case Hidden(base) => GoodEncoding(base)
    case OldThunk(kind, _, base) => kind in "hv" && GoodEncoding(base)
  }

  predicate GoodTypes(ts: Types) {
    match ts
    case LastType(t) => GoodType(t)
    case MoreTypes(t, more) => GoodType(t) && GoodTypes(more) && !ShunsType(t, First(MangledTypes(more)))
  }

  /** A class name starts with N, Z, S, L or a digit: letters of operators would be taken for builtin types. */
  predicate ClassFirst(c: char) { c in "NZSL" || IsDigit(c) }

  predicate GoodType(t: Type) {
    match t
    case Builtin(c) => BuiltinText(c) != ""
    case VendorType(id) => GoodId(id)
    case Qualified(quals, u) => (quals.r || quals.V || quals.K) && GoodType(u) && !u.Qualified?
    case Modified(c, u) => c in "OPRCG" && GoodType(u)
    case Expansion(u) => GoodType(u)
    case Decltype(c, e) => c in "tT" && GoodExpr(e)
    case VendorQualified(id, u) => GoodId(id) && GoodType(u)
    case FunctionType(_, params) => GoodTypes(params)
    case Class(name) => GoodName(name) && ClassFirst(First(MangledName(name)))
    case Array(_, u) => GoodType(u)
    case ArrayOf(e, u) => GoodExpr(e) && GoodType(u) && !ShunsExpr(e, '_')
    case ArrayUnknown(u) => GoodType(u)
    case MemberPointer(owner, u) => GoodType(owner) && GoodType(u) && !ShunsType(owner, First(MangledType(u)))
    case Substituted(s) => GoodSubstitute(s) && s != Standard('t')
    case ParamType(_) => true
    case ParamTemplate(_, args) => args.Args? && GoodArgs(args)
  }

  predicate GoodArgs(args: Args) {
    args.Args? ==>
      GoodArg(args.head) && GoodArgs(args.tail) && !ShunsArg(args.head, First(MangledArgList(args.tail) + "E"))
  }

  predicate GoodArg(a: Arg) {
    match a
    case TypeArg(t) => GoodType(t)
    case PrimaryArg(literal) => GoodPrimary(literal)
    case PackArg(args) => GoodArgs(args)
    case ExprArg(e) => GoodExpr(e)
  }

  /** The type of a literal does not start like a length: behind "L" that would be a local name. */
  predicate LiteralFirst(c: char) { !IsDigit(c) && c != 'n' }

  predicate GoodPrimary(p: Primary) {
    match p
    case Integer(t, n) => GoodType(t) && LiteralFirst(First(MangledType(t))) && !ShunsType(t, First(NumText(n)))
    case Float(t, hex) =>
      && GoodType(t) && LiteralFirst(First(MangledType(t))) && !ShunsType(t, First(hex))
      && (forall j :: 0 <= j < |hex| ==> IsDigit(hex[j]) || 'a' <= hex[j] <= 'f')
      && exists j :: 0 <= j < |hex| && !IsDigit(hex[j])
    case External(e) => GoodEncoding(e)
    case OldExternal(e) => GoodEncoding(e)
  }

  predicate GoodExpr(e: Expr) {
    match e
    case ParamExpr(_) => true
    case PrimaryExpr(literal) => GoodPrimary(literal)
    case Apply1(op, a) => GoodOper(op) && GoodExpr(a) && !ShunsOper(op, First(MangledExpr(a)))
    case Apply2(op, a, b) =>
      && GoodOper(op) && GoodExpr(a) && GoodExpr(b)
      && !ShunsOper(op, First(MangledExpr(a))) && !ShunsExpr(a, First(MangledExpr(b)))
    case Apply3(op, a, b, c) =>
      && GoodOper(op) && GoodExpr(a) && GoodExpr(b) && GoodExpr(c)
      && !ShunsOper(op, First(MangledExpr(a))) && !ShunsExpr(a, First(MangledExpr(b)))
      && !ShunsExpr(b, First(MangledExpr(c)))
    case SizeOf(t) => GoodType(t) && (t.Builtin? || !ExprFirst(First(MangledType(t))))
    case ScopeOf(t, u, args) =>
      && GoodType(t) && GoodUnqualified(u) && !ShunsType(t, First(MangledUnqualified(u)))
      && (args.Args? ==> GoodArgs(args) && !ShunsUnqualified(u, 'I'))
  }

  // ---------------------------------------------------------------- whole symbols

  /** .<letters>.<digits> */
  datatype Clones = NoClones | Clones(letters: string, digits: string, more: Clones)

  /** What may follow a mangled name: the marks of function clones, which are not printed, or a version. */
  datatype Suffix = Cloned(clones: Clones) | Version(text: string)

  function ClonesText(c: Clones): string
    { if c.NoClones? then "" else "." + c.letters + "." + c.digits + ClonesText(c.more) }

  function SuffixText(x: Suffix): string {
    match x
    case Cloned(clones) => ClonesText(clones)
    case Version(text) => "@" + text
  }

  predicate GoodClones(c: Clones) {
    c.Clones? ==>
      && c.letters != "" && (forall j :: 0 <= j < |c.letters| ==> IsAlpha(c.letters[j]))
      && c.digits != "" && (forall j :: 0 <= j < |c.digits| ==> IsDigit(c.digits[j])) && GoodClones(c.more)
  }

  predicate GoodSuffix(x: Suffix) { x.Cloned? ==> GoodClones(x.clones) }

  function MangledSymbol(x: Encoding, suffix: Suffix): string { "_Z" + MangledEncoding(x) + SuffixText(suffix) }

  /** Nothing printed, no name remembered, not inside a nested name. */
  const START := View("", "", -1, true)

  function Printed(x: Encoding, suffix: Suffix): string {
    var v := PrintEncoding(x, START);
    if suffix.Version? then Add(v, SuffixText(suffix)).text else v.text
  }
}
