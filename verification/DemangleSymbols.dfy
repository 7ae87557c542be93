/** What some families of symbols print, spelled out. */
module DemangleSymbols {
  import opened Basics
  import opened DemangleOutput
  import opened DemangleSpeech
  import opened DemangleSyntax
  import opened DemangleFaithful

  const ALONE := Cloned(NoClones)

  /** An identifier that a constructor would repeat. */
  predicate PlainName(id: string) { GoodId(id) && (IsAlpha(id[0]) || id[0] == '_') && IdText(id) == id }

  lemma AddPlain(v: View, str: string)
    requires v.append && str != "" && (str[0] != '<' || v.text == "" || v.text[|v.text| - 1] != '<')
    ensures Add(v, str)
      == v.(text := v.text + str, last := if IsAlpha(str[0]) || str[0] == '_' then str else v.last)
  {
    assert v.text + "" + str == v.text + str;
  }

  lemma PlainStarts(id: string)
    requires PlainName(id)
    ensures id != "" && id[0] != '<' && (IsAlpha(id[0]) || id[0] == '_') && IdText(id) == id && GoodId(id)
  {}

  const PLAIN := Quals(false, false, false)

  /** id::<u>(), without parameters. */
  function Member(id: string, u: Unqualified): Encoding {
    Func(Nested(PLAIN, Parts(NamePart(Source(id)), Parts(NamePart(u), NoParts))), LastType(Builtin('v')))
  }

  lemma MemberIsGood(id: string, u: Unqualified)
    requires PlainName(id) && (u.Ctor? || u.Dtor?) && GoodUnqualified(u)
    ensures GoodEncoding(Member(id, u))
  {
    hide GoodId, IdText, Dec, BuiltinText;
    PlainStarts(id);
    assert BuiltinText('v') != "" by { VoidIsAType(); }
    StartsWithDigit(id);
    var last := Parts(NamePart(u), NoParts);
    assert GoodParts(NoParts, true);
    assert GoodParts(last, true);
    var head := NamePart(Source(id));
    assert GoodUnqualified(Source(id)) && MangledUnqualified(Source(id)) == Counted(id);
    assert GoodPart(head) && MangledPart(head) == Counted(id) && !ShunsPart(head, First(MangledParts(last) + "E"));
    assert GoodParts(Parts(head, last), false) && GoodStart(head);
    assert GoodTypes(LastType(Builtin('v'))) by { assert GoodType(Builtin('v')); }
  }

  lemma VoidIsAType()
    ensures BuiltinText('v') == "void"
  {}

  lemma StartsWithDigit(id: string)
    ensures Counted(id) != "" && IsDigit(First(Counted(id)))
  {
    hide Dec;
  }

  lemma MemberText(id: string, u: Unqualified)
    requires u.Ctor? || u.Dtor?
    ensures MangledSymbol(Member(id, u), ALONE) == "_ZN" + Counted(id) + [if u.Ctor? then 'C' else 'D', u.kind] + "Ev"
  {
    hide Counted;
    var c, k := Counted(id), [if u.Ctor? then 'C' else 'D', u.kind];
    var last := Parts(NamePart(u), NoParts);
    assert MangledParts(NoParts) == "" && MangledPart(NamePart(u)) == k;
    assert MangledParts(last) == k + "";
    assert MangledUnqualified(Source(id)) == c && MangledPart(NamePart(Source(id))) == c;
    assert MangledParts(Parts(NamePart(Source(id)), last)) == c + (k + "");
    assert MangledName(Member(id, u).name) == "N" + "" + (c + (k + "")) + "E";
    assert MangledTypes(Member(id, u).params) == "v";
    assert "_Z" + ("N" + "" + (c + (k + "")) + "E" + "v") + "" == "_ZN" + c + k + "Ev";
  }

  function Tilde(u: Unqualified): string { if u.Dtor? then "~" else "" }

  lemma RepeatsName(id: string, u: Unqualified)
    requires PlainName(id) && (u.Ctor? || u.Dtor?)
    ensures PrintUnqualified(u, View(id + "::", id, 1, true)) == View(id + "::" + Tilde(u) + id, id, 1, true)
  {
    hide GoodId, IdText, Add;
    PlainStarts(id);
    var v := View(id + "::", id, 1, true);
    AddPlain(v, id);
    AddPlain(v, "~");
    AddPlain(View(id + "::" + "~", id, 1, true), id);
    assert id + "::" + "" + id == id + "::" + id;
  }

  lemma BothPrint(id: string, u: Unqualified)
    requires PlainName(id) && (u.Ctor? || u.Dtor?)
    ensures PrintParts(Parts(NamePart(Source(id)), Parts(NamePart(u), NoParts)), START.(nest := 0))
      == View(id + "::" + Tilde(u) + id, id, 2, true)
  {
    hide GoodId, IdText, Add, PrintUnqualified;
    PlainStarts(id);
    var v := START.(nest := 0);
    AddPlain(v, id);
    assert "" + id == id;
    SourcePrints(id, v);
    AddPlain(View(id, id, 1, true), "::");
    RepeatsName(id, u);
    var last := Parts(NamePart(u), NoParts);
    assert PrintPart(NamePart(Source(id)), v) == View(id, id, 1, true);
    assert PrintPart(NamePart(u), View(id, id, 1, true)) == View(id + "::" + Tilde(u) + id, id, 2, true);
    assert PrintParts(last, View(id, id, 1, true)) == View(id + "::" + Tilde(u) + id, id, 2, true);
  }

  /** C1, C2 and C3 print the class name twice; D0, D1 and D2 a "~" in between. */
  lemma CtorsAndDtors(id: string, u: Unqualified)
    requires PlainName(id) && (u.Ctor? || u.Dtor?) && GoodUnqualified(u)
    ensures GoodEncoding(Member(id, u))
    ensures MangledSymbol(Member(id, u), ALONE) == "_ZN" + Counted(id) + [if u.Ctor? then 'C' else 'D', u.kind] + "Ev"
    ensures Printed(Member(id, u), ALONE) == id + "::" + Tilde(u) + id + "()"
  {
    hide PrintUnqualified, PrintParts, Counted, GoodUnqualified, PlainName, Add, Tilde;
    MemberIsGood(id, u);
    MemberText(id, u);
    BothPrint(id, u);
    FuncPrints(Member(id, u).name, Member(id, u).params);
    NestedPrints(Member(id, u).name.parts);
  }

  lemma FuncPrints(n: Name, params: Types)
    ensures Printed(Func(n, params), ALONE) == Add(PrintName(n, START), "()").text
  {
    hide Add, PrintName;
  }

  lemma NestedPrints(parts: Parts)
    requires PrintParts(parts, START.(nest := 0)).append
    ensures Add(PrintName(Name.Nested(PLAIN, parts), START), "()").text
      == PrintParts(parts, START.(nest := 0)).text + "()"
  {
    hide PrintParts;
    AddPlain(PrintName(Name.Nested(PLAIN, parts), START), "()");
  }

  lemma SourcePrints(id: string, v: View)
    ensures PrintUnqualified(Source(id), v) == Add(v, IdText(id))
  {}

  predicate EndsIn(s: string, c: char) { s != "" && s[|s| - 1] == c }

  /** Template arguments are printed as "<>", parameters as "()". */
  lemma TemplatePrints(id: string, args: Args, params: Types)
    requires PlainName(id) && !EndsIn(id, '<')
    ensures Printed(Func(Name.Template(false, Source(id), args), params), ALONE) == id + "<>()"
  {
    hide GoodId, IdText, Add;
    PlainStarts(id);
    AddPlain(START, id);
    assert "" + id == id;
    AddPlain(View(id, id, -1, true), "<>");
    AddPlain(View(id + "<>", id, -1, true), "()");
    assert id + "<>" + "()" == id + "<>()";
    SourcePrints(id, START);
    FuncPrints(Name.Template(false, Source(id), args), params);
    assert PrintScoped(false, Source(id), START) == View(id, id, -1, true);
  }

  /** "operator+", "operator new": a word is set off by a space. */
  lemma OperatorPrints(a: char, b: char, params: Types)
    requires OperatorText(a, b) != ""
    ensures var text := OperatorText(a, b);
      Printed(Func(Name.Unscoped(false, Operator(Oper.Symbol(a, b))), params), ALONE)
      == "operator" + (if IsLower(text[0]) then " " else "") + text + "()"
  {
    hide OperatorText, Add;
    var text := OperatorText(a, b);
    var word := View("operator", "operator", -1, true);
    AddPlain(START, "operator");
    assert "" + "operator" == "operator";
    AddPlain(word, " ");
    var gap := if IsLower(text[0]) then " " else "";
    var v := View("operator" + gap, "operator", -1, true);
    assert "operator" + "" == "operator";
    AddPlain(v, text);
    AddPlain(Add(v, text), "()");
    SymbolPrints(a, b, START);
    FuncPrints(Name.Unscoped(false, Operator(Oper.Symbol(a, b))), params);
    assert PrintSymbol(text, START) == Add(v, text);
  }

  lemma SymbolPrints(a: char, b: char, v: View)
    ensures PrintUnqualified(Operator(Oper.Symbol(a, b)), v) == PrintSymbol(OperatorText(a, b), v)
  {
    hide OperatorText, Add;
  }

  /** What is local to a function is printed behind it. */
  lemma LocalPrints(x: Encoding, id: string, d: Option<Num>)
    requires GoodEncoding(x) && GoodId(id)
    ensures Printed(Data(Name.Local(x, Name.Unscoped(false, Source(id)), d)), ALONE)
      == Printed(x, ALONE) + "::" + IdText(id)
  {
    hide PrintEncoding, GoodEncoding, IdText, Add;
    EncodingKeepsAppend(x);
    var v := PrintEncoding(x, START);
    AddPlain(v, "::");
    var w := Add(v, "::");
    IdIsNotEmpty(id);
    AddPlain(w, IdText(id));
    DataPrints(x, id, d);
  }

  lemma IdIsNotEmpty(id: string)
    requires GoodId(id)
    ensures IdText(id) != ""
  {}

  lemma DataPrints(x: Encoding, id: string, d: Option<Num>)
    ensures Printed(Data(Name.Local(x, Name.Unscoped(false, Source(id)), d)), ALONE)
      == Add(Add(PrintEncoding(x, START), "::"), IdText(id)).text
    ensures Printed(x, ALONE) == PrintEncoding(x, START).text
  {
    hide Add, IdText;
    var entity := Name.Unscoped(false, Source(id));
    var v := Add(PrintEncoding(x, START), "::");
    assert PrintName(entity, v) == PrintScoped(false, Source(id), v) == Add(v, IdText(id));
    assert PrintName(Name.Local(x, entity, d), START) == PrintName(entity, v);
  }
}
