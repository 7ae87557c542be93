/** ShellEscape of app/glog/src/logging.cc, against the quoting rules of section 2.2 of the POSIX
    Shell Command Language. */
module ShellQuote {
  import opened Basics

  /** kDontNeedShellEscapeChars. */
  predicate Plain(c: char) {
    || 'A' <= c <= 'Z' || 'a' <= c <= 'z' || '0' <= c <= '9'
    || c == '+' || c == '-' || c == '_' || c == '.' || c == '=' || c == '/' || c == ':' || c == ',' || c == '@'
  }

  predicate AllPlain(s: string) { forall j :: 0 <= j < |s| ==> Plain(s[j]) }

  /** Characters that keep a meaning inside double quotes. */
  predicate Escapable(c: char) { c == '\\' || c == '$' || c == '"' || c == '`' }

  function Backslashed(s: string): string {
    if s == [] then "" else (if Escapable(s[0]) then "\\" else "") + [s[0]] + Backslashed(s[1..])
  }

  function Quoted(src: string): string {
    if src != [] && AllPlain(src) then src
    else if '\'' !in src then "'" + src + "'"
    else "\"" + Backslashed(src) + "\""
  }

  lemma {:induction false} BackslashedSnoc(s: string, c: char)
    ensures Backslashed(s + [c]) == Backslashed(s) + (if Escapable(c) then "\\" else "") + [c]
    decreases |s|
  {
    if s == [] {
      assert s + [c] == [c] && [c][1..] == [];
    } else {
      assert (s + [c])[1..] == s[1..] + [c];
      BackslashedSnoc(s[1..], c);
    }
  }

  method ShellEscape(src: string) returns (result: string)
    ensures result == Quoted(src)
  {
    if src != [] && forall j :: 0 <= j < |src| ==> Plain(src[j]) {
      result := src;
    } else if '\'' !in src {
      result := "'" + src + "'";
    } else {
      result := "\"";
      for i := 0 to |src|
        invariant result == "\"" + Backslashed(src[..i])
      {
        BackslashedSnoc(src[..i], src[i]);
        assert src[..i] + [src[i]] == src[..i + 1];
        if Escapable(src[i]) { result := result + "\\"; }
        result := result + [src[i]];
      }
      assert src[..|src|] == src;
      result := result + "\"";
    }
  }

  // ---------------------------------------------------------------- the shell

  datatype Quote = Bare | Single | Double

  /** Outside quotes these separate words, or start an operator, an expansion, a pattern or a comment. */
  predicate Blank(c: char) { c == ' ' || c == '\t' }
  predicate Special(c: char) {
    || c == '|' || c == '&' || c == ';' || c == '<' || c == '>' || c == '(' || c == ')' || c == '$' || c == '`'
    || c == '*' || c == '?' || c == '[' || c == '#' || c == '~' || c == '\n'
  }

  function Grown(word: Option<string>, more: string): Option<string> {
    Some((if word.Some? then word.value else "") + more)
  }

  function Prepend(word: Option<string>, words: Option<seq<string>>): Option<seq<string>> {
    if word.None? || words.None? then words else Some([word.value] + words.value)
  }

  /** The words of s, read on from inside a quote and a word.  None where the text is more than words:
      a special character that is not quoted, or a quote that is not closed. */
  function Words(s: string, quote: Quote, word: Option<string>): Option<seq<string>>
    decreases |s|
  {
    if s == [] then (if quote.Bare? then Prepend(word, Some([])) else None)
    else
      var c, rest := s[0], s[1..];
      match quote
      case Bare =>
        if Blank(c) then Prepend(word, Words(rest, Bare, None))
        else if Special(c) then None
        else if c == '\'' then Words(rest, Single, Grown(word, ""))
        else if c == '"' then Words(rest, Double, Grown(word, ""))
        else if c == '\\' then
          if rest == [] then None
          else if rest[0] == '\n' then Words(rest[1..], Bare, word)
          else Words(rest[1..], Bare, Grown(word, [rest[0]]))
        else Words(rest, Bare, Grown(word, [c]))
      case Single =>
        if c == '\'' then Words(rest, Bare, word) else Words(rest, Single, Grown(word, [c]))
      case Double =>
        if c == '"' then Words(rest, Bare, word)
        else if c == '$' || c == '`' then None
        else if c == '\\' && rest != [] && Escapable(rest[0]) then Words(rest[1..], Double, Grown(word, [rest[0]]))
        else if c == '\\' && rest != [] && rest[0] == '\n' then Words(rest[1..], Double, word)
        else Words(rest, Double, Grown(word, [c]))
  }

  // ---------------------------------------------------------------- the round trip

  lemma PlainIsOrdinary(c: char)
    requires Plain(c)
    ensures !Blank(c) && !Special(c) && c != '\'' && c != '"' && c != '\\'
  {}

  lemma GrownTwice(word: Option<string>, c: char, s: string)
    ensures Grown(Grown(word, [c]), s) == Grown(word, [c] + s)
  {
    var w := if word.Some? then word.value else "";
    assert (w + [c]) + s == w + ([c] + s);
  }

  lemma {:induction false} PlainReads(s: string, after: string, word: Option<string>)
    requires AllPlain(s) && s != []
    ensures Words(s + after, Bare, word) == Words(after, Bare, Grown(word, s))
    decreases |s|
  {
    PlainIsOrdinary(s[0]);
    hide Special, Blank, Plain;
    assert (s + after)[1..] == s[1..] + after;
    assert [s[0]] + s[1..] == s;
    if |s| > 1 {
      PlainReads(s[1..], after, Grown(word, [s[0]]));
      GrownTwice(word, s[0], s[1..]);
    } else {
      assert s + after == [s[0]] + after;
    }
  }

  lemma {:induction false} SingleReads(s: string, after: string, w: string)
    requires '\'' !in s
    ensures Words(s + ['\''] + after, Single, Some(w)) == Words(after, Bare, Some(w + s))
    decreases |s|
  {
    var text := s + ['\''] + after;
    if s == [] {
      assert text[1..] == after && w + s == w;
    } else {
      assert text[1..] == s[1..] + ['\''] + after;
      SingleReads(s[1..], after, w + [s[0]]);
      assert w + [s[0]] + s[1..] == w + s;
    }
  }

  lemma {:induction false} DoubleReads(s: string, after: string, w: string)
    ensures Words(Backslashed(s) + ['"'] + after, Double, Some(w)) == Words(after, Bare, Some(w + s))
    decreases |s|
  {
    var text := Backslashed(s) + ['"'] + after;
    if s == [] {
      assert text[1..] == after && w + s == w;
    } else {
      var rest := Backslashed(s[1..]) + ['"'] + after;
      DoubleReads(s[1..], after, w + [s[0]]);
      assert w + [s[0]] + s[1..] == w + s;
      if Escapable(s[0]) {
        assert text[0] == '\\' && text[1..] == [s[0]] + rest && text[1..][1..] == rest;
      } else {
        assert text[0] == s[0] && text[1..] == rest;
      }
    }
  }

  lemma QuoteOpens(s: string)
    ensures Words(['\''] + s, Bare, None) == Words(s, Single, Some(""))
    ensures Words(['"'] + s, Bare, None) == Words(s, Double, Some(""))
  {
    assert (['\''] + s)[1..] == s && (['"'] + s)[1..] == s;
    assert "" + "" == "";
  }

  lemma Surrounded(q: string, s: string, after: string)
    ensures (q + s + q) + after == q + (s + q + after)
  {}

  /** Wherever a word may start, the quoted string is read as the string, and nothing after it is touched. */
  lemma QuotedReads(src: string, after: string)
    ensures Words(Quoted(src) + after, Bare, None) == Words(after, Bare, Some(src))
  {
    hide Plain, Words, Backslashed;
    assert "" + src == src;
    if src != [] && AllPlain(src) {
      PlainReads(src, after, None);
    } else if '\'' !in src {
      SingleReads(src, after, "");
      QuoteOpens(src + ['\''] + after);
      Surrounded(['\''], src, after);
    } else {
      DoubleReads(src, after, "");
      QuoteOpens(Backslashed(src) + ['"'] + after);
      Surrounded(['"'], Backslashed(src), after);
    }
  }

  /** ShellEscape(src) is one word, and that word is src. */
  lemma OneWord(src: string)
    ensures Words(Quoted(src), Bare, None) == Some([src])
  {
    QuotedReads(src, "");
    assert Quoted(src) + "" == Quoted(src);
    assert [src] + [] == [src];
  }

  function CommandLine(args: seq<string>): string {
    if args == [] then "" else Quoted(args[0]) + (" " + CommandLine(args[1..]))
  }

  /** A command line of quoted arguments has exactly these arguments. */
  lemma {:induction false} ArgumentsReadBack(args: seq<string>)
    ensures Words(CommandLine(args), Bare, None) == Some(args)
    decreases |args|
  {
    if args != [] {
      var after := " " + CommandLine(args[1..]);
      QuotedReads(args[0], after);
      ArgumentsReadBack(args[1..]);
      assert after[1..] == CommandLine(args[1..]);
      assert [args[0]] + args[1..] == args;
    }
  }
}
