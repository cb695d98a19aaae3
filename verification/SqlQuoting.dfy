/** The quoting functions of the dump and import programs, and the rules by which the server reads
    what they write. Backslash escapes are on. */
module SqlQuoting {

  // ----- how a string literal is read

  /** A character of a literal: itself, or the one after a backslash. */
  datatype Tok = Plain(c: char) | Esc(c: char)

  datatype Lexed = Unclosed | Closed(toks: seq<Tok>, rest: string)

  function Cons(t: Tok, l: Lexed): Lexed { if l.Closed? then Closed([t] + l.toks, l.rest) else l }

  /** The rest of a literal after its opening quote. */
  function Lex(s: string): Lexed {
    if s == "" then Unclosed
    else if s[0] == '\\' then if |s| == 1 then Unclosed else Cons(Esc(s[1]), Lex(s[2..]))
    else if s[0] == '\'' then if |s| > 1 && s[1] == '\'' then Cons(Plain('\''), Lex(s[2..])) else Closed([], s[1..])
    else Cons(Plain(s[0]), Lex(s[1..]))
  }

  lemma LexEsc(c: char, s: string)
    ensures Lex(['\\', c] + s) == Cons(Esc(c), Lex(s))
  {
    assert (['\\', c] + s)[2..] == s;
  }

  lemma LexPlain(c: char, s: string)
    requires c != '\\' && c != '\''
    ensures Lex([c] + s) == Cons(Plain(c), Lex(s))
  {
    assert ([c] + s)[1..] == s;
  }

  lemma LexQuote(s: string)
    ensures Lex("''" + s) == Cons(Plain('\''), Lex(s))
  {
    assert ("''" + s)[2..] == s;
  }

  lemma LexEnd(s: string)
    requires s == "" || s[0] != '\''
    ensures Lex("'" + s) == Closed([], s)
  {
    assert ("'" + s)[1..] == s;
  }

  // ----- field_escape

  /** What the user means by an option value: a backslash escapes the next character, a last one
      stands for itself. */
  function Intended(from: string): seq<Tok> {
    if from == "" then []
    else if from[0] == '\\' then if |from| == 1 then [Esc('\\')] else [Esc(from[1])] + Intended(from[2..])
    else [Plain(from[0])] + Intended(from[1..])
  }

  /** The escaped value; `odd` tells that the last character was a backslash that is not itself
      escaped. */
  function Escaped(from: string, odd: bool): string {
    if from == "" then if odd then "\\" else ""
    else
      var c := from[0];
      [c] + (if c == '\'' && !odd then "'" else "") + Escaped(from[1..], c == '\\' && !odd)
  }

  lemma {:induction false} EscapedStep(done: string, from: string, k: nat, odd: bool, all: string)
    requires k < |from| && done + Escaped(from[k..], odd) == all
    ensures var c := from[k];
            done + [c] + (if c == '\'' && !odd then "'" else "") + Escaped(from[k + 1..], c == '\\' && !odd) == all
  {
    assert from[k..][1..] == from[k + 1..];
    var c := from[k];
    var q := if c == '\'' && !odd then "'" else "";
    assert done + ([c] + q + Escaped(from[k + 1..], c == '\\' && !odd)) == done + [c] + q + Escaped(from[k + 1..], c == '\\' && !odd);
  }

  /** `field_escape` of the dump program appends the value in quotes to a string. */
  method DumpFieldEscape(dest: string, from: string) returns (to: string)
    ensures to == dest + "'" + Escaped(from, false) + "'"
  {
    to := dest + "'";
    var odd := false;
    ghost var all := to + Escaped(from, false);
    assert from[0..] == from;
    hide Escaped;
    for k := 0 to |from|
      invariant to + Escaped(from[k..], odd) == all
    {
      EscapedStep(to, from, k, odd, all);
      to := to + [from[k]];
      if from[k] == '\\' {
        odd := !odd;
      } else {
        if from[k] == '\'' && !odd {
          to := to + "'";
        }
        odd := false;
      }
    }
    assert from[|from|..] == "";
    EscapedHead("", odd);
    if odd {
      to := to + "\\";
    }
    to := to + "'";
  }

  /** `field_escape` of the import program writes the same body through a pointer, into at most two
      bytes per character. */
  method ImportFieldEscape(to: array<char>, at: nat, from: string) returns (end: nat)
    requires at + 2 * |from| <= to.Length
    modifies to
    ensures at <= end <= at + 2 * |from| && to[at..end] == Escaped(from, false)
    ensures forall i :: 0 <= i < to.Length && !(at <= i < end) ==> to[i] == old(to[i])
  {
    end := at;
    var odd := false;
    ghost var all := Escaped(from, false);
    assert from[0..] == from && "" + all == all;
    hide Escaped;
    for k := 0 to |from|
      invariant at <= end && end + (if odd then 1 else 0) <= at + 2 * k
      invariant to[at..end] + Escaped(from[k..], odd) == all
      invariant forall i :: 0 <= i < to.Length && !(at <= i < end) ==> to[i] == old(to[i])
    {
      ghost var done := to[at..end];
      EscapedStep(done, from, k, odd, all);
      end, odd := WriteEscaped(to, at, end, from[k], odd);
    }
    assert from[|from|..] == "";
    EscapedHead("", odd);
    if odd {
      end := Write(to, at, end, '\\');
    }
  }

  method WriteEscaped(to: array<char>, ghost at: nat, pos: nat, c: char, odd: bool) returns (next: nat, odd': bool)
    requires at <= pos && pos + (if odd then 0 else 1) < to.Length
    modifies to
    ensures odd' == (c == '\\' && !odd) && pos < next && next + (if odd' then 1 else 0) <= pos + 2 - (if odd then 1 else 0)
    ensures next <= to.Length && to[at..next] == old(to[at..pos]) + [c] + (if c == '\'' && !odd then "'" else "")
    ensures forall i :: 0 <= i < to.Length && !(pos <= i < next) ==> to[i] == old(to[i])
  {
    next := Write(to, at, pos, c);
    odd' := odd;
    if c == '\\' {
      odd' := !odd;
    } else {
      if c == '\'' && !odd {
        next := Write(to, at, next, '\'');
      }
      odd' := false;
    }
  }

  method Write(to: array<char>, ghost at: nat, pos: nat, c: char) returns (next: nat)
    requires at <= pos < to.Length
    modifies to
    ensures next == pos + 1 <= to.Length && to[at..next] == old(to[at..pos]) + [c]
    ensures forall i :: 0 <= i < to.Length && i != pos ==> to[i] == old(to[i])
  {
    to[pos] := c;
    next := pos + 1;
  }

  /** Between quotes the escaped value is one literal that closes at the last quote and means what the
      user intended. */
  lemma {:induction false} EscapedIsOneLiteral(from: string, rest: string)
    requires rest == "" || rest[0] != '\''
    ensures Lex(Escaped(from, false) + "'" + rest) == Closed(Intended(from), rest)
    decreases |from|
  {
    hide Lex, Escaped;
    EscapedCases(from);
    if from == "" {
      assert Escaped(from, false) + "'" + rest == "'" + rest;
      LexEnd(rest);
    } else if from[0] == '\\' && |from| == 1 {
      assert Escaped(from, false) + "'" + rest == ['\\', '\\'] + ("'" + rest);
      LexEsc('\\', "'" + rest);
      LexEnd(rest);
    } else if from[0] == '\\' {
      var tail := Escaped(from[2..], false) + "'" + rest;
      assert Escaped(from, false) + "'" + rest == ['\\', from[1]] + tail;
      LexEsc(from[1], tail);
      EscapedIsOneLiteral(from[2..], rest);
    } else {
      var tail := Escaped(from[1..], false) + "'" + rest;
      EscapedIsOneLiteral(from[1..], rest);
      if from[0] == '\'' {
        assert Escaped(from, false) + "'" + rest == "''" + tail;
        LexQuote(tail);
      } else {
        assert Escaped(from, false) + "'" + rest == [from[0]] + tail;
        LexPlain(from[0], tail);
      }
    }
  }

  /** The escaped value, two characters at a time after a backslash. */
  lemma EscapedCases(from: string)
    ensures Escaped(from, false) ==
            if from == "" then ""
            else if from == "\\" then "\\\\"
            else if from[0] == '\\' then ['\\', from[1]] + Escaped(from[2..], false)
            else if from[0] == '\'' then "''" + Escaped(from[1..], false)
            else [from[0]] + Escaped(from[1..], false)
  {
    if from != "" && from[0] == '\\' {
      EscapedHead(from, false);
      if |from| == 1 {
        EscapedHead(from[1..], true);
      } else {
        EscapedHead(from[1..], true);
        assert from[1..][1..] == from[2..];
      }
    } else {
      EscapedHead(from, false);
    }
  }

  lemma EscapedHead(from: string, odd: bool)
    ensures Escaped(from, odd) ==
            if from == "" then if odd then "\\" else ""
            else if from[0] == '\'' && !odd then "''" + Escaped(from[1..], false)
            else [from[0]] + Escaped(from[1..], from[0] == '\\' && !odd)
  {
    if from != "" {
      assert ['\''] + "'" == "''";
      assert [from[0]] + "" == [from[0]];
    }
  }

  lemma {:induction false} EscapedLength(from: string, odd: bool)
    ensures |from| <= |Escaped(from, odd)| <= 2 * |from| + (if odd then 1 else 0)
  {
    if from != "" {
      EscapedLength(from[1..], from[0] == '\\' && !odd);
    }
  }

  // ----- quote_name

  /** The rest of a quoted name after its opening quote character; `None` if it does not close. */
  datatype Name = None | Name(name: string, rest: string)

  function LexName(q: char, s: string): Name {
    if s == "" then None
    else if s[0] == q && !(|s| > 1 && s[1] == q) then Name("", s[1..])
    else
      var n := LexName(q, if s[0] == q then s[2..] else s[1..]);
      if n.Name? then Name([s[0]] + n.name, n.rest) else n
  }

  function Doubled(q: char, name: string): string {
    if name == "" then "" else (if name[0] == q then [q] else "") + [name[0]] + Doubled(q, name[1..])
  }

  /** `quote_name`: a name that needs no quotes is left alone. */
  method QuoteName(name: string, q: char, needed: bool) returns (to: string)
    ensures to == if needed then [q] + Doubled(q, name) + [q] else name
  {
    if !needed {
      return name;
    }
    to := [q];
    assert name[0..] == name;
    for k := 0 to |name|
      invariant to + Doubled(q, name[k..]) == [q] + Doubled(q, name)
    {
      assert name[k..][1..] == name[k + 1..];
      var d := if name[k] == q then [q] else "";
      assert to + (d + [name[k]] + Doubled(q, name[k + 1..])) == to + d + [name[k]] + Doubled(q, name[k + 1..]);
      if name[k] == q {
        to := to + [q];
      }
      to := to + [name[k]];
      assert d == "" ==> to + Doubled(q, name[k + 1..]) == [q] + Doubled(q, name);
    }
    assert name[|name|..] == "";
    assert to + "" == to;
    to := to + [q];
  }

  /** The server reads the quoted name back, whatever the name. */
  lemma {:induction false} QuotedNameReads(q: char, name: string, rest: string)
    requires rest == "" || rest[0] != q
    ensures LexName(q, Doubled(q, name) + [q] + rest) == Name(name, rest)
    decreases |name|
  {
    hide LexName, Doubled;
    DoubledHead(q, name);
    if name == "" {
      assert Doubled(q, name) + [q] + rest == [q] + rest;
      LexNameEnd(q, rest);
    } else {
      var tail := Doubled(q, name[1..]) + [q] + rest;
      QuotedNameReads(q, name[1..], rest);
      assert Doubled(q, name) + [q] + rest == (if name[0] == q then [q, q] else [name[0]]) + tail;
      LexNameHead(q, name[0], tail);
      assert [name[0]] + name[1..] == name;
    }
  }

  lemma DoubledHead(q: char, name: string)
    ensures Doubled(q, name) == if name == "" then "" else (if name[0] == q then [q, q] else [name[0]]) + Doubled(q, name[1..])
  {
  }

  lemma LexNameEnd(q: char, rest: string)
    requires rest == "" || rest[0] != q
    ensures LexName(q, [q] + rest) == Name("", rest)
  {
    assert ([q] + rest)[1..] == rest;
  }

  lemma LexNameHead(q: char, c: char, tail: string)
    requires LexName(q, tail).Name?
    ensures LexName(q, (if c == q then [q, q] else [c]) + tail) == Name([c] + LexName(q, tail).name, LexName(q, tail).rest)
  {
    if c == q {
      assert ([q, q] + tail)[2..] == tail;
    } else {
      assert ([c] + tail)[1..] == tail;
    }
  }

  // ----- quote_for_like

  predicate LikeSpecial(c: char) { c == '\'' || c == '_' || c == '%' }

  /** What is written for one character of the name. */
  function LikeText(c: char): string {
    if c == '\\' then "\\\\\\\\" else if LikeSpecial(c) then ['\\', c] else [c]
  }

  function LikeQuoted(name: string): string {
    if name == "" then "" else LikeText(name[0]) + LikeQuoted(name[1..])
  }

  method QuoteForLike(name: string) returns (to: string)
    ensures to == "'" + LikeQuoted(name) + "'"
  {
    hide LikeQuoted;
    to := "'";
    assert name[0..] == name;
    for k := 0 to |name|
      invariant to + LikeQuoted(name[k..]) == "'" + LikeQuoted(name)
    {
      LikeHead(name[k..]);
      ghost var before, rest := to, LikeQuoted(name[k + 1..]);
      assert name[k..][1..] == name[k + 1..];
      if name[k] == '\\' {
        to := to + "\\\\\\";
      } else if LikeSpecial(name[k]) {
        to := to + "\\";
      }
      to := to + [name[k]];
      assert to == before + LikeText(name[k]);
      assert before + (LikeText(name[k]) + rest) == before + LikeText(name[k]) + rest;
    }
    assert name[|name|..] == "";
    LikeHead("");
    assert to + "" == to;
    to := to + "'";
  }

  /** The value of a literal that is used as a pattern: a backslash before `_` or `%` stays. */
  function Value(toks: seq<Tok>): string {
    if toks == [] then ""
    else
      var t := toks[0];
      (if t.Esc? && (t.c == '_' || t.c == '%') then ['\\', t.c] else [t.c]) + Value(toks[1..])
  }

  /** A LIKE pattern: a literal character, any one character, or any string. */
  datatype Pat = Lit(c: char) | One | Many

  function Pattern(s: string): seq<Pat> {
    if s == "" then []
    else if s[0] == '\\' && |s| > 1 then [Lit(s[1])] + Pattern(s[2..])
    else [if s[0] == '_' then One else if s[0] == '%' then Many else Lit(s[0])] + Pattern(s[1..])
  }

  predicate Matches(p: seq<Pat>, s: string)
    decreases |p| + |s|
  {
    if p == [] then s == ""
    else
      match p[0]
      case Lit(c) => s != "" && s[0] == c && Matches(p[1..], s[1..])
      case One => s != "" && Matches(p[1..], s[1..])
      case Many => Matches(p[1..], s) || (s != "" && Matches(p, s[1..]))
  }

  function Literally(name: string): seq<Pat> { if name == "" then [] else [Lit(name[0])] + Literally(name[1..]) }

  /** The tokens the server reads for one character of the name. */
  function LikeToks(c: char): seq<Tok> {
    if c == '\\' then [Esc('\\'), Esc('\\')] else if LikeSpecial(c) then [Esc(c)] else [Plain(c)]
  }

  function AllLikeToks(name: string): seq<Tok> { if name == "" then [] else LikeToks(name[0]) + AllLikeToks(name[1..]) }

  lemma LikeHead(name: string)
    ensures LikeQuoted(name) == if name == "" then "" else LikeText(name[0]) + LikeQuoted(name[1..])
  {
  }

  lemma {:induction false} LikeQuotedLexes(name: string, rest: string)
    requires rest == "" || rest[0] != '\''
    ensures Lex(LikeQuoted(name) + "'" + rest) == Closed(AllLikeToks(name), rest)
    decreases |name|
  {
    hide Lex, LikeQuoted;
    LikeHead(name);
    if name == "" {
      assert LikeQuoted(name) + "'" + rest == "'" + rest;
      LexEnd(rest);
    } else {
      var c, tail := name[0], LikeQuoted(name[1..]) + "'" + rest;
      LikeQuotedLexes(name[1..], rest);
      if c == '\\' {
        assert LikeQuoted(name) + "'" + rest == ['\\', '\\'] + (['\\', '\\'] + tail);
        LexEsc('\\', ['\\', '\\'] + tail);
        LexEsc('\\', tail);
      } else if LikeSpecial(c) {
        assert LikeQuoted(name) + "'" + rest == ['\\', c] + tail;
        LexEsc(c, tail);
      } else {
        assert LikeQuoted(name) + "'" + rest == [c] + tail;
        LexPlain(c, tail);
      }
    }
  }

  lemma {:induction false} LikeValueIsLiteral(name: string)
    ensures Pattern(Value(AllLikeToks(name))) == Literally(name)
  {
    hide Value, Pattern;
    if name == "" {
      ValueOne(Plain('a'), []);
      PatternOne('a', "");
    } else {
      var c, rest := name[0], AllLikeToks(name[1..]);
      LikeValueIsLiteral(name[1..]);
      ValueOne(LikeToks(c)[0], LikeToks(c)[1..] + rest);
      assert LikeToks(c) + rest == [LikeToks(c)[0]] + (LikeToks(c)[1..] + rest);
      PatternOne(c, Value(rest));
      if c == '\\' {
        ValueOne(Esc('\\'), rest);
        assert ['\\'] + (['\\'] + Value(rest)) == ['\\', '\\'] + Value(rest);
      } else {
        assert [] + rest == rest;
      }
    }
  }

  lemma ValueOne(t: Tok, rest: seq<Tok>)
    ensures Value([t] + rest) == (if t.Esc? && (t.c == '_' || t.c == '%') then ['\\', t.c] else [t.c]) + Value(rest)
    ensures Value([]) == ""
  {
    assert ([t] + rest)[1..] == rest;
  }

  lemma PatternOne(c: char, rest: string)
    ensures Pattern(['\\', c] + rest) == [Lit(c)] + Pattern(rest)
    ensures c != '\\' && c != '_' && c != '%' ==> Pattern([c] + rest) == [Lit(c)] + Pattern(rest)
    ensures Pattern("") == []
  {
    assert (['\\', c] + rest)[2..] == rest;
    assert ([c] + rest)[1..] == rest;
  }

  lemma {:induction false} LiterallyMatches(name: string, s: string)
    ensures Matches(Literally(name), s) <==> s == name
  {
    if name == "" {
    } else {
      assert Literally(name)[1..] == Literally(name[1..]);
      if s != "" {
        LiterallyMatches(name[1..], s[1..]);
        assert s == [s[0]] + s[1..] && name == [name[0]] + name[1..];
      }
    }
  }

  /** Read as a literal and then as a pattern, the quoted name matches the name and nothing else. */
  lemma LikeMatchesTheName(name: string, rest: string, s: string)
    requires rest == "" || rest[0] != '\''
    ensures var l := Lex(LikeQuoted(name) + "'" + rest);
            l.Closed? && l.rest == rest && (Matches(Pattern(Value(l.toks)), s) <==> s == name)
  {
    LikeQuotedLexes(name, rest);
    LikeValueIsLiteral(name);
    LiterallyMatches(name, s);
  }
}
