/** The plain scanner in terms of the text alone: what it keeps, and where it cuts. */
module CutRules {
  import opened AddLine
  import opened StatementCut

  // ----- nothing is lost

  function EndedAll(pieces: seq<string>, delim: Delim): string {
    if pieces == [] then "" else EndedAll(pieces[..|pieces| - 1], delim) + pieces[|pieces| - 1] + delim
  }

  /** The finished pieces, each with a delimiter, and the piece so far. */
  function Rejoined(p: Pure): string { EndedAll(p.done, p.delim) + p.cur }

  /** No line ends in a backslash. */
  predicate NoneDropped(t: string) { forall i :: 0 <= i < |t| && t[i] == '\\' ==> i + 1 < |t| && t[i + 1] != '\n' }

  lemma TakeKeepsText(p: Pure, ctx: Ctx, t: string)
    requires t != "" && NoneDropped(t)
    ensures var (q, n) := Take(p, ctx, t); Rejoined(q) == Rejoined(p) + t[..n] && NoneDropped(t[n..])
  {
    var (q, n) := Take(p, ctx, t);
    var front := EndedAll(p.done, p.delim);
    assert forall i :: 0 <= i < |t[n..]| ==> t[n..][i] == t[n + i];
    if Escaping(p.quote, ctx, t) {
      assert t[0] == '\\';
      assert front + (p.cur + t[..2]) == front + p.cur + t[..2];
    } else if p.quote == NONE && p.delim <= t {
      assert (p.done + [p.cur])[..|p.done|] == p.done;
      assert EndedAll(p.done + [p.cur], p.delim) + "" == front + p.cur + p.delim;
      assert t[..|p.delim|] == p.delim;
    } else {
      assert t[..1] == [t[0]];
      assert front + (p.cur + [t[0]]) == front + p.cur + [t[0]];
    }
  }

  /** The pieces, each with its delimiter, and what is left are the text, unchanged and in order. */
  lemma {:induction false} TextKept(p: Pure, ctx: Ctx, t: string)
    requires NoneDropped(t)
    ensures Rejoined(CutAll(p, ctx, t)) == Rejoined(p) + t
    decreases |t|
  {
    hide Take, Rejoined, NoneDropped;
    if t == "" {
      assert Rejoined(p) + t == Rejoined(p);
    } else {
      TakeKeepsText(p, ctx, t);
      var (q, n) := Take(p, ctx, t);
      TextKept(q, ctx, t[n..]);
      assert Rejoined(p) + t[..n] + t[n..] == Rejoined(p) + (t[..n] + t[n..]) && t[..n] + t[n..] == t;
    }
  }

  // ----- where it cuts

  /** Text without quotes and backslashes. */
  predicate Bare(t: string) { forall i :: 0 <= i < |t| ==> !IsQuote(t[i]) && t[i] != '\\' && t[i] != NONE }

  /** The delimiter does not start at one of the first `n` positions. */
  predicate NoneStarts(delim: Delim, t: string, n: nat)
    requires n <= |t|
  {
    forall k :: 0 <= k < n ==> !(delim <= t[k..])
  }

  /** Outside strings, text in which no delimiter starts is kept. */
  lemma {:induction false} BareKept(p: Pure, ctx: Ctx, x: string, rest: string)
    requires p.quote == NONE && Bare(x) && NoneStarts(p.delim, x + rest, |x|)
    ensures CutAll(p, ctx, x + rest) == CutAll(p.(cur := p.cur + x), ctx, rest)
    decreases |x|
  {
    if x == "" {
      assert x + rest == rest && p.cur + x == p.cur;
    } else {
      var t := x + rest;
      assert t[0..] == t && t[1..] == x[1..] + rest;
      forall k | 0 <= k < |x[1..]|
        ensures !(p.delim <= (x[1..] + rest)[k..])
      {
        assert (x[1..] + rest)[k..] == t[k + 1..];
      }
      var q := p.(cur := p.cur + [x[0]]);
      assert Take(p, ctx, t) == (q, 1);
      hide Take;
      BareKept(q, ctx, x[1..], rest);
      assert p.cur + [x[0]] + x[1..] == p.cur + x;
    }
  }

  /** The first delimiter outside strings ends the piece, and is not part of it. */
  lemma CutAtDelimiter(p: Pure, ctx: Ctx, x: string, rest: string)
    requires p.quote == NONE && Bare(x) && NoneStarts(p.delim, x + (p.delim + rest), |x|) && p.delim[0] != '\\'
    ensures CutAll(p, ctx, x + (p.delim + rest)) == CutAll(p.(cur := "", done := p.done + [p.cur + x]), ctx, rest)
  {
    BareKept(p, ctx, x, p.delim + rest);
    var q, t := p.(cur := p.cur + x), p.delim + rest;
    hide NoneStarts, Bare;
    assert t[0] == p.delim[0] && t[|p.delim|..] == rest && p.delim <= t;
    assert Take(q, ctx, t) == (q.(cur := "", done := q.done + [q.cur]), |q.delim|);
  }

  /** Within a string, text without its quote and without backslashes is kept, delimiters included. */
  lemma {:induction false} StringKept(p: Pure, ctx: Ctx, x: string, rest: string)
    requires p.quote != NONE && forall i :: 0 <= i < |x| ==> x[i] != p.quote && x[i] != '\\'
    ensures CutAll(p, ctx, x + rest) == CutAll(p.(cur := p.cur + x), ctx, rest)
    decreases |x|
  {
    if x == "" {
      assert x + rest == rest && p.cur + x == p.cur;
    } else {
      var t := x + rest;
      assert t[1..] == x[1..] + rest;
      var q := p.(cur := p.cur + [x[0]]);
      assert Take(p, ctx, t) == (q, 1);
      hide Take;
      StringKept(q, ctx, x[1..], rest);
      assert p.cur + [x[0]] + x[1..] == p.cur + x;
    }
  }

  /** A string in any of the three quotes, unless a delimiter starts at its opening quote. */
  lemma QuotedKept(p: Pure, ctx: Ctx, quote: char, x: string, rest: string)
    requires p.quote == NONE && (quote == '\'' || quote == '"' || quote == '`')
    requires !(p.delim <= [quote] + (x + ([quote] + rest))) && forall i :: 0 <= i < |x| ==> x[i] != quote && x[i] != '\\'
    ensures CutAll(p, ctx, [quote] + (x + ([quote] + rest))) == CutAll(p.(cur := p.cur + [quote] + x + [quote]), ctx, rest)
  {
    var inner := x + ([quote] + rest);
    var t, q := [quote] + inner, p.(cur := p.cur + [quote], quote := quote);
    assert t[1..] == inner && ([quote] + rest)[1..] == rest;
    assert Take(p, ctx, t) == (q, 1);
    StringKept(q, ctx, x, [quote] + rest);
    var r := q.(cur := q.cur + x);
    assert Take(r, ctx, [quote] + rest) == (r.(cur := r.cur + [quote], quote := NONE), 1);
    hide Take;
  }

  /** A backslash and the character after it are kept together, and the character has no effect. */
  lemma PairKept(p: Pure, ctx: Ctx, c: char, rest: string)
    requires c != '\n' && !(p.quote != NONE && ctx.noEscapes)
    ensures CutAll(p, ctx, ['\\', c] + rest) == CutAll(p.(cur := p.cur + ['\\', c]), ctx, rest)
  {
    var t := ['\\', c] + rest;
    assert t[2..] == rest && t[..2] == ['\\', c];
    assert Take(p, ctx, t) == (p.(cur := p.cur + ['\\', c]), 2);
    hide Take;
  }
}
