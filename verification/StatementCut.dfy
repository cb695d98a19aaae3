/** What `add_line` promises over a whole script: the statements it hands over are the pieces that a
    plain scanner cuts from the text at the delimiters outside quotes, leading space removed. */
module StatementCut {
  import opened AddLine

  /** The plain scanner: the piece so far, the open quote, the finished pieces, the delimiter. */
  datatype Pure = Pure(cur: string, quote: char, done: seq<string>, delim: Delim)

  function Toggle(quote: char, c: char): char {
    if c == quote then NONE else if quote == NONE && IsQuote(c) then c else quote
  }

  /** A backslash that is not taken literally. */
  predicate Escaping(quote: char, ctx: Ctx, t: string) { CharAt(t, 0) == '\\' && !(quote != NONE && ctx.noEscapes) }

  /** An escaped character stays with its backslash and neither opens nor closes a string; a backslash
      at the end of a line is dropped. */
  function Take(p: Pure, ctx: Ctx, t: string): (res: (Pure, nat))
    requires t != ""
    ensures 1 <= res.1 <= |t| && res.0.delim == p.delim
  {
    if Escaping(p.quote, ctx, t) then
      if |t| == 1 || t[1] == '\n' then (p, 1) else (p.(cur := p.cur + t[..2]), 2)
    else if p.quote == NONE && p.delim <= t then (p.(cur := "", done := p.done + [p.cur]), |p.delim|)
    else (p.(cur := p.cur + [t[0]], quote := Toggle(p.quote, t[0])), 1)
  }

  function CutAll(p: Pure, ctx: Ctx, t: string): Pure
    decreases |t|
  {
    if t == "" then p
    else
      var (q, n) := Take(p, ctx, t);
      CutAll(q, ctx, t[n..])
  }

  function TrimLeft(s: string): string {
    if s != "" && IsSpace(s[0]) then TrimLeft(s[1..]) else s
  }

  function TrimAll(ps: seq<string>): seq<string> { seq(|ps|, i requires 0 <= i < |ps| => TrimLeft(ps[i])) }

  /** A delimiter as the DELIMITER command accepts it. */
  predicate GoodDelim(delim: Delim) { !IsSpace(delim[0]) && '\n' !in delim }

  /** The statement neither changes the delimiter nor ends the client. */
  predicate Steady(ctx: Ctx, statement: string, delim: Delim) {
    ctx.submit(statement, delim).delim == delim && !ctx.submit(statement, delim).quit
  }

  /** At this position there is no command and no comment opener outside quotes, other than that of a
      version comment, the line does not end within, and a statement that ends here is steady. */
  predicate QuietHere(p: Pure, ctx: Ctx, r: string) {
    if Escaping(p.quote, ctx, r) then
      CharAt(r, 1) != '\n' && (p.quote == NONE && |r| > 1 ==> r[1] == 'N' || (r[1] !in ctx.commands && !ctx.fatal))
    else
      p.quote == NONE ==> if p.delim <= r then Steady(ctx, TrimLeft(p.cur), p.delim) else !StartsLineComment(r) && !(At(r, '/', '*') && CharAt(r, 2) != '!')
  }

  predicate Quiet(p: Pure, ctx: Ctx, r: string)
    decreases |r|
  {
    r == "" || (QuietHere(p, ctx, r) && var (q, n) := Take(p, ctx, r); Quiet(q, ctx, r[n..]))
  }

  /** The word that starts a DELIMITER command does not occur. */
  predicate NoDelimiterWord(line: string) { forall i :: 0 <= i <= |line| ==> !StartsWithDelimiterWord(line[i..]) }

  predicate Sim(st: St, p: Pure) {
    st.buf + st.pend == TrimLeft(p.cur) && st.quote == p.quote && !st.ml && !st.need &&
    st.sent == TrimAll(p.done) && (p.quote == NONE || IsQuote(p.quote)) &&
    st.delim == p.delim && GoodDelim(p.delim) && !st.quit
  }

  lemma {:induction false} TrimSnoc(s: string, c: char)
    ensures TrimLeft(s + [c]) == if TrimLeft(s) == "" && IsSpace(c) then "" else TrimLeft(s) + [c]
  {
    if s != "" && IsSpace(s[0]) {
      assert (s + [c])[1..] == s[1..] + [c];
      TrimSnoc(s[1..], c);
    } else if s == "" {
      assert s + [c] == [c] && [c][1..] == "";
    } else {
      assert (s + [c])[0] == s[0];
    }
  }

  lemma TrimAllSnoc(ps: seq<string>, p: string)
    ensures TrimAll(ps + [p]) == TrimAll(ps) + [TrimLeft(p)]
  {
  }

  /** In quiet text there are only four things to do. */
  lemma QuietMove(st: St, p: Pure, ctx: Ctx, r: string)
    requires r != "" && Sim(st, p) && QuietHere(p, ctx, r)
    ensures Classify(st, ctx, r) ==
            (if IsSpace(r[0]) && st.pend == "" && st.buf == "" then Skip
             else if Escaping(p.quote, ctx, r) then Escape
             else if p.quote == NONE && p.delim <= r then EndStatement else Keep)
  {
  }

  lemma TrimPair(s: string, c: char)
    ensures TrimLeft(s + ['\\', c]) == TrimLeft(s) + ['\\', c]
  {
    TrimSnoc(s, '\\');
    TrimSnoc(s + ['\\'], c);
    assert s + ['\\'] + [c] == s + ['\\', c];
    assert TrimLeft(s) + ['\\'] + [c] == TrimLeft(s) + ['\\', c];
  }

  lemma EscapeSim(st: St, p: Pure, r: string)
    requires |r| >= 2 && r[0] == '\\' && Sim(st, p)
    ensures Sim(st.(pend := st.pend + r[..2]), p.(cur := p.cur + r[..2]))
  {
    hide TrimLeft, TrimAll;
    TrimPair(p.cur, r[1]);
    assert r[..2] == ['\\', r[1]];
    assert st.buf + (st.pend + r[..2]) == st.buf + st.pend + r[..2];
  }

  lemma KeepSim(st: St, p: Pure, r: string)
    requires r != "" && Sim(st, p) && !(IsSpace(r[0]) && st.pend == "" && st.buf == "")
    ensures Plain(st, r).pend == st.pend + r[..1]
    ensures Sim(Plain(st, r), p.(cur := p.cur + [r[0]], quote := Toggle(p.quote, r[0])))
  {
    hide TrimLeft, TrimAll, CharAt, At;
    TrimSnoc(p.cur, r[0]);
    assert r[..1] == [r[0]];
    assert st.pend + "" + [r[0]] == st.pend + [r[0]];
    assert st.buf + (st.pend + [r[0]]) == st.buf + st.pend + [r[0]];
    assert st.buf + st.pend == "" ==> st.buf == "" && st.pend == "";
  }

  lemma SkipSim(st: St, p: Pure, c: char)
    requires Sim(st, p) && IsSpace(c) && st.pend == "" && st.buf == ""
    ensures Sim(st, p.(cur := p.cur + [c], quote := Toggle(p.quote, c)))
  {
    TrimSnoc(p.cur, c);
  }

  /** What a step leaves of the line's text: nothing, all of it, or, at a last backslash, all but it. */
  predicate Carries(pend: string, next: string, r: string, n: nat)
    requires n <= |r|
  {
    next == "" || next == pend + r[..n] || (next == pend && n == |r|)
  }

  lemma StepSim(st: St, p: Pure, ctx: Ctx, r: string)
    requires r != "" && Sim(st, p) && QuietHere(p, ctx, r)
    ensures var (s, n) := Step(st, ctx, r);
            var (q, k) := Take(p, ctx, r);
            n == k && Sim(s, q) && Carries(st.pend, s.pend, r, n)
  {
    QuietMove(st, p, ctx, r);
    assert !Escaping(p.quote, ctx, r) || r[0] == '\\';
    assert |r| > 1 ==> CharAt(r, 1) == r[1];
    hide Classify, Plain, CharAt;
    if IsSpace(r[0]) && st.pend == "" && st.buf == "" {
      SkipSim(st, p, r[0]);
    } else if Escaping(p.quote, ctx, r) {
      if |r| > 1 {
        EscapeSim(st, p, r);
      }
    } else if p.quote == NONE && p.delim <= r {
      TrimAllSnoc(p.done, p.cur);
      assert TrimLeft("") == "";
    } else {
      KeepSim(st, p, r);
    }
  }

  /** The first text lies within the second. */
  ghost predicate Within(a: string, b: string) { exists i: nat :: WithinAt(a, b, i) }

  predicate WithinAt(a: string, b: string, i: nat) { i <= |b| && a <= b[i..] }

  lemma WithinMore(x: string, pend: string, next: string, r: string, n: nat)
    requires n <= |r| && Carries(pend, next, r, n) && Within(x, next + r[n..])
    ensures Within(x, pend + r)
  {
    var i: nat :| WithinAt(x, next + r[n..], i);
    var all := pend + r;
    if next == "" {
      assert next + r[n..] == r[n..] && r[n..][i..] == all[|pend| + n + i..];
      assert WithinAt(x, all, |pend| + n + i);
    } else if next == pend + r[..n] {
      assert next + r[n..] == all;
    } else {
      assert r[n..] == "" && next + r[n..] == pend;
      assert all[i..] == pend[i..] + r;
      assert WithinAt(x, all, i);
    }
  }

  /** Reading a line keeps the two scanners together; what the line adds lies within it. */
  lemma {:induction false} ScanSim(st: St, p: Pure, ctx: Ctx, r: string)
    requires Sim(st, p) && Quiet(p, ctx, r)
    ensures Sim(Scan(st, ctx, r), CutAll(p, ctx, r))
    ensures Within(Scan(st, ctx, r).pend, st.pend + r)
    decreases |r|
  {
    hide Sim, QuietHere, Step, Take, Within;
    if r == "" {
      Whole(st.pend, r);
    } else {
      StepSim(st, p, ctx, r);
      var (s, n) := Step(st, ctx, r);
      ScanSim(s, Take(p, ctx, r).0, ctx, r[n..]);
      WithinMore(Scan(st, ctx, r).pend, st.pend, s.pend, r, n);
    }
  }

  lemma Whole(a: string, r: string)
    requires r == ""
    ensures Within(a, a + r)
  {
    assert WithinAt(a, a + r, 0);
  }

  lemma PrefixOfFirst(delim: string, t: string, more: string)
    requires '\n' !in delim && t != ""
    ensures delim <= t + "\n" + more <==> delim <= t
  {
    var whole := t + "\n" + more;
    assert whole[|t|] == '\n' && whole[..|t|] == t;
    if |delim| <= |t| {
      assert whole[..|delim|] == t[..|delim|];
    } else {
      assert delim[|t|] != '\n';
    }
  }

  lemma TakeAlike(p: Pure, ctx: Ctx, t: string, more: string)
    requires GoodDelim(p.delim) && t != ""
    ensures Take(p, ctx, t + "\n" + more) == Take(p, ctx, t)
  {
    PrefixOfFirst(p.delim, t, more);
    var whole := t + "\n" + more;
    assert whole[0] == t[0] && (if |t| > 1 then whole[1] == t[1] && whole[..2] == t[..2] else whole[1] == '\n');
  }

  /** No delimiter reaches over a newline, so a text may be cut line by line. */
  lemma {:induction false} CutInTwo(p: Pure, ctx: Ctx, t: string, more: string)
    requires GoodDelim(p.delim)
    ensures CutAll(p, ctx, t + "\n" + more) == CutAll(CutAll(p, ctx, t + "\n"), ctx, more)
    decreases |t|
  {
    hide Take;
    var whole, line := t + "\n" + more, t + "\n";
    if t == "" {
      assert whole == "\n" + more && line == "\n" && whole[1..] == more && line[1..] == "";
      NewlineAlike(p, ctx, more);
    } else {
      TakeAlike(p, ctx, t, more);
      TakeAlike(p, ctx, t, "");
      assert t + "\n" + "" == line;
      var n := Take(p, ctx, t).1;
      assert whole[n..] == t[n..] + "\n" + more;
      assert line[n..] == t[n..] + "\n";
      CutInTwo(Take(p, ctx, t).0, ctx, t[n..], more);
    }
  }

  lemma NewlineAlike(p: Pure, ctx: Ctx, more: string)
    requires GoodDelim(p.delim)
    ensures Take(p, ctx, "\n" + more) == Take(p, ctx, "\n") && Take(p, ctx, "\n").1 == 1
  {
    assert ("\n" + more)[0] == '\n' && p.delim[0] != '\n';
  }

  lemma {:induction false} CutLineEnd(p: Pure, ctx: Ctx, t: string)
    requires GoodDelim(p.delim)
    ensures CutAll(p, ctx, t + "\n") == CutAll(CutAll(p, ctx, t), ctx, "\n")
    decreases |t|
  {
    hide Take;
    if t == "" {
      assert t + "\n" == "\n";
    } else {
      TakeAlike(p, ctx, t, "");
      assert t + "\n" + "" == t + "\n";
      var n := Take(p, ctx, t).1;
      assert (t + "\n")[n..] == t[n..] + "\n";
      CutLineEnd(Take(p, ctx, t).0, ctx, t[n..]);
    }
  }

  lemma FinishSim(st: St, p: Pure, ctx: Ctx)
    requires Sim(st, p) && !StartsWithDelimiterWord(st.pend)
    ensures var f := Finish(st, false);
            f.pend == "" && !f.ml && Sim(f.(need := false), CutAll(p, ctx, "\n"))
  {
    hide StartsWithDelimiterWord;
    TrimSnoc(p.cur, '\n');
    assert ("\n")[1..] == "" && ("\n")[0] == '\n';
    assert p.delim[0] != '\n';
    assert CutAll(p, ctx, "\n") == p.(cur := p.cur + "\n");
    assert st.buf + (st.pend + "\n") + "" == st.buf + st.pend + "\n";
    assert st.buf + st.pend == "" <==> st.buf == "" && st.pend == "";
  }

  // ----- whole scripts

  function Joined(lines: seq<string>): string {
    if lines == [] then "" else lines[0] + "\n" + Joined(lines[1..])
  }

  function RunLines(c: Carry, ctx: Ctx, lines: seq<string>): Carry
    decreases |lines|
  {
    if lines == [] then c else RunLines(LineSpec(c, ctx, lines[0], false), ctx, lines[1..])
  }

  /** Every line is free of commands and of comment openers outside quotes, and of the DELIMITER
      word. */
  predicate AllQuiet(p: Pure, ctx: Ctx, lines: seq<string>)
    decreases |lines|
  {
    lines == [] ||
    (Quiet(p, ctx, lines[0]) && NoDelimiterWord(lines[0]) &&
     AllQuiet(CutAll(p, ctx, lines[0] + "\n"), ctx, lines[1..]))
  }

  predicate Agrees(c: Carry, p: Pure) { Sim(c.Start(), p) }

  lemma WordWithin(x: string, line: string)
    requires Within(x, line) && NoDelimiterWord(line)
    ensures !StartsWithDelimiterWord(x)
  {
    var i: nat :| WithinAt(x, line, i);
    assert !StartsWithDelimiterWord(line[i..]);
    assert forall k :: 0 <= k < |x| ==> x[k] == line[i..][k];
  }

  lemma LineAgrees(c: Carry, p: Pure, ctx: Ctx, line: string)
    requires Agrees(c, p) && Quiet(p, ctx, line) && NoDelimiterWord(line)
    ensures Agrees(LineSpec(c, ctx, line, false), CutAll(p, ctx, line + "\n"))
  {
    hide Step, Take, Quiet, StartsWithDelimiterWord, NoDelimiterWord, TrimLeft, TrimAll, Within;
    var start := c.Start();
    ScanSim(start, p, ctx, line);
    assert "" + line == line;
    WordWithin(Scan(start, ctx, line).pend, line);
    FinishSim(Scan(start, ctx, line), CutAll(p, ctx, line), ctx);
    CutLineEnd(p, ctx, line);
  }

  /** The newline of a line joins the statement, unless the line was cut by the reader or what it adds
      starts with the DELIMITER word outside strings. */
  lemma LineEnds(c: Carry, p: Pure, ctx: Ctx, line: string, truncated: bool)
    requires Agrees(c, p) && Quiet(p, ctx, line)
    ensures var q := CutAll(p, ctx, line);
            var pend := Scan(c.Start(), ctx, line).pend;
            Agrees(LineSpec(c, ctx, line, truncated),
                   if truncated || (StartsWithDelimiterWord(pend) && q.quote == NONE) then q else q.(cur := q.cur + "\n"))
  {
    ScanSim(c.Start(), p, ctx, line);
    var st, q := Scan(c.Start(), ctx, line), CutAll(p, ctx, line);
    assert line == "" && c.buf == "" ==> st == c.Start();
    hide Quiet, StartsWithDelimiterWord, TrimAll, Scan, CutAll;
    TrimSnoc(q.cur, '\n');
    hide TrimLeft;
    assert st.buf + st.pend + "" == st.buf + st.pend;
    assert st.buf + (st.pend + "\n") + "" == st.buf + st.pend + "\n";
    assert st.buf + st.pend == "" <==> st.buf == "" && st.pend == "";
  }

  lemma {:induction false} RunAgrees(c: Carry, p: Pure, ctx: Ctx, lines: seq<string>)
    requires Agrees(c, p) && AllQuiet(p, ctx, lines)
    ensures Agrees(RunLines(c, ctx, lines), CutAll(p, ctx, Joined(lines)))
    decreases |lines|
  {
    assert GoodDelim(p.delim);
    hide Agrees, Quiet, NoDelimiterWord, LineSpec;
    if lines == [] {
    } else {
      LineAgrees(c, p, ctx, lines[0]);
      RunAgrees(LineSpec(c, ctx, lines[0], false), CutAll(p, ctx, lines[0] + "\n"), ctx, lines[1..]);
      CutInTwo(p, ctx, lines[0], Joined(lines[1..]));
    }
  }

  function Begun(delim: Delim): Pure { Pure("", NONE, [], delim) }

  /** From the start of a script: what was handed over, what is left in the buffer, and whether it
      is inside a string. */
  lemma StatementsAreThePieces(ctx: Ctx, delim: Delim, lines: seq<string>)
    requires GoodDelim(delim) && AllQuiet(Begun(delim), ctx, lines)
    ensures var c := RunLines(Fresh(delim), ctx, lines);
            var p := CutAll(Begun(delim), ctx, Joined(lines));
            c.sent == TrimAll(p.done) && c.buf == TrimLeft(p.cur) && c.quote == p.quote && !c.ml
  {
    assert TrimLeft("") == "" && TrimAll([]) == [];
    RunAgrees(Fresh(delim), Begun(delim), ctx, lines);
  }
}
