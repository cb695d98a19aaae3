/** What a comment leaves in the statement: one space if text follows it at once, nothing otherwise.
    Stated against the plain scanner, for comments on one line and over many. */
module CommentSpaces {
  import opened AddLine
  import opened StatementCut
  import opened LineComments

  /** The first `n` characters of the text are quiet and hold no comment, and the plain scanner comes
      to stand right behind them. */
  predicate QuietUpTo(p: Pure, ctx: Ctx, t: string, n: nat)
    requires n <= |t|
    decreases n
  {
    n == 0 ||
    (QuietHere(p, ctx, t) && (p.quote == NONE ==> !At(t, '/', '*')) &&
     var (q, k) := Take(p, ctx, t); k <= n && QuietUpTo(q, ctx, t[k..], n - k))
  }

  function CutUpTo(p: Pure, ctx: Ctx, t: string, n: nat): Pure
    requires n <= |t| && QuietUpTo(p, ctx, t, n)
    decreases n
  {
    if n == 0 then p
    else
      var (q, k) := Take(p, ctx, t);
      CutUpTo(q, ctx, t[k..], n - k)
  }

  lemma StepStaysOut(st: St, p: Pure, ctx: Ctx, r: string)
    requires r != "" && Sim(st, p) && !st.ss && QuietHere(p, ctx, r) && (p.quote == NONE ==> !At(r, '/', '*'))
    ensures !Step(st, ctx, r).0.ss
  {
    QuietMove(st, p, ctx, r);
    hide Classify, QuietHere, CharAt;
  }

  /** Both scanners read the quiet part together. */
  lemma {:induction false} ScanUpTo(st: St, p: Pure, ctx: Ctx, t: string, n: nat) returns (s: St)
    requires n <= |t| && Sim(st, p) && !st.ss && QuietUpTo(p, ctx, t, n)
    ensures Scan(st, ctx, t) == Scan(s, ctx, t[n..]) && Sim(s, CutUpTo(p, ctx, t, n)) && !s.ss
    decreases n
  {
    hide Sim, QuietHere, Step, Take;
    if n == 0 {
      s := st;
      assert t[0..] == t;
    } else {
      StepSim(st, p, ctx, t);
      StepStaysOut(st, p, ctx, t);
      var (s1, k) := Step(st, ctx, t);
      s := ScanUpTo(s1, Take(p, ctx, t).0, ctx, t[k..], n - k);
      assert t[k..][n - k..] == t[n..];
    }
  }

  lemma {:induction false} QuietOn(p: Pure, ctx: Ctx, t: string, n: nat)
    requires n <= |t| && QuietUpTo(p, ctx, t, n)
    ensures Quiet(CutUpTo(p, ctx, t, n), ctx, t[n..]) ==> Quiet(p, ctx, t)
    ensures CutAll(p, ctx, t) == CutAll(CutUpTo(p, ctx, t, n), ctx, t[n..])
    decreases n
  {
    hide QuietHere, Take;
    if n == 0 {
      assert t[0..] == t;
    } else {
      var (q, k) := Take(p, ctx, t);
      assert t[k..][n - k..] == t[n..];
      QuietOn(q, ctx, t[k..], n - k);
    }
  }

  /** The plain scanner after a comment that is followed by `b`. */
  function Spaced(p: Pure, b: string): Pure { if b != "" && IsSpace(b[0]) then p else p.(cur := p.cur + " ") }

  /** A character of a statement comes next. */
  predicate TextNext(p: Pure, ctx: Ctx, b: string) {
    b != "" && !Escaping(p.quote, ctx, b) && !(p.delim <= b)
  }

  lemma NeedKept(st: St, p: Pure, r: string)
    requires st.need && Sim(st.(need := false), p) && TrimLeft(p.cur) != "" && r != ""
    ensures Sim(Plain(st, r), Spaced(p, r).(cur := Spaced(p, r).cur + [r[0]], quote := Toggle(p.quote, r[0])))
  {
    hide TrimLeft, TrimAll, CharAt, At, GoodDelim;
    var c := r[0];
    TrimSnoc(p.cur, ' ');
    TrimSnoc(p.cur, c);
    TrimSnoc(p.cur + " ", c);
    assert st.buf + (st.pend + "" + [c]) == st.buf + st.pend + [c];
    assert st.buf + (st.pend + " " + [c]) == st.buf + st.pend + " " + [c];
  }

  lemma NeedMove(st: St, p: Pure, ctx: Ctx, r: string)
    requires st.need && Sim(st.(need := false), p) && TrimLeft(p.cur) != "" && p.quote == NONE && TextNext(p, ctx, r) && QuietHere(p, ctx, r)
    ensures Classify(st, ctx, r) == Keep
  {
    assert st.buf + st.pend != "";
  }

  /** The space that is due is written with the next character, unless that is a space. */
  lemma NeedStep(st: St, p: Pure, ctx: Ctx, r: string)
    requires st.need && Sim(st.(need := false), p) && TrimLeft(p.cur) != "" && p.quote == NONE && TextNext(p, ctx, r) && QuietHere(p, ctx, r)
    ensures Step(st, ctx, r).1 == Take(Spaced(p, r), ctx, r).1 == 1
    ensures Sim(Step(st, ctx, r).0, Take(Spaced(p, r), ctx, r).0)
  {
    NeedMove(st, p, ctx, r);
    NeedKept(st, p, r);
    hide Classify, Plain, Sim, QuietHere;
  }

  lemma AfterComment(st: St, p: Pure, ctx: Ctx, b: string)
    requires st.need && Sim(st.(need := false), p) && TrimLeft(p.cur) != "" && p.quote == NONE && TextNext(p, ctx, b)
    requires QuietHere(p, ctx, b) && Quiet(Spaced(p, b), ctx, b)
    ensures Sim(Scan(st, ctx, b), CutAll(Spaced(p, b), ctx, b))
  {
    NeedStep(st, p, ctx, b);
    hide Step, Take, Sim, QuietHere, TextNext, Spaced;
    ScanSim(Step(st, ctx, b).0, Take(Spaced(p, b), ctx, b).0, ctx, b[1..]);
  }

  /** A comment may follow here, after some text of a statement. */
  predicate CommentNext(p: Pure, r: string) {
    p.quote == NONE && TrimLeft(p.cur) != "" && CharAt(r, 2) != '!' && !(p.delim <= r)
  }

  /** What follows a comment is quiet text. */
  predicate QuietAfter(p: Pure, ctx: Ctx, b: string) { TextNext(p, ctx, b) && QuietHere(p, ctx, b) && Quiet(Spaced(p, b), ctx, b) }

  lemma Flushes(s: St, p: Pure)
    requires Sim(s, p)
    ensures Sim(s.Flushed().(need := true).(need := false), p)
  {
    assert s.buf + s.pend + "" == s.buf + s.pend;
  }

  /** A comment and what follows it. */
  function Commented(body: string, b: string): string { "/*" + (body + "*/" + b) }

  /** A line with a closed comment is read as the same line with a space in its place, or nothing if a
      space follows. */
  lemma CommentIsASpace(st: St, p: Pure, ctx: Ctx, a: string, body: string, b: string)
    requires var t := a + Commented(body, b);
             && Sim(st, p) && !st.ss && QuietUpTo(p, ctx, t, |a|)
             && CommentNext(CutUpTo(p, ctx, t, |a|), Commented(body, b)) && NoEnd(body) && Closes(body)
             && QuietAfter(CutUpTo(p, ctx, t, |a|), ctx, b)
    ensures var t := a + Commented(body, b);
            Sim(Scan(st, ctx, t), CutAll(Spaced(CutUpTo(p, ctx, t, |a|), b), ctx, b))
  {
    var t := a + Commented(body, b);
    var q := CutUpTo(p, ctx, t, |a|);
    var s := ScanUpTo(st, p, ctx, t, |a|);
    assert t[|a|..] == Commented(body, b);
    CommentVanishes(s, ctx, body, b);
    Flushes(s, q);
    hide QuietUpTo, CutUpTo, Quiet, QuietHere, Sim;
    AfterComment(s.Flushed().(need := true), q, ctx, b);
  }

  /** A comment at the end of a line leaves nothing but the newline. */
  lemma CommentEndsLine(c: Carry, p: Pure, ctx: Ctx, a: string, body: string)
    requires var t := a + Commented(body, "");
             && Agrees(c, p) && QuietUpTo(p, ctx, t, |a|)
             && CommentNext(CutUpTo(p, ctx, t, |a|), Commented(body, "")) && NoEnd(body) && Closes(body)
    ensures var t := a + Commented(body, "");
            var q := CutUpTo(p, ctx, t, |a|);
            Agrees(LineSpec(c, ctx, t, false), q.(cur := q.cur + "\n"))
  {
    var t := a + Commented(body, "");
    var q := CutUpTo(p, ctx, t, |a|);
    var s := ScanUpTo(c.Start(), p, ctx, t, |a|);
    assert t[|a|..] == Commented(body, "");
    CommentVanishes(s, ctx, body, "");
    hide QuietUpTo, CutUpTo, Closes, NoEnd, TrimLeft, TrimAll;
    assert Scan(s.Flushed().(need := true), ctx, "") == s.Flushed().(need := true);
    NewlineFinish(s, q);
  }

  /** A comment before a delimiter leaves nothing in the statement that ends there. */
  lemma CommentBeforeDelimiter(c: Carry, p: Pure, ctx: Ctx, a: string, body: string)
    requires var t := a + Commented(body, p.delim);
             && Agrees(c, p) && QuietUpTo(p, ctx, t, |a|) && p.delim[0] != '\\'
             && CommentNext(CutUpTo(p, ctx, t, |a|), Commented(body, p.delim)) && NoEnd(body) && Closes(body)
             && Steady(ctx, TrimLeft(CutUpTo(p, ctx, t, |a|).cur), p.delim)
    ensures var t := a + Commented(body, p.delim);
            var q := CutUpTo(p, ctx, t, |a|);
            Agrees(LineSpec(c, ctx, t, false), q.(cur := "", done := q.done + [q.cur]))
  {
    var t := a + Commented(body, p.delim);
    var q := CutUpTo(p, ctx, t, |a|);
    CutUpToDelim(p, ctx, t, |a|);
    var s := ScanUpTo(c.Start(), p, ctx, t, |a|);
    assert t[|a|..] == Commented(body, p.delim);
    CommentVanishes(s, ctx, body, p.delim);
    hide QuietUpTo, CutUpTo, Closes, NoEnd, Scan, TrimLeft, TrimAll;
    DelimAfterComment(s, q, ctx);
  }

  lemma {:induction false} CutUpToDelim(p: Pure, ctx: Ctx, t: string, n: nat)
    requires n <= |t| && QuietUpTo(p, ctx, t, n)
    ensures CutUpTo(p, ctx, t, n).delim == p.delim
    decreases n
  {
    hide Take, QuietHere;
    if n > 0 {
      var (q, k) := Take(p, ctx, t);
      CutUpToDelim(q, ctx, t[k..], n - k);
    }
  }

  lemma DelimAfterComment(s: St, q: Pure, ctx: Ctx)
    requires Sim(s, q) && q.quote == NONE && q.delim[0] != '\\' && Steady(ctx, TrimLeft(q.cur), q.delim)
    ensures var st := Scan(s.Flushed().(need := true), ctx, q.delim);
            Agrees(Carried(Finish(st, false)), q.(cur := "", done := q.done + [q.cur]))
  {
    var st := s.Flushed().(need := true);
    assert st.buf + "" == st.buf && q.delim[|q.delim|..] == "";
    assert Classify(st, ctx, q.delim) == EndStatement;
    TrimAllSnoc(q.done, q.cur);
    assert TrimLeft("") == "";
    hide Classify, TrimAll;
  }

  /** A quiet text, followed by `rest`, in which no statement ends and every string is closed. */
  predicate Uncut(p: Pure, ctx: Ctx, x: string, rest: string) {
    QuietUpTo(p, ctx, x + rest, |x|) && CutUpTo(p, ctx, x + rest, |x|) == p.(cur := p.cur + x)
  }

  lemma DelimEnds(p: Pure, ctx: Ctx, delim: Delim)
    requires p.delim == delim && p.quote == NONE && delim[0] != '\\' && Steady(ctx, TrimLeft(p.cur), delim)
    ensures Quiet(p, ctx, delim) && CutAll(p, ctx, delim) == p.(cur := "", done := p.done + [p.cur])
  {
    assert delim[|delim|..] == "";
    assert Take(p, ctx, delim) == (p.(cur := "", done := p.done + [p.cur]), |delim|);
  }

  lemma TextThenDelim(p: Pure, ctx: Ctx, b: string)
    requires GoodDelim(p.delim) && p.delim[0] != '\\' && p.quote == NONE && Uncut(p, ctx, b, p.delim) && Steady(ctx, TrimLeft(p.cur + b), p.delim)
    ensures Quiet(p, ctx, b + p.delim) && CutAll(p, ctx, b + p.delim) == p.(cur := "", done := p.done + [p.cur + b])
  {
    var q := p.(cur := p.cur + b);
    assert (b + p.delim)[|b|..] == p.delim;
    QuietOn(p, ctx, b + p.delim, |b|);
    DelimEnds(q, ctx, p.delim);
  }

  lemma TrimKeepsEnd(s: string, x: string)
    requires TrimLeft(s) != ""
    ensures TrimLeft(s + x) == TrimLeft(s) + x
    decreases |x|
  {
    if x == "" {
      assert s + x == s && TrimLeft(s) + x == TrimLeft(s);
    } else {
      var y, c := x[..|x| - 1], x[|x| - 1];
      assert s + x == s + y + [c] && TrimLeft(s) + x == TrimLeft(s) + y + [c];
      TrimKeepsEnd(s, y);
      TrimSnoc(s + y, c);
    }
  }

  lemma OneHandedOver(st: St, p: Pure, x: string)
    requires Sim(st, p) && p.cur == "" && p.done == [x] && p.quote == NONE
    ensures var c := Carried(Finish(st, false)); c.sent == [TrimLeft(x)] && c.buf == "" && !c.ml && c.quote == NONE
  {
    assert TrimLeft("") == "";
  }

  function Gap(b: string): string { if b != "" && IsSpace(b[0]) then "" else " " }

  /** `a` and `b` are quiet texts of one statement, with a closed comment between them. */
  predicate AroundComment(ctx: Ctx, delim: Delim, a: string, body: string, b: string) {
    var p, q, tail := Begun(delim), Begun(delim).(cur := a), Commented(body, b + delim);
    && GoodDelim(delim) && delim[0] != '\\' && b != "" && Uncut(p, ctx, a, tail) && CommentNext(q, tail) && NoEnd(body) && Closes(body)
    && TextNext(q, ctx, b + delim) && QuietHere(q, ctx, b + delim) && Uncut(q.(cur := a + Gap(b)), ctx, b, delim)
  }

  lemma SpacedIs(p: Pure, b: string, delim: Delim)
    requires b != ""
    ensures Spaced(p, b + delim) == p.(cur := p.cur + Gap(b))
  {
    assert (b + delim)[0] == b[0];
    assert p.cur + "" == p.cur;
  }

  lemma StartSim(delim: Delim)
    requires GoodDelim(delim)
    ensures Sim(Fresh(delim).Start(), Begun(delim))
  {
    assert TrimLeft("") == "" && TrimAll([]) == [];
  }

  lemma TrimmedStatement(a: string, b: string)
    requires TrimLeft(a) != ""
    ensures TrimLeft(a + Gap(b) + b) == TrimLeft(a) + Gap(b) + b
  {
    hide Gap, TrimLeft;
    TrimKeepsEnd(a, Gap(b) + b);
    assert a + Gap(b) + b == a + (Gap(b) + b) && TrimLeft(a) + Gap(b) + b == TrimLeft(a) + (Gap(b) + b);
  }

  lemma UncutAt(delim: Delim, ctx: Ctx, a: string, tail: string)
    requires Uncut(Begun(delim), ctx, a, tail)
    ensures QuietUpTo(Begun(delim), ctx, a + tail, |a|) && CutUpTo(Begun(delim), ctx, a + tail, |a|) == Begun(delim).(cur := a)
  {
    assert "" + a == a;
  }

  lemma ScannedStatement(ctx: Ctx, delim: Delim, a: string, body: string, b: string)
    requires AroundComment(ctx, delim, a, body, b) && Steady(ctx, TrimLeft(a) + Gap(b) + b, delim)
    ensures Sim(Scan(Fresh(delim).Start(), ctx, a + Commented(body, b + delim)), Pure("", NONE, [a + Gap(b) + b], delim))
  {
    hide QuietUpTo, CutUpTo, Uncut, Quiet, QuietHere, TextNext, CutAll, Closes, NoEnd, CharAt, Scan, TrimLeft, Spaced, Gap, Sim, Steady, Commented;
    var q := Begun(delim).(cur := a);
    StartSim(delim);
    UncutAt(delim, ctx, a, Commented(body, b + delim));
    SpacedIs(q, b, delim);
    TrimmedStatement(a, b);
    TextThenDelim(q.(cur := a + Gap(b)), ctx, b);
    CommentIsASpace(Fresh(delim).Start(), Begun(delim), ctx, a, body, b + delim);
    assert [] + [a + Gap(b) + b] == [a + Gap(b) + b];
  }

  /** What a line with a comment in the middle of a statement hands over. */
  lemma StatementWithComment(ctx: Ctx, delim: Delim, a: string, body: string, b: string)
    requires AroundComment(ctx, delim, a, body, b) && Steady(ctx, TrimLeft(a) + Gap(b) + b, delim)
    ensures var c := LineSpec(Fresh(delim), ctx, a + Commented(body, b + delim), false);
            c.sent == [TrimLeft(a) + Gap(b) + b] && c.buf == "" && !c.ml && c.quote == NONE
  {
    ScannedStatement(ctx, delim, a, body, b);
    assert TrimLeft(a) != "";
    TrimmedStatement(a, b);
    hide AroundComment, Scan, Sim, TrimLeft, Gap, Finish;
    OneHandedOver(Scan(Fresh(delim).Start(), ctx, a + Commented(body, b + delim)), Pure("", NONE, [a + Gap(b) + b], delim), a + Gap(b) + b);
  }

  /** A comment between two words is one space, in any comment that closes. */
  lemma CommentBetweenWords(ctx: Ctx, a: string, body: string, b: string)
    requires Wordly(a) && Wordly(b) && a != "" && b != "" && NoEnd(body) && Closes(body) && CharAt(body, 0) != '!'
    requires Steady(ctx, a + " " + b, ";")
    ensures LineSpec(Fresh(";"), ctx, a + ("/*" + (body + "*/" + (b + ";"))), false).sent == [a + " " + b]
  {
    var tail := Commented(body, b + ";");
    WordUncut(Begun(";"), ctx, a, tail);
    WordUncut(Begun(";").(cur := a + " "), ctx, b, ";");
    hide QuietUpTo, CutUpTo, Scan, Uncut, LineSpec, NoEnd, Closes, Wordly;
    WordStarts(a);
    WordStarts(b);
    WordAfter(ctx, a, body, b);
    hide TrimLeft, QuietHere, TextNext, CommentNext;
    assert AroundComment(ctx, ";", a, body, b);
    StatementWithComment(ctx, ";", a, body, b);
  }

  lemma WordStarts(a: string)
    requires Wordly(a) && a != ""
    ensures TrimLeft(a) == a && !IsSpace(a[0]) && Gap(a) == " "
  {
  }

  lemma WordAfter(ctx: Ctx, a: string, body: string, b: string)
    requires Wordly(a) && Wordly(b) && a != "" && b != "" && CharAt(body, 0) != '!'
    ensures var q := Begun(";").(cur := a);
            CommentNext(q, Commented(body, b + ";")) && TextNext(q, ctx, b + ";") && QuietHere(q, ctx, b + ";")
  {
    WordStarts(a);
    assert (b + ";")[0] == b[0];
    var r := Commented(body, b + ";");
    assert r[0] == '/' && CharAt(r, 2) == (if body == "" then '*' else body[0]);
  }

  /** Letters and digits are quiet text. */
  predicate Wordly(t: string) { forall i :: 0 <= i < |t| ==> 'a' <= t[i] <= 'z' || '0' <= t[i] <= '9' }

  lemma {:induction false} WordUncut(p: Pure, ctx: Ctx, x: string, rest: string)
    requires Wordly(x) && p.quote == NONE && p.delim == ";"
    ensures Uncut(p, ctx, x, rest)
    decreases |x|
  {
    if x == "" {
      assert p.cur + "" == p.cur;
    } else {
      var t := x + rest;
      assert t[0] == x[0] && t[1..] == x[1..] + rest;
      WordUncut(p.(cur := p.cur + [x[0]]), ctx, x[1..], rest);
      assert p.cur + [x[0]] + x[1..] == p.cur + x;
    }
  }

  // ----- a comment before a delimiter

  lemma LetterStep(st: St, ctx: Ctx, r: string)
    requires r != "" && Wordly(r[..1]) && !st.ml && st.quote == NONE && st.delim == ";"
    ensures Step(st, ctx, r) == (st.(need := false, pend := st.pend + (if st.need then " " else "") + r[..1]), 1)
  {
    assert r[..1][0] == r[0] && r[..1] == [r[0]];
  }

  lemma {:induction false} WordScan(st: St, ctx: Ctx, x: string, rest: string)
    requires Wordly(x) && x != "" && !st.ml && st.quote == NONE && st.delim == ";"
    ensures Scan(st, ctx, x + rest) == Scan(st.(need := false, pend := st.pend + (if st.need then " " else "") + x), ctx, rest)
    decreases |x|
  {
    var t, front := x + rest, st.pend + (if st.need then " " else "");
    assert t[..1] == x[..1] && t[1..] == x[1..] + rest;
    LetterStep(st, ctx, t);
    hide Step, Wordly;
    var next := st.(need := false, pend := front + x[..1]);
    assert Scan(st, ctx, t) == Scan(next, ctx, x[1..] + rest);
    if |x| == 1 {
      assert x[..1] == x && x[1..] + rest == rest;
    } else {
      WordTail(x);
      WordScan(next, ctx, x[1..], rest);
      assert front + x[..1] + "" + x[1..] == front + x;
    }
  }

  lemma WordTail(x: string)
    requires Wordly(x) && x != ""
    ensures Wordly(x[1..])
  {
  }

  lemma EndScan(st: St, ctx: Ctx, rest: string)
    requires !st.ml && st.quote == NONE && !st.quit && st.delim == ";" && Steady(ctx, st.buf + st.pend, ";")
    ensures Scan(st, ctx, ";" + rest) == Scan(st.(buf := "", pend := "", sent := st.sent + [st.buf + st.pend]), ctx, rest)
  {
    var t := ";" + rest;
    assert t[0] == ';' && t[1..] == rest && st.delim <= t && |st.delim| == 1;
    assert Classify(st, ctx, t) == EndStatement;
    assert Step(st, ctx, t) == (st.(buf := "", pend := "", sent := st.sent + [st.buf + st.pend]), 1);
    hide Step;
  }

  /** The space of a comment before a delimiter stays due: the next statement of the line starts with
      it. */
  lemma SpaceStaysDue(ctx: Ctx, a: string, body: string, b: string)
    requires Wordly(a) && Wordly(b) && a != "" && b != "" && NoEnd(body) && Closes(body) && CharAt(body, 0) != '!'
    requires Steady(ctx, a, ";") && Steady(ctx, " " + b, ";")
    ensures LineSpec(Fresh(";"), ctx, a + Commented(body, ";" + (b + ";")), false).sent == [a, " " + b]
  {
    var rest := ";" + (b + ";");
    var s0 := Fresh(";").Start();
    var s1 := s0.(pend := a);
    assert "" + "" + a == a;
    MayOpenHere(s1, ctx, body, rest);
    hide Wordly, Steady, NoEnd, Closes;
    WordScan(s0, ctx, a, Commented(body, rest));
    CommentVanishes(s1, ctx, body, rest);
    hide Scan;
    var s2 := s1.Flushed().(need := true);
    assert "" + a + "" == a;
    EndScan(s2, ctx, b + ";");
    var s3 := s2.(buf := "", pend := "", sent := [a]);
    assert [] + [a] == [a];
    WordScan(s3, ctx, b, ";");
    var s4 := s3.(need := false, pend := " " + b);
    assert "" + " " + b == " " + b && ";" + "" == ";" && "" + (" " + b) == " " + b;
    EndScan(s4, ctx, "");
    assert [a] + [" " + b] == [a, " " + b];
    LastState(s4.(buf := "", pend := "", sent := [a, " " + b]), ctx);
  }

  lemma LastState(st: St, ctx: Ctx)
    requires st.buf == st.pend == ""
    ensures Finish(Scan(st, ctx, ""), false) == st
  {
  }

  lemma MayOpenHere(st: St, ctx: Ctx, body: string, rest: string)
    requires !st.ml && st.quote == NONE && st.delim == ";" && CharAt(body, 0) != '!'
    ensures MayOpen(st, ctx, Commented(body, rest))
  {
    var r := Commented(body, rest);
    assert r[0] == '/' && r[1] == '*' && r[2] == (if body == "" then '*' else body[0]);
  }

  // ----- over several lines

  /** A comment is open, after some text of a statement. */
  predicate Within(c: Carry, p: Pure) { c.ml && Agrees(c.(ml := false), p) && p.quote == NONE && TrimLeft(p.cur) != "" }

  /** The line that opens the comment adds what comes before it, and no newline. */
  lemma CommentOpens(c: Carry, p: Pure, ctx: Ctx, a: string, body: string)
    requires var t := a + ("/*" + body);
             && Agrees(c, p) && QuietUpTo(p, ctx, t, |a|) && CommentNext(CutUpTo(p, ctx, t, |a|), "/*" + body) && NoEnd(body)
    ensures var t := a + ("/*" + body);
            Within(LineSpec(c, ctx, t, false), CutUpTo(p, ctx, t, |a|))
  {
    var t := a + ("/*" + body);
    var q := CutUpTo(p, ctx, t, |a|);
    var s := ScanUpTo(c.Start(), p, ctx, t, |a|);
    assert t[|a|..] == "/*" + body;
    OpensInto(s, ctx, body);
    assert body + "" == body;
    InsideVanishes(s.Flushed().(ml := true), ctx, body, "");
    hide QuietUpTo, CutUpTo, NoEnd, MentionsVersion, Step;
    OpenFinish(s, q, s.Flushed().(ml := true, ss := MentionsVersion(body)));
  }

  lemma OpenFinish(s: St, p: Pure, t: St)
    requires Sim(s, p) && t == s.Flushed().(ml := true, ss := t.ss) && TrimLeft(p.cur) != "" && p.quote == NONE
    ensures Within(Carried(Finish(t, false)), p)
  {
    assert s.buf + s.pend + "" == s.buf + s.pend;
  }

  /** Lines inside a comment. */
  lemma {:induction false} LinesInside(c: Carry, ctx: Ctx, lines: seq<string>)
    requires c.ml && c.quote == NONE && forall i :: 0 <= i < |lines| ==> NoEnd(lines[i])
    ensures RunLines(c, ctx, lines) == c
    decreases |lines|
  {
    hide NoEnd, LineSpec;
    if lines != [] {
      LineInComment(c, ctx, lines[0], false);
      LinesInside(c, ctx, lines[1..]);
    }
  }

  /** The line that closes it goes on with a space, or none if a space follows. */
  lemma CommentCloses(c: Carry, p: Pure, ctx: Ctx, body: string, b: string)
    requires Within(c, p) && NoEnd(body) && Closes(body) && QuietAfter(p, ctx, b)
    ensures Sim(Scan(c.Start(), ctx, body + "*/" + b), CutAll(Spaced(p, b), ctx, b))
  {
    CommentEnds(c, ctx, body, b);
    assert c.Start().(ml := false, need := true).(need := false) == c.(ml := false).Start();
    hide NoEnd, Closes, Scan, Quiet, QuietHere, TextNext;
    AfterComment(c.Start().(ml := false, need := true), p, ctx, b);
  }

  /** A comment over any number of lines: the text before and after it is scanned as if the comment,
      with all its newlines, were one space, or nothing if a space follows. */
  lemma CommentOverLines(c: Carry, p: Pure, ctx: Ctx, a: string, open: string, lines: seq<string>, close: string, b: string)
    requires var t := a + ("/*" + open);
             && Agrees(c, p) && QuietUpTo(p, ctx, t, |a|) && CommentNext(CutUpTo(p, ctx, t, |a|), "/*" + open) && NoEnd(open)
             && NoEnd(close) && Closes(close) && QuietAfter(CutUpTo(p, ctx, t, |a|), ctx, b)
    requires forall i :: 0 <= i < |lines| ==> NoEnd(lines[i])
    ensures var t := a + ("/*" + open);
            var c' := RunLines(LineSpec(c, ctx, t, false), ctx, lines);
            Sim(Scan(c'.Start(), ctx, close + "*/" + b), CutAll(Spaced(CutUpTo(p, ctx, t, |a|), b), ctx, b))
  {
    hide NoEnd, Closes, Scan, QuietUpTo, CutUpTo, QuietAfter, LineSpec, Spaced, CommentNext;
    CommentOpens(c, p, ctx, a, open);
    var c1 := LineSpec(c, ctx, a + ("/*" + open), false);
    LinesInside(c1, ctx, lines);
    CommentCloses(c1, CutUpTo(p, ctx, a + ("/*" + open), |a|), ctx, close, b);
  }

  /** A line with a comment to its end is the text before it and a newline. */
  lemma LineCommentIsGone(c: Carry, p: Pure, ctx: Ctx, a: string, r: string)
    requires Agrees(c, p) && QuietUpTo(p, ctx, a + r, |a|) && StartsLineComment(r)
    requires var q := CutUpTo(p, ctx, a + r, |a|); q.quote == NONE && !(q.delim <= r)
    ensures var q := CutUpTo(p, ctx, a + r, |a|);
            Agrees(LineSpec(c, ctx, a + r, false), q.(cur := q.cur + "\n"))
  {
    var q := CutUpTo(p, ctx, a + r, |a|);
    var s := ScanUpTo(c.Start(), p, ctx, a + r, |a|);
    assert (a + r)[|a|..] == r;
    LineCommentVanishes(s, ctx, r);
    hide QuietUpTo, CutUpTo, Scan, StartsLineComment;
    NewlineFinish(s, q);
  }

  lemma NewlineFinish(s: St, q: Pure)
    requires Sim(s, q)
    ensures Agrees(Carried(Finish(s.Flushed(), false)), q.(cur := q.cur + "\n"))
  {
    TrimSnoc(q.cur, '\n');
    hide TrimLeft, TrimAll;
    assert s.buf + s.pend + ("" + "\n") == s.buf + s.pend + "\n";
    assert s.Flushed().buf == s.buf + s.pend;
  }
}
