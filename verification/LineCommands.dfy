/** One-letter commands within a line: what a command is given, and what holds after it. */
module LineCommands {
  import opened AddLine
  import opened StatementCut
  import opened CommentSpaces

  lemma CommandStep(st: St, ctx: Ctx, r: string)
    requires !st.ml && st.quote == NONE && |r| >= 2 && r[0] == '\\' && r[1] in ctx.commands && r[1] != 'N'
    ensures var e := ctx.command(r[1], st.buf + st.pend, r, st.delim);
            && Step(st, ctx, r).0 == st.(buf := e.buffer, pend := "", delim := e.delim, quit := e.quit)
            && (e.quit ==> Step(st, ctx, r).1 == |r|)
            && (!e.quit && r[1] !in ctx.params ==> Step(st, ctx, r).1 == 2)
            && (!e.quit && r[1] in ctx.params && !st.ss ==> Step(st, ctx, r).1 == AfterCommand(r, true, false, e.delim))
  {
  }

  /** After quiet text a command is given the statement so far, its own letter, the line from its
      backslash on and the delimiter.  The buffer and the delimiter that it leaves are in force for the
      rest of the line, which starts behind the letter or behind the parameters. */
  lemma CommandInLine(c: Carry, p: Pure, ctx: Ctx, a: string, x: char, rest: string)
    requires var r := ['\\', x] + rest;
             && Agrees(c, p) && QuietUpTo(p, ctx, a + r, |a|) && CutUpTo(p, ctx, a + r, |a|).quote == NONE
             && x in ctx.commands && x != 'N'
    ensures var r := ['\\', x] + rest;
            var q := CutUpTo(p, ctx, a + r, |a|);
            var e := ctx.command(x, TrimLeft(q.cur), r, q.delim);
            var st := St(e.buffer, "", NONE, false, false, false, TrimAll(q.done), e.delim, e.quit);
            Scan(c.Start(), ctx, a + r) ==
            if e.quit then st
            else if x in ctx.params then Scan(st, ctx, r[AfterCommand(r, true, false, e.delim)..])
            else Scan(st, ctx, rest)
  {
    assert Sim(c.Start(), p) && !c.Start().ss;
    hide *;
    var r := ['\\', x] + rest;
    var s := ScanUpTo(c.Start(), p, ctx, a + r, |a|);
    assert (a + r)[|a|..] == r && r[2..] == rest;
    Aligned(s, CutUpTo(p, ctx, a + r, |a|));
    CommandScan(s, ctx, r);
  }

  lemma CommandScan(s: St, ctx: Ctx, r: string)
    requires !s.ml && s.quote == NONE && !s.ss && !s.need && |r| >= 2 && r[0] == '\\' && r[1] in ctx.commands && r[1] != 'N'
    ensures var e := ctx.command(r[1], s.buf + s.pend, r, s.delim);
            var st := St(e.buffer, "", NONE, false, false, false, s.sent, e.delim, e.quit);
            Scan(s, ctx, r) ==
            if e.quit then st
            else if r[1] in ctx.params then Scan(st, ctx, r[AfterCommand(r, true, false, e.delim)..])
            else Scan(st, ctx, r[2..])
  {
    CommandStep(s, ctx, r);
    hide *;
    ScanStep(s, ctx, r);
    assert r[|r|..] == "";
    AtEnd(Step(s, ctx, r).0, ctx);
  }

  lemma ScanStep(st: St, ctx: Ctx, r: string)
    requires r != ""
    ensures Scan(st, ctx, r) == Scan(Step(st, ctx, r).0, ctx, r[Step(st, ctx, r).1..])
  {
    hide Step;
  }

  lemma AtEnd(st: St, ctx: Ctx)
    ensures Scan(st, ctx, "") == st
  {
  }

  lemma Aligned(st: St, p: Pure)
    requires Sim(st, p)
    ensures st.buf + st.pend == TrimLeft(p.cur) && st.sent == TrimAll(p.done) && st.quote == p.quote && !st.ml && !st.need && st.delim == p.delim
  {
  }

  /** A command at the end of a line. */
  lemma CommandEndsLine(ctx: Ctx, delim: Delim, a: string, x: char)
    requires GoodDelim(delim) && Uncut(Begun(delim), ctx, a, ['\\', x]) && x in ctx.commands && x != 'N'
    ensures var e := ctx.command(x, TrimLeft(a), ['\\', x], delim);
            LineSpec(Fresh(delim), ctx, a + ['\\', x], false) ==
            Carry(if e.quit || e.buffer == "" then e.buffer else e.buffer + "\n", NONE, false, [], e.delim, e.quit)
  {
    StartSim(delim);
    UncutAt(delim, ctx, a, ['\\', x]);
    assert ['\\', x] + "" == ['\\', x];
    CommandInLine(Fresh(delim), Begun(delim), ctx, a, x, "");
    assert TrimAll([]) == [];
    var e := ctx.command(x, TrimLeft(a), ['\\', x], delim);
    hide QuietUpTo, CutUpTo, Uncut, TrimLeft, TrimAll;
    AtEnd(St(e.buffer, "", NONE, false, false, false, [], e.delim, e.quit), ctx);
  }
}
