/** What `add_line` does with comments: exactly when the first end mark closes one, and that a closed
    comment vanishes, leaving at most one space, on one line or over many. */
module LineComments {
  import opened AddLine

  /** There is no end mark in the text. */
  predicate NoEnd(t: string) {
    |t| < 2 || (!(t[0] == '*' && t[1] == '/') && NoEnd(t[1..]))
  }

  /** The text mentions the beginning of a version comment. */
  predicate MentionsVersion(t: string) {
    |t| >= 3 && ((t[0] == '/' && t[1] == '*' && t[2] == '!') || MentionsVersion(t[1..]))
  }

  function Last(t: string): char { if t == "" then '\0' else t[|t| - 1] }

  /** An end mark right after the text is taken as one. */
  predicate Closes(body: string) { !MentionsVersion(body) && Last(body) != '/' }

  /** Inside a comment, with nothing of the line kept so far. */
  predicate InComment(st: St) { st.ml && st.quote == NONE && st.pend == "" }

  /** No mark spans the border of the two texts. */
  predicate Joins(body: string, end: string) {
    end == "" || (!(Last(body) == '/' && end[0] == '*') && !(Last(body) == '*' && end[0] == '/') && end[0] != '!')
  }

  /** A position inside a comment: a version comment is noted, everything else is passed over, two
      characters at a time where a comment seems to open. */
  lemma InsideStep(st: St, ctx: Ctx, r: string)
    requires r != "" && InComment(st) && !At(r, '*', '/')
    ensures Step(st, ctx, r) ==
            if At(r, '/', '*') && CharAt(r, 2) == '!' then (st.(ss := true), 1)
            else if At(r, '/', '*') then (st, 2) else (st, 1)
  {
    assert st.buf + "" == st.buf;
  }

  lemma {:induction false} InsideVanishes(st: St, ctx: Ctx, body: string, end: string)
    requires InComment(st) && NoEnd(body) && Joins(body, end)
    ensures Scan(st, ctx, body + end) == Scan(st.(ss := st.ss || MentionsVersion(body)), ctx, end)
    decreases |body|
  {
    if body == "" {
      assert body + end == end;
      assert st.(ss := st.ss) == st;
    } else {
      var r := body + end;
      assert forall k: nat :: k < |body| ==> CharAt(r, k) == body[k];
      assert forall k: nat :: |body| <= k ==> CharAt(r, k) == CharAt(end, k - |body|);
      InsideStep(st, ctx, r);
      hide Step;
      if At(r, '/', '*') && CharAt(r, 2) != '!' {
        assert r[2..] == body[2..] + end && body[1..][1..] == body[2..];
        InsideVanishes(st, ctx, body[2..], end);
      } else {
        assert r[1..] == body[1..] + end;
        InsideVanishes(Step(st, ctx, r).0, ctx, body[1..], end);
      }
    }
  }

  lemma CloseStep(st: St, ctx: Ctx, r: string)
    requires At(r, '*', '/') && InComment(st)
    ensures Step(st, ctx, r) == if st.ss then (st.(ss := false), 1) else (st.(ml := false, need := true), 2)
  {
    assert st.buf + "" == st.buf;
  }

  /** The first end mark closes the comment if and only if no version comment is open around it, the
      text before the mark mentions none and does not end in a slash. */
  lemma EndClosesIff(st: St, ctx: Ctx, body: string)
    requires InComment(st) && NoEnd(body)
    ensures Scan(st, ctx, body + "*/").ml <==> st.ss || MentionsVersion(body) || Last(body) == '/'
  {
    hide Step;
    if Last(body) == '/' {
      var front, st' := body[..|body| - 1], st.(ss := st.ss || MentionsVersion(body[..|body| - 1]));
      assert body + "*/" == front + "/*/" && body == front + "/";
      NoEndFront(front, '/');
      InsideVanishes(st, ctx, front, "/*/");
      InsideStep(st', ctx, "/*/");
      assert "/*/"[2..] == "/";
      SlashStays(st', ctx);
    } else {
      var st' := st.(ss := st.ss || MentionsVersion(body));
      InsideVanishes(st, ctx, body, "*/");
      CloseStep(st', ctx, "*/");
      assert "*/"[1..] == "/" && "*/"[2..] == "";
      SlashStays(st'.(ss := false), ctx);
    }
  }

  lemma SlashStays(st: St, ctx: Ctx)
    requires InComment(st)
    ensures Scan(st, ctx, "/").ml
  {
    InsideStep(st, ctx, "/");
    assert "/"[1..] == "";
  }

  lemma {:induction false} NoEndFront(front: string, c: char)
    requires NoEnd(front + [c])
    ensures NoEnd(front) && !(Last(front) == '*' && c == '/')
  {
    if |front| > 1 {
      assert (front + [c])[1..] == front[1..] + [c];
      NoEndFront(front[1..], c);
    }
  }

  lemma OpenStep(st: St, ctx: Ctx, r: string)
    requires At(r, '/', '*') && CharAt(r, 2) != '!' && st.quote == NONE && !st.ml && !(st.delim <= r)
    ensures Step(st, ctx, r) == (st.Flushed().(ml := true), 2)
  {
  }

  /** A comment may open here. */
  predicate MayOpen(st: St, ctx: Ctx, r: string) {
    st.quote == NONE && !st.ml && CharAt(r, 2) != '!' && !(st.delim <= r)
  }

  lemma OpensInto(st: St, ctx: Ctx, tail: string)
    requires MayOpen(st, ctx, "/*" + tail)
    ensures Scan(st, ctx, "/*" + tail) == Scan(st.Flushed().(ml := true), ctx, tail)
  {
    var r := "/*" + tail;
    assert r[2..] == tail;
    OpenStep(st, ctx, r);
  }

  /** A whole comment on a line is closed under exactly the same condition. */
  lemma CommentClosesIff(st: St, ctx: Ctx, body: string)
    requires NoEnd(body) && MayOpen(st, ctx, "/*" + (body + "*/"))
    ensures Scan(st, ctx, "/*" + (body + "*/")).ml <==> st.ss || !Closes(body)
  {
    OpensInto(st, ctx, body + "*/");
    EndClosesIff(st.Flushed().(ml := true), ctx, body);
  }

  /** A closed comment within a line: what follows is read as if it were not there, except that a space
      is due before the next character. */
  lemma CommentVanishes(st: St, ctx: Ctx, body: string, rest: string)
    requires !st.ss && NoEnd(body) && Closes(body) && MayOpen(st, ctx, "/*" + (body + "*/" + rest))
    ensures Scan(st, ctx, "/*" + (body + "*/" + rest)) == Scan(st.Flushed().(need := true), ctx, rest)
  {
    OpensInto(st, ctx, body + "*/" + rest);
    ClosedInside(st.Flushed().(ml := true), ctx, body, rest);
  }

  lemma ClosedInside(st: St, ctx: Ctx, body: string, rest: string)
    requires InComment(st) && !st.ss && NoEnd(body) && Closes(body)
    ensures Scan(st, ctx, body + "*/" + rest) == Scan(st.(ml := false, need := true), ctx, rest)
  {
    hide Step;
    var end := "*/" + rest;
    assert body + "*/" + rest == body + end && end[2..] == rest;
    assert st.(ss := false) == st;
    InsideVanishes(st, ctx, body, end);
    CloseStep(st, ctx, end);
  }

  /** A comment to the end of the line. */
  lemma LineCommentVanishes(st: St, ctx: Ctx, r: string)
    requires st.quote == NONE && !st.ml && StartsLineComment(r) && !(st.delim <= r)
    ensures Scan(st, ctx, r) == st.Flushed()
  {
    assert r[|r|..] == "";
    assert Classify(st, ctx, r) == LineComment;
  }

  /** A line without an end mark inside a comment changes nothing that is carried on, whatever it
      mentions. */
  lemma LineInComment(c: Carry, ctx: Ctx, line: string, truncated: bool)
    requires c.ml && c.quote == NONE && NoEnd(line)
    ensures LineSpec(c, ctx, line, truncated) == c
  {
    hide Step;
    InsideVanishes(c.Start(), ctx, line, "");
    assert line + "" == line;
  }

  /** The line that ends a comment goes on as the rest of it alone would, with a space due. */
  lemma CommentEnds(c: Carry, ctx: Ctx, body: string, rest: string)
    requires c.ml && c.quote == NONE && NoEnd(body) && Closes(body)
    ensures Scan(c.Start(), ctx, body + "*/" + rest) ==
            Scan(c.Start().(ml := false, need := true), ctx, rest)
  {
    ClosedInside(c.Start(), ctx, body, rest);
  }

  // ----- inputs on both sides of the condition

  lemma OneLineComment(ctx: Ctx, body: string)
    requires NoEnd(body) && CharAt(body, 0) != '!'
    ensures LineSpec(Fresh(";"), ctx, "/*" + (body + "*/"), false).ml <==> !Closes(body)
  {
    var st, line := Fresh(";").Start(), "/*" + (body + "*/");
    assert CharAt(line, 2) == if body == "" then '*' else body[0];
    assert st.delim[0] != line[0];
    CommentClosesIff(st, ctx, body);
  }

  /** A mentioned version comment takes the end mark for itself, so the comment stays open. */
  lemma NestedVersionComment(ctx: Ctx)
    ensures LineSpec(Fresh(";"), ctx, "/* /*! */", false).ml
  {
    var body := " /*! ";
    assert body[1..] == "/*! " && "/*! "[1..] == "*! " && "*! "[1..] == "! " && "! "[1..] == " ";
    OneLineComment(ctx, body);
    assert "/*" + (body + "*/") == "/* /*! */";
  }

  /** A slash before the end mark makes an opening mark of its star; a nested opening mark elsewhere
      does no harm. */
  lemma SlashBeforeEnd(ctx: Ctx)
    ensures LineSpec(Fresh(";"), ctx, "/*a/*/", false).ml
    ensures !LineSpec(Fresh(";"), ctx, "/*a/*b*/", false).ml
  {
    assert "a/"[1..] == "/";
    OneLineComment(ctx, "a/");
    assert "/*" + ("a/" + "*/") == "/*a/*/";
    assert "a/*b"[1..] == "/*b" && "/*b"[1..] == "*b" && "*b"[1..] == "b";
    OneLineComment(ctx, "a/*b");
    assert "/*" + ("a/*b" + "*/") == "/*a/*b*/";
  }
}
