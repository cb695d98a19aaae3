/** Scripts as texts: which lines a text has, the byte order mark before it, and its last statement. */
module ScriptText {
  import opened AddLine
  import opened StatementCut
  import opened BatchClient
  import opened CommentSpaces
  import R = LineReader

  // ----- lines

  /** Each line with its end, a newline or a carriage return and a newline. */
  function TextOf(lines: seq<string>, crlf: seq<bool>): string
    requires |crlf| == |lines|
  {
    if lines == [] then "" else lines[0] + (if crlf[0] then "\r\n" else "\n") + TextOf(lines[1..], crlf[1..])
  }

  predicate IsLine(line: string, crlf: bool) { R.NoEnd(line) && (crlf || line == "" || line[|line| - 1] != '\r') }

  lemma EndAt(a: string, b: string)
    requires R.NoEnd(a)
    ensures R.LineEnd(a + b) == |a| + R.LineEnd(b)
  {
    var n := R.LineEnd(a + b);
    assert forall i :: 0 <= i < |a| ==> (a + b)[i] == a[i];
    assert forall i :: 0 <= i < |b| ==> (a + b)[|a| + i] == b[i];
  }

  lemma FirstOf(line: string, crlf: bool, rest: string)
    requires IsLine(line, crlf)
    ensures R.Lines(line + (if crlf then "\r\n" else "\n") + rest) == [line] + R.Lines(rest)
  {
    var end := if crlf then "\r\n" else "\n";
    var all, piece := line + end + rest, line + end;
    EndAt(line, end + rest);
    assert all == line + (end + rest);
    assert crlf ==> (end + rest)[1..][0] == '\n';
    assert R.LineEnd(end + rest) == |end| - 1;
    assert all[..|piece|] == piece && all[|piece|..] == rest;
    assert R.Pieces(all) == [piece] + R.Pieces(rest);
    assert R.Pieces(all)[1..] == R.Pieces(rest);
    assert R.Strip(piece) == line;
  }

  /** The lines of a text are the lines it was made of, however they end; a last line needs no end. */
  lemma {:induction false} LinesOf(lines: seq<string>, crlf: seq<bool>, last: string)
    requires |crlf| == |lines| && R.NoEnd(last) && forall i :: 0 <= i < |lines| ==> IsLine(lines[i], crlf[i])
    ensures R.Lines(TextOf(lines, crlf) + last) == lines + (if last == "" then [] else [last])
    decreases |lines|
  {
    hide R.Lines;
    if lines == [] {
      assert "" + last == last;
      OnlyLine(last);
    } else {
      var end := if crlf[0] then "\r\n" else "\n";
      var more := TextOf(lines[1..], crlf[1..]) + last;
      assert TextOf(lines, crlf) + last == lines[0] + end + more;
      FirstOf(lines[0], crlf[0], more);
      LinesOf(lines[1..], crlf[1..], last);
      assert lines == [lines[0]] + lines[1..];
    }
  }

  lemma OnlyLine(last: string)
    requires R.NoEnd(last)
    ensures R.Lines(last) == if last == "" then [] else [last]
  {
    EndAt(last, "");
    assert last + "" == last;
    assert last != "" ==> !R.IsEnd(last[|last| - 1]) && R.Strip(last) == last;
    assert R.StripAll([]) == [] && [last][1..] == [] && R.StripAll([last]) == [R.Strip(last)];
    assert last != "" ==> R.Pieces(last) == [last] && [last][1..] == [];
  }

  // ----- the byte order mark

  lemma PieceStep(t: string) returns (piece: string, rest: string)
    requires t != ""
    ensures t == piece + rest && |piece| == (if R.LineEnd(t) == |t| then |t| else R.LineEnd(t) + 1) && R.Lines(t) == [R.Strip(piece)] + R.Lines(rest)
  {
    piece, rest := t, "";
    if R.LineEnd(t) < |t| {
      piece, rest := t[..R.LineEnd(t) + 1], t[R.LineEnd(t) + 1..];
    }
    assert R.Pieces(t) == [piece] + R.Pieces(rest);
    hide R.Pieces, R.Strip;
    assert ([piece] + R.Pieces(rest))[1..] == R.Pieces(rest);
  }

  /** A byte order mark before a script changes nothing; without one nothing is taken from it. */
  lemma BomIsSkipped(t: string)
    requires t != ""
    ensures Script(R.Lines(BOM + t), true) == R.Lines(t)
    ensures !(BOM <= t) ==> Script(R.Lines(t), true) == R.Lines(t)
  {
    assert R.NoEnd(BOM) && |BOM| == 3;
    hide R.Lines, R.LineEnd, R.Strip;
    EndAt(BOM, t);
    var piece, rest := PieceStep(t);
    var piece', rest' := PieceStep(BOM + t);
    SamePiece(BOM, t, piece, rest, piece', rest');
    BomStrip(BOM, piece);
    var line := R.Strip(piece);
    assert (BOM + line)[3..] == line;
    assert ([line] + R.Lines(rest))[1..] == R.Lines(rest) && ([BOM + line] + R.Lines(rest))[1..] == R.Lines(rest);
    if BOM <= line {
      StripIsPrefix(piece);
      assert t[..3] == BOM;
    }
  }

  lemma StripIsPrefix(piece: string)
    ensures R.Strip(piece) <= piece
  {
  }

  lemma SamePiece(bom: string, t: string, piece: string, rest: string, piece': string, rest': string)
    requires t == piece + rest && bom + t == piece' + rest' && |piece'| == |bom| + |piece|
    ensures piece' == bom + piece && rest' == rest
  {
    assert piece' == (bom + t)[..|bom| + |piece|] && rest' == (bom + t)[|bom| + |piece|..];
    assert (bom + t)[..|bom| + |piece|] == bom + t[..|piece|] && (bom + t)[|bom| + |piece|..] == t[|piece|..];
  }

  lemma BomStrip(bom: string, piece: string)
    requires piece != "" && R.NoEnd(bom) && bom != "" && bom[|bom| - 1] != '\r'
    ensures R.Strip(bom + piece) == bom + R.Strip(piece)
  {
    var n, m := |piece|, |bom|;
    assert (bom + piece)[m + n - 1] == piece[n - 1] && (bom + piece)[m + n - 2] == (if n > 1 then piece[n - 2] else bom[m - 1]);
    assert (bom + piece)[..m + n - 1] == bom + piece[..n - 1];
    assert n > 1 ==> (bom + piece)[..m + n - 2] == bom + piece[..n - 2];
  }

  // ----- the last statement

  predicate AllSpace(s: string) { forall i :: 0 <= i < |s| ==> IsSpace(s[i]) }

  predicate NoGraph(s: string) { forall i :: 0 <= i < |s| ==> !IsGraph(s[i]) }

  lemma {:induction false} LeftTrimmed(pre: string, s: string)
    requires AllSpace(pre) && (s == "" || !IsSpace(s[0]))
    ensures TrimLeft(pre + s) == s
    decreases |pre|
  {
    if pre == "" {
      assert pre + s == s;
    } else {
      assert (pre + s)[1..] == pre[1..] + s;
      LeftTrimmed(pre[1..], s);
    }
  }

  lemma {:induction false} RightTrimmed(s: string, post: string)
    requires NoGraph(post) && (s == "" || IsGraph(s[|s| - 1]))
    ensures TrimRight(s + post) == s
    decreases |post|
  {
    if post == "" {
      assert s + post == s;
    } else {
      assert (s + post)[..|s + post| - 1] == s + post[..|post| - 1];
      RightTrimmed(s, post[..|post| - 1]);
    }
  }

  /** What is left at the end of a script is sent without the blanks around it, if there is anything
      else. */
  lemma LastSent(p: Pure, pre: string, s: string, post: string)
    requires p.cur == pre + s + post && AllSpace(pre) && NoGraph(post)
    requires s == "" || (!IsSpace(s[0]) && IsGraph(s[|s| - 1]))
    ensures s != "" ==> Executed(p) == TrimAll(p.done) + [s]
    ensures s == "" && (post == "" || !IsSpace(post[0])) ==> Executed(p) == TrimAll(p.done)
  {
    assert pre + s + post == pre + (s + post);
    if s != "" || post == "" || !IsSpace(post[0]) {
      LeftTrimmed(pre, s + post);
      RightTrimmed(s, post);
      assert TrimAll(p.done) + [] == TrimAll(p.done);
    }
  }

  lemma {:induction false} ScriptEndSnoc(p: Pure, ctx: Ctx, lines: seq<string>, line: string)
    ensures ScriptEnd(p, ctx, lines + [line]) == AfterLine(ScriptEnd(p, ctx, lines), ctx, line)
    decreases |lines|
  {
    hide AfterLine;
    if lines == [] {
      assert lines + [line] == [line] && [line][1..] == [];
    } else {
      assert (lines + [line])[1..] == lines[1..] + [line];
      ScriptEndSnoc(AfterLine(p, ctx, lines[0]), ctx, lines[1..], line);
    }
  }

  /** A last line that is neither a client command nor cut by a delimiter. */
  lemma UncutLine(q: Pure, ctx: Ctx, line: string)
    requires GoodDelim(q.delim) && q.quote == NONE && !Dispatches(q, ctx, line) && Uncut(q, ctx, line, "\n")
    ensures AfterLine(q, ctx, line) == q.(cur := q.cur + line + "\n")
  {
    var r := q.(cur := q.cur + line);
    assert (line + "\n")[|line|..] == "\n";
    QuietOn(q, ctx, line + "\n", |line|);
    hide Uncut, QuietUpTo, CutUpTo, Dispatches;
    assert "\n"[0] == '\n' && "\n"[1..] == "" && "\n"[..1] == "\n";
    assert !(q.delim <= "\n") by {
      assert q.delim[0] != '\n';
    }
    assert Take(r, ctx, "\n") == (r.(cur := r.cur + "\n"), 1);
  }

  /** A script whose text ends in a statement without a delimiter: it is sent after all the others, as it
      stands in the text. */
  lemma LastNeedsNoDelimiter(ctx: Ctx, delim: Delim, lines: seq<string>, crlf: seq<bool>, s: string)
    requires |crlf| == |lines| && R.NoEnd(s) && (forall i :: 0 <= i < |lines| ==> IsLine(lines[i], crlf[i]))
    requires s != "" && !IsSpace(s[0]) && IsGraph(s[|s| - 1])
    requires var q := ScriptEnd(Begun(delim), ctx, lines);
             && GoodDelim(q.delim) && q.quote == NONE && AllSpace(q.cur) && !Dispatches(q, ctx, s) && Uncut(q, ctx, s, "\n")
    ensures Executed(ScriptEnd(Begun(delim), ctx, R.Lines(TextOf(lines, crlf) + s))) ==
            TrimAll(ScriptEnd(Begun(delim), ctx, lines).done) + [s]
  {
    hide R.Lines, TextOf, Uncut, Dispatches, Executed, TrimAll, AfterLine, GoodDelim;
    var q := ScriptEnd(Begun(delim), ctx, lines);
    LinesOf(lines, crlf, s);
    ScriptEndSnoc(Begun(delim), ctx, lines, s);
    UncutLine(q, ctx, s);
    LastSent(q.(cur := q.cur + s + "\n"), q.cur, s, "\n");
  }

  // ----- client commands

  lemma {:induction false} BlankIff(s: string)
    ensures TrimLeft(s) == "" <==> AllSpace(s)
  {
    if s != "" {
      BlankIff(s[1..]);
      assert forall i :: 0 <= i < |s| - 1 ==> s[1..][i] == s[i + 1];
      assert forall i :: 0 < i < |s| ==> s[i] == s[1..][i - 1];
    }
  }

  lemma {:induction false} CommandsSnoc(p: Pure, ctx: Ctx, lines: seq<string>, line: string)
    ensures Commands(p, ctx, lines + [line]) ==
            Commands(p, ctx, lines) + (if Dispatches(ScriptEnd(p, ctx, lines), ctx, line) then [line] else [])
    decreases |lines|
  {
    hide AfterLine, Dispatches;
    if lines == [] {
      assert lines + [line] == [line] && [line][1..] == [];
      assert Commands(AfterLine(p, ctx, line), ctx, []) == [];
    } else {
      assert (lines + [line])[1..] == lines[1..] + [line];
      var q := AfterLine(p, ctx, lines[0]);
      CommandsSnoc(q, ctx, lines[1..], line);
      var more := if Dispatches(ScriptEnd(p, ctx, lines), ctx, line) then [line] else [];
      assert [lines[0]] + (Commands(q, ctx, lines[1..]) + more) == [lines[0]] + Commands(q, ctx, lines[1..]) + more;
    }
  }

  /** A line is executed as a client command if it is one, no string is open and either commands are
      looked for everywhere or only space precedes it in its statement.  It then leaves the statement
      alone and its delimiter is in force; any other line is text. */
  lemma NextLine(p: Pure, ctx: Ctx, lines: seq<string>, line: string)
    ensures var q := ScriptEnd(p, ctx, lines);
            var isCommand := q.quote == NONE && (ctx.named || AllSpace(q.cur)) && ctx.isCommand(line);
            && Commands(p, ctx, lines + [line]) == Commands(p, ctx, lines) + (if isCommand then [line] else [])
            && ScriptEnd(p, ctx, lines + [line]) ==
               if isCommand then q.(delim := ctx.runLine(line, TrimLeft(q.cur), q.delim).delim) else CutAll(q, ctx, line + "\n")
  {
    hide Commands, ScriptEnd, CutAll, TrimLeft, AllSpace;
    BlankIff(ScriptEnd(p, ctx, lines).cur);
    CommandsSnoc(p, ctx, lines, line);
    ScriptEndSnoc(p, ctx, lines, line);
  }
}
