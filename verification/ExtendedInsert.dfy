/** The row loop of the dump program in extended-insert mode: rows are packed greedily into INSERT
    statements under a byte limit. A row is its text, parentheses included. */
module ExtendedInsert {

  type Statement = s: seq<string> | s != [] witness [""]

  function Flatten(stmts: seq<Statement>): seq<string> {
    if stmts == [] then [] else stmts[0] + Flatten(stmts[1..])
  }

  function Commas(rows: seq<string>): string {
    if rows == [] then "" else "," + rows[0] + Commas(rows[1..])
  }

  /** The text of a statement, and of all of them. */
  function Text(pat: string, stmt: Statement): string { pat + stmt[0] + Commas(stmt[1..]) + ";\n" }

  function Render(pat: string, stmts: seq<Statement>): string {
    if stmts == [] then "" else Render(pat, stmts[..|stmts| - 1]) + Text(pat, stmts[|stmts| - 1])
  }

  /** The running estimate: two bytes a row and four a statement more than the texts. */
  function Estimate(rows: seq<string>): nat {
    if rows == [] then 0 else 2 + |rows[0]| + Estimate(rows[1..])
  }

  predicate Fits(pat: string, limit: nat, stmt: Statement) {
    |stmt| == 1 || |pat| + 4 + Estimate(stmt) < limit
  }

  predicate AllFit(pat: string, limit: nat, stmts: seq<Statement>) {
    forall i :: 0 <= i < |stmts| ==> Fits(pat, limit, stmts[i])
  }

  /** The first row of the next statement did not fit. */
  predicate Full(pat: string, limit: nat, stmt: Statement, next: string) {
    |pat| + 4 + Estimate(stmt + [next]) >= limit
  }

  predicate Greedy(pat: string, limit: nat, stmts: seq<Statement>) {
    forall i :: 0 <= i < |stmts| - 1 ==> Full(pat, limit, stmts[i], stmts[i + 1][0])
  }

  lemma {:induction false} EstimateAdd(a: seq<string>, b: seq<string>)
    ensures Estimate(a + b) == Estimate(a) + Estimate(b)
  {
    if a == [] {
      assert a + b == b;
    } else {
      assert (a + b)[1..] == a[1..] + b;
      EstimateAdd(a[1..], b);
    }
  }

  lemma {:induction false} FlattenSnoc(stmts: seq<Statement>, s: Statement)
    ensures Flatten(stmts + [s]) == Flatten(stmts) + s
  {
    if stmts == [] {
      assert stmts + [s] == [s] && [s][1..] == [];
    } else {
      assert (stmts + [s])[1..] == stmts[1..] + [s];
      FlattenSnoc(stmts[1..], s);
    }
  }

  lemma {:induction false} CommasSnoc(rows: seq<string>, r: string)
    ensures Commas(rows + [r]) == Commas(rows) + "," + r
  {
    if rows == [] {
      assert rows + [r] == [r] && [r][1..] == [];
    } else {
      assert (rows + [r])[1..] == rows[1..] + [r];
      CommasSnoc(rows[1..], r);
    }
  }

  lemma {:induction false} CommasLength(rows: seq<string>)
    ensures |Commas(rows)| + |rows| == Estimate(rows)
  {
    if rows != [] {
      CommasLength(rows[1..]);
    }
  }

  lemma SizeOf(pat: string, stmt: Statement)
    ensures |Text(pat, stmt)| + |stmt| + 3 == |pat| + 4 + Estimate(stmt)
  {
    CommasLength(stmt[1..]);
    assert stmt == [stmt[0]] + stmt[1..];
    assert |Text(pat, stmt)| == |pat| + |stmt[0]| + |Commas(stmt[1..])| + 2;
  }

  /** What fits, in bytes of the text: a statement of two or more rows stays below the limit with one
      byte a row and three more; a statement is full when with one more row it would not. */
  lemma FittingIsShort(pat: string, limit: nat, stmt: Statement, next: string)
    ensures |stmt| > 1 ==> (Fits(pat, limit, stmt) <==> |Text(pat, stmt)| + |stmt| + 3 < limit)
    ensures Full(pat, limit, stmt, next) <==> |Text(pat, stmt + [next])| + |stmt| + 4 >= limit
    ensures Fits(pat, limit, [next])
  {
    hide Text, Estimate;
    SizeOf(pat, stmt);
    SizeOf(pat, stmt + [next]);
  }

  /** Rows are separated by commas. */
  lemma TextOfRows(pat: string, stmt: Statement, next: string)
    ensures Text(pat, [next]) == pat + next + ";\n"
    ensures exists t :: Text(pat, stmt) == t + ";\n" && Text(pat, stmt + [next]) == t + "," + next + ";\n"
  {
    hide Commas;
    var s: Statement := stmt + [next];
    assert [next][1..] == [] && s[1..] == stmt[1..] + [next] && s[0] == stmt[0];
    NoCommas();
    assert pat + next + "" == pat + next;
    CommasSnoc(stmt[1..], next);
    var t := pat + stmt[0] + Commas(stmt[1..]);
    assert pat + stmt[0] + (Commas(stmt[1..]) + "," + next) + ";\n" == t + "," + next + ";\n";
    assert Text(pat, stmt) == t + ";\n";
  }

  lemma NoCommas()
    ensures Commas([]) == ""
  {
  }

  // ----- the row loop

  /** The file before the last statement is closed. */
  function Unclosed(pat: string, stmts: seq<Statement>): string {
    if stmts == [] then ""
    else
      var s := stmts[|stmts| - 1];
      Render(pat, stmts[..|stmts| - 1]) + (pat + s[0] + Commas(s[1..]))
  }

  lemma Closing(pat: string, stmts: seq<Statement>)
    requires stmts != []
    ensures Unclosed(pat, stmts) + ";\n" == Render(pat, stmts)
  {
    var s := stmts[|stmts| - 1];
    assert Render(pat, stmts[..|stmts| - 1]) + (pat + s[0] + Commas(s[1..])) + ";\n" ==
           Render(pat, stmts[..|stmts| - 1]) + Text(pat, s);
  }

  /** `stmts` are the statements written so far; `total` is the estimate of the last one. */
  ghost predicate Written(pat: string, limit: nat, out: string, rows: seq<string>, stmts: seq<Statement>, total: nat) {
    && out == Unclosed(pat, stmts) && Flatten(stmts) == rows && AllFit(pat, limit, stmts) && Greedy(pat, limit, stmts)
    && total == if stmts == [] then limit else |pat| + 4 + Estimate(stmts[|stmts| - 1])
  }

  /** The row joins the last statement. */
  lemma Join(pat: string, limit: nat, out: string, rows: seq<string>, stmts: seq<Statement>, total: nat, row: string)
    requires Written(pat, limit, out, rows, stmts, total) && total + 2 + |row| < limit
    ensures stmts != []
    ensures var s := stmts[|stmts| - 1];
            Written(pat, limit, out + "," + row, rows + [row], stmts[..|stmts| - 1] + [s + [row]], total + 2 + |row|)
  {
    var front, s := stmts[..|stmts| - 1], stmts[|stmts| - 1];
    var s' := s + [row];
    var after := front + [s'];
    hide Render, Flatten, Commas, Estimate, Greedy;
    assert stmts == front + [s] && after[..|after| - 1] == front;
    EstimateAdd(s, [row]);
    EstimateOne(row);
    FlattenSnoc(front, s);
    FlattenSnoc(front, s');
    assert Flatten(front) + s + [row] == Flatten(front) + s';
    JoinText(pat, front, s, row);
    GreedyKept(pat, limit, front, s, s');
  }

  lemma EstimateOne(row: string)
    ensures Estimate([row]) == 2 + |row|
  {
  }

  lemma JoinText(pat: string, front: seq<Statement>, s: Statement, row: string)
    ensures Unclosed(pat, front + [s]) + "," + row == Unclosed(pat, front + [s + [row]])
  {
    hide Render, Commas;
    var s': Statement := s + [row];
    var a: seq<Statement>, b: seq<Statement> := front + [s], front + [s'];
    assert a[..|front|] == front && b[..|front|] == front;
    assert s'[1..] == s[1..] + [row];
    CommasSnoc(s[1..], row);
    assert Render(pat, front) + (pat + s[0] + Commas(s[1..])) + "," + row ==
           Render(pat, front) + (pat + s[0] + (Commas(s[1..]) + "," + row));
  }

  lemma GreedyKept(pat: string, limit: nat, front: seq<Statement>, s: Statement, s': Statement)
    requires Greedy(pat, limit, front + [s]) && s[0] == s'[0]
    ensures Greedy(pat, limit, front + [s'])
  {
    var a, b := front + [s], front + [s'];
    forall i | 0 <= i < |b| - 1
      ensures Full(pat, limit, b[i], b[i + 1][0])
    {
      assert a[i] == b[i] && a[i + 1][0] == b[i + 1][0];
      assert Full(pat, limit, a[i], a[i + 1][0]);
    }
  }

  /** The row starts a new statement. */
  lemma Break(pat: string, limit: nat, out: string, rows: seq<string>, stmts: seq<Statement>, total: nat, row: string)
    requires Written(pat, limit, out, rows, stmts, total) && total + 2 + |row| >= limit
    ensures Written(pat, limit, (if stmts == [] then out else out + ";\n") + pat + row, rows + [row], stmts + [[row]], 2 + |row| + |pat| + 4)
  {
    var after := stmts + [[row]];
    assert after[..|after| - 1] == stmts && after[|after| - 1] == [row] && [row][1..] == [];
    FlattenSnoc(stmts, [row]);
    assert pat + row + "" == pat + row;
    if stmts != [] {
      Closing(pat, stmts);
      EstimateAdd(stmts[|stmts| - 1], [row]);
    }
    assert Render(pat, stmts) + (pat + row) == Render(pat, stmts) + pat + row;
    forall i | 0 <= i < |after| - 1
      ensures Full(pat, limit, after[i], after[i + 1][0])
    {
      assert i < |stmts| - 1 ==> Full(pat, limit, stmts[i], stmts[i + 1][0]);
    }
  }

  /** The rows, once and in order, in statements that fit and are closed only when the next row would
      reach the limit. */
  ghost predicate Packed(pat: string, limit: nat, rows: seq<string>, stmts: seq<Statement>) {
    Flatten(stmts) == rows && AllFit(pat, limit, stmts) && Greedy(pat, limit, stmts)
  }

  method DumpRows(pat: string, rows: seq<string>, limit: nat) returns (out: string)
    ensures exists stmts :: Packed(pat, limit, rows, stmts) && out == Render(pat, stmts)
  {
    hide *;
    var total: nat, rowBreak := limit, false;
    out := "";
    ghost var stmts: seq<Statement> := [];
    NothingWritten(pat, limit, rows[..0]);
    for i := 0 to |rows|
      invariant Written(pat, limit, out, rows[..i], stmts, total) && (rowBreak <==> stmts != [])
    {
      var row := rows[i];
      assert rows[..i + 1] == rows[..i] + [row];
      if total + 2 + |row| < limit {
        Join(pat, limit, out, rows[..i], stmts, total, row);
        total := total + 2 + |row|;
        out := out + "," + row;
        stmts := stmts[..|stmts| - 1] + [stmts[|stmts| - 1] + [row]];
      } else {
        Break(pat, limit, out, rows[..i], stmts, total, row);
        if rowBreak {
          out := out + ";\n";
        }
        rowBreak := true;
        out := out + pat + row;
        total := 2 + |row| + |pat| + 4;
        stmts := stmts + [[row]];
      }
    }
    assert rows[..|rows|] == rows;
    AllWritten(pat, limit, out, rows, stmts, total);
    if rowBreak {
      out := out + ";\n";
    }
  }

  lemma NothingWritten(pat: string, limit: nat, none: seq<string>)
    requires none == []
    ensures Written(pat, limit, "", none, [], limit)
  {
  }

  lemma AllWritten(pat: string, limit: nat, out: string, rows: seq<string>, stmts: seq<Statement>, total: nat)
    requires Written(pat, limit, out, rows, stmts, total)
    ensures (if stmts == [] then out else out + ";\n") == Render(pat, stmts)
    ensures Packed(pat, limit, rows, stmts)
  {
    if stmts != [] {
      Closing(pat, stmts);
    }
  }

  // ----- no packing is better

  lemma {:induction false} FlattenSome(stmts: seq<Statement>)
    ensures stmts == [] <==> Flatten(stmts) == []
    ensures stmts != [] ==> Flatten(stmts)[0] == stmts[0][0]
  {
  }

  lemma {:induction false} Packing(pat: string, limit: nat, g: seq<Statement>, q: seq<Statement>, extra: seq<string>)
    requires Greedy(pat, limit, g) && AllFit(pat, limit, q) && extra + Flatten(g) == Flatten(q)
    ensures |g| <= |q|
    decreases |g|
  {
    if g == [] {
    } else {
      FlattenSome(g);
      FlattenSome(q);
      var s, t := g[0], q[0];
      assert |g| > 1 ==> Full(pat, limit, s, g[0 + 1][0]);
      var all := Flatten(q);
      assert all == t + Flatten(q[1..]) && all == extra + s + Flatten(g[1..]);
      if |t| <= |extra + s| {
        var extra' := (extra + s)[|t|..];
        assert extra' + Flatten(g[1..]) == all[|t|..] == Flatten(q[1..]);
        assert forall i :: 0 <= i < |g[1..]| ==> g[1..][i] == g[i + 1];
        Packing(pat, limit, g[1..], q[1..], extra');
      } else {
        FlattenSome(g[1..]);
        var n := |extra + s| + 1;
        assert t[..n] == all[..n] == extra + s + [g[1][0]];
        TooBig(pat, limit, s, g[1][0], extra, t);
      }
    }
  }

  lemma TooBig(pat: string, limit: nat, s: Statement, next: string, extra: seq<string>, t: Statement)
    requires Full(pat, limit, s, next) && extra + s + [next] <= t
    ensures !Fits(pat, limit, t)
  {
    var n := |extra + s| + 1;
    assert t[..n] == extra + (s + [next]);
    assert t == t[..n] + t[n..];
    EstimateAdd(t[..n], t[n..]);
    EstimateAdd(extra, s + [next]);
  }

  /** The greedy packing needs no more statements than any other packing of the same rows whose
      statements of two or more rows stay below the limit. */
  lemma GreedyIsBest(pat: string, limit: nat, rows: seq<string>, g: seq<Statement>, q: seq<Statement>)
    requires Packed(pat, limit, rows, g) && AllFit(pat, limit, q) && Flatten(q) == rows
    ensures |g| <= |q|
  {
    assert [] + Flatten(g) == Flatten(q);
    Packing(pat, limit, g, q, []);
  }
}
