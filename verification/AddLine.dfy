/** `add_line` of the command-line client: it edits each line in place, dropping comments, cuts
    statements at the delimiter and executes one-letter commands, with quote and comment state carried
    from line to line.

    Modelled for a single-byte character set and comments not preserved.  What a command or a statement
    does to the buffer and the delimiter, and whether it ends the client, is given by the context. */
module AddLine {

  predicate IsSpace(c: char) { c == ' ' || '\t' <= c <= '\r' }

  predicate IsQuote(c: char) { c == '\'' || c == '"' || c == '`' }

  const NONE: char := '\0'

  function CharAt(r: string, i: nat): char { if i < |r| then r[i] else '\0' }

  type Delim = s: string | s != "" witness ";"

  /** What executing something leaves: the buffer, the delimiter, and whether the client ends. */
  datatype Effect = Effect(buffer: string, delim: Delim, quit: bool)

  /** What does not change while statements are read: whether the server takes backslashes in strings
      literally; the letters of the one-letter commands and those of them that take parameters; the
      effect of a command, given its letter, the buffer and the rest of the line, and of a finished
      statement; whether an unknown letter ends the client; whether named commands are looked for on
      every line, which lines are named commands, and their effect. */
  datatype Ctx = Ctx(
    noEscapes: bool, commands: set<char>, params: set<char>,
    command: (char, string, string, Delim) -> Effect, submit: (string, Delim) -> Effect,
    fatal: bool, named: bool, isCommand: string -> bool, runLine: (string, string, Delim) -> Effect)

  /** `buf` is the statement so far, `pend` what the current line adds to it, `sent` the statements
      handed over. */
  datatype St = St(buf: string, pend: string, quote: char, ml: bool, ss: bool, need: bool, sent: seq<string>, delim: Delim, quit: bool) {
    function Flushed(): St { this.(buf := buf + pend, pend := "") }
  }

  predicate StartsLineComment(r: string) {
    CharAt(r, 0) == '#' ||
    (CharAt(r, 0) == '-' && CharAt(r, 1) == '-' && (IsSpace(CharAt(r, 2)) || CharAt(r, 2) == '\0'))
  }

  predicate At(r: string, a: char, b: char) { CharAt(r, 0) == a && CharAt(r, 1) == b }

  predicate Escapes(st: St, ctx: Ctx, r: string) {
    !st.ml && CharAt(r, 0) == '\\' && !(st.quote != NONE && ctx.noEscapes)
  }

  /** The first position from `i` on where the text has the pattern, or its end. */
  function Find(r: string, i: nat, pat: string): (j: nat)
    requires i <= |r|
    ensures i <= j <= |r| && (j < |r| ==> pat <= r[j..])
    decreases |r| - i
  {
    if i == |r| || pat <= r[i..] then i else Find(r, i + 1, pat)
  }

  /** Where reading goes on after a command: its parameters run to the end of a version comment, or
      past the next delimiter. */
  function AfterCommand(r: string, params: bool, ss: bool, delim: Delim): (n: nat)
    requires |r| >= 2
    ensures 2 <= n <= |r|
  {
    if !params then 2
    else if ss then Find(r, 2, "*/")
    else
      var j := Find(r, 2, delim);
      if j == |r| then j else j + |delim|
  }

  /** No earlier position has the pattern. */
  lemma {:induction false} FindIsFirst(r: string, i: nat, pat: string, k: nat)
    requires i <= |r| && i <= k < Find(r, i, pat)
    ensures !(pat <= r[k..])
    decreases k - i
  {
    if i < k {
      FindIsFirst(r, i + 1, pat, k);
    }
  }

  /** After a command with parameters, outside a version comment, reading goes on right behind the first
      delimiter that follows the command, or the line is over. */
  lemma CommandResumes(r: string, delim: Delim, k: nat)
    requires |r| >= 2
    ensures var n := AfterCommand(r, true, false, delim);
            && (n < |r| ==> n >= 2 + |delim| && r[n - |delim|..n] == delim)
            && (2 <= k && k + |delim| < n ==> !(delim <= r[k..]))
            && (n == |r| && 2 <= k && k + |delim| < |r| ==> !(delim <= r[k..]))
  {
    var j := Find(r, 2, delim);
    assert j < |r| ==> r[j..j + |delim|] == r[j..][..|delim|];
    if 2 <= k < j {
      FindIsFirst(r, 2, delim, k);
    }
  }

  /** A backslash: a command is executed; any other character, and every one in a string, is kept with
      the backslash; at the end of the line the backslash is dropped. */
  function Escaped(st: St, ctx: Ctx, r: string): (res: (St, nat))
    requires r != ""
    ensures 1 <= res.1 <= |r|
  {
    if |r| == 1 then (st, 1)
    else if st.quote != NONE || r[1] == 'N' || (r[1] !in ctx.commands && !ctx.fatal) then (st.(pend := st.pend + r[..2]), 2)
    else if r[1] !in ctx.commands then (st.(pend := "", quit := true), |r|)
    else
      var e := ctx.command(r[1], st.buf + st.pend, r, st.delim);
      (st.(buf := e.buffer, pend := "", delim := e.delim, quit := e.quit),
       if e.quit then |r| else AfterCommand(r, r[1] in ctx.params, st.ss, e.delim))
  }

  /** A character that is neither skipped nor the start of something. */
  function Plain(st: St, r: string): St
    requires r != ""
  {
    var c := r[0];
    var ss := if st.quote != NONE then st.ss
              else if At(r, '/', '*') && CharAt(r, 2) == '!' then true
              else if At(r, '*', '/') then false else st.ss;
    var quote := if c == st.quote then NONE
                 else if !st.ml && st.quote == NONE && IsQuote(c) then c else st.quote;
    if st.ml then st.(ss := ss, quote := quote)
    else st.(ss := ss, quote := quote, need := false,
             pend := st.pend + (if st.need && !IsSpace(c) then " " else "") + [c])
  }

  /** What the loop does at one position. */
  datatype Move = Skip | Escape | EndStatement | LineComment | OpenComment | CloseComment | Keep

  function Classify(st: St, ctx: Ctx, r: string): Move
    requires r != ""
  {
    if IsSpace(r[0]) && st.pend == "" && st.buf == "" then Skip
    else if Escapes(st, ctx, r) then Escape
    else if !st.ml && st.quote == NONE && st.delim <= r then EndStatement
    else if !st.ml && st.quote == NONE && StartsLineComment(r) then LineComment
    else if st.quote == NONE && At(r, '/', '*') && CharAt(r, 2) != '!' then OpenComment
    else if st.ml && !st.ss && At(r, '*', '/') then CloseComment
    else Keep
  }

  /** The statement is handed over and the buffer cleared, unless that ends the client. */
  function Ended(st: St, ctx: Ctx, r: string): (res: (St, nat))
    requires st.delim <= r
  {
    var e := ctx.submit(st.buf + st.pend, st.delim);
    (st.(buf := if e.quit then e.buffer else "", pend := "", sent := st.sent + [st.buf + st.pend], delim := e.delim, quit := e.quit),
     if e.quit then |r| else |st.delim|)
  }

  /** The new state and how much was read. */
  function Apply(m: Move, st: St, ctx: Ctx, r: string): (res: (St, nat))
    requires r != "" && (m == EndStatement ==> st.delim <= r)
  {
    match m
    case Skip => (st, 1)
    case Escape => Escaped(st, ctx, r)
    case EndStatement => Ended(st, ctx, r)
    case LineComment => (st.Flushed(), |r|)
    case OpenComment => (st.Flushed().(ml := true), 2)
    case CloseComment => (st.Flushed().(ml := false, need := true), 2)
    case Keep => (Plain(st, r), 1)
  }

  /** One round of the loop over the rest `r` of the line. */
  function Step(st: St, ctx: Ctx, r: string): (res: (St, nat))
    requires r != ""
    ensures 1 <= res.1 <= |r|
  {
    Apply(Classify(st, ctx, r), st, ctx, r)
  }

  function Scan(st: St, ctx: Ctx, r: string): St
    decreases |r|
  {
    if r == "" then st
    else
      var (s, n) := Step(st, ctx, r);
      Scan(s, ctx, r[n..])
  }

  // ----- the end of a line

  function Lower(c: char): char { if 'A' <= c <= 'Z' then (c as int + 32) as char else c }

  const DELIMITER := "delimiter"

  /** The text starts with the word, in any case. */
  predicate StartsWithDelimiterWord(t: string) {
    |t| >= 9 && forall i :: 0 <= i < 9 ==> Lower(t[i]) == DELIMITER[i]
  }

  /** The line's newline joins the statement, unless the line was cut by the reader or is a
      DELIMITER command; nothing is added inside a comment or to an empty statement. */
  function Finish(st: St, truncated: bool): St {
    if st.quit || (st.pend == "" && st.buf == "") then st
    else
      var newline := !truncated && (!StartsWithDelimiterWord(st.pend) || st.quote != NONE || st.ml);
      var pend := if newline then st.pend + "\n" else st.pend;
      st.(buf := if st.ml then st.buf else st.buf + pend, pend := "")
  }

  /** State carried from line to line. */
  datatype Carry = Carry(buf: string, quote: char, ml: bool, sent: seq<string>, delim: Delim, quit: bool) {
    /** At the start of a line. */
    function Start(): St { St(buf, "", quote, ml, false, false, sent, delim, quit) }
  }

  function Carried(st: St): Carry { Carry(st.buf, st.quote, st.ml, st.sent, st.delim, st.quit) }

  function Fresh(delim: Delim): Carry { Carry("", NONE, false, [], delim, false) }

  function LineSpec(c: Carry, ctx: Ctx, text: string, truncated: bool): Carry {
    if text == "" && c.buf == "" then c else Carried(Finish(Scan(c.Start(), ctx, text), truncated))
  }

  // ----- the program

  class Client {
    const ctx: Ctx
    var buffer: string
    var inString: char
    var mlComment: bool
    var sent: seq<string>
    var delim: Delim
    var quit: bool

    ghost function State(): Carry
      reads this
    {
      Carry(buffer, inString, mlComment, sent, delim, quit)
    }

    constructor (ctx: Ctx, delim: Delim)
      ensures this.ctx == ctx && State() == Fresh(delim)
    {
      this.ctx, this.delim := ctx, delim;
      buffer, inString, mlComment, sent, quit := "", NONE, false, [], false;
    }

    /** The state in the middle of a line, of which the first `out` characters were accepted. */
    ghost function Mid(line: array<char>, out: nat, ss: bool, need: bool): St
      reads this, line
      requires out <= line.Length
    {
      St(buffer, line[..out], inString, mlComment, ss, need, sent, delim, quit)
    }

    /** Accepted characters join the buffer. */
    method Flush(line: array<char>, out: nat)
      requires out <= line.Length
      modifies `buffer
      ensures buffer == old(buffer) + line[..out]
    {
      if out != 0 {
        buffer := buffer + line[..out];
      }
    }

    /** Adds a character to the statement, with the space that a removed comment left. */
    method AcceptChar(line: array<char>, pos: nat, out: nat, need: bool) returns (out': nat)
      requires out + (if need then 1 else 0) <= pos < line.Length
      modifies line
      ensures out < out' <= pos + 1
      ensures line[..out'] == old(line[..out]) + (if need && !IsSpace(old(line[pos])) then " " else "") + [old(line[pos])]
      ensures forall i :: pos < i < line.Length ==> line[i] == old(line[i])
    {
      var c := line[pos];
      ghost var front := line[..out];
      out' := out;
      if need && !IsSpace(c) {
        line[out'] := ' ';
        out' := out' + 1;
      }
      line[out'] := c;
      out' := out' + 1;
      assert line[..out] == front;
    }

    /** The last branch: quotes are opened and closed, the character is kept outside comments. */
    method AddChar(line: array<char>, pos: nat, out: nat, ss: bool, need: bool) returns (out': nat, ss': bool, need': bool)
      requires out + (if need then 1 else 0) <= pos < line.Length - 1 && line[pos] != '\0' && line[line.Length - 1] == '\0'
      modifies `inString, line
      ensures out' + (if need' then 1 else 0) <= pos + 1
      ensures Mid(line, out', ss', need') == Plain(old(Mid(line, out, ss, need)), old(line[pos..line.Length - 1]))
      ensures forall i :: pos < i < line.Length ==> line[i] == old(line[i])
    {
      ghost var r := line[pos..line.Length - 1];
      var c := line[pos];
      ss', out', need' := ss, out, need;
      if inString == NONE && c == '/' && line[pos + 1] == '*' && line[pos + 2] == '!' {
        ss' := true;
      } else if inString == NONE && ss && c == '*' && line[pos + 1] == '/' {
        ss' := false;
      }
      if c == inString {
        inString := NONE;
      } else if !mlComment && inString == NONE && IsQuote(c) {
        inString := c;
      }
      if !mlComment {
        out' := AcceptChar(line, pos, out, need);
        need' := false;
      }
    }

    /** The search for a pattern in the rest of the line. */
    method Seek(line: array<char>, pos: nat, from: nat, pat: string) returns (j: nat)
      requires pos + from <= line.Length - 1
      ensures j == Find(line[pos..line.Length - 1], from, pat)
    {
      ghost var r := line[pos..line.Length - 1];
      j := from;
      while pos + j < line.Length - 1 && !(pat <= line[pos + j..line.Length - 1])
        invariant from <= j <= |r| && Find(r, j, pat) == Find(r, from, pat)
      {
        assert line[pos + j..line.Length - 1] == r[j..];
        j := j + 1;
      }
      assert line[pos + j..line.Length - 1] == r[j..];
    }

    method SkipParameters(line: array<char>, pos: nat, params: bool, ss: bool) returns (n: nat)
      requires pos + 2 <= line.Length - 1
      ensures n == AfterCommand(line[pos..line.Length - 1], params, ss, delim)
    {
      hide Find;
      n := 2;
      if params && ss {
        n := Seek(line, pos, 2, "*/");
      } else if params {
        n := Seek(line, pos, 2, delim);
        if pos + n < line.Length - 1 {
          n := n + |delim|;
        }
      }
    }

    /** A one-letter command. */
    method RunCommand(line: array<char>, pos: nat, out: nat, ss: bool, need: bool) returns (pos': nat)
      requires out <= pos < line.Length - 2 && line[pos] == '\\' && inString == NONE && line[pos + 1] != 'N' && line[pos + 1] in ctx.commands && !quit
      modifies `buffer, `delim, `quit
      ensures pos < pos' < line.Length
      ensures (Mid(line, 0, ss, need), pos' - pos) == Escaped(old(Mid(line, out, ss, need)), ctx, line[pos..line.Length - 1])
    {
      hide AfterCommand;
      ghost var r := line[pos..line.Length - 1];
      assert r[1] == line[pos + 1];
      Flush(line, out);
      var e := ctx.command(line[pos + 1], buffer, line[pos..line.Length - 1], delim);
      buffer, delim, quit := e.buffer, e.delim, e.quit;
      if quit {
        pos' := line.Length - 1;
      } else {
        var n := SkipParameters(line, pos, line[pos + 1] in ctx.params, ss);
        pos' := pos + n;
      }
      assert line[..0] == "";
    }

    /** A backslash. */
    method AddEscape(line: array<char>, pos: nat, out: nat, ss: bool, need: bool) returns (pos': nat, out': nat)
      requires out + (if need then 1 else 0) <= pos < line.Length - 1 && line[pos] == '\\' && line[line.Length - 1] == '\0' && !quit
      requires forall i :: pos <= i < line.Length - 1 ==> line[i] != '\0'
      modifies `buffer, `delim, `quit, line
      ensures pos < pos' < line.Length && out' + (if need then 1 else 0) <= pos'
      ensures forall i :: pos' <= i < line.Length ==> line[i] == old(line[i])
      ensures (Mid(line, out', ss, need), pos' - pos) == Escaped(old(Mid(line, out, ss, need)), ctx, old(line[pos..line.Length - 1]))
    {
      hide AfterCommand;
      ghost var r := line[pos..line.Length - 1];
      pos', out' := pos + 1, out;
      var c := line[pos'];
      assert |r| > 1 ==> r[1] == c;
      if c == '\0' {
      } else if inString != NONE || c == 'N' || (c !in ctx.commands && !ctx.fatal) {
        out', pos' := KeepPair(line, out, pos);
      } else if c !in ctx.commands {
        quit := true;
        pos', out' := line.Length - 1, 0;
        assert line[..0] == "";
      } else {
        pos' := RunCommand(line, pos, out, ss, need);
        out' := 0;
      }
    }

    method KeepPair(line: array<char>, out: nat, pos: nat) returns (out': nat, pos': nat)
      requires out <= pos < line.Length - 2
      modifies line
      ensures out' == out + 2 <= pos' == pos + 2 && line[..out'] == old(line[..out]) + old(line[pos..line.Length - 1][..2])
      ensures forall i :: pos' <= i < line.Length ==> line[i] == old(line[i])
    {
      var a, b := line[pos], line[pos + 1];
      ghost var front, pair := line[..out], [a, b];
      assert line[pos..line.Length - 1][..2] == pair;
      line[out] := a;
      line[out + 1] := b;
      out', pos' := out + 2, pos + 2;
      assert line[..out'] == front + pair;
    }

    method Choose(line: array<char>, pos: nat, out: nat, ss: bool, ghost need: bool) returns (m: Move)
      requires out <= pos < line.Length - 1 && line[line.Length - 1] == '\0'
      requires forall i :: pos <= i < line.Length - 1 ==> line[i] != '\0'
      ensures m == Classify(Mid(line, out, ss, need), ctx, line[pos..line.Length - 1])
    {
      ghost var r := line[pos..line.Length - 1];
      var c := line[pos];
      var bare := !mlComment && inString == NONE;
      if IsSpace(c) && out == 0 && buffer == "" {
        m := Skip;
      } else if !mlComment && c == '\\' && !(inString != NONE && ctx.noEscapes) {
        m := Escape;
      } else if bare && delim <= line[pos..line.Length - 1] {
        m := EndStatement;
      } else if bare && (c == '#' || (c == '-' && line[pos + 1] == '-' && (IsSpace(line[pos + 2]) || line[pos + 2] == '\0'))) {
        m := LineComment;
      } else if inString == NONE && c == '/' && line[pos + 1] == '*' && line[pos + 2] != '!' {
        m := OpenComment;
      } else if mlComment && !ss && c == '*' && line[pos + 1] == '/' {
        m := CloseComment;
      } else {
        m := Keep;
      }
    }

    /** The end of a statement. */
    method HandOver(line: array<char>, pos: nat, out: nat, ghost ss: bool, ghost need: bool) returns (pos': nat)
      requires out <= pos < line.Length - 1 && delim <= line[pos..line.Length - 1] && !quit
      modifies `buffer, `sent, `delim, `quit
      ensures pos < pos' < line.Length
      ensures (Mid(line, 0, ss, need), pos' - pos) == Ended(old(Mid(line, out, ss, need)), ctx, line[pos..line.Length - 1])
    {
      pos' := pos + |delim|;
      Flush(line, out);
      sent := sent + [buffer];
      var e := ctx.submit(buffer, delim);
      delim, quit := e.delim, e.quit;
      if quit {
        buffer, pos' := e.buffer, line.Length - 1;
      } else {
        buffer := "";
      }
      assert line[..0] == "";
    }

    /** The beginning or the end of a comment. */
    method EnterComment(line: array<char>, pos: nat, out: nat, ghost ss: bool, need: bool, move: Move) returns (pos': nat, need': bool)
      requires out <= pos < line.Length - 1 && (move == OpenComment || move == CloseComment || move == LineComment)
      requires move != LineComment ==> pos < line.Length - 2
      modifies `buffer, `mlComment
      ensures pos < pos' < line.Length && (need' && !need ==> pos' >= pos + 1)
      ensures (Mid(line, 0, ss, need'), pos' - pos) == Apply(move, old(Mid(line, out, ss, need)), ctx, line[pos..line.Length - 1])
    {
      pos', need' := pos + 2, need;
      Flush(line, out);
      if move == LineComment {
        pos' := line.Length - 1;
      } else {
        mlComment := move == OpenComment;
        need' := need || move == CloseComment;
      }
      assert line[..0] == "";
    }

    /** One round of the loop. */
    method Round(line: array<char>, pos: nat, out: nat, ss: bool, need: bool)
      returns (pos': nat, out': nat, ss': bool, need': bool)
      requires out + (if need then 1 else 0) <= pos < line.Length - 1 && line[line.Length - 1] == '\0' && !quit
      requires forall i :: pos <= i < line.Length - 1 ==> line[i] != '\0'
      modifies this, line
      ensures pos < pos' < line.Length && out' + (if need' then 1 else 0) <= pos'
      ensures forall i :: pos' <= i < line.Length ==> line[i] == old(line[i])
      ensures (Mid(line, out', ss', need'), pos' - pos) == Step(old(Mid(line, out, ss, need)), ctx, old(line[pos..line.Length - 1]))
    {
      hide Plain, Escaped, Ended;
      ghost var r := line[pos..line.Length - 1];
      var move := Choose(line, pos, out, ss, need);
      pos', out', ss', need' := pos + 1, out, ss, need;
      if move == Escape {
        pos', out' := AddEscape(line, pos, out, ss, need);
      } else if move == Keep {
        out', ss', need' := AddChar(line, pos, out, ss, need);
      } else if move == EndStatement {
        pos' := HandOver(line, pos, out, ss, need);
        out' := 0;
      } else if move != Skip {
        pos', need' := EnterComment(line, pos, out, ss, need, move);
        out' := 0;
      }
    }

    /** The line lies in `line`, ended by a NUL; accepted characters are written back to its front,
        never ahead of what was read. */
    method AddLine(line: array<char>, truncated: bool)
      requires line.Length > 0 && line[line.Length - 1] == '\0' && !quit
      requires forall i :: 0 <= i < line.Length - 1 ==> line[i] != '\0'
      modifies this, line
      ensures State() == LineSpec(old(State()), ctx, old(line[..line.Length - 1]), truncated)
    {
      hide Step;
      var len := line.Length - 1;
      ghost var text := line[..len];
      if line[0] == '\0' && buffer == "" {
        return;
      }
      var pos: nat, out: nat, ss, need := 0, 0, false, false;
      ghost var start := State().Start();
      assert text[0..] == text;
      while line[pos] != '\0' && !quit
        invariant out + (if need then 1 else 0) <= pos <= len
        invariant forall i :: pos <= i <= len ==> line[i] == old(line[i])
        invariant Scan(Mid(line, out, ss, need), ctx, text[pos..]) == Scan(start, ctx, text)
        invariant quit ==> pos == len
        decreases len - pos
      {
        assert line[pos..len] == text[pos..];
        ghost var p := pos;
        QuitsAtEnd(Mid(line, out, ss, need), ctx, text[pos..]);
        pos, out, ss, need := Round(line, pos, out, ss, need);
        assert text[p..][pos - p..] == text[pos..];
      }
      assert text[len..] == "";
      if !quit {
        EndOfLine(line, out, ss, need, truncated);
      }
    }

    method EndOfLine(line: array<char>, out: nat, ghost ss: bool, ghost need: bool, truncated: bool)
      requires out < line.Length && !quit
      modifies `buffer, line
      ensures State() == Carried(Finish(old(Mid(line, out, ss, need)), truncated))
    {
      if out != 0 || buffer != "" {
        var length := out;
        if !truncated && (length < 9 || !StartsWithDelimiterWord(line[..out]) || inString != NONE || mlComment) {
          line[out] := '\n';
          length := length + 1;
        }
        if !mlComment {
          buffer := buffer + line[..length];
        }
      }
    }
  }

  /** When the client ends, nothing of the line is left to read. */
  lemma QuitsAtEnd(st: St, ctx: Ctx, r: string)
    requires r != "" && !st.quit
    ensures var (s, n) := Step(st, ctx, r); s.quit ==> n == |r|
  {
  }
}
