/** `read_and_execute` in batch mode: from the bytes of a script to the statements and client commands
    executed.  A client command may change the delimiter. */
module BatchClient {
  import opened AddLine
  import opened StatementCut
  import opened LineReader

  const BOM := "\U{EF}\U{BB}\U{BF}"

  /** The first line may start with a byte order mark. */
  function SkipBom(line: string): string { if BOM <= line then line[3..] else line }

  function Script(lines: seq<string>, first: bool): seq<string> {
    if lines != [] && first then [SkipBom(lines[0])] + lines[1..] else lines
  }

  predicate IsGraph(c: char) { '!' <= c <= '~' }

  /** Without the control characters and spaces at the end. */
  function TrimRight(s: string): string {
    if s != "" && !IsGraph(s[|s| - 1]) then TrimRight(s[..|s| - 1]) else s
  }

  method RemoveControl(s: string) returns (t: string)
    ensures t == TrimRight(s)
  {
    var end := |s|;
    assert s[..end] == s;
    while 0 < end && !IsGraph(s[end - 1])
      invariant 0 <= end <= |s| && TrimRight(s[..end]) == TrimRight(s)
    {
      assert s[..end][..end - 1] == s[..end - 1];
      end := end - 1;
    }
    t := s[..end];
  }

  /** The line is a string in memory, ended by a NUL. */
  method ExecuteLine(client: Client, line: string)
    requires NulFree(line) && !client.quit
    modifies client
    ensures client.State() == LineSpec(old(client.State()), client.ctx, line, false)
  {
    var text := new char[|line| + 1](i requires 0 <= i <= |line| => if i < |line| then line[i] else '\0');
    assert text[..|line|] == line;
    hide LineSpec;
    client.AddLine(text, false);
  }

  /** Is the line, where the plain scanner stands, taken as a client command?  Commands are looked for
      outside strings, at the start of a statement or everywhere. */
  predicate Dispatches(p: Pure, ctx: Ctx, line: string) {
    p.quote == NONE && (ctx.named || TrimLeft(p.cur) == "") && ctx.isCommand(line)
  }

  function Ran(p: Pure, ctx: Ctx, line: string): Effect { ctx.runLine(line, TrimLeft(p.cur), p.delim) }

  /** The plain scanner after a line of a script: a client command may change the delimiter, any other
      line is cut at the delimiters. */
  function AfterLine(p: Pure, ctx: Ctx, line: string): Pure {
    if Dispatches(p, ctx, line) then p.(delim := Ran(p, ctx, line).delim) else CutAll(p, ctx, line + "\n")
  }

  function ScriptEnd(p: Pure, ctx: Ctx, lines: seq<string>): Pure
    decreases |lines|
  {
    if lines == [] then p else ScriptEnd(AfterLine(p, ctx, lines[0]), ctx, lines[1..])
  }

  /** The lines of a script that are client commands. */
  function Commands(p: Pure, ctx: Ctx, lines: seq<string>): seq<string>
    decreases |lines|
  {
    if lines == [] then []
    else
      var rest := Commands(AfterLine(p, ctx, lines[0]), ctx, lines[1..]);
      if Dispatches(p, ctx, lines[0]) then [lines[0]] + rest else rest
  }

  /** A client command leaves the statement alone and does not end the client; any other line is
      quiet. */
  predicate OrderlyLine(p: Pure, ctx: Ctx, line: string) {
    if Dispatches(p, ctx, line) then
      var e := Ran(p, ctx, line);
      !e.quit && e.buffer == TrimLeft(p.cur) && GoodDelim(e.delim)
    else Quiet(p, ctx, line) && NoDelimiterWord(line)
  }

  predicate Orderly(p: Pure, ctx: Ctx, lines: seq<string>)
    decreases |lines|
  {
    lines == [] || (OrderlyLine(p, ctx, lines[0]) && Orderly(AfterLine(p, ctx, lines[0]), ctx, lines[1..]))
  }

  /** Without client commands a script is cut as one text. */
  lemma {:induction false} ScriptIsText(p: Pure, ctx: Ctx, lines: seq<string>)
    requires GoodDelim(p.delim) && Commands(p, ctx, lines) == []
    ensures ScriptEnd(p, ctx, lines) == CutAll(p, ctx, Joined(lines))
    decreases |lines|
  {
    hide Dispatches, GoodDelim, CutAll;
    if lines == [] {
      CutNothing(p, ctx);
    } else {
      assert !Dispatches(p, ctx, lines[0]);
      CutKeepsDelim(p, ctx, lines[0] + "\n");
      ScriptIsText(CutAll(p, ctx, lines[0] + "\n"), ctx, lines[1..]);
      CutInTwo(p, ctx, lines[0], Joined(lines[1..]));
    }
  }

  lemma CutNothing(p: Pure, ctx: Ctx)
    ensures CutAll(p, ctx, "") == p
  {
  }

  lemma {:induction false} CutKeepsDelim(p: Pure, ctx: Ctx, t: string)
    ensures CutAll(p, ctx, t).delim == p.delim
    decreases |t|
  {
    hide Take;
    if t != "" {
      CutKeepsDelim(Take(p, ctx, t).0, ctx, t[Take(p, ctx, t).1..]);
    }
  }

  /** The statements executed: the pieces between delimiters, then what is left if it is not blank. */
  function Executed(p: Pure): seq<string> {
    var last := TrimRight(TrimLeft(p.cur));
    TrimAll(p.done) + (if last == "" then [] else [last])
  }

  /** What the whole script comes to: the plain scanner at its end, and the client commands. */
  datatype Outcome = Outcome(end: Pure, commands: seq<string>)

  function Whole(p: Pure, ctx: Ctx, lines: seq<string>): Outcome { Outcome(ScriptEnd(p, ctx, lines), Commands(p, ctx, lines)) }

  /** Where the loop stands: the client agrees with the plain scanner, the rest of the script is
      orderly, and scanning it gives what scanning the whole script gives. */
  ghost predicate Underway(c: Carry, commands: seq<string>, p: Pure, ctx: Ctx, lines: seq<string>, whole: Outcome) {
    && Agrees(c, p) && Orderly(p, ctx, lines) && ScriptEnd(p, ctx, lines) == whole.end
    && commands + Commands(p, ctx, lines) == whole.commands
  }

  /** A script is its first line and then the rest. */
  lemma FirstLine(commands: seq<string>, p: Pure, ctx: Ctx, lines: seq<string>)
    requires lines != [] && Orderly(p, ctx, lines)
    ensures var q := AfterLine(p, ctx, lines[0]);
            && OrderlyLine(p, ctx, lines[0]) && Orderly(q, ctx, lines[1..]) && ScriptEnd(p, ctx, lines) == ScriptEnd(q, ctx, lines[1..])
            && commands + Commands(p, ctx, lines) ==
               (if Dispatches(p, ctx, lines[0]) then commands + [lines[0]] else commands) + Commands(q, ctx, lines[1..])
  {
    hide Dispatches, OrderlyLine, AfterLine;
    Regroup(commands, lines[0], Commands(AfterLine(p, ctx, lines[0]), ctx, lines[1..]));
  }

  lemma Regroup(a: seq<string>, x: string, b: seq<string>)
    ensures a + ([x] + b) == a + [x] + b
  {
  }

  lemma LineDone(c: Carry, commands: seq<string>, p: Pure, ctx: Ctx, lines: seq<string>, whole: Outcome)
    requires lines != [] && Underway(c, commands, p, ctx, lines, whole) && !Dispatches(p, ctx, lines[0])
    ensures Underway(LineSpec(c, ctx, lines[0], false), commands, AfterLine(p, ctx, lines[0]), ctx, lines[1..], whole)
  {
    hide Quiet, NoDelimiterWord, LineSpec, Agrees, Dispatches, CutAll, Orderly, ScriptEnd, Commands;
    FirstLine(commands, p, ctx, lines);
    LineAgrees(c, p, ctx, lines[0]);
  }

  lemma CommandDone(c: Carry, commands: seq<string>, p: Pure, ctx: Ctx, lines: seq<string>, whole: Outcome)
    requires lines != [] && Underway(c, commands, p, ctx, lines, whole) && Dispatches(p, ctx, lines[0])
    ensures Ran(p, ctx, lines[0]) == ctx.runLine(lines[0], c.buf, c.delim) && Ran(p, ctx, lines[0]).buffer == c.buf && !Ran(p, ctx, lines[0]).quit
    ensures Underway(c.(delim := Ran(p, ctx, lines[0]).delim), commands + [lines[0]], AfterLine(p, ctx, lines[0]), ctx, lines[1..], whole)
  {
    hide Dispatches, CutAll, Quiet, NoDelimiterWord, Orderly, ScriptEnd, Commands;
    FirstLine(commands, p, ctx, lines);
    assert c.buf + "" == c.buf;
  }

  /** The client's test for a command is that of the plain scanner. */
  lemma SameTest(c: Carry, commands: seq<string>, p: Pure, ctx: Ctx, lines: seq<string>, whole: Outcome)
    requires lines != [] && Underway(c, commands, p, ctx, lines, whole)
    ensures (ctx.named || c.buf == "") && !c.ml && c.quote == NONE && ctx.isCommand(lines[0]) <==> Dispatches(p, ctx, lines[0])
    ensures !c.quit
  {
    hide Orderly, CutAll, ScriptEnd, Commands;
    assert c.buf + "" == c.buf;
  }

  lemma NextOfScript(before: string, raw: string, rest: string, truncated: bool, maxSize: nat, first: bool)
    requires NulFree(before) && AllFit(before, maxSize) && NextPiece(before, raw, rest, truncated, maxSize)
    ensures var line := if first then SkipBom(Strip(raw)) else Strip(raw);
            Script(Lines(before), first) == [line] + Script(Lines(rest), false) && NulFree(line)
    ensures !truncated && NulFree(rest) && AllFit(rest, maxSize) && |rest| < |before|
    ensures forall atEnd :: Marked(raw, rest, atEnd) == rest
  {
    hide AllFit, Lines, Capacity, LineEnd;
    NextFits(before, raw, rest, truncated, maxSize);
    assert forall i :: 0 <= i < |raw| ==> raw[i] == before[i];
    assert ([Strip(raw)] + Lines(rest))[1..] == Lines(rest);
  }

  lemma Finished(c: Carry, commands: seq<string>, p: Pure, ctx: Ctx, whole: Outcome)
    requires Underway(c, commands, p, ctx, [], whole)
    ensures commands == whole.commands && c.sent == TrimAll(whole.end.done) && c.buf == TrimLeft(whole.end.cur) && !c.quit
  {
  }

  lemma Begin(delim: Delim, ctx: Ctx, lines: seq<string>)
    requires GoodDelim(delim) && Orderly(Begun(delim), ctx, lines)
    ensures Underway(Fresh(delim), [], Begun(delim), ctx, lines, Whole(Begun(delim), ctx, lines))
  {
    assert TrimLeft("") == "" && TrimAll([]) == [];
    assert [] + Commands(Begun(delim), ctx, lines) == Commands(Begun(delim), ctx, lines);
  }

  /** One line of the script, already read: a client command is executed at once, anything else joins
      the statement. */
  method TakeLine(client: Client, line: string, commands: seq<string>, ghost p: Pure, ghost lines: seq<string>, ghost whole: Outcome)
    returns (commands': seq<string>, ghost p': Pure)
    requires NulFree(line) && lines != [] && lines[0] == line
    requires Underway(client.State(), commands, p, client.ctx, lines, whole)
    modifies client
    ensures Underway(client.State(), commands', p', client.ctx, lines[1..], whole)
  {
    ghost var c := client.State();
    hide Underway, Dispatches, LineSpec, Ran, AfterLine, NulFree;
    SameTest(c, commands, p, client.ctx, lines, whole);
    commands', p' := commands, AfterLine(p, client.ctx, line);
    if (client.ctx.named || client.buffer == "") && !client.mlComment && client.inString == NONE && client.ctx.isCommand(line) {
      CommandDone(c, commands, p, client.ctx, lines, whole);
      var e := client.ctx.runLine(line, client.buffer, client.delim);
      client.buffer, client.delim, client.quit := e.buffer, e.delim, e.quit;
      if !client.quit && client.buffer == "" {
        client.inString := NONE;
      }
      commands' := commands + [line];
    } else {
      LineDone(c, commands, p, client.ctx, lines, whole);
      ExecuteLine(client, line);
    }
  }

  /** The next line of the script, without a byte order mark before the first one. */
  method ReadLine(buf: LineBuffer, first: bool) returns (more: bool, line: string)
    requires buf.Ready() && NulFree(buf.Pending()) && AllFit(buf.Pending(), buf.maxSize)
    modifies buf, buf.buffer
    ensures buf.error ==> !more && buf.readFailed
    ensures !buf.error ==> buf.Ready() && (buf.buffer == old(buf.buffer) || fresh(buf.buffer))
    ensures more ==> NulFree(buf.Pending()) && AllFit(buf.Pending(), buf.maxSize) && |buf.Pending()| < |old(buf.Pending())|
    ensures more ==> NulFree(line) && Script(Lines(old(buf.Pending())), first) == [line] + Script(Lines(buf.Pending()), false)
    ensures !buf.error && !more ==> Script(Lines(old(buf.Pending())), first) == []
  {
    ghost var before := buf.Pending();
    hide *;
    ghost var raw, rest;
    more, line, raw, rest := buf.NextOfFile();
    if more {
      NextOfScript(before, raw, rest, buf.truncated, buf.maxSize, first);
      line := if first then SkipBom(line) else line;
    } else if !buf.error {
      NothingLeft(first);
    }
  }

  /** Reads and executes one line; at the end of the script nothing is left to scan. */
  method OneLine(buf: LineBuffer, client: Client, first: bool, commands: seq<string>, ghost p: Pure, ghost whole: Outcome)
    returns (more: bool, commands': seq<string>, ghost p': Pure)
    requires buf.Ready() && NulFree(buf.Pending()) && AllFit(buf.Pending(), buf.maxSize)
    requires Underway(client.State(), commands, p, client.ctx, Script(Lines(buf.Pending()), first), whole)
    modifies buf, buf.buffer, client
    ensures buf.error ==> !more && buf.readFailed
    ensures !buf.error ==> buf.Ready() && (buf.buffer == old(buf.buffer) || fresh(buf.buffer))
    ensures more ==> NulFree(buf.Pending()) && AllFit(buf.Pending(), buf.maxSize) && |buf.Pending()| < |old(buf.Pending())|
    ensures !buf.error ==> Underway(client.State(), commands', p', client.ctx, if more then Script(Lines(buf.Pending()), false) else [], whole)
  {
    ghost var lines := Script(Lines(buf.Pending()), first);
    hide *;
    var line;
    more, line := ReadLine(buf, first);
    commands', p' := commands, p;
    if more {
      assert lines[1..] == Script(Lines(buf.Pending()), false);
      commands', p' := TakeLine(client, line, commands, p, lines, whole);
    }
  }

  lemma NothingLeft(first: bool)
    ensures Script(Lines(""), first) == []
  {
  }

  /** At the end of the script the last statement needs no delimiter. */
  method SendLast(client: Client, ghost commands: seq<string>, ghost p: Pure, ghost whole: Outcome)
    requires Underway(client.State(), commands, p, client.ctx, [], whole)
    modifies client
    ensures client.sent == Executed(whole.end) && commands == whole.commands && !client.quit
  {
    Finished(client.State(), commands, p, client.ctx, whole);
    hide TrimRight, TrimLeft, TrimAll, CutAll, Sim;
    client.buffer := RemoveControl(client.buffer);
    if client.buffer != "" {
      client.sent := client.sent + [client.buffer];
    }
  }

  /** Every statement and every client command of the script is executed, once and in order, for every
      way the reads split the script, unless reading fails. */
  method ReadAndExecute(buf: LineBuffer, client: Client) returns (commands: seq<string>)
    requires buf.Ready() && NulFree(buf.Pending()) && AllFit(buf.Pending(), buf.maxSize)
    requires GoodDelim(client.delim) && client.State() == Fresh(client.delim)
    requires Orderly(Begun(client.delim), client.ctx, Script(Lines(buf.Pending()), true))
    modifies buf, buf.buffer, client
    ensures buf.error ==> buf.readFailed
    ensures !buf.error ==> commands == Commands(Begun(old(client.delim)), client.ctx, Script(Lines(old(buf.Pending())), true))
    ensures !buf.error ==> client.sent == Executed(ScriptEnd(Begun(old(client.delim)), client.ctx, Script(Lines(old(buf.Pending())), true)))
  {
    ghost var lines := Script(Lines(buf.Pending()), true);
    ghost var p := Begun(client.delim);
    ghost var whole := Whole(p, client.ctx, lines);
    Begin(client.delim, client.ctx, lines);
    assert !buf.error && whole.end == ScriptEnd(p, client.ctx, lines) && whole.commands == Commands(p, client.ctx, lines);
    var more, first := true, true;
    commands := [];
    hide *;
    while more && !client.quit
      invariant !buf.error ==> buf.Ready() && (buf.buffer == old(buf.buffer) || fresh(buf.buffer))
      invariant buf.error ==> !more && buf.readFailed
      invariant more ==> NulFree(buf.Pending()) && AllFit(buf.Pending(), buf.maxSize)
      invariant !buf.error ==> Underway(client.State(), commands, p, client.ctx, if more then Script(Lines(buf.Pending()), first) else [], whole)
      decreases more, if more then |buf.Pending()| else 0
    {
      more, commands, p := OneLine(buf, client, first, commands, p, whole);
      first := false;
    }
    if !buf.error {
      SendLast(client, commands, p, whole);
    }
  }
}
