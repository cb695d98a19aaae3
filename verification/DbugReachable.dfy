/** Every settings level that `_db_push_`, `_db_set_` and `_db_pop_` can produce is explainable:
    the hypothesis of the round trip holds of all of them. */
module DbugReachable {
  import opened DbugList
  import opened DbugControl
  import opened DbugExplain
  import opened DbugRoundTrip

  // ----- texts

  lemma {:induction false} FieldIsSafe(c: string, i: nat)
    requires i <= |c|
    ensures Safe(c[i..StrTok(c, i)])
    decreases |c| - i
  {
    var e := StrTok(c, i);
    var t := c[i..e];
    if i < |c| && c[i] != ':' {
      FieldIsSafe(c, i + 1);
      assert t[1..] == c[i + 1..e];
    } else if i + 1 < |c| && c[i] == ':' && (c[i + 1] == '\\' || c[i + 1] == '/') {
      FieldIsSafe(c, i + 1);
      assert e == StrTok(c, i + 1) == StrTok(c, i + 2);
      assert t[1..] == c[i + 1..e];
    } else if i + 1 < |c| && c[i] == ':' && c[i + 1] == ':' {
      FieldIsSafe(c, i + 2);
      assert t[2..] == c[i + 2..e];
    }
  }

  /** The argument of a command in a safe field is safe. */
  lemma ArgIsSafe(text: string)
    requires text != "" && Safe(text) && ReadField(text).Command? && ReadField(text).letter != ':'
    ensures Safe(ReadField(text).arg)
  {
    var t := if text[0] == '+' || text[0] == '-' then text[1..] else text;
    assert Safe(t);
    assert Safe(t[1..]);
    if |t| > 1 && t[1] == ',' {
      assert t[1..][1..] == t[2..];
    }
  }

  lemma {:induction false} SafeSplit(t: string, n: nat)
    requires Safe(t) && n < |t| && t[n] == ','
    ensures Safe(t[..n]) && Safe(t[n + 1..])
    decreases |t|
  {
    if n > 0 {
      if t[0] == ':' && t[1] == ':' {
        SafeSplit(t[2..], n - 2);
        assert t[..n][2..] == t[2..][..n - 2] && t[n + 1..] == t[2..][n - 1..];
      } else {
        SafeSplit(t[1..], n - 1);
        assert t[..n][1..] == t[1..][..n - 1] && t[n + 1..] == t[1..][n..];
      }
    }
  }

  // ----- lists

  lemma MarkedIsPrintable(e: Elem, sub: bool)
    requires Printable(e)
    ensures Printable(e.(subdir := e.subdir || sub)) && Printable(e.(incl := true, subdir := e.subdir || sub))
  {
    if sub && !e.subdir {
      SafeWithoutColon("/");
      SafeConcat(e.str, "/");
    }
  }

  lemma NewIsPrintable(tok: string, todo: Todo)
    requires GoodToken(tok)
    ensures Printable(NewElem(tok, todo))
  {
    var e := NewElem(tok, todo);
    if EndsWithSlash(tok) {
      assert tok[..|tok| - 1] + "/" == tok;
    }
    assert Token(e) == tok;
  }

  lemma {:induction false} AddTokenPrintable(list: seq<Elem>, tok: string, todo: Todo)
    requires PrintableList(list) && GoodToken(tok)
    ensures PrintableList(AddToken(list, tok, todo))
  {
    hide Printable, GoodToken;
    if list == [] {
      NewIsPrintable(tok, todo);
    } else if Hits(list[0], tok) {
      MarkedIsPrintable(list[0], EndsWithSlash(tok));
    } else {
      assert PrintableList(list[1..]);
      AddTokenPrintable(list[1..], tok, todo);
    }
  }

  lemma {:induction false} ListAddDelPrintable(list: seq<Elem>, text: string, todo: Todo)
    requires PrintableList(list) && Safe(text)
    ensures PrintableList(ListAddDel(list, text, todo))
    decreases |text|
  {
    hide AddToken, PrintableList;
    if text != "" {
      var n := TokenEnd(text);
      var tok := text[..n];
      if n < |text| {
        SafeSplit(text, n);
      } else {
        assert tok == text;
      }
      if Pattern(tok) != "" {
        AddTokenPrintable(list, tok, todo);
      }
      if n < |text| {
        var list' := if Pattern(tok) == "" then list else AddToken(list, tok, todo);
        ListAddDelPrintable(list', text[n + 1..], todo);
      }
    }
  }

  lemma ReversePrintable(list: seq<Elem>)
    requires PrintableList(list)
    ensures PrintableList(Reverse(list))
  {
    hide Printable;
  }

  lemma EditListPrintable(l: Lst, rel: bool, cmd: Command, debugging: bool)
    requires cmd.Command? && PrintableList(l.elems) && Safe(cmd.arg)
    ensures PrintableList(EditList(l, rel, cmd, debugging).elems)
  {
    hide Printable, ListAddDel, Safe;
    ReversePrintable(l.elems);
    ListAddDelPrintable(Unshare(l, rel).elems, cmd.arg, Exclude);
    ListAddDelPrintable(Unshare(l, rel).elems, cmd.arg, Include);
  }

  // ----- fields

  predicate BaseOk(b: Base) {
    !b.sw.profile && b.sw.trace == (b.maxdepth > 0) && OutputOk(b)
  }

  lemma OpenFileOk(b: Base, path: string)
    requires !b.sw.profile && b.sw.trace == (b.maxdepth > 0) && path != "" && Safe(path)
    ensures BaseOk(OpenFile(b, path))
  {
    hide Safe;
  }

  lemma OpenOutputOk(b: Base, letter: char, arg: string)
    requires BaseOk(b) && Safe(arg)
    ensures BaseOk(OpenOutput(b, letter, arg))
  {
    hide Safe, OpenFile, OutputOk, BaseOk;
    var sw := b.sw.(flush := b.sw.flush || letter == 'A' || letter == 'O', append := letter == 'a' || letter == 'A');
    var path := if arg != "" then arg else "-";
    assert Safe(path) by {
      if arg == "" {
        SafeWithoutColon("-");
      }
    }
    assert !sw.profile && sw.trace == (b.maxdepth > 0) by { BaseProfile(b); }
    OpenFileOk(b.(sw := sw), path);
  }

  lemma EditOutputOk(b: Base, letter: char, neg: bool, arg: string)
    requires BaseOk(b) && Safe(arg)
    ensures BaseOk(EditOutput(b, letter, neg, arg))
  {
    hide Safe, OpenOutput;
    if !neg {
      OpenOutputOk(b, letter, arg);
    }
  }

  lemma EditTraceOk(b: Base, neg: bool, arg: string)
    requires BaseOk(b)
    ensures BaseOk(EditTrace(b, neg, arg))
  {
    hide Safe, Atoi;
  }

  lemma EditSwitchesOk(b: Base, sw: Switches)
    requires BaseOk(b) && !sw.profile && sw.trace == b.sw.trace && sw.flush == b.sw.flush
    ensures BaseOk(b.(sw := sw))
  {
    hide Safe;
  }

  lemma EditScalarOk(b: Base, n: nat)
    requires BaseOk(b)
    ensures BaseOk(b.(delay := n)) && BaseOk(b.(subLevel := n))
  {
    hide Safe;
  }

  lemma EditBaseOk(b: Base, cmd: Command, level: nat)
    requires BaseOk(b) && cmd.Command? && (IsOutput(cmd.letter) ==> Safe(cmd.arg))
    ensures BaseOk(EditBase(b, cmd, level))
  {
    hide BaseOk, Safe, Atoi, EditOutput, EditTrace, EditSwitch, EditDebug;
    if cmd.letter == 'd' {
      DebugKeeps(b.sw, cmd.neg, cmd.arg);
      BaseProfile(b);
      EditSwitchesOk(b, EditDebug(b.sw, cmd.neg, cmd.arg));
    } else if cmd.letter == 'D' {
      EditScalarOk(b, Atoi(cmd.arg) % UINT);
    } else if cmd.letter == 'r' {
      EditScalarOk(b, level);
    } else if cmd.letter == 't' {
      EditTraceOk(b, cmd.neg, cmd.arg);
    } else if IsOutput(cmd.letter) {
      EditOutputOk(b, cmd.letter, cmd.neg, cmd.arg);
    } else {
      SwitchKeeps(b.sw, cmd.letter, !cmd.neg);
      BaseProfile(b);
      EditSwitchesOk(b, EditSwitch(b.sw, cmd.letter, !cmd.neg));
    }
  }

  lemma BaseProfile(b: Base)
    requires BaseOk(b)
    ensures !b.sw.profile && b.sw.trace == (b.maxdepth > 0)
  {
    hide OutputOk;
  }

  lemma DebugKeeps(sw: Switches, neg: bool, arg: string)
    ensures var r := EditDebug(sw, neg, arg);
            r.profile == sw.profile && r.trace == sw.trace && r.flush == sw.flush
  {
  }

  lemma SwitchKeeps(sw: Switches, letter: char, on: bool)
    ensures var r := EditSwitch(sw, letter, on);
            r.profile == sw.profile && r.trace == sw.trace && r.flush == sw.flush
  {
  }

  /** No keywords without DEBUG_ON. */
  predicate DebugOk(s: Settings) { s.base.sw.debug || s.lists.keywords.elems == [] }

  lemma OpenKeepsDebug(b: Base, letter: char, arg: string)
    ensures OpenOutput(b, letter, arg).sw.debug == b.sw.debug
  {
  }

  lemma OutputKeepsDebug(b: Base, letter: char, neg: bool, arg: string)
    ensures EditOutput(b, letter, neg, arg).sw.debug == b.sw.debug
  {
    hide OpenOutput;
    OpenKeepsDebug(b, letter, arg);
  }

  lemma TraceKeepsDebug(b: Base, neg: bool, arg: string)
    ensures EditTrace(b, neg, arg).sw.debug == b.sw.debug
  {
    hide Atoi;
  }

  lemma EditBaseDebug(b: Base, cmd: Command, level: nat)
    requires cmd.Command?
    ensures EditBase(b, cmd, level).sw.debug ==
            if cmd.letter == 'd' then EditDebug(b.sw, cmd.neg, cmd.arg).debug else b.sw.debug
  {
    hide Atoi, EditDebug, EditOutput, EditTrace, IsOutput;
    OutputKeepsDebug(b, cmd.letter, cmd.neg, cmd.arg);
    TraceKeepsDebug(b, cmd.neg, cmd.arg);
  }

  lemma FieldKeepsDebugOk(s: Settings, rel: bool, text: string, level: nat)
    requires text != "" && DebugOk(s)
    ensures DebugOk(Field(s, rel, text, level))
  {
    hide EditBase, ReadField, ListAddDel;
    var cmd := ReadField(text);
    if cmd.Command? {
      EditBaseDebug(s.base, cmd, level);
    }
  }

  lemma FieldKeepsExplainable(s: Settings, rel: bool, text: string, level: nat)
    requires text != "" && Safe(text) && Explainable(s)
    ensures Explainable(Field(s, rel, text, level))
  {
    hide EditBase, ReadField, EditList, PrintableList, OutputOk, Safe;
    var cmd := ReadField(text);
    if cmd.Command? {
      if cmd.letter != ':' {
        ArgIsSafe(text);
      }
      EditBaseOk(s.base, cmd, level);
      FieldKeepsDebugOk(s, rel, text, level);
      if EditsList(cmd.letter) {
        EditListPrintable(s.lists.Get(ListOf(cmd.letter)), rel, cmd, s.base.sw.debug);
      }
    }
  }

  lemma {:induction false} FieldsKeepExplainable(s: Settings, rel: bool, c: string, i: nat, level: nat)
    requires i <= |c| && Explainable(s)
    ensures Explainable(Fields(s, rel, c, i, level).0)
    decreases |c| - i
  {
    hide Field, Safe, Explainable, UsesFunctions, StrTok;
    var e := StrTok(c, i);
    if i != e {
      FieldIsSafe(c, i);
      FieldKeepsExplainable(s, rel, c[i..e], level);
      if e < |c| {
        FieldsKeepExplainable(Field(s, rel, c[i..e], level), rel, c, e + 1, level);
      }
    }
  }

  // ----- stacks

  predicate AllExplainable(stack: seq<Settings>) {
    stack != [] && forall i :: 0 <= i < |stack| ==> Explainable(stack[i])
  }

  lemma InheritExplainable(below: Settings, initial: bool)
    requires Explainable(below)
    ensures Explainable(Inherit(below, initial))
  {
    hide PrintableList;
    ReversePrintable(below.lists.keywords.elems);
    ReversePrintable(below.lists.functions.elems);
    ReversePrintable(below.lists.processes.elems);
  }

  lemma ClearedExplainable(b: Base)
    ensures Explainable(Cleared(b))
  {
  }

  /** A parse of any control string, on the top level or on a freshly pushed one. */
  lemma ParseExplainable(stack: seq<Settings>, control: string, level: nat)
    requires stack != []
    requires AllExplainable(stack) || (|stack| > 1 && stack[|stack| - 1] == FRESH && AllExplainable(stack[..|stack| - 1]))
    ensures Explainable(Parse(stack, control, level).0)
  {
    hide Explainable, Fields, Inherit, Cleared;
    var c := StripDash(control);
    var top := stack[|stack| - 1];
    ClearedExplainable(top.base);
    if top == FRESH && |stack| > 1 {
      assert stack[|stack| - 2] == stack[..|stack| - 1][|stack| - 2] || AllExplainable(stack);
      assert Explainable(stack[|stack| - 2]);
      InheritExplainable(stack[|stack| - 2], |stack| == 2);
    } else {
      assert Explainable(top);
      assert !top.base.out.Unset? by { ExplainableIsOpen(top); }
    }
    FieldsKeepExplainable(Start(stack, c), Relative(c), c, 0, level);
  }

  lemma ExplainableIsOpen(s: Settings)
    requires Explainable(s)
    ensures !s.base.out.Unset?
  {
  }

  /** Whatever is pushed, set or popped, every level stays explainable. */
  lemma StackStaysExplainable(stack: seq<Settings>, control: string, level: nat)
    requires AllExplainable(stack)
    ensures AllExplainable(PushStack(stack, control, level))
    ensures AllExplainable(SetStack(stack, control, level))
    ensures AllExplainable(PopStack(stack))
  {
    hide Explainable, Parse;
    var pushed := PushState(stack);
    assert pushed[..|pushed| - 1] == stack;
    ParseExplainable(pushed, control, level);
    ParseExplainable(stack, control, level);
  }
}
