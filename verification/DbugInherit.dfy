/** What a new settings level starts from and what each letter of a control string changes: everything
    that no field mentions is taken over from the level beneath, or is off after an absolute string. */
module DbugInherit {
  import opened DbugList
  import opened DbugControl
  import DbugExplain
  import DbugHeap

  function Letter(field: string): char
    requires field != ""
  {
    if field[0] != '+' && field[0] != '-' then field[0] else if |field| > 1 then field[1] else '\0'
  }

  /** The letters of the fields of a control string from position `i` on. */
  function Letters(c: string, i: nat): set<char>
    requires i <= |c|
    decreases |c| - i
  {
    var e := StrTok(c, i);
    if i == e then {}
    else if e == |c| then {Letter(c[i..e])}
    else {Letter(c[i..e])} + Letters(c, e + 1)
  }

  predicate SwitchesKept(a: Switches, b: Switches, letters: set<char>) {
    && ('t' !in letters ==> b.trace == a.trace) && ('F' !in letters ==> b.file == a.file) && ('L' !in letters ==> b.line == a.line)
    && ('n' !in letters ==> b.depth == a.depth) && ('P' !in letters ==> b.process == a.process) && ('N' !in letters ==> b.number == a.number)
    && ('i' !in letters ==> b.pid == a.pid) && ('T' !in letters ==> b.timestamp == a.timestamp) && ('d' !in letters ==> b.debug == a.debug)
    && b.profile == a.profile
    && ('a' !in letters && 'A' !in letters && 'o' !in letters && 'O' !in letters ==> b.flush == a.flush && b.append == a.append)
  }

  predicate BaseKept(a: Base, b: Base, letters: set<char>) {
    && SwitchesKept(a.sw, b.sw, letters)
    && ('t' !in letters ==> b.maxdepth == a.maxdepth) && ('D' !in letters ==> b.delay == a.delay) && ('r' !in letters ==> b.subLevel == a.subLevel)
    && ('a' !in letters && 'A' !in letters && 'o' !in letters && 'O' !in letters ==> b.out == a.out && b.name == a.name)
  }

  predicate ListsKept(a: Quad<Lst>, b: Quad<Lst>, letters: set<char>) {
    && b.pFunctions.elems == a.pFunctions.elems && ('d' !in letters ==> b.keywords.elems == a.keywords.elems)
    && ('f' !in letters ==> b.functions.elems == a.functions.elems) && ('p' !in letters ==> b.processes.elems == a.processes.elems)
  }

  /** `b` has from `a` everything that the letters do not change. */
  predicate Kept(a: Settings, b: Settings, letters: set<char>) { BaseKept(a.base, b.base, letters) && ListsKept(a.lists, b.lists, letters) }

  lemma KeptTwice(a: Settings, b: Settings, c: Settings, x: set<char>, y: set<char>)
    requires Kept(a, b, x) && Kept(b, c, y)
    ensures Kept(a, c, x + y)
  {
  }

  lemma LetterRead(text: string)
    requires text != ""
    ensures var cmd := ReadField(text); cmd.Command? ==> cmd.letter == Letter(text)
  {
  }

  lemma OutputKept(b: Base, cmd: Command, level: nat)
    requires cmd.Command? && IsOutput(cmd.letter)
    ensures BaseKept(b, EditBase(b, cmd, level), {cmd.letter})
  {
    OutputOnly(b, cmd.letter, cmd.neg, cmd.arg);
    OutputIsEdited(b, cmd, level);
    hide EditBase, EditOutput;
  }

  lemma OutputIsEdited(b: Base, cmd: Command, level: nat)
    requires cmd.Command? && IsOutput(cmd.letter)
    ensures EditBase(b, cmd, level) == EditOutput(b, cmd.letter, cmd.neg, cmd.arg)
  {
    hide Atoi, EditTrace, EditSwitch, EditDebug, EditOutput;
  }

  lemma OutputOnly(b: Base, letter: char, neg: bool, arg: string)
    ensures var r := EditOutput(b, letter, neg, arg);
            && r.maxdepth == b.maxdepth && r.delay == b.delay && r.subLevel == b.subLevel
            && r.sw == b.sw.(flush := r.sw.flush, append := r.sw.append)
  {
  }

  lemma NumberKept(b: Base, cmd: Command, level: nat)
    requires cmd.Command? && (cmd.letter == 'D' || cmd.letter == 'r' || cmd.letter == 't')
    ensures BaseKept(b, EditBase(b, cmd, level), {cmd.letter})
  {
    hide Atoi;
  }

  lemma SwitchKept(b: Base, cmd: Command, level: nat)
    requires cmd.Command? && !IsOutput(cmd.letter) && cmd.letter != 'D' && cmd.letter != 'r' && cmd.letter != 't'
    ensures BaseKept(b, EditBase(b, cmd, level), {cmd.letter})
  {
    hide Atoi;
  }

  lemma ListKept(q: Quad<Lst>, letter: char, l: Lst)
    requires EditsList(letter)
    ensures ListsKept(q, q.Put(ListOf(letter), l), {letter})
  {
  }

  lemma FieldKept(s: Settings, rel: bool, text: string, level: nat)
    requires text != ""
    ensures Kept(s, Field(s, rel, text, level), {Letter(text)})
  {
    LetterRead(text);
    var cmd := ReadField(text);
    hide ReadField, Letter, EditList, EditBase, BaseKept;
    if cmd.Nothing? {
      NothingKept(s.base, {Letter(text)});
    } else {
      if IsOutput(cmd.letter) {
        OutputKept(s.base, cmd, level);
      } else if cmd.letter == 'D' || cmd.letter == 'r' || cmd.letter == 't' {
        NumberKept(s.base, cmd, level);
      } else {
        SwitchKept(s.base, cmd, level);
      }
      if EditsList(cmd.letter) {
        var k := ListOf(cmd.letter);
        ListKept(s.lists, cmd.letter, EditList(s.lists.Get(k), rel, cmd, s.base.sw.debug));
      }
    }
  }

  lemma NothingKept(b: Base, letters: set<char>)
    ensures BaseKept(b, b, letters)
  {
  }

  lemma {:induction false} FieldsKept(s: Settings, rel: bool, c: string, i: nat, level: nat)
    requires i <= |c|
    ensures Kept(s, Fields(s, rel, c, i, level).0, Letters(c, i))
    decreases |c| - i
  {
    hide Field, StrTok, UsesFunctions, Letter;
    var e := StrTok(c, i);
    if i == e {
    } else {
      FieldKept(s, rel, c[i..e], level);
      if e < |c| {
        hide Kept;
        FieldsKept(Field(s, rel, c[i..e], level), rel, c, e + 1, level);
        KeptTwice(s, Field(s, rel, c[i..e], level), Fields(s, rel, c, i, level).0, {Letter(c[i..e])}, Letters(c, e + 1));
      }
    }
  }

  function Top(v: seq<Settings>): Settings
    requires v != []
  {
    v[|v| - 1]
  }

  /** The elements beneath, in reverse order if the level beneath is the initial one. */
  predicate ListFrom(below: seq<Elem>, list: seq<Elem>, reversed: bool) {
    |list| == |below| && forall i :: 0 <= i < |below| ==> list[i] == below[if reversed then |below| - 1 - i else i]
  }

  /** A level that takes over everything from the one beneath it: output is not taken from the initial
      level, whose lists are copied in reverse. */
  predicate TakenOver(below: Settings, s: Settings, initial: bool) {
    && s.base.sw == below.base.sw && s.base.maxdepth == below.base.maxdepth && s.base.delay == below.base.delay
    && s.base.subLevel == below.base.subLevel && s.base.name == below.base.name
    && s.base.out == (if initial then Stderr else below.base.out)
    && ListFrom(below.lists.functions.elems, s.lists.functions.elems, initial)
    && ListFrom(below.lists.pFunctions.elems, s.lists.pFunctions.elems, initial)
    && ListFrom(below.lists.keywords.elems, s.lists.keywords.elems, initial)
    && ListFrom(below.lists.processes.elems, s.lists.processes.elems, initial)
  }

  /** Nothing is on, nothing is listed and output goes to stderr. */
  predicate AllOff(s: Settings) {
    && s.base.sw == Switches(false, false, false, false, false, false, false, false, false, false, false, false)
    && s.base.maxdepth == 0 && s.base.delay == 0 && s.base.subLevel == 0 && s.base.out == Stderr
    && s.lists.functions.elems == [] && s.lists.pFunctions.elems == [] && s.lists.keywords.elems == [] && s.lists.processes.elems == []
  }

  predicate IsRelative(control: string) {
    var c := StripDash(control);
    |c| > 0 && (c[0] == '+' || c[0] == '-')
  }

  lemma InheritTakesOver(below: Settings, initial: bool)
    ensures TakenOver(below, Inherit(below, initial), initial)
  {
  }

  /** `s` has from the level beneath everything that the letters do not change. */
  predicate NewLevel(below: Settings, s: Settings, letters: set<char>, initial: bool) {
    && SwitchesKept(below.base.sw, s.base.sw, letters)
    && ('t' !in letters ==> s.base.maxdepth == below.base.maxdepth)
    && ('D' !in letters ==> s.base.delay == below.base.delay)
    && ('r' !in letters ==> s.base.subLevel == below.base.subLevel)
    && ('a' !in letters && 'A' !in letters && 'o' !in letters && 'O' !in letters ==>
          s.base.out == (if initial then Stderr else below.base.out) && s.base.name == below.base.name)
    && ('d' !in letters ==> ListFrom(below.lists.keywords.elems, s.lists.keywords.elems, initial))
    && ('f' !in letters ==> ListFrom(below.lists.functions.elems, s.lists.functions.elems, initial))
    && ('p' !in letters ==> ListFrom(below.lists.processes.elems, s.lists.processes.elems, initial))
    && ListFrom(below.lists.pFunctions.elems, s.lists.pFunctions.elems, initial)
  }

  lemma KeptFromBelow(below: Settings, start: Settings, s: Settings, letters: set<char>, initial: bool)
    requires TakenOver(below, start, initial) && Kept(start, s, letters)
    ensures NewLevel(below, s, letters, initial)
  {
    hide ListFrom;
  }

  /** A relative push: the new level has from the one beneath everything the control string does not
      mention. */
  lemma RelativePush(v: seq<Settings>, control: string, level: nat)
    requires v != [] && !Top(v).base.out.Unset? && IsRelative(control)
    ensures |PushStack(v, control, level)| == |v| + 1 && PushStack(v, control, level)[..|v|] == v
    ensures NewLevel(Top(v), Top(PushStack(v, control, level)), Letters(StripDash(control), 0), |v| == 1)
  {
    var c := StripDash(control);
    var start := Inherit(Top(v), |v| == 1);
    InheritTakesOver(Top(v), |v| == 1);
    hide Fields, Inherit, Kept, TakenOver, Letters, NewLevel;
    assert PushState(v)[|v| - 1] == Top(v) && PushState(v)[|v|] == FRESH;
    assert Start(PushState(v), c) == start;
    FieldsKept(start, true, c, 0, level);
    KeptFromBelow(Top(v), start, Top(PushStack(v, control, level)), Letters(c, 0), |v| == 1);
  }

  /** A relative set edits the top level, or pushes above the initial one. */
  lemma RelativeSet(v: seq<Settings>, control: string, level: nat)
    requires |v| > 1 && !Top(v).base.out.Unset? && IsRelative(control)
    ensures |SetStack(v, control, level)| == |v| && SetStack(v, control, level)[..|v| - 1] == v[..|v| - 1]
    ensures Kept(Top(v), Top(SetStack(v, control, level)), Letters(StripDash(control), 0))
  {
    hide Fields, Kept, Letters;
    FieldsKept(Top(v), true, StripDash(control), 0, level);
  }

  lemma SetAboveInitial(v: seq<Settings>, control: string, level: nat)
    requires |v| == 1
    ensures SetStack(v, control, level) == PushStack(v, control, level)
  {
  }

  /** An absolute string starts from nothing, on a new level or on the top one. */
  lemma AbsolutePush(v: seq<Settings>, control: string, level: nat)
    requires v != [] && !IsRelative(control)
    ensures exists start :: AllOff(start) && Kept(start, Top(PushStack(v, control, level)), Letters(StripDash(control), 0))
  {
    var start := Cleared(FRESH.base);
    hide Fields, Letters, Kept;
    FieldsKept(start, false, StripDash(control), 0, level);
    assert AllOff(start);
  }

  lemma AbsoluteSet(v: seq<Settings>, control: string, level: nat)
    requires |v| > 1 && !IsRelative(control)
    ensures exists start :: AllOff(start) && Kept(start, Top(SetStack(v, control, level)), Letters(StripDash(control), 0))
  {
    var start := Cleared(Top(v).base);
    hide Fields, Letters, Kept;
    FieldsKept(start, false, StripDash(control), 0, level);
    assert AllOff(start);
  }

  // ----- what the letters do

  /** A relative string of one field, set on a level above the initial one. */
  lemma {:induction false} NoColon(c: string, i: nat)
    requires i <= |c| && ':' !in c
    ensures StrTok(c, i) == |c|
    decreases |c| - i
  {
    if i < |c| {
      NoColon(c, i + 1);
    }
  }

  lemma OneField(v: seq<Settings>, c: string, level: nat)
    requires |v| > 1 && !Top(v).base.out.Unset? && |c| > 1 && (c[0] == '+' || c[0] == '-') && c[1] != '#' && ':' !in c
    ensures Top(SetStack(v, c, level)) == Field(Top(v), true, c, level)
  {
    hide Field, UsesFunctions, StrTok;
    NoColon(c, 0);
    assert c[0..|c|] == c;
  }

  /** The switch that a letter turns on and off. */
  function Shown(sw: Switches, letter: char): bool {
    if letter == 'F' then sw.file else if letter == 'L' then sw.line else if letter == 'n' then sw.depth
    else if letter == 'P' then sw.process else if letter == 'N' then sw.number else if letter == 'i' then sw.pid else sw.timestamp
  }

  lemma SwitchTurns(v: seq<Settings>, letter: char, on: bool, level: nat)
    requires |v| > 1 && !Top(v).base.out.Unset? && letter in "FLnPNiT"
    ensures var c := [if on then '+' else '-', letter];
            Shown(Top(SetStack(v, c, level)).base.sw, letter) == on && Kept(Top(v), Top(SetStack(v, c, level)), {letter})
  {
    var c := [if on then '+' else '-', letter];
    assert letter != ':' && letter != '#';
    OneField(v, c, level);
    FieldKept(Top(v), true, c, level);
    hide SetStack, Kept, Top, Field;
    SwitchField(Top(v), c, letter, on, level);
  }

  lemma SwitchField(s: Settings, c: string, letter: char, on: bool, level: nat)
    requires c == [if on then '+' else '-', letter] && letter in "FLnPNiT"
    ensures Shown(Field(s, true, c, level).base.sw, letter) == on
  {
    assert c[1..] == [letter] && [letter][1..] == "";
    assert ReadField(c) == Command(!on, letter, "");
    hide ReadField, Atoi;
  }

  /** `+t,n` adds to the depth and `-t,n` subtracts from it, in 32 bits; tracing is on exactly when the
      depth is not zero. */
  lemma DepthChanges(v: seq<Settings>, n: nat, plus: bool, level: nat)
    requires |v| > 1 && !Top(v).base.out.Unset?
    ensures var b := Top(SetStack(v, (if plus then "+t," else "-t,") + DbugExplain.Digits(n), level)).base;
            var was := Top(v).base.maxdepth;
            && b.maxdepth == (if plus then was + n else was - n) % 0x1_0000_0000 && b.sw.trace == (b.maxdepth > 0)
            && (plus && was + n < 0x1_0000_0000 ==> b.maxdepth == was + n)
            && (!plus && n <= was < 0x1_0000_0000 ==> b.maxdepth == was - n)
  {
    hide SetStack, Atoi, DbugExplain.Digits, Top, Field, ReadField;
    var d := DbugExplain.Digits(n);
    var c := (if plus then "+t," else "-t,") + d;
    NumberText(c, 't', d, plus);
    OneField(v, c, level);
    DbugExplain.AtoiOfDigits(n);
    DepthField(Top(v), c, plus, d, level);
    Wraps(Top(v).base.maxdepth, n);
  }

  lemma DepthField(s: Settings, c: string, plus: bool, d: string, level: nat)
    requires c != "" && d != "" && ReadField(c) == Command(!plus, 't', d)
    ensures var b := Field(s, true, c, level).base;
            b.maxdepth == (if plus then s.base.maxdepth + Atoi(d) else s.base.maxdepth - Atoi(d)) % 0x1_0000_0000 && b.sw.trace == (b.maxdepth > 0)
  {
    hide Atoi, ReadField;
  }

  lemma Wraps(m: nat, n: nat)
    ensures m + n < 0x1_0000_0000 ==> (m + n) % 0x1_0000_0000 == m + n
    ensures n <= m < 0x1_0000_0000 ==> (m - n) % 0x1_0000_0000 == m - n
  {
  }

  lemma NumberText(c: string, letter: char, d: string, plus: bool)
    requires letter != ':' && c == [if plus then '+' else '-', letter, ','] + d && d != "" && forall i :: 0 <= i < |d| ==> IsDigit(d[i])
    ensures ':' !in c && ReadField(c) == Command(!plus, letter, d)
  {
    assert c[1..] == [letter, ','] + d && c[1..][2..] == d;
  }

  /** Without a number `+t` sets the largest depth and `-t` turns tracing off. */
  lemma DepthDefault(v: seq<Settings>, plus: bool, level: nat)
    requires |v| > 1 && !Top(v).base.out.Unset?
    ensures var b := Top(SetStack(v, if plus then "+t" else "-t", level)).base;
            b.maxdepth == (if plus then 200 else 0) && b.sw.trace == plus
  {
    var c := if plus then "+t" else "-t";
    OneField(v, c, level);
    hide SetStack, Top;
    assert c[1..] == "t" && "t"[1..] == "";
    assert ReadField(c) == Command(!plus, 't', "");
  }

  /** `D,n` sets the delay and `r` the level output is indented from. */
  lemma DelayChanges(v: seq<Settings>, n: nat, level: nat)
    requires |v| > 1 && !Top(v).base.out.Unset?
    ensures Top(SetStack(v, "+D," + DbugExplain.Digits(n), level)).base.delay == n % 0x1_0000_0000
    ensures Top(SetStack(v, "+r", level)).base.subLevel == level
  {
    var d := DbugExplain.Digits(n);
    NumberText("+D," + d, 'D', d, true);
    OneField(v, "+D," + d, level);
    OneField(v, "+r", level);
    DbugExplain.AtoiOfDigits(n);
    hide SetStack, Atoi, DbugExplain.Digits, Top;
    assert "+r"[1..] == "r" && "r"[1..] == "";
    assert ReadField("+r") == Command(false, 'r', "");
  }

  // ----- what a pattern does to a list

  /** A token is a pattern, with a slash after it if it is a SUBDIR one. */
  function Tok(pat: string, sub: bool): string { if sub then pat + "/" else pat }

  predicate IsPattern(pat: string) { pat != "" && pat[|pat| - 1] != '/' }

  lemma TokReads(pat: string, sub: bool)
    requires IsPattern(pat)
    ensures Pattern(Tok(pat, sub)) == pat && EndsWithSlash(Tok(pat, sub)) == sub
  {
  }

  predicate NoHit(list: seq<Elem>, pat: string, i: nat)
    requires i <= |list|
  {
    forall j :: 0 <= j < i ==> !(pat <= list[j].str)
  }

  /** A pattern that is a prefix of none in the list is appended with its flag. */
  lemma {:induction false} PatternAppended(list: seq<Elem>, pat: string, sub: bool, todo: Todo)
    requires IsPattern(pat) && NoHit(list, pat, |list|)
    ensures AddToken(list, Tok(pat, sub), todo) == list + [Elem(pat, sub, todo == Include, todo == Exclude)]
  {
    TokReads(pat, sub);
    hide Pattern, EndsWithSlash, Tok;
    if list == [] {
    } else {
      assert forall j :: 0 <= j < |list[1..]| ==> list[1..][j] == list[j + 1];
      PatternAppended(list[1..], pat, sub, todo);
      assert list == [list[0]] + list[1..];
    }
  }

  /** The first one it is a prefix of is given the SUBDIR mark if it has the flag already; otherwise an
      exclusion removes it and an inclusion adds its flag. */
  lemma PatternHits(list: seq<Elem>, pat: string, sub: bool, todo: Todo, i: nat)
    requires IsPattern(pat) && i < |list| && pat <= list[i].str && NoHit(list, pat, i)
    ensures var e := list[i];
            var marked := e.(subdir := e.subdir || sub);
            AddToken(list, Tok(pat, sub), todo) ==
            if todo == Exclude && !e.excl then list[..i] + list[i + 1..]
            else list[..i] + [if todo == Include then marked.(incl := true) else marked] + list[i + 1..]
  {
    TokReads(pat, sub);
    DbugHeap.AddTokenSkips(list, i, Tok(pat, sub), todo);
    var tail := list[i..];
    assert tail[0] == list[i] && tail[1..] == list[i + 1..];
    HeadHit(tail, pat, sub, todo);
    hide AddToken, Pattern, EndsWithSlash, Tok;
  }

  lemma HeadHit(list: seq<Elem>, pat: string, sub: bool, todo: Todo)
    requires IsPattern(pat) && list != [] && pat <= list[0].str
    ensures var e := list[0];
            var marked := e.(subdir := e.subdir || sub);
            AddToken(list, Tok(pat, sub), todo) ==
            if todo == Exclude && !e.excl then list[1..]
            else [if todo == Include then marked.(incl := true) else marked] + list[1..]
  {
    TokReads(pat, sub);
    hide Pattern, EndsWithSlash, Tok;
  }

  /** A field with one pattern edits its own list, in reverse order first if it was shared. */
  lemma FunctionField(v: seq<Settings>, pat: string, sub: bool, plus: bool, level: nat) returns (list: seq<Elem>)
    requires |v| > 1 && !Top(v).base.out.Unset? && IsPattern(pat) && ':' !in pat && ',' !in pat
    ensures ListFrom(Top(v).lists.functions.elems, list, Top(v).lists.functions.shared)
    ensures var t := Top(SetStack(v, (if plus then "+f," else "-f,") + Tok(pat, sub), level));
            t.lists.functions.elems == AddToken(list, Tok(pat, sub), if plus then Include else Exclude)
  {
    hide SetStack, ReadField, Top, AddToken, ListAddDel, Pattern, Field, Unshare, ListFrom;
    var tok := Tok(pat, sub);
    var c := (if plus then "+f," else "-f,") + tok;
    list := Unshare(Top(v).lists.functions, true).elems;
    UnsharedFrom(Top(v).lists.functions);
    PatternText(c, tok, plus);
    OneField(v, c, level);
    TokReads(pat, sub);
    OneToken(list, tok, if plus then Include else Exclude);
    FieldEdits(Top(v), c, tok, plus, level);
  }

  lemma UnsharedFrom(l: Lst)
    ensures ListFrom(l.elems, Unshare(l, true).elems, l.shared)
  {
  }

  lemma PatternText(c: string, tok: string, plus: bool)
    requires c == (if plus then "+f," else "-f,") + tok && ':' !in tok
    ensures ':' !in c && ReadField(c) == Command(!plus, 'f', tok)
  {
    assert c[1..] == "f," + tok && c[1..][2..] == tok;
  }

  lemma FieldEdits(s: Settings, c: string, tok: string, plus: bool, level: nat)
    requires c != "" && tok != "" && ReadField(c) == Command(!plus, 'f', tok)
    ensures Field(s, true, c, level).lists.functions.elems ==
            ListAddDel(Unshare(s.lists.functions, true).elems, tok, if plus then Include else Exclude)
  {
    hide ReadField, ListAddDel, EditBase, Unshare;
  }

  lemma OneToken(list: seq<Elem>, tok: string, todo: Todo)
    requires ',' !in tok && Pattern(tok) != ""
    ensures ListAddDel(list, tok, todo) == AddToken(list, tok, todo)
  {
    assert TokenEnd(tok) == |tok|;
    assert tok[..|tok|] == tok;
  }
}
