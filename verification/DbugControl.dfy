/** Debug settings as values and the meaning of a control string (`DbugParse`).

    A settings level holds scalars (`Base`) and four pattern lists.  A list is either its own or
    shared by pointer with the level beneath; the bit `shared` records that for a non-empty list. */
module DbugControl {
  import opened DbugList

  const MAXDEPTH: nat := 200
  const UINT: nat := 0x1_0000_0000

  datatype Stream = Unset | Stderr | Stdout | File(path: string)

  datatype Switches = Switches(
    debug: bool, file: bool, line: bool, depth: bool, process: bool, number: bool, profile: bool,
    pid: bool, timestamp: bool, flush: bool, append: bool, trace: bool)

  datatype Base = Base(sw: Switches, maxdepth: nat, delay: nat, subLevel: nat, out: Stream, name: string)

  datatype Kind = Functions | PFunctions | Keywords | Processes

  /** One value per list of a settings level. */
  datatype Quad<T> = Quad(functions: T, pFunctions: T, keywords: T, processes: T) {
    function Get(k: Kind): T {
      match k
      case Functions => functions
      case PFunctions => pFunctions
      case Keywords => keywords
      case Processes => processes
    }

    function Put(k: Kind, v: T): Quad<T> {
      match k
      case Functions => this.(functions := v)
      case PFunctions => this.(pFunctions := v)
      case Keywords => this.(keywords := v)
      case Processes => this.(processes := v)
    }
  }

  datatype Lst = Lst(elems: seq<Elem>, shared: bool)

  datatype Settings = Settings(base: Base, lists: Quad<Lst>)

  const NO_SWITCHES := Switches(false, false, false, false, false, false, false, false, false, false, false, false)
  const NO_LIST := Lst([], false)
  const NO_LISTS := Quad(NO_LIST, NO_LIST, NO_LIST, NO_LIST)

  // ----- numbers

  predicate IsDigit(c: char) { '0' <= c <= '9' }

  predicate IsSpace(c: char) { c == ' ' || '\t' <= c <= '\r' }

  function AtoiDigits(t: string, acc: nat): nat {
    if t == "" || !IsDigit(t[0]) then acc
    else AtoiDigits(t[1..], acc * 10 + (t[0] as int - '0' as int))
  }

  /** C's `atoi`, before its result is narrowed to 32 bits. */
  function Atoi(t: string): int {
    if t == "" then 0
    else if IsSpace(t[0]) then Atoi(t[1..])
    else if t[0] == '-' then -(AtoiDigits(t[1..], 0) as int)
    else if t[0] == '+' then AtoiDigits(t[1..], 0)
    else AtoiDigits(t, 0)
  }

  // ----- fields of a control string

  /** `DbugStrTok`: the end of the field that starts at `i`.  A colon ends it, unless a slash,
      a backslash or a second colon follows. */
  function StrTok(c: string, i: nat): (e: nat)
    requires i <= |c|
    ensures i <= e <= |c|
    ensures e < |c| ==> c[e] == ':'
    decreases |c| - i
  {
    if i == |c| then i
    else if c[i] != ':' then StrTok(c, i + 1)
    else if i + 1 < |c| && (c[i + 1] == '\\' || c[i + 1] == '/') then StrTok(c, i + 1)
    else if i + 1 < |c| && c[i + 1] == ':' then StrTok(c, i + 2)
    else i
  }

  /** A field read as sign, letter and argument.  A lone sign has no letter. */
  datatype Command = Nothing | Command(neg: bool, letter: char, arg: string)

  function ReadField(text: string): Command
    requires text != ""
  {
    var signed := text[0] == '+' || text[0] == '-';
    var t := if signed then text[1..] else text;
    if t == "" then Nothing
    else Command(text[0] == '-', t[0], if |t| > 1 && t[1] == ',' then t[2..] else t[1..])
  }

  /** The list a letter edits. */
  predicate EditsList(letter: char) { letter == 'd' || letter == 'f' || letter == 'p' }

  function ListOf(letter: char): Kind
    requires EditsList(letter)
  {
    if letter == 'd' then Keywords else if letter == 'f' then Functions else Processes
  }

  /** `ListCopy`: an own copy, in reverse order. */
  function Copy(l: Lst): Lst { Lst(Reverse(l.elems), false) }

  /** Copy before the first edit when the list is shared and the control string is relative. */
  function Unshare(l: Lst, rel: bool): Lst {
    if rel && l.shared then Copy(l) else l
  }

  /** Effect of `d`, `f` or `p` on its list; `debugging` is the DEBUG_ON switch, which a removal
      from the keywords needs. */
  function EditList(l: Lst, rel: bool, cmd: Command, debugging: bool): Lst
    requires cmd.Command?
  {
    if cmd.neg && cmd.arg == "" then NO_LIST
    else if cmd.neg && cmd.letter == 'd' && !debugging then Unshare(l, rel)
    else Lst(ListAddDel(Unshare(l, rel).elems, cmd.arg, if cmd.neg then Exclude else Include),
             false)
  }

  /** `DBUGOpenFile`, with opening a file always succeeding. */
  function OpenFile(b: Base, path: string): Base {
    var toStdout := path == "-";
    b.(out := if toStdout then Stdout else File(path), name := if toStdout then "" else path,
       sw := b.sw.(flush := b.sw.flush || toStdout))
  }

  function SetTrace(b: Base, depth: int): Base {
    var d := depth % UINT;
    b.(maxdepth := d, sw := b.sw.(trace := d > 0))
  }

  /** The plain on/off letters. */
  function EditSwitch(sw: Switches, letter: char, on: bool): Switches {
    Switches(
      sw.debug,
      if letter == 'F' then on else sw.file,
      if letter == 'L' then on else sw.line,
      if letter == 'n' then on else sw.depth,
      if letter == 'P' then on else sw.process,
      if letter == 'N' then on else sw.number,
      sw.profile,
      if letter == 'i' then on else sw.pid,
      if letter == 'T' then on else sw.timestamp,
      sw.flush, sw.append, sw.trace)
  }

  predicate IsOutput(letter: char) { letter == 'a' || letter == 'A' || letter == 'o' || letter == 'O' }

  function OpenOutput(b: Base, letter: char, arg: string): Base {
    OpenFile(b.(sw := b.sw.(flush := b.sw.flush || letter == 'A' || letter == 'O',
                            append := letter == 'a' || letter == 'A')),
             if arg != "" then arg else "-")
  }

  /** `a`, `A`, `o` and `O`; the capital letters flush after every write. */
  function EditOutput(b: Base, letter: char, neg: bool, arg: string): Base {
    if neg then b.(out := Stderr, sw := b.sw.(flush := false)) else OpenOutput(b, letter, arg)
  }

  function EditTrace(b: Base, neg: bool, arg: string): Base {
    if arg == "" then SetTrace(b, if neg then 0 else MAXDEPTH)
    else SetTrace(b, if neg then b.maxdepth - Atoi(arg) else b.maxdepth + Atoi(arg))
  }

  /** `d` turns DEBUG_ON on, `-d` alone turns it off. */
  function EditDebug(sw: Switches, neg: bool, arg: string): Switches {
    if !neg then sw.(debug := true) else if arg == "" then sw.(debug := false) else sw
  }

  /** Effect of one field on the scalars; `level` is the current nesting level. */
  function EditBase(b: Base, cmd: Command, level: nat): Base
    requires cmd.Command?
  {
    if cmd.letter == 'd' then b.(sw := EditDebug(b.sw, cmd.neg, cmd.arg))
    else if cmd.letter == 'D' then b.(delay := Atoi(cmd.arg) % UINT)
    else if cmd.letter == 'r' then b.(subLevel := level)
    else if cmd.letter == 't' then EditTrace(b, cmd.neg, cmd.arg)
    else if IsOutput(cmd.letter) then EditOutput(b, cmd.letter, cmd.neg, cmd.arg)
    else b.(sw := EditSwitch(b.sw, cmd.letter, !cmd.neg))
  }

  /** One field of the control string. */
  function Field(s: Settings, rel: bool, text: string, level: nat): Settings
    requires text != ""
  {
    var cmd := ReadField(text);
    if cmd.Nothing? then s
    else
      var base := EditBase(s.base, cmd, level);
      if EditsList(cmd.letter) then
        var k := ListOf(cmd.letter);
        Settings(base, s.lists.Put(k, EditList(s.lists.Get(k), rel, cmd, s.base.sw.debug)))
      else Settings(base, s.lists)
  }

  predicate UsesFunctions(text: string)
    requires text != ""
  {
    var cmd := ReadField(text);
    cmd.Command? && cmd.letter == 'f'
  }

  /** The field loop of `DbugParse` from position `i` on; the second result says whether an `f`
      field was met. */
  function Fields(s: Settings, rel: bool, c: string, i: nat, level: nat): (Settings, bool)
    requires i <= |c|
    decreases |c| - i
  {
    var e := StrTok(c, i);
    if i == e then (s, false)
    else
      var s1 := Field(s, rel, c[i..e], level);
      var f := UsesFunctions(c[i..e]);
      if e == |c| then (s1, f)
      else
        var (s2, f2) := Fields(s1, rel, c, e + 1, level);
        (s2, f || f2)
  }

  function StripDash(control: string): string {
    if |control| >= 2 && control[0] == '-' && control[1] == '#' then control[2..] else control
  }

  predicate Relative(c: string) {
    |c| > 0 && (c[0] == '+' || c[0] == '-')
  }

  /** An absolute control string starts from these settings; only the file name is left over. */
  function Cleared(b: Base): Settings {
    Settings(Base(NO_SWITCHES, 0, 0, 0, Stderr, b.name), NO_LISTS)
  }

  function ShareList(l: Lst): Lst { Lst(l.elems, l.elems != []) }

  /** A new level that a relative control string starts from: everything is taken from the level
      beneath.  From the initial settings the lists are copied and output goes to stderr, from any
      other level the lists are shared. */
  function Inherit(below: Settings, belowIsInitial: bool): Settings {
    if belowIsInitial then
      Settings(below.base.(out := Stderr),
               Quad(Copy(below.lists.functions), Copy(below.lists.pFunctions),
                    Copy(below.lists.keywords), Copy(below.lists.processes)))
    else
      Settings(below.base,
               Quad(ShareList(below.lists.functions), ShareList(below.lists.pFunctions),
                    ShareList(below.lists.keywords), ShareList(below.lists.processes)))
  }

  /** Settings the fields of `control` are applied to, for the top of `stack` (index 0 is
      the initial settings). */
  function Start(stack: seq<Settings>, c: string): Settings
    requires stack != []
  {
    var top := stack[|stack| - 1];
    if !Relative(c) || (top.base.out.Unset? && |stack| == 1) then Cleared(top.base)
    else if top.base.out.Unset? then Inherit(stack[|stack| - 2], |stack| == 2)
    else top
  }

  /** `DbugParse` on the top of the stack: the new top, and whether the function list may have
      changed. */
  function Parse(stack: seq<Settings>, control: string, level: nat): (Settings, bool)
    requires stack != []
  {
    var c := StripDash(control);
    var (s, f) := Fields(Start(stack, c), Relative(c), c, 0, level);
    (s, !Relative(c) || f)
  }

  const FRESH := Settings(Base(NO_SWITCHES, 0, 0, 0, Unset, ""), NO_LISTS)

  /** `PushState`. */
  function PushState(stack: seq<Settings>): seq<Settings> { stack + [FRESH] }

  function ReplaceTop(stack: seq<Settings>, s: Settings): (r: seq<Settings>)
    requires stack != []
  {
    stack[..|stack| - 1] + [s]
  }

  /** `_db_push_`, `_db_set_` and `_db_pop_` on the stack of settings. */
  function PushStack(stack: seq<Settings>, control: string, level: nat): seq<Settings>
    requires stack != []
  {
    ReplaceTop(PushState(stack), Parse(PushState(stack), control, level).0)
  }

  function SetStack(stack: seq<Settings>, control: string, level: nat): seq<Settings>
    requires stack != []
  {
    if |stack| == 1 then PushStack(stack, control, level)
    else ReplaceTop(stack, Parse(stack, control, level).0)
  }

  function PopStack(stack: seq<Settings>): seq<Settings>
    requires stack != []
  {
    if |stack| == 1 then stack else stack[..|stack| - 1]
  }
}
