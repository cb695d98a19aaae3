/** The call frames of the dbug runtime and their TRACE_ON bits.

    The specification recomputes every bit (`Rescan`) whenever the parser reports that the function
    list may have changed, and after a pop.  The program's shortcuts are in `DbugRuntime`. */
module DbugTrace {
  import opened DbugList
  import opened DbugControl

  /** A `_db_stack_frame_`: the caller's name, the frame's level and its TRACE_ON bit. */
  datatype Frame = Frame(func: string, level: nat, on: bool)

  datatype Verdict = Do | Dont | Enable | Disable

  /** What the runtime cannot see into: the process name and the `fnmatch` function. */
  datatype Env = Env(process: string, fnmatch: (string, string) -> bool)

  datatype State = State(stack: seq<Settings>, frames: seq<Frame>, func: string, level: nat) {
    function Top(): Settings
      requires stack != []
    {
      stack[|stack| - 1]
    }
  }

  function FunctionList(s: Settings): seq<Elem> { s.lists.functions.elems }

  /** Whether a function that no pattern mentions is traced. */
  predicate Default(s: Settings) { !AnyInclude(FunctionList(s)) }

  /** Depth and process allow tracing. */
  predicate Gate(s: Settings, env: Env, level: nat) {
    && (s.base.maxdepth == 0 || level <= s.base.maxdepth)
    && var r := InList(s.lists.processes.elems, env.process, env.fnmatch);
       if r.Hit? then r.incl else r.matched
  }

  function Judge(r: Lookup, frameOn: bool): Verdict {
    match r
    case Hit(sub, true, false) => if sub then Enable else Do
    case Hit(sub, false, true) => if sub then Disable else Dont
    case Hit(_, true, true) => Dont
    case Hit(sub, false, false) => if sub && frameOn then Do else Dont
    case Miss(matched, sub) => if (matched || sub) && frameOn then Do else Dont
  }

  function DoTrace(s: Settings, env: Env, func: string, level: nat, frameOn: bool): Verdict {
    if Gate(s, env, level) then Judge(InList(FunctionList(s), func, env.fnmatch), frameOn) else Dont
  }

  function Apply(v: Verdict, inherited: bool): bool {
    match v
    case Enable => true
    case Disable => false
    case _ => inherited
  }

  /** Name of the function that frame `k` belongs to. */
  function NameOf(frames: seq<Frame>, func: string, k: nat): string
    requires k < |frames|
  {
    if k + 1 < |frames| then frames[k + 1].func else func
  }

  function RescanBit(s: Settings, env: Env, frames: seq<Frame>, func: string, k: nat): bool
    requires k < |frames|
  {
    Apply(DoTrace(s, env, NameOf(frames, func, k), frames[k].level, true),
          if k == 0 then Default(s) else RescanBit(s, env, frames, func, k - 1))
  }

  /** Every frame matched again against the rules, outermost first. */
  ghost function Rescan(s: Settings, env: Env, frames: seq<Frame>, func: string): (r: seq<Frame>)
    ensures |r| == |frames|
    ensures forall k :: 0 <= k < |frames| ==> r[k] == frames[k].(on := RescanBit(s, env, frames, func, k))
  {
    seq(|frames|, k requires 0 <= k < |frames| => frames[k].(on := RescanBit(s, env, frames, func, k)))
  }

  // ----- operations

  datatype Op = Enter(name: string) | Return | Set(control: string) | Push(control: string) | Pop

  function Inherited(s: Settings, frames: seq<Frame>): bool {
    if frames == [] then Default(s) else frames[|frames| - 1].on
  }

  function EnterFrame(st: State, env: Env, name: string): Frame
    requires st.stack != []
  {
    var inherited := Inherited(st.Top(), st.frames);
    Frame(st.func, st.level + 1,
          Apply(DoTrace(st.Top(), env, name, st.level + 1, inherited), inherited))
  }

  /** A return without a frame aborts the program. */
  predicate Enabled(st: State, op: Op) {
    op.Return? ==> st.frames != []
  }

  /** The new stack of settings, and whether the frames are matched again. */
  function Reconfigure(st: State, op: Op): (seq<Settings>, bool)
    requires st.stack != [] && (op.Set? || op.Push? || op.Pop?)
  {
    match op
    case Push(c) => (PushStack(st.stack, c, st.level), Parse(PushState(st.stack), c, st.level).1)
    case Set(c) => (SetStack(st.stack, c, st.level),
                    Parse(if |st.stack| == 1 then PushState(st.stack) else st.stack, c, st.level).1)
    case Pop => (PopStack(st.stack), |st.stack| > 1)
  }

  /** New settings, with every frame matched again if `fix`. */
  ghost function Configured(st: State, env: Env, stack: seq<Settings>, fix: bool): State
    requires stack != []
  {
    State(stack, if fix then Rescan(stack[|stack| - 1], env, st.frames, st.func) else st.frames,
          st.func, st.level)
  }

  ghost function Step(st: State, env: Env, op: Op): State
    requires st.stack != [] && Enabled(st, op)
  {
    match op
    case Enter(name) => State(st.stack, st.frames + [EnterFrame(st, env, name)], name, st.level + 1)
    case Return =>
      var f := st.frames[|st.frames| - 1];
      State(st.stack, st.frames[..|st.frames| - 1], f.func, if f.level == 0 then 0 else f.level - 1)
    case _ =>
      var (stack, fix) := Reconfigure(st, op);
      Configured(st, env, stack, fix)
  }

  // ----- invariant of every run

  predicate AllOn(frames: seq<Frame>, on: bool) {
    forall k :: 0 <= k < |frames| ==> frames[k].on == on
  }

  predicate Open(stack: seq<Settings>) {
    forall i :: 0 <= i < |stack| ==> !stack[i].base.out.Unset?
  }

  predicate LevelsCount(frames: seq<Frame>, level: nat) {
    && level == |frames|
    && forall k :: 0 <= k < |frames| ==> frames[k].level == k + 1
  }

  /** The nesting level is the number of frames, and a function list without SUBDIR patterns forces
      every frame to the list's default. */
  predicate Inv(st: State) {
    && st.stack != []
    && Open(st.stack)
    && LevelsCount(st.frames, st.level)
    && (!AnySubdir(FunctionList(st.Top())) ==> AllOn(st.frames, Default(st.Top())))
  }

  /** Every bit is what a rescan would give. */
  ghost predicate Consistent(st: State, env: Env)
    requires st.stack != []
  {
    st.frames == Rescan(st.Top(), env, st.frames, st.func)
  }

  // ----- rescans

  lemma {:induction false} NoSubdirRescanBit(s: Settings, env: Env, frames: seq<Frame>, func: string, k: nat)
    requires k < |frames| && !AnySubdir(FunctionList(s))
    ensures RescanBit(s, env, frames, func, k) == Default(s)
  {
    NoSubdirNoLookupSubdir(FunctionList(s), NameOf(frames, func, k), env.fnmatch, true);
    if k > 0 {
      NoSubdirRescanBit(s, env, frames, func, k - 1);
    }
  }

  lemma NoSubdirRescan(s: Settings, env: Env, frames: seq<Frame>, func: string)
    requires !AnySubdir(FunctionList(s))
    ensures AllOn(Rescan(s, env, frames, func), Default(s))
  {
    hide RescanBit, AnySubdir, AnyInclude;
    forall k | 0 <= k < |frames| ensures Rescan(s, env, frames, func)[k].on == Default(s) {
      NoSubdirRescanBit(s, env, frames, func, k);
    }
  }

  lemma RescanKeepsLevels(s: Settings, env: Env, frames: seq<Frame>, func: string, level: nat)
    requires LevelsCount(frames, level)
    ensures LevelsCount(Rescan(s, env, frames, func), level)
  {
    hide RescanBit;
  }

  /** A rescan reads names and levels only, so two frame stacks that agree on them rescan alike. */
  lemma {:induction false} RescanBitAgrees(s: Settings, env: Env, f: seq<Frame>, g: seq<Frame>,
                                           funcF: string, funcG: string, k: nat)
    requires k < |f| && k < |g|
    requires forall i :: 0 <= i <= k ==> f[i].level == g[i].level
    requires forall i :: 0 <= i <= k ==> NameOf(f, funcF, i) == NameOf(g, funcG, i)
    ensures RescanBit(s, env, f, funcF, k) == RescanBit(s, env, g, funcG, k)
  {
    hide InList, Gate, Default;
    if k > 0 {
      RescanBitAgrees(s, env, f, g, funcF, funcG, k - 1);
    }
  }

  // ----- settings

  lemma FieldKeepsOpen(s: Settings, rel: bool, text: string, level: nat)
    requires text != "" && !s.base.out.Unset?
    ensures !Field(s, rel, text, level).base.out.Unset?
  {
    hide Atoi, EditList, ReadField, EditSwitch, EditDebug;
  }

  lemma FieldKeepsFunctions(s: Settings, rel: bool, text: string, level: nat)
    requires text != "" && !UsesFunctions(text)
    ensures Field(s, rel, text, level).lists.functions == s.lists.functions
  {
    hide Atoi, EditList, EditBase;
  }

  lemma {:induction false} FieldsKeepOpen(s: Settings, rel: bool, c: string, i: nat, level: nat)
    requires i <= |c| && !s.base.out.Unset?
    ensures !Fields(s, rel, c, i, level).0.base.out.Unset?
    decreases |c| - i
  {
    hide Field, StrTok, UsesFunctions;
    var e := StrTok(c, i);
    if i != e {
      FieldKeepsOpen(s, rel, c[i..e], level);
      if e < |c| {
        FieldsKeepOpen(Field(s, rel, c[i..e], level), rel, c, e + 1, level);
      }
    }
  }

  lemma {:induction false} FieldsKeepFunctions(s: Settings, rel: bool, c: string, i: nat, level: nat)
    requires i <= |c| && !Fields(s, rel, c, i, level).1
    ensures Fields(s, rel, c, i, level).0.lists.functions == s.lists.functions
    decreases |c| - i
  {
    hide Field, StrTok, UsesFunctions;
    var e := StrTok(c, i);
    if i != e {
      FieldKeepsFunctions(s, rel, c[i..e], level);
      if e < |c| {
        FieldsKeepFunctions(Field(s, rel, c[i..e], level), rel, c, e + 1, level);
      }
    }
  }

  /** A parse that reports no change of the function list leaves its flags alone. */
  lemma ParseKeepsFlags(stack: seq<Settings>, control: string, level: nat)
    requires stack != [] && !Parse(stack, control, level).1
    ensures var s := Parse(stack, control, level).0;
            var was := if stack[|stack| - 1].base.out.Unset? && |stack| > 1
                       then stack[|stack| - 2] else stack[|stack| - 1];
            |stack| > 1 || !was.base.out.Unset? ==>
              && AnySubdir(FunctionList(s)) == AnySubdir(FunctionList(was))
              && Default(s) == Default(was)
  {
    var c := StripDash(control);
    FieldsKeepFunctions(Start(stack, c), Relative(c), c, 0, level);
    if |stack| > 1 {
      ReverseKeepsFlags(FunctionList(stack[|stack| - 2]));
    }
  }

  lemma ParseOpens(stack: seq<Settings>, control: string, level: nat)
    requires stack != []
    requires forall i :: 0 <= i < |stack| - 1 ==> !stack[i].base.out.Unset?
    ensures !Parse(stack, control, level).0.base.out.Unset?
  {
    var c := StripDash(control);
    FieldsKeepOpen(Start(stack, c), Relative(c), c, 0, level);
  }

  lemma ReconfigureOpens(st: State, op: Op)
    requires st.stack != [] && Open(st.stack) && (op.Set? || op.Push? || op.Pop?)
    ensures Reconfigure(st, op).0 != [] && Open(Reconfigure(st, op).0)
  {
    if !op.Pop? {
      ParseOpens(PushState(st.stack), op.control, st.level);
      ParseOpens(st.stack, op.control, st.level);
    }
  }

  // ----- what each step keeps

  lemma EnterKeepsInv(st: State, env: Env, name: string)
    requires Inv(st)
    ensures Inv(Step(st, env, Enter(name)))
  {
    hide AnySubdir, AnyInclude, InList;
    NoSubdirEnter(st, env, name);
  }

  lemma NoSubdirEnter(st: State, env: Env, name: string)
    requires Inv(st)
    ensures !AnySubdir(FunctionList(st.Top())) ==> EnterFrame(st, env, name).on == Default(st.Top())
  {
    if !AnySubdir(FunctionList(st.Top())) {
      NoSubdirNoLookupSubdir(FunctionList(st.Top()), name, env.fnmatch, true);
    }
  }

  /** A report that no rescan is needed comes with unchanged flags of the function list. */
  lemma ReconfigureKeepsFlags(st: State, op: Op)
    requires st.stack != [] && Open(st.stack) && (op.Set? || op.Push? || op.Pop?)
    requires !Reconfigure(st, op).1
    ensures var stack := Reconfigure(st, op).0;
            stack != [] &&
            var top := stack[|stack| - 1];
            && AnySubdir(FunctionList(top)) == AnySubdir(FunctionList(st.Top()))
            && Default(top) == Default(st.Top())
  {
    if op.Push? || (op.Set? && |st.stack| == 1) {
      ParseKeepsFlags(PushState(st.stack), op.control, st.level);
    } else if op.Set? {
      ParseKeepsFlags(st.stack, op.control, st.level);
    }
  }

  lemma ConfiguredKeepsInv(st: State, env: Env, stack: seq<Settings>, fix: bool)
    requires Inv(st) && stack != [] && Open(stack)
    requires !fix ==> var top := stack[|stack| - 1];
                      && AnySubdir(FunctionList(top)) == AnySubdir(FunctionList(st.Top()))
                      && Default(top) == Default(st.Top())
    ensures Inv(Configured(st, env, stack, fix))
  {
    hide RescanBit, AnySubdir, AnyInclude;
    var top := stack[|stack| - 1];
    if fix {
      RescanKeepsLevels(top, env, st.frames, st.func, st.level);
      if !AnySubdir(FunctionList(top)) {
        NoSubdirRescan(top, env, st.frames, st.func);
      }
    }
    var r := Configured(st, env, stack, fix);
    assert r.Top() == top;
    assert Open(r.stack);
    assert LevelsCount(r.frames, r.level);
    assert !AnySubdir(FunctionList(top)) ==> AllOn(r.frames, Default(top));
  }

  lemma ReconfigureKeepsInv(st: State, env: Env, op: Op)
    requires Inv(st) && (op.Set? || op.Push? || op.Pop?)
    ensures Inv(Step(st, env, op))
  {
    hide RescanBit, AnySubdir, AnyInclude, Parse;
    ReconfigureOpens(st, op);
    var (stack, fix) := Reconfigure(st, op);
    if !fix {
      ReconfigureKeepsFlags(st, op);
    }
    ConfiguredKeepsInv(st, env, stack, fix);
  }

  lemma StepKeepsInv(st: State, env: Env, op: Op)
    requires Inv(st) && Enabled(st, op)
    ensures Inv(Step(st, env, op))
  {
    hide RescanBit, AnySubdir, AnyInclude, Parse, InList;
    if op.Enter? {
      EnterKeepsInv(st, env, op.name);
    } else if !op.Return? {
      ReconfigureKeepsInv(st, env, op);
    }
  }

  // ----- runs

  ghost predicate Possible(st: State, env: Env, ops: seq<Op>)
    requires Inv(st)
    decreases |ops|
  {
    ops == [] ||
    (Enabled(st, ops[0]) &&
     (StepKeepsInv(st, env, ops[0]); Possible(Step(st, env, ops[0]), env, ops[1..])))
  }

  ghost function Run(st: State, env: Env, ops: seq<Op>): (r: State)
    requires Inv(st) && Possible(st, env, ops)
    decreases |ops|
  {
    if ops == [] then st
    else StepKeepsInv(st, env, ops[0]); Run(Step(st, env, ops[0]), env, ops[1..])
  }

  const INITIAL := State([Settings(Base(NO_SWITCHES.(append := true), 0, 0, 0, Stderr, ""), NO_LISTS)], [], "?func", 0)

  /** Every run from the initial state keeps the invariant. */
  lemma {:induction false} RunKeepsInv(st: State, env: Env, ops: seq<Op>)
    requires Inv(st) && Possible(st, env, ops)
    ensures Inv(Run(st, env, ops))
    decreases |ops|
  {
    hide RescanBit, AnySubdir, AnyInclude, Parse, InList;
    if ops != [] {
      StepKeepsInv(st, env, ops[0]);
      RunKeepsInv(Step(st, env, ops[0]), env, ops[1..]);
    }
  }

  // ----- when the bits equal a full rescan

  lemma RescanIsStable(s: Settings, env: Env, frames: seq<Frame>, func: string)
    ensures var r := Rescan(s, env, frames, func); Rescan(s, env, r, func) == r
  {
    hide RescanBit;
    var r := Rescan(s, env, frames, func);
    forall k | 0 <= k < |r| ensures RescanBit(s, env, r, func, k) == r[k].on {
      assert forall i :: 0 <= i <= k ==> NameOf(r, func, i) == NameOf(frames, func, i);
      RescanBitAgrees(s, env, r, frames, func, func, k);
    }
    assert forall k :: 0 <= k < |r| ==> Rescan(s, env, r, func)[k] == r[k];
  }

  /** After every operation that reports a possible change of the function list, and after every
      pop, all bits are those of a full rescan. */
  lemma ChangeMakesConsistent(st: State, env: Env, op: Op)
    requires Inv(st) && (op.Set? || op.Push? || op.Pop?) && Reconfigure(st, op).1
    ensures Inv(Step(st, env, op)) && Consistent(Step(st, env, op), env)
  {
    hide RescanBit, Parse, Default;
    StepKeepsInv(st, env, op);
    var stack := Reconfigure(st, op).0;
    ReconfigureOpens(st, op);
    RescanIsStable(stack[|stack| - 1], env, st.frames, st.func);
  }

  /** The first `k + 1` frames of two stacks with the same names and levels have the same bits. */
  lemma PrefixBits(s: Settings, env: Env, f: seq<Frame>, g: seq<Frame>, funcF: string, funcG: string, k: nat)
    requires k < |f| && k < |g| && f[..k + 1] == g[..k + 1]
    requires NameOf(f, funcF, k) == NameOf(g, funcG, k)
    requires f == Rescan(s, env, f, funcF)
    ensures RescanBit(s, env, g, funcG, k) == g[k].on
  {
    hide RescanBit;
    forall i | 0 <= i <= k ensures f[i] == g[i] && NameOf(f, funcF, i) == NameOf(g, funcG, i) {
      assert f[i] == f[..k + 1][i] == g[i];
      if i < k {
        assert f[i + 1] == f[..k + 1][i + 1] == g[i + 1];
      }
    }
    RescanBitAgrees(s, env, f, g, funcF, funcG, k);
    assert f[k] == Rescan(s, env, f, funcF)[k];
  }

  lemma BitStep(s: Settings, env: Env, frames: seq<Frame>, func: string, k: nat)
    requires k < |frames|
    ensures RescanBit(s, env, frames, func, k) ==
            Apply(DoTrace(s, env, NameOf(frames, func, k), frames[k].level, true),
                  if k == 0 then Default(s) else RescanBit(s, env, frames, func, k - 1))
  {
    hide DoTrace, Default;
  }

  /** The current frame's bit decides between DO_TRACE and DONT_TRACE only. */
  lemma FrameDoesNotDecide(s: Settings, env: Env, func: string, level: nat, frameOn: bool)
    ensures forall x :: Apply(DoTrace(s, env, func, level, true), x) == Apply(DoTrace(s, env, func, level, frameOn), x)
  {
    hide InList, Gate;
  }

  lemma NewBit(st: State, env: Env, name: string)
    requires Inv(st) && Consistent(st, env)
    requires st.frames != [] ==>
               RescanBit(st.Top(), env, st.frames + [EnterFrame(st, env, name)], name, |st.frames| - 1)
               == st.frames[|st.frames| - 1].on
    ensures RescanBit(st.Top(), env, st.frames + [EnterFrame(st, env, name)], name, |st.frames|)
            == EnterFrame(st, env, name).on
  {
    hide RescanBit, DoTrace, Default;
    var g, n := st.frames + [EnterFrame(st, env, name)], |st.frames|;
    assert NameOf(g, name, n) == name;
    assert g[n].level == st.level + 1;
    BitStep(st.Top(), env, g, name, n);
    FrameDoesNotDecide(st.Top(), env, name, st.level + 1, Inherited(st.Top(), st.frames));
  }

  lemma EnterKeepsConsistent(st: State, env: Env, name: string)
    requires Inv(st) && Consistent(st, env)
    ensures Consistent(Step(st, env, Enter(name)), env)
  {
    hide RescanBit;
    var s, f := st.Top(), st.frames;
    var new_ := EnterFrame(st, env, name);
    var g := f + [new_];
    forall k | 0 <= k < |f| ensures RescanBit(s, env, g, name, k) == g[k].on {
      PrefixBits(s, env, f, g, st.func, name, k);
    }
    NewBit(st, env, name);
    assert g == Rescan(s, env, g, name);
  }

  lemma ReturnKeepsConsistent(st: State, env: Env)
    requires Inv(st) && Consistent(st, env) && st.frames != []
    ensures Consistent(Step(st, env, Return), env)
  {
    hide RescanBit;
    var s, f := st.Top(), st.frames;
    var g, func := f[..|f| - 1], f[|f| - 1].func;
    forall k | 0 <= k < |g| ensures RescanBit(s, env, g, func, k) == g[k].on {
      PrefixBits(s, env, f, g, st.func, func, k);
    }
    assert g == Rescan(s, env, g, func);
  }

  /** The SUBDIR rule that decides a function's bit by itself, if there is one. */
  datatype Rule = NoRule | Forces(on: bool)

  function RuleOf(s: Settings, env: Env, name: string): Rule {
    var r := InList(FunctionList(s), name, env.fnmatch);
    if r.Hit? && r.subdir && r.incl != r.excl then Forces(r.incl) else NoRule
  }

  /** The rule in effect for frame `k`: its first match, if depth and process allow tracing. */
  function Effect(s: Settings, env: Env, frames: seq<Frame>, func: string, k: nat): Rule
    requires k < |frames|
  {
    if Gate(s, env, frames[k].level) then RuleOf(s, env, NameOf(frames, func, k)) else NoRule
  }

  /** The bit a frame gets from its rule and the bit of the calling frame. */
  function BitUnder(rule: Rule, caller: bool): bool { if rule.Forces? then rule.on else caller }

  lemma BitFromRule(s: Settings, env: Env, frames: seq<Frame>, func: string, k: nat)
    requires k < |frames|
    ensures RescanBit(s, env, frames, func, k) ==
            BitUnder(Effect(s, env, frames, func, k), if k == 0 then Default(s) else RescanBit(s, env, frames, func, k - 1))
  {
  }

  /** If another rule is in effect for frame `k` under `s'`, it gives the same bit. */
  predicate NoFlipAt(st: State, env: Env, s': Settings, k: nat)
    requires st.stack != [] && k < |st.frames|
  {
    var was := Effect(st.Top(), env, st.frames, st.func, k);
    var now := Effect(s', env, st.frames, st.func, k);
    var caller := if k == 0 then Default(st.Top()) else st.frames[k - 1].on;
    was != now ==> BitUnder(was, caller) == BitUnder(now, caller)
  }

  predicate NoRuleFlips(st: State, env: Env, s': Settings)
    requires st.stack != []
  {
    forall k :: 0 <= k < |st.frames| ==> NoFlipAt(st, env, s', k)
  }

  lemma {:induction false} SameBits(st: State, env: Env, s': Settings, k: nat)
    requires st.stack != [] && k < |st.frames| && Consistent(st, env)
    requires Default(s') == Default(st.Top())
    requires NoRuleFlips(st, env, s')
    ensures RescanBit(s', env, st.frames, st.func, k) == st.frames[k].on
  {
    hide RescanBit, Effect, Default;
    assert st.frames[k] == Rescan(st.Top(), env, st.frames, st.func)[k];
    assert NoFlipAt(st, env, s', k);
    BitFromRule(st.Top(), env, st.frames, st.func, k);
    BitFromRule(s', env, st.frames, st.func, k);
    if k > 0 {
      SameBits(st, env, s', k - 1);
      assert st.frames[k - 1] == Rescan(st.Top(), env, st.frames, st.func)[k - 1];
    }
  }

  /** Two equal rescans leave no rule that flips. */
  lemma FlipAgrees(st: State, env: Env, s': Settings, k: nat)
    requires st.stack != [] && k < |st.frames| && Consistent(st, env)
    requires Default(s') == Default(st.Top())
    requires st.frames == Rescan(s', env, st.frames, st.func)
    ensures NoFlipAt(st, env, s', k)
  {
    hide RescanBit, Effect, Default;
    var s := st.Top();
    assert st.frames[k] == Rescan(s, env, st.frames, st.func)[k] == Rescan(s', env, st.frames, st.func)[k];
    BitFromRule(s, env, st.frames, st.func, k);
    BitFromRule(s', env, st.frames, st.func, k);
    if k > 0 {
      assert st.frames[k - 1] == Rescan(s, env, st.frames, st.func)[k - 1]
          == Rescan(s', env, st.frames, st.func)[k - 1];
    }
  }

  lemma BitsSurviveIff(st: State, env: Env, s': Settings)
    requires st.stack != [] && Consistent(st, env) && Default(s') == Default(st.Top())
    ensures st.frames == Rescan(s', env, st.frames, st.func) <==> NoRuleFlips(st, env, s')
  {
    hide RescanBit, NoFlipAt, Default;
    var r' := Rescan(s', env, st.frames, st.func);
    if NoRuleFlips(st, env, s') {
      forall k | 0 <= k < |r'| ensures r'[k] == st.frames[k] { SameBits(st, env, s', k); }
      assert st.frames == r';
    } else if st.frames == r' {
      forall k | 0 <= k < |st.frames| ensures NoFlipAt(st, env, s', k) { FlipAgrees(st, env, s', k); }
    }
  }

  predicate Quiet(st: State, op: Op)
    requires st.stack != []
  {
    (op.Set? || op.Push? || op.Pop?) && !Reconfigure(st, op).1
  }

  /** The function list after an operation without a rescan: the same, but reversed when a level is
      put above the initial one, because its lists are copied. */
  lemma QuietList(st: State, op: Op)
    requires Inv(st) && Quiet(st, op)
    ensures var stack := Reconfigure(st, op).0;
            stack != [] && FunctionList(stack[|stack| - 1]) ==
            if |st.stack| == 1 && !op.Pop? then Reverse(FunctionList(st.Top())) else FunctionList(st.Top())
  {
    hide Parse, Start, Open, AnySubdir;
    if !op.Pop? {
      var before := if op.Set? && |st.stack| > 1 then st.stack else PushState(st.stack);
      ParseKeepsList(before, op.control, st.level);
      StartList(st.stack, op.control);
    }
  }

  lemma ParseKeepsList(stack: seq<Settings>, control: string, level: nat)
    requires stack != [] && !Parse(stack, control, level).1
    ensures Relative(StripDash(control))
    ensures FunctionList(Parse(stack, control, level).0) == FunctionList(Start(stack, StripDash(control)))
  {
    hide Fields, Start;
    var c := StripDash(control);
    FieldsKeepFunctions(Start(stack, c), Relative(c), c, 0, level);
  }

  lemma StartList(stack: seq<Settings>, control: string)
    requires stack != [] && Open(stack) && Relative(StripDash(control))
    ensures FunctionList(Start(PushState(stack), StripDash(control))) ==
            if |stack| == 1 then Reverse(FunctionList(stack[0])) else FunctionList(stack[|stack| - 1])
    ensures |stack| > 1 ==> FunctionList(Start(stack, StripDash(control))) == FunctionList(stack[|stack| - 1])
  {
    hide Reverse;
  }

  /** A control string that does not touch the function list leaves the bits alone.  They stay those
      of a rescan exactly when no frame gets another bit from the rule now in effect for it. */
  lemma QuietChangeIsConsistentIff(st: State, env: Env, op: Op)
    requires Inv(st) && Consistent(st, env) && Quiet(st, op)
    ensures var t := Step(st, env, op);
            t.stack != [] && (Consistent(t, env) <==> NoRuleFlips(st, env, t.Top()))
  {
    QuietList(st, op);
    ReverseKeepsFlags(FunctionList(st.Top()));
    var stack := Reconfigure(st, op).0;
    hide Reconfigure, Rescan, NoRuleFlips, AnyInclude, Reverse;
    BitsSurviveIff(st, env, stack[|stack| - 1]);
  }

  /** Frame `k` has no rule, or its depth and process tests turn out as before, or the rule agrees
      with the calling frame. */
  predicate NoGateFlipAt(st: State, env: Env, s': Settings, k: nat)
    requires st.stack != [] && k < |st.frames|
  {
    var rule := RuleOf(st.Top(), env, NameOf(st.frames, st.func, k));
    rule.Forces? && Gate(st.Top(), env, st.frames[k].level) != Gate(s', env, st.frames[k].level) ==>
      rule.on == if k == 0 then Default(st.Top()) else st.frames[k - 1].on
  }

  /** Above the initial level the list is the same one, so only the depth and process tests count. */
  lemma QuietAboveInitial(st: State, env: Env, op: Op)
    requires Inv(st) && Consistent(st, env) && Quiet(st, op) && |st.stack| > 1
    ensures var t := Step(st, env, op);
            t.stack != [] && (Consistent(t, env) <==> forall k :: 0 <= k < |st.frames| ==> NoGateFlipAt(st, env, t.Top(), k))
  {
    QuietChangeIsConsistentIff(st, env, op);
    QuietList(st, op);
    hide Reconfigure, Rescan, NoRuleFlips, NoGateFlipAt, FunctionList;
    var t := Step(st, env, op);
    assert t.Top() == Reconfigure(st, op).0[|Reconfigure(st, op).0| - 1];
    OnlyGatesFlip(st, env, t.Top());
  }

  lemma OnlyGatesFlip(st: State, env: Env, s': Settings)
    requires st.stack != [] && FunctionList(s') == FunctionList(st.Top())
    ensures NoRuleFlips(st, env, s') <==> forall k :: 0 <= k < |st.frames| ==> NoGateFlipAt(st, env, s', k)
  {
    hide NoFlipAt, NoGateFlipAt;
    forall k | 0 <= k < |st.frames|
      ensures NoFlipAt(st, env, s', k) <==> NoGateFlipAt(st, env, s', k)
    {
      GateFlips(st, env, s', k);
    }
  }

  lemma GateFlips(st: State, env: Env, s': Settings, k: nat)
    requires st.stack != [] && k < |st.frames| && FunctionList(s') == FunctionList(st.Top())
    ensures NoFlipAt(st, env, s', k) <==> NoGateFlipAt(st, env, s', k)
  {
    hide InList, Gate, Default;
  }

  // ----- a run that leaves stale bits

  /** `f,main/` inside `main`, and the same after `+p,x`. */
  const MAIN_TRACED := Settings(INITIAL.stack[0].base, NO_LISTS.(functions := Lst([Elem("main", true, true, false)], false)))
  const X_ONLY := MAIN_TRACED.(lists := MAIN_TRACED.lists.(processes := Lst([Elem("x", false, true, false)], false)))
  const IN_MAIN := State(INITIAL.stack + [MAIN_TRACED], [Frame("?func", 1, true)], "main", 1)

  lemma InMainIsConsistent(env: Env)
    requires env.process == "srv" && env.fnmatch == ((p: string, n: string) => p == n)
    ensures Inv(IN_MAIN) && Consistent(IN_MAIN, env)
  {
    var f := FunctionList(MAIN_TRACED);
    assert f[0].subdir;
    assert InList(f, "main", env.fnmatch) == Hit(true, true, false);
    assert RescanBit(MAIN_TRACED, env, IN_MAIN.frames, "main", 0);
    assert IN_MAIN.frames == Rescan(MAIN_TRACED, env, IN_MAIN.frames, "main");
  }

  lemma ShutOut(env: Env)
    requires env.process == "srv" && env.fnmatch == ((p: string, n: string) => p == n)
    ensures IN_MAIN.frames != Rescan(X_ONLY, env, IN_MAIN.frames, "main")
  {
    hide Inv;
    assert InList(X_ONLY.lists.processes.elems, "srv", env.fnmatch) == Miss(false, false);
    assert FunctionList(X_ONLY)[0].incl;
    assert !RescanBit(X_ONLY, env, IN_MAIN.frames, "main", 0);
    assert Rescan(X_ONLY, env, IN_MAIN.frames, "main")[0] != IN_MAIN.frames[0];
  }

  lemma ParsePlusP()
    ensures Parse(IN_MAIN.stack, "+p,x", 1) == (X_ONLY, false)
  {
    var c := "+p,x";
    assert StrTok(c, 4) == StrTok(c, 3) == StrTok(c, 2) == StrTok(c, 1) == StrTok(c, 0) == 4;
    assert c[0..4] == c && c[1..] == "p,x" && c[1..][2..] == "x" && "x"[..1] == "x";
    assert ReadField(c) == Command(false, 'p', "x");
    assert ListAddDel([], "x", Include) == [NewElem("x", Include)];
    assert Field(MAIN_TRACED, true, c, 1) == X_ONLY;
    assert IN_MAIN.stack[1] == MAIN_TRACED;
    assert Fields(MAIN_TRACED, true, c, 0, 1) == (X_ONLY, false);
  }

  /** A SUBDIR rule switched tracing on for `main`.  `+p,x` then shuts the process out, so a rescan
      would clear the bit, but the frame keeps it. */
  lemma QuietChangeCanLeaveStaleBits(env: Env)
    requires env.process == "srv" && env.fnmatch == ((p: string, n: string) => p == n)
    ensures Inv(IN_MAIN) && Consistent(IN_MAIN, env)
    ensures var t := Step(IN_MAIN, env, Set("+p,x")); t.stack != [] && !Consistent(t, env)
  {
    hide RescanBit, Parse;
    InMainIsConsistent(env);
    ShutOut(env);
    ParsePlusP();
  }

  // ----- a push that reverses the rules

  // The initial settings after `f,m*/:-f,*n/`, inside `main`.
  const TWO_RULES := [Elem("m*", true, true, false), Elem("*n", true, false, true)]
  const BOTH_MATCH := Cleared(INITIAL.stack[0].base).(lists := NO_LISTS.(functions := Lst(TWO_RULES, false)))
  const IN_MAIN_INITIAL := State([BOTH_MATCH], [Frame("?func", 1, true)], "main", 1)

  lemma ParseTwoRules()
    ensures Parse(INITIAL.stack, "f,m*/:-f,*n/", 0).0 == BOTH_MATCH
  {
    var c := "f,m*/:-f,*n/";
    assert StrTok(c, 5) == StrTok(c, 4) == StrTok(c, 3) == StrTok(c, 2) == StrTok(c, 1) == StrTok(c, 0) == 5;
    assert StrTok(c, 12) == StrTok(c, 11) == StrTok(c, 10) == StrTok(c, 9) == StrTok(c, 8) == StrTok(c, 7) == StrTok(c, 6) == 12;
    assert c[0..5] == "f,m*/" && c[6..12] == "-f,*n/";
    var s := Cleared(INITIAL.stack[0].base);
    var s1 := s.(lists := NO_LISTS.(functions := Lst(TWO_RULES[..1], false)));
    assert Field(s, false, "f,m*/", 0) == s1 by { FirstRule(s); }
    assert Field(s1, false, "-f,*n/", 0) == BOTH_MATCH by { SecondRule(s1); }
    hide Field;
    assert Fields(s1, false, c, 6, 0).0 == BOTH_MATCH;
    assert Fields(s, false, c, 0, 0).0 == BOTH_MATCH;
  }

  lemma FirstRule(s: Settings)
    requires s.lists == NO_LISTS
    ensures Field(s, false, "f,m*/", 0) == s.(lists := NO_LISTS.(functions := Lst(TWO_RULES[..1], false)))
  {
    var text := "f,m*/";
    assert text[2..] == "m*/";
    assert ReadField(text) == Command(false, 'f', "m*/");
    assert TokenEnd("m*/") == 3 && "m*/"[..3] == "m*/" && Pattern("m*/") == "m*";
    assert ListAddDel([], "m*/", Include) == [NewElem("m*/", Include)] == TWO_RULES[..1];
  }

  lemma SecondRule(s: Settings)
    requires s.lists == NO_LISTS.(functions := Lst(TWO_RULES[..1], false))
    ensures Field(s, false, "-f,*n/", 0) == s.(lists := NO_LISTS.(functions := Lst(TWO_RULES, false)))
  {
    var text := "-f,*n/";
    assert text[3..] == "*n/";
    assert ReadField(text) == Command(true, 'f', "*n/");
    SecondToken();
  }

  lemma SecondToken()
    ensures ListAddDel(TWO_RULES[..1], "*n/", Exclude) == TWO_RULES
  {
    var first := TWO_RULES[..1];
    assert TokenEnd("*n/") == 3 && "*n/"[..3] == "*n/" && Pattern("*n/") == "*n";
    assert first[0].str == "m*" && "m*"[0] == 'm' && "*n"[0] == '*';
    assert !Hits(first[0], "*n/");
    assert first[1..] == [] && AddToken([], "*n/", Exclude) == TWO_RULES[1..];
    assert AddToken(first, "*n/", Exclude) == TWO_RULES;
  }

  /** What entering `main` under the two rules gives. */
  lemma EnterMainInitial(env: Env)
    requires env.fnmatch("m*", "main")
    ensures var st := State([BOTH_MATCH], [], "?func", 0);
            Inv(st) && Consistent(st, env) && Step(st, env, Enter("main")) == IN_MAIN_INITIAL
    ensures Inv(IN_MAIN_INITIAL) && Consistent(IN_MAIN_INITIAL, env)
  {
    var st := State([BOTH_MATCH], [], "?func", 0);
    assert AnySubdir(TWO_RULES) by { assert TWO_RULES[0].subdir; }
    assert InList(TWO_RULES, "main", env.fnmatch) == Hit(true, true, false);
    assert InList([], env.process, env.fnmatch) == Miss(true, false);
    assert EnterFrame(st, env, "main") == Frame("?func", 1, true);
    assert st.frames + [EnterFrame(st, env, "main")] == IN_MAIN_INITIAL.frames;
    assert st.frames == Rescan(BOTH_MATCH, env, st.frames, "?func");
    EnterKeepsConsistent(st, env, "main");
    EnterKeepsInv(st, env, "main");
  }

  /** The level that `+F` puts above the initial one. */
  const REVERSED := BOTH_MATCH.(base := BOTH_MATCH.base.(sw := BOTH_MATCH.base.sw.(file := true)),
                                lists := NO_LISTS.(functions := Lst([TWO_RULES[1], TWO_RULES[0]], false)))

  lemma ParsePlusF()
    ensures Parse(PushState([BOTH_MATCH]), "+F", 1) == (REVERSED, false)
  {
    var c := "+F";
    assert StrTok(c, 2) == StrTok(c, 1) == StrTok(c, 0) == 2;
    assert c[0..2] == c && c[1..] == "F" && "F"[1..] == "";
    assert ReadField(c) == Command(false, 'F', "");
    assert Reverse(TWO_RULES) == [TWO_RULES[1], TWO_RULES[0]];
    assert Reverse<Elem>([]) == [];
    var s := Inherit(BOTH_MATCH, true);
    assert PushState([BOTH_MATCH])[0] == BOTH_MATCH && PushState([BOTH_MATCH])[1] == FRESH;
    assert Field(s, true, c, 1) == REVERSED;
    assert Fields(s, true, c, 0, 1) == (REVERSED, false);
  }

  /** The initial settings trace `main` by the first of two rules that match.  A push that only sets a
      switch copies the list in reverse, so that the other rule comes first; the frame keeps its bit,
      which a rescan would clear. */
  lemma CopyCanLeaveStaleBits(env: Env)
    requires env.fnmatch("m*", "main") && env.fnmatch("*n", "main")
    ensures Parse(INITIAL.stack, "f,m*/:-f,*n/", 0).0 == BOTH_MATCH
    ensures Step(State([BOTH_MATCH], [], "?func", 0), env, Enter("main")) == IN_MAIN_INITIAL
    ensures Inv(IN_MAIN_INITIAL) && Consistent(IN_MAIN_INITIAL, env) && Quiet(IN_MAIN_INITIAL, Push("+F"))
    ensures var t := Step(IN_MAIN_INITIAL, env, Push("+F")); t.stack != [] && !Consistent(t, env)
  {
    hide Parse, RescanBit, EnterFrame, Inv, Rescan, Cleared;
    ParseTwoRules();
    EnterMainInitial(env);
    ParsePlusF();
    NewRuleClears(env);
  }

  lemma NewRuleClears(env: Env)
    requires env.fnmatch("*n", "main")
    ensures IN_MAIN_INITIAL.frames != Rescan(REVERSED, env, IN_MAIN_INITIAL.frames, "main")
  {
    assert InList(FunctionList(REVERSED), "main", env.fnmatch) == Hit(true, false, true);
    assert InList([], env.process, env.fnmatch) == Miss(true, false);
    assert !RescanBit(REVERSED, env, IN_MAIN_INITIAL.frames, "main", 0);
    assert Rescan(REVERSED, env, IN_MAIN_INITIAL.frames, "main")[0] != IN_MAIN_INITIAL.frames[0];
  }
}
