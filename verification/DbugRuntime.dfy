/** The dbug runtime's per-thread code state, updated in place as the program does it.  Every
    operation is proved against `DbugTrace.Step`, which rescans after every change of the function
    list; `FixTraceFlags` here takes the shortcuts. */
module DbugRuntime {
  import opened DbugList
  import opened DbugControl
  import opened DbugTrace

  method SearchList(list: seq<Elem>, name: string, fnmatch: (string, string) -> bool) returns (r: Lookup)
    ensures r == InList(list, name, fnmatch)
  {
    var matched, sub, i := true, false, 0;
    assert list[0..] == list;
    while i < |list|
      invariant 0 <= i <= |list|
      invariant InListFrom(list[i..], name, fnmatch, matched, sub) == InList(list, name, fnmatch)
    {
      assert list[i..][1..] == list[i + 1..];
      if fnmatch(list[i].str, name) {
        return Hit(list[i].subdir, list[i].incl, list[i].excl);
      }
      if !list[i].excl {
        matched, sub := false, false;
      }
      if list[i].subdir {
        sub := true;
      }
      i := i + 1;
    }
    r := Miss(matched, sub);
  }

  method ListFlags(list: seq<Elem>) returns (sub: bool, incl: bool)
    ensures sub == AnySubdir(list) && incl == AnyInclude(list)
  {
    sub, incl := false, false;
    for i := 0 to |list|
      invariant sub <==> exists j :: 0 <= j < i && list[j].subdir
      invariant incl <==> exists j :: 0 <= j < i && list[j].incl
    {
      sub, incl := sub || list[i].subdir, incl || list[i].incl;
    }
  }

  class CodeState {
    const env: Env
    var stack: seq<Settings>
    var frames: seq<Frame>
    var func: string
    var level: nat

    ghost function View(): State
      reads this
    {
      State(stack, frames, func, level)
    }

    ghost predicate Valid()
      reads this
    {
      Inv(View())
    }

    constructor (env: Env)
      ensures Valid() && View() == INITIAL && this.env == env
    {
      this.env := env;
      stack, frames, func, level := INITIAL.stack, [], "?func", 0;
    }

    method Trace(frameOn: bool) returns (v: Verdict)
      requires stack != []
      ensures v == DoTrace(View().Top(), env, func, level, frameOn)
    {
      var s := stack[|stack| - 1];
      v := Dont;
      if s.base.maxdepth == 0 || level <= s.base.maxdepth {
        var p := SearchList(s.lists.processes.elems, env.process, env.fnmatch);
        if (if p.Hit? then p.incl else p.matched) {
          var f := SearchList(s.lists.functions.elems, func, env.fnmatch);
          v := Judge(f, frameOn);
        }
      }
    }

    /** The bit a frame starts with: its caller's, or the list's default. */
    method FrameTraceFlag(k: nat) returns (on: bool)
      requires stack != [] && k <= |frames|
      ensures on == if k == 0 then Default(View().Top()) else frames[k - 1].on
    {
      if k > 0 {
        on := frames[k - 1].on;
      } else {
        var sub, incl := ListFlags(stack[|stack| - 1].lists.functions.elems);
        on := !incl;
      }
    }

    method Enter(name: string)
      requires Valid()
      modifies this
      ensures Valid() && View() == Step(old(View()), env, Op.Enter(name))
    {
      StepKeepsInv(View(), env, Op.Enter(name));
      var inherited := FrameTraceFlag(|frames|);
      var frame := Frame(func, level + 1, inherited);
      func, level := name, level + 1;
      var v := Trace(inherited);
      if v.Enable? {
        frame := frame.(on := true);
      } else if v.Disable? {
        frame := frame.(on := false);
      }
      frames := frames + [frame];
    }

    method Return()
      requires Valid() && frames != []
      modifies this
      ensures Valid() && View() == Step(old(View()), env, Op.Return)
    {
      StepKeepsInv(View(), env, Op.Return);
      var f := frames[|frames| - 1];
      level := f.level;
      if level != 0 {
        level := level - 1;
      }
      func := f.func;
      frames := frames[..|frames| - 1];
    }

    /** `FixTraceFlags_helper`: rewrites the bits of frames 0 to `k`, outermost first. */
    method FixHelper(name: string, k: nat, ghost was: seq<Frame>, ghost current: string)
      requires stack != [] && |was| == |frames| && k < |frames|
      requires forall i :: 0 <= i <= k ==> frames[i] == was[i]
      requires name == NameOf(was, current, k)
      modifies this`frames, this`func, this`level
      ensures |frames| == |was|
      ensures forall i :: 0 <= i <= k ==>
                frames[i] == was[i].(on := RescanBit(View().Top(), env, was, current, i))
      ensures forall i :: k < i < |frames| ==> frames[i] == old(frames[i])
      decreases k
    {
      hide RescanBit, DoTrace, Default;
      if k > 0 {
        FixHelper(frames[k].func, k - 1, was, current);
      }
      func := name;
      level := frames[k].level;
      var on := FrameTraceFlag(k);
      frames := frames[k := frames[k].(on := on)];
      var v := Trace(frames[|frames| - 1].on);
      BitStep(View().Top(), env, was, current, k);
      FrameDoesNotDecide(View().Top(), env, func, level, frames[|frames| - 1].on);
      assert on == if k == 0 then Default(View().Top()) else RescanBit(View().Top(), env, was, current, k - 1);
      assert Apply(v, on) == RescanBit(View().Top(), env, was, current, k);
      if v.Enable? {
        frames := frames[k := frames[k].(on := true)];
      } else if v.Disable? {
        frames := frames[k := frames[k].(on := false)];
      }
    }

    /** Whether all frames have the bit of the innermost one. */
    method Uniform() returns (same: bool)
      requires frames != []
      ensures same <==> AllOn(frames, frames[|frames| - 1].on)
    {
      var on, i := frames[|frames| - 1].on, |frames|;
      while i > 0
        invariant 0 <= i <= |frames|
        invariant forall k :: i <= k < |frames| ==> frames[k].on == on
      {
        if frames[i - 1].on != on {
          return false;
        }
        i := i - 1;
      }
      same := true;
    }

    /** The five checks and, if they do not settle it, the rescan.  `oldSub` and `oldIncl` are the
        flags of the function list before the change. */
    method FixTraceFlags(oldSub: bool, oldIncl: bool)
      requires stack != [] && LevelsCount(frames, level)
      requires !oldSub ==> AllOn(frames, !oldIncl)
      modifies this`frames, this`func, this`level
      ensures frames == old(Rescan(View().Top(), env, frames, func))
      ensures func == old(func) && level == old(level)
    {
      hide RescanBit, AnySubdir, AnyInclude;
      ghost var s := View().Top();
      if frames == [] {
        return;
      }
      var newSub, newIncl := ListFlags(stack[|stack| - 1].lists.functions.elems);
      if !newSub {
        NoSubdirRescan(s, env, frames, func);
        if !oldSub && newIncl == oldIncl {
          AlreadyDefault(s);
          return;
        }
        var same := Uniform();
        if same && frames[|frames| - 1].on == !newIncl {
          AlreadyDefault(s);
          return;
        }
      }
      var f, l := func, level;
      ghost var was := frames;
      FixHelper(f, |frames| - 1, was, f);
      func, level := f, l;
      assert frames == Rescan(s, env, was, f);
    }

    /** Frames that all have the default bit are what a rescan by such a list gives. */
    lemma AlreadyDefault(s: Settings)
      requires AllOn(frames, Default(s)) && AllOn(Rescan(s, env, frames, func), Default(s))
      ensures frames == Rescan(s, env, frames, func)
    {
      hide RescanBit, Default;
      var r := Rescan(s, env, frames, func);
      forall k | 0 <= k < |frames| ensures frames[k] == r[k] {
        assert r[k].on == Default(s) == frames[k].on;
      }
    }

    method Set(control: string)
      requires Valid()
      modifies this
      ensures Valid() && View() == Step(old(View()), env, Op.Set(control))
    {
      hide RescanBit, AnySubdir, AnyInclude, Parse;
      StepKeepsInv(View(), env, Op.Set(control));
      var oldSub, oldIncl := ListFlags(stack[|stack| - 1].lists.functions.elems);
      if |stack| == 1 {
        stack := PushState(stack);
      }
      var (s, changed) := Parse(stack, control, level);
      stack := ReplaceTop(stack, s);
      if changed {
        FixTraceFlags(oldSub, oldIncl);
      }
    }

    method Push(control: string)
      requires Valid()
      modifies this
      ensures Valid() && View() == Step(old(View()), env, Op.Push(control))
    {
      hide RescanBit, AnySubdir, AnyInclude, Parse;
      StepKeepsInv(View(), env, Op.Push(control));
      var oldSub, oldIncl := ListFlags(stack[|stack| - 1].lists.functions.elems);
      stack := PushState(stack);
      var (s, changed) := Parse(stack, control, level);
      stack := ReplaceTop(stack, s);
      if changed {
        FixTraceFlags(oldSub, oldIncl);
      }
    }

    method Pop()
      requires Valid()
      modifies this
      ensures Valid() && View() == Step(old(View()), env, Op.Pop)
    {
      hide RescanBit, AnySubdir, AnyInclude;
      StepKeepsInv(View(), env, Op.Pop);
      if |stack| > 1 {
        var oldSub, oldIncl := ListFlags(stack[|stack| - 1].lists.functions.elems);
        stack := stack[..|stack| - 1];
        FixTraceFlags(oldSub, oldIncl);
      }
    }

    /** A whole run of calls. */
    method Execute(ops: seq<Op>)
      requires Valid() && Possible(View(), env, ops)
      modifies this
      ensures Valid() && View() == Run(old(View()), env, ops)
    {
      hide RescanBit, AnySubdir, AnyInclude, Step, Inv;
      ghost var st := View();
      assert ops[0..] == ops;
      for i := 0 to |ops|
        invariant Valid() && Possible(View(), env, ops[i..])
        invariant Run(View(), env, ops[i..]) == Run(st, env, ops)
      {
        assert ops[i..][0] == ops[i] && ops[i..][1..] == ops[i + 1..];
        match ops[i]
        case Enter(name) => Enter(name);
        case Return => Return();
        case Set(c) => Set(c);
        case Push(c) => Push(c);
        case Pop => Pop();
      }
    }
  }
}
