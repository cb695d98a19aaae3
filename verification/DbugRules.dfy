/** When a function's TRACE_ON bit is forced, in terms of the depth limit, the process list and the
    first pattern of the function list that matches; in every other case the bit is inherited. */
module DbugRules {
  import opened DbugList
  import opened DbugControl
  import opened DbugTrace

  /** `list[i]` is the first element whose pattern matches the name. */
  predicate First(list: seq<Elem>, name: string, fnmatch: (string, string) -> bool, i: nat) {
    i < |list| && fnmatch(list[i].str, name) && forall j :: 0 <= j < i ==> !fnmatch(list[j].str, name)
  }

  predicate Unmatched(list: seq<Elem>, name: string, fnmatch: (string, string) -> bool) {
    forall j :: 0 <= j < |list| ==> !fnmatch(list[j].str, name)
  }

  /** No depth limit, or the level is within it. */
  predicate WithinDepth(s: Settings, level: nat) { s.base.maxdepth == 0 || level <= s.base.maxdepth }

  /** The process is let in: the first pattern that matches it includes it, or none matches it and
      all of them exclude. */
  ghost predicate LetIn(list: seq<Elem>, process: string, fnmatch: (string, string) -> bool) {
    || (exists i: nat :: First(list, process, fnmatch, i) && list[i].incl)
    || (Unmatched(list, process, fnmatch) && forall j :: 0 <= j < |list| ==> list[j].excl)
  }

  /** The first match of the function name forces the bit. */
  predicate Forces(e: Elem) { e.subdir && e.incl != e.excl }

  /** No element includes anything, so a function that no pattern mentions is traced. */
  predicate TracedByDefault(list: seq<Elem>) { forall i :: 0 <= i < |list| ==> !list[i].incl }

  // ----- what the search finds

  lemma {:induction false} SearchHits(list: seq<Elem>, name: string, fnmatch: (string, string) -> bool, matched: bool, sub: bool, i: nat)
    requires First(list, name, fnmatch, i)
    ensures InListFrom(list, name, fnmatch, matched, sub) == Hit(list[i].subdir, list[i].incl, list[i].excl)
    decreases i
  {
    if i > 0 {
      assert forall j :: 0 <= j < i - 1 ==> list[1..][j] == list[j + 1];
      assert !fnmatch(list[0].str, name);
      SearchHits(list[1..], name, fnmatch, matched && list[0].excl, (list[0].excl && sub) || list[0].subdir, i - 1);
    }
  }

  lemma {:induction false} SearchMisses(list: seq<Elem>, name: string, fnmatch: (string, string) -> bool, matched: bool, sub: bool)
    requires Unmatched(list, name, fnmatch)
    ensures var r := InListFrom(list, name, fnmatch, matched, sub);
            r.Miss? && (r.matched <==> matched && forall j :: 0 <= j < |list| ==> list[j].excl)
  {
    if list == [] {
    } else {
      var rest := list[1..];
      assert forall j :: 0 <= j < |rest| ==> rest[j] == list[j + 1];
      assert forall j :: 0 < j < |list| ==> list[j] == rest[j - 1];
      SearchMisses(rest, name, fnmatch, matched && list[0].excl, (list[0].excl && sub) || list[0].subdir);
    }
  }

  /** A name has a first match or none. */
  lemma {:induction false} SomeFirst(list: seq<Elem>, name: string, fnmatch: (string, string) -> bool, n: nat) returns (i: nat)
    requires n <= |list| && forall j :: 0 <= j < n ==> !fnmatch(list[j].str, name)
    ensures i <= |list| && (i < |list| ==> First(list, name, fnmatch, i)) && (i == |list| ==> Unmatched(list, name, fnmatch))
    decreases |list| - n
  {
    if n == |list| || fnmatch(list[n].str, name) {
      i := n;
    } else {
      i := SomeFirst(list, name, fnmatch, n + 1);
    }
  }

  lemma OneFirst(list: seq<Elem>, name: string, fnmatch: (string, string) -> bool, i: nat, j: nat)
    requires First(list, name, fnmatch, i) && First(list, name, fnmatch, j)
    ensures i == j
  {
  }

  lemma GateIs(s: Settings, env: Env, level: nat)
    ensures Gate(s, env, level) <==> WithinDepth(s, level) && LetIn(s.lists.processes.elems, env.process, env.fnmatch)
  {
    hide InListFrom;
    var list := s.lists.processes.elems;
    var i := SomeFirst(list, env.process, env.fnmatch, 0);
    if i < |list| {
      SearchHits(list, env.process, env.fnmatch, true, false, i);
      forall j: nat | First(list, env.process, env.fnmatch, j) ensures j == i { OneFirst(list, env.process, env.fnmatch, i, j); }
    } else {
      SearchMisses(list, env.process, env.fnmatch, true, false);
    }
  }

  lemma RuleIs(s: Settings, env: Env, name: string, i: nat)
    requires First(FunctionList(s), name, env.fnmatch, i)
    ensures RuleOf(s, env, name) == if Forces(FunctionList(s)[i]) then Rule.Forces(FunctionList(s)[i].incl) else NoRule
  {
    SearchHits(FunctionList(s), name, env.fnmatch, true, false, i);
  }

  lemma NoRuleIs(s: Settings, env: Env, name: string)
    requires Unmatched(FunctionList(s), name, env.fnmatch)
    ensures RuleOf(s, env, name) == NoRule
  {
    SearchMisses(FunctionList(s), name, env.fnmatch, true, false);
  }

  // ----- the bit a rescan gives

  /** Within the depth limit, for a process that is let in, the first match decides if it is a SUBDIR
      rule with one flag. */
  lemma RescanForced(s: Settings, env: Env, frames: seq<Frame>, func: string, k: nat, i: nat)
    requires k < |frames| && WithinDepth(s, frames[k].level) && LetIn(s.lists.processes.elems, env.process, env.fnmatch)
    requires First(FunctionList(s), if k + 1 < |frames| then frames[k + 1].func else func, env.fnmatch, i) && Forces(FunctionList(s)[i])
    ensures Rescan(s, env, frames, func)[k].on == FunctionList(s)[i].incl
  {
    hide RescanBit, Gate, InList, LetIn;
    GateIs(s, env, frames[k].level);
    RuleIs(s, env, NameOf(frames, func, k), i);
    BitFromRule(s, env, frames, func, k);
  }

  /** Beyond the depth limit, for a process that is shut out, and without such a rule, the bit is that
      of the calling frame, or the list's default at the bottom. */
  lemma RescanInherits(s: Settings, env: Env, frames: seq<Frame>, func: string, k: nat)
    requires k < |frames|
    requires || !WithinDepth(s, frames[k].level) || !LetIn(s.lists.processes.elems, env.process, env.fnmatch)
             || forall i: nat :: First(FunctionList(s), if k + 1 < |frames| then frames[k + 1].func else func, env.fnmatch, i) ==> !Forces(FunctionList(s)[i])
    ensures Rescan(s, env, frames, func)[k].on ==
            if k == 0 then TracedByDefault(FunctionList(s)) else Rescan(s, env, frames, func)[k - 1].on
  {
    hide RescanBit, Gate, InList, LetIn;
    GateIs(s, env, frames[k].level);
    var name := NameOf(frames, func, k);
    var i := SomeFirst(FunctionList(s), name, env.fnmatch, 0);
    if i < |FunctionList(s)| {
      RuleIs(s, env, name, i);
    } else {
      NoRuleIs(s, env, name);
    }
    BitFromRule(s, env, frames, func, k);
    DefaultIs(s);
  }

  lemma DefaultIs(s: Settings)
    ensures Default(s) <==> TracedByDefault(FunctionList(s))
  {
  }

  // ----- the bit a function is entered with

  lemma EnterBit(st: State, env: Env, name: string)
    requires Inv(st)
    ensures var t := Step(st, env, Enter(name));
            && t.frames == st.frames + [t.frames[|st.frames|]] && t.level == st.level + 1 && t.func == name
            && var caller := if st.frames == [] then Default(st.Top()) else st.frames[|st.frames| - 1].on;
               t.frames[|st.frames|].on == BitUnder(if Gate(st.Top(), env, st.level + 1) then RuleOf(st.Top(), env, name) else NoRule, caller)
  {
    hide Gate, InList, Default;
  }

  /** The same rule for the frame that entering a function pushes. */
  lemma EnterForced(st: State, env: Env, name: string, i: nat)
    requires Inv(st) && WithinDepth(st.Top(), st.level + 1) && LetIn(st.Top().lists.processes.elems, env.process, env.fnmatch)
    requires First(FunctionList(st.Top()), name, env.fnmatch, i) && Forces(FunctionList(st.Top())[i])
    ensures Step(st, env, Enter(name)).frames[|st.frames|].on == FunctionList(st.Top())[i].incl
  {
    EnterBit(st, env, name);
    hide Step, Gate, RuleOf, LetIn;
    GateIs(st.Top(), env, st.level + 1);
    RuleIs(st.Top(), env, name, i);
  }

  lemma EnterInherits(st: State, env: Env, name: string)
    requires Inv(st)
    requires || !WithinDepth(st.Top(), st.level + 1) || !LetIn(st.Top().lists.processes.elems, env.process, env.fnmatch)
             || forall i: nat :: First(FunctionList(st.Top()), name, env.fnmatch, i) ==> !Forces(FunctionList(st.Top())[i])
    ensures Step(st, env, Enter(name)).frames[|st.frames|].on ==
            if st.frames == [] then TracedByDefault(FunctionList(st.Top())) else st.frames[|st.frames| - 1].on
  {
    EnterBit(st, env, name);
    hide Step, Gate, RuleOf, LetIn, Default;
    GateIs(st.Top(), env, st.level + 1);
    var i := SomeFirst(FunctionList(st.Top()), name, env.fnmatch, 0);
    if i < |FunctionList(st.Top())| {
      RuleIs(st.Top(), env, name, i);
    } else {
      NoRuleIs(st.Top(), env, name);
    }
    DefaultIs(st.Top());
  }
}
