/** The worker pool of the import client, as interleaved steps: one thread per file, at most `limit`
    at a time. Creating a thread may fail. A worker's loading takes a number of steps, given by the
    plan. */
module ImportPool {

  /** The next thing the main thread does. */
  datatype Main =
    | Next | Test | WaitSlot | RelockSlot | Reserve | UnlockSlot | Create
    | LockFail | GiveBack | UnlockFail
    | LockEnd | TestEnd | WaitEnd | RelockEnd | Left

  /** The next thing the worker of a file does. */
  datatype Worker = Absent | Failed | Loading(left: nat) | Loaded | Decrement | Signal | Unlock | Done

  datatype Owner = Free | ByMain | By(w: nat)

  /** `file` is the position in the argument list, `tried` the files handed to a thread creation. */
  datatype State = State(main: Main, file: nat, ws: seq<Worker>, tried: seq<nat>, counter: int, lock: Owner)

  /** `made` says whether a thread creation succeeds; `Timeout` ends a wait without a signal. */
  datatype Act = MainStep(made: bool) | WorkerStep(w: nat) | Timeout

  datatype Config = Config(limit: nat, plan: seq<nat>)

  predicate Initial(s: State) {
    s.main == Next && s.file == 0 && s.tried == [] && s.counter == 0 && s.lock == Free &&
    forall w :: 0 <= w < |s.ws| ==> s.ws[w] == Absent
  }

  predicate Enabled(s: State, a: Act) {
    match a
    case MainStep(_) =>
      !s.main.WaitSlot? && !s.main.WaitEnd? && !s.main.Left? && (s.main.Create? ==> s.file < |s.ws|) &&
      ((s.main.Next? && s.file < |s.ws|) || s.main.RelockSlot? || s.main.LockFail? || s.main.LockEnd? || s.main.RelockEnd?
       ==> s.lock == Free)
    case WorkerStep(w) =>
      w < |s.ws| && (s.ws[w].Loaded? ==> s.lock == Free) && !s.ws[w].Absent? && !s.ws[w].Failed? && !s.ws[w].Done?
    case Timeout => s.main.WaitSlot? || s.main.WaitEnd?
  }

  function MainDoes(s: State, made: bool, c: Config): State
    requires |c.plan| == |s.ws| && Enabled(s, MainStep(made))
  {
    match s.main
    case Next => if s.file < |s.ws| then s.(main := Test, lock := ByMain) else s.(main := LockEnd)
    case Test => if s.counter == c.limit then s.(main := WaitSlot, lock := Free) else s.(main := Reserve)
    case WaitSlot => s
    case RelockSlot => s.(main := Test, lock := ByMain)
    case Reserve => s.(main := UnlockSlot, counter := s.counter + 1)
    case UnlockSlot => s.(main := Create, lock := Free)
    case Create =>
      s.(main := if made then Next else LockFail, file := s.file + 1, tried := s.tried + [s.file],
         ws := s.ws[s.file := if made then Loading(c.plan[s.file]) else Failed])
    case LockFail => s.(main := GiveBack, lock := ByMain)
    case GiveBack => s.(main := UnlockFail, counter := s.counter - 1)
    case UnlockFail => s.(main := Next, lock := Free)
    case LockEnd => s.(main := TestEnd, lock := ByMain)
    case TestEnd => s.(main := if s.counter == 0 then Left else WaitEnd, lock := Free)
    case WaitEnd => s
    case RelockEnd => s.(main := TestEnd, lock := ByMain)
    case Left => s
  }

  function Signalled(m: Main): Main {
    if m.WaitSlot? then RelockSlot else if m.WaitEnd? then RelockEnd else m
  }

  function WorkerDoes(s: State, w: nat): State
    requires w < |s.ws|
  {
    match s.ws[w]
    case Loading(n) => s.(ws := s.ws[w := if n > 0 then Loading(n - 1) else Loaded])
    case Loaded => s.(ws := s.ws[w := Decrement], lock := By(w))
    case Decrement => s.(ws := s.ws[w := Signal], counter := s.counter - 1)
    case Signal => s.(ws := s.ws[w := Unlock], main := Signalled(s.main))
    case Unlock => s.(ws := s.ws[w := Done], lock := Free)
    case _ => s
  }

  function Do(s: State, a: Act, c: Config): State
    requires Enabled(s, a) && |c.plan| == |s.ws|
  {
    match a
    case MainStep(made) => MainDoes(s, made, c)
    case WorkerStep(w) => WorkerDoes(s, w)
    case Timeout => s.(main := Signalled(s.main))
  }

  // ----- the invariant

  /** Created and not yet counted out. */
  predicate Live(w: Worker) { w.Loading? || w.Loaded? || w.Decrement? }

  function CountLive(ws: seq<Worker>): nat {
    if ws == [] then 0 else (if Live(ws[0]) then 1 else 0) + CountLive(ws[1..])
  }

  /** The slot taken for the next thread, or not yet given back. */
  function Reserved(m: Main): nat {
    if m.UnlockSlot? || m.Create? || m.LockFail? || m.GiveBack? then 1 else 0
  }

  predicate Waits(m: Main) { m.WaitSlot? || m.WaitEnd? }

  predicate AtEnd(m: Main) { m.LockEnd? || m.TestEnd? || m.WaitEnd? || m.RelockEnd? || m.Left? }

  predicate WillSignal(w: Worker) { Live(w) || w.Signal? }

  predicate MainOk(s: State, limit: nat) {
    && (s.lock == ByMain <==> s.main.Test? || s.main.Reserve? || s.main.UnlockSlot? || s.main.GiveBack? ||
                              s.main.UnlockFail? || s.main.TestEnd?)
    && s.counter == CountLive(s.ws) + Reserved(s.main) <= limit
    && (s.main.Reserve? ==> s.counter < limit)
    && s.file <= |s.ws| && (AtEnd(s.main) ==> s.file == |s.ws|)
    && (s.main.Test? || s.main.WaitSlot? || s.main.RelockSlot? || s.main.Reserve? || s.main.UnlockSlot? || s.main.Create?
        ==> s.file < |s.ws|)
  }

  predicate TriedOk(s: State) { |s.tried| == s.file && forall k :: 0 <= k < s.file ==> s.tried[k] == k }

  predicate WorkerOk(s: State, w: nat)
    requires w < |s.ws|
  {
    var p := s.ws[w];
    && (p.Decrement? || p.Signal? || p.Unlock? <==> s.lock == By(w))
    && (p == Absent <==> w >= s.file)
    && (s.main == Left ==> p == Done || p == Failed)
  }

  predicate SomeoneLeft(s: State) {
    Waits(s.main) ==> exists w :: 0 <= w < |s.ws| && WillSignal(s.ws[w])
  }

  predicate Inv(s: State, limit: nat) {
    && limit > 0 && MainOk(s, limit) && TriedOk(s) && (s.lock.By? ==> s.lock.w < |s.ws|) && SomeoneLeft(s)
    && forall w :: 0 <= w < |s.ws| ==> WorkerOk(s, w)
  }

  lemma {:induction false} CountUpdate(ws: seq<Worker>, w: nat, p: Worker)
    requires w < |ws|
    ensures CountLive(ws[w := p]) == CountLive(ws) - (if Live(ws[w]) then 1 else 0) + (if Live(p) then 1 else 0)
  {
    if w == 0 {
      assert ws[0 := p][1..] == ws[1..];
    } else {
      assert ws[w := p][1..] == ws[1..][w - 1 := p];
      CountUpdate(ws[1..], w - 1, p);
    }
  }

  lemma {:induction false} CountZero(ws: seq<Worker>)
    ensures CountLive(ws) == 0 <==> forall w :: 0 <= w < |ws| ==> !Live(ws[w])
  {
    if ws == [] {
    } else {
      CountZero(ws[1..]);
      assert forall w :: 0 <= w < |ws| - 1 ==> ws[1..][w] == ws[w + 1];
      assert forall w :: 0 < w < |ws| ==> ws[w] == ws[1..][w - 1];
    }
  }

  lemma MainKeepsMain(s: State, made: bool, c: Config)
    requires |c.plan| == |s.ws| && MainOk(s, c.limit) && TriedOk(s) && Enabled(s, MainStep(made))
    requires s.main.Create? ==> !Live(s.ws[s.file])
    ensures MainOk(MainDoes(s, made, c), c.limit) && TriedOk(MainDoes(s, made, c))
  {
    hide CountLive;
    if s.main.Create? {
      CountUpdate(s.ws, s.file, MainDoes(s, made, c).ws[s.file]);
    }
  }

  lemma MainKeepsWorker(s: State, made: bool, c: Config, w: nat)
    requires |c.plan| == |s.ws| && MainOk(s, c.limit) && Enabled(s, MainStep(made)) && w < |s.ws| && WorkerOk(s, w)
    requires s.main.TestEnd? && s.counter == 0 ==> !Live(s.ws[w])
    ensures WorkerOk(MainDoes(s, made, c), w)
  {
    hide CountLive;
  }

  lemma NobodyLive(s: State, limit: nat)
    requires MainOk(s, limit)
    ensures s.counter == 0 ==> forall w :: 0 <= w < |s.ws| ==> !Live(s.ws[w])
    ensures s.counter > Reserved(s.main) ==> exists w :: 0 <= w < |s.ws| && Live(s.ws[w])
  {
    CountZero(s.ws);
  }

  lemma MainKeepsInv(s: State, made: bool, c: Config)
    requires |c.plan| == |s.ws| && Inv(s, c.limit) && Enabled(s, MainStep(made))
    ensures Inv(MainDoes(s, made, c), c.limit)
  {
    var s' := MainDoes(s, made, c);
    NobodyLive(s, c.limit);
    assert s.main.Create? ==> WorkerOk(s, s.file);
    MainKeepsMain(s, made, c);
    if Waits(s'.main) {
      var w :| 0 <= w < |s.ws| && Live(s.ws[w]);
      assert WillSignal(s'.ws[w]);
    }
    hide WorkerOk, MainOk, TriedOk;
    forall w | 0 <= w < |s'.ws|
      ensures WorkerOk(s', w)
    {
      MainKeepsWorker(s, made, c, w);
    }
  }

  lemma WorkerKeepsMain(s: State, w: nat, limit: nat)
    requires MainOk(s, limit) && Enabled(s, WorkerStep(w)) && WorkerOk(s, w)
    ensures MainOk(WorkerDoes(s, w), limit)
  {
    hide CountLive;
    CountUpdate(s.ws, w, WorkerDoes(s, w).ws[w]);
  }

  lemma WorkerKeepsWorker(s: State, w: nat, v: nat)
    requires Enabled(s, WorkerStep(w)) && WorkerOk(s, w) && v < |s.ws| && WorkerOk(s, v)
    ensures WorkerOk(WorkerDoes(s, w), v)
  {
  }

  lemma WorkerKeepsInv(s: State, w: nat, limit: nat)
    requires Inv(s, limit) && Enabled(s, WorkerStep(w))
    ensures Inv(WorkerDoes(s, w), limit)
  {
    var s' := WorkerDoes(s, w);
    WorkerKeepsMain(s, w, limit);
    if Waits(s'.main) {
      var v :| 0 <= v < |s.ws| && WillSignal(s.ws[v]);
      assert v != w ==> s'.ws[v] == s.ws[v];
      assert WillSignal(s'.ws[v]);
    }
    hide WorkerOk, MainOk;
    forall v | 0 <= v < |s'.ws|
      ensures WorkerOk(s', v)
    {
      WorkerKeepsWorker(s, w, v);
    }
  }

  lemma StepKeepsInv(s: State, a: Act, c: Config)
    requires |c.plan| == |s.ws| && Inv(s, c.limit) && Enabled(s, a)
    ensures Inv(Do(s, a, c), c.limit) && |Do(s, a, c).ws| == |s.ws|
  {
    if a.MainStep? {
      MainKeepsInv(s, a.made, c);
    } else if a.WorkerStep? {
      WorkerKeepsInv(s, a.w, c.limit);
    } else {
      hide CountLive;
      forall v | 0 <= v < |s.ws|
        ensures WorkerOk(s.(main := Signalled(s.main)), v)
      {
        assert WorkerOk(s, v);
      }
    }
  }

  // ----- whole runs

  predicate Legal(s: State, acts: seq<Act>, c: Config)
    requires |c.plan| == |s.ws|
    decreases |acts|
  {
    acts == [] || (Enabled(s, acts[0]) && |Do(s, acts[0], c).ws| == |c.plan| && Legal(Do(s, acts[0], c), acts[1..], c))
  }

  function After(s: State, acts: seq<Act>, c: Config): State
    requires |c.plan| == |s.ws| && Legal(s, acts, c)
    decreases |acts|
  {
    if acts == [] then s else After(Do(s, acts[0], c), acts[1..], c)
  }

  lemma {:induction false} RunKeepsInv(s: State, acts: seq<Act>, c: Config)
    requires |c.plan| == |s.ws| && Inv(s, c.limit) && Legal(s, acts, c)
    ensures Inv(After(s, acts, c), c.limit) && |After(s, acts, c).ws| == |s.ws|
    decreases |acts|
  {
    hide Inv, Enabled, Do;
    if acts == [] {
    } else {
      StepKeepsInv(s, acts[0], c);
      RunKeepsInv(Do(s, acts[0], c), acts[1..], c);
    }
  }

  lemma InitialInv(s: State, limit: nat)
    requires Initial(s) && limit > 0
    ensures Inv(s, limit)
  {
    CountZero(s.ws);
  }

  /** In every state of every run the counter is the number of live workers plus the reserved slot and
      never passes the limit, and the files tried are the first ones, in order, each once. */
  lemma RunIsSafe(s0: State, acts: seq<Act>, c: Config)
    requires |c.plan| == |s0.ws| && c.limit > 0 && Initial(s0) && Legal(s0, acts, c)
    ensures var s := After(s0, acts, c);
            && s.counter == CountLive(s.ws) + Reserved(s.main) <= c.limit
            && |s.tried| == s.file <= |s.ws| && forall k :: 0 <= k < s.file ==> s.tried[k] == k
  {
    InitialInv(s0, c.limit);
    RunKeepsInv(s0, acts, c);
  }

  /** When the main thread has left the wait loop, every file was tried and every worker that was
      created is at its end. */
  lemma LeftMeansDone(s0: State, acts: seq<Act>, c: Config)
    requires |c.plan| == |s0.ws| && c.limit > 0 && Initial(s0) && Legal(s0, acts, c) && After(s0, acts, c).main == Left
    ensures var s := After(s0, acts, c);
            |s.tried| == |s.ws| && forall w :: 0 <= w < |s.ws| ==> s.ws[w] == Done || s.ws[w] == Failed
  {
    InitialInv(s0, c.limit);
    RunKeepsInv(s0, acts, c);
    var s := After(s0, acts, c);
    forall w | 0 <= w < |s.ws|
      ensures s.ws[w] == Done || s.ws[w] == Failed
    {
      assert WorkerOk(s, w);
    }
  }

  // ----- progress

  /** Until the main thread leaves, some thread can move without a timeout. */
  lemma NoDeadlock(s: State, limit: nat) returns (a: Act)
    requires Inv(s, limit) && s.main != Left
    ensures !a.Timeout? && Enabled(s, a)
  {
    if s.lock.By? {
      assert WorkerOk(s, s.lock.w);
      a := WorkerStep(s.lock.w);
    } else if Waits(s.main) {
      var w :| 0 <= w < |s.ws| && WillSignal(s.ws[w]);
      assert WorkerOk(s, w);
      a := WorkerStep(w);
    } else {
      a := MainStep(true);
    }
  }

  function WorkerRank(w: Worker, plan: nat): nat {
    match w
    case Done => 0 case Failed => 0 case Unlock => 1 case Signal => 2 case Decrement => 3 case Loaded => 4
    case Loading(n) => 5 + n case Absent => 6 + plan
  }

  function MainRank(m: Main): nat {
    match m
    case LockFail => 12 case GiveBack => 11 case UnlockFail => 10 case Next => 9
    case RelockSlot => 8 case Test => 7 case Reserve => 6 case UnlockSlot => 5 case Create => 4
    case LockEnd => 5 case RelockEnd => 4 case TestEnd => 3 case WaitSlot => 1 case WaitEnd => 1 case Left => 0
  }

  function WorkersRank(ws: seq<Worker>, plan: seq<nat>): nat
    requires |ws| == |plan|
  {
    if ws == [] then 0 else WorkerRank(ws[0], plan[0]) + WorkersRank(ws[1..], plan[1..])
  }

  function Rank(s: State, plan: seq<nat>): nat
    requires |s.ws| == |plan|
  {
    10 * WorkersRank(s.ws, plan) + MainRank(s.main) + 20 * (if s.file < |s.ws| then |s.ws| - s.file else 0)
  }

  lemma {:induction false} RankUpdate(ws: seq<Worker>, plan: seq<nat>, w: nat, p: Worker)
    requires |ws| == |plan| && w < |ws|
    ensures WorkersRank(ws[w := p], plan) == WorkersRank(ws, plan) - WorkerRank(ws[w], plan[w]) + WorkerRank(p, plan[w])
  {
    if w == 0 {
      assert ws[0 := p][1..] == ws[1..];
    } else {
      assert ws[w := p][1..] == ws[1..][w - 1 := p];
      RankUpdate(ws[1..], plan[1..], w - 1, p);
    }
  }

  lemma MainRankFalls(s: State, made: bool, c: Config)
    requires |c.plan| == |s.ws| && Inv(s, c.limit) && Enabled(s, MainStep(made))
    ensures Rank(MainDoes(s, made, c), c.plan) < Rank(s, c.plan)
  {
    assert s.main.Create? ==> WorkerOk(s, s.file);
    hide WorkersRank, CountLive, WorkerOk;
    if s.main.Create? {
      RankUpdate(s.ws, c.plan, s.file, MainDoes(s, made, c).ws[s.file]);
    }
  }

  lemma WorkerRankFalls(s: State, w: nat, plan: seq<nat>)
    requires |plan| == |s.ws| && Enabled(s, WorkerStep(w))
    ensures |WorkerDoes(s, w).ws| == |s.ws| && Rank(WorkerDoes(s, w), plan) < Rank(s, plan)
  {
    hide WorkersRank;
    RankUpdate(s.ws, plan, w, WorkerDoes(s, w).ws[w]);
  }

  function Timeouts(acts: seq<Act>): nat {
    if acts == [] then 0 else (if acts[0].Timeout? then 1 else 0) + Timeouts(acts[1..])
  }

  /** No run goes on for ever, unless waits time out for ever. */
  lemma {:induction false} RunIsBounded(s: State, acts: seq<Act>, c: Config)
    requires |c.plan| == |s.ws| && Inv(s, c.limit) && Legal(s, acts, c)
    ensures |acts| <= Rank(s, c.plan) + 8 * Timeouts(acts)
    decreases |acts|
  {
    if acts == [] {
    } else {
      var a := acts[0];
      hide Inv, WorkersRank, MainDoes, WorkerDoes;
      StepKeepsInv(s, a, c);
      if a.MainStep? {
        MainRankFalls(s, a.made, c);
      } else if a.WorkerStep? {
        WorkerRankFalls(s, a.w, c.plan);
      }
      RunIsBounded(Do(s, a, c), acts[1..], c);
    }
  }
}
