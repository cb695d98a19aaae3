/** `run_scheduler` of the load emulator and its worker threads, as interleaved steps: the start
    barrier (`master_wakeup`, `sleep_threshhold`) and the join counter. Every thread creation
    succeeds. A worker makes a number of uses of the scheduler's stack-allocated context, given by
    the plan, between the barrier and its end. */
module SlapScheduler {

  /** The next thing the scheduler does. */
  datatype Main =
    | Start | Reset | LockSleeper | SetWakeup | UnlockSleeper | Create | Count
    | LockAgain | ClearWakeup | UnlockAgain | Broadcast
    | LockCounter | Check | Waiting | Relock | Returned

  /** The next thing a worker does. */
  datatype Worker =
    | Absent | Lock | Test | Wait | Asleep | Woken
    | Working(left: nat) | Finished | Decrement | Signal | Unlock | Done

  datatype Owner = Free | ByMain | By(w: nat)

  datatype State = State(
    main: Main, x: nat, ws: seq<Worker>, counter: int, wakeup: bool, counterLock: Owner, sleeperLock: Owner)

  /** `Spurious` and `Timeout` are wake-ups without a signal. */
  datatype Act = MainStep | WorkerStep(w: nat) | Spurious(w: nat) | Timeout

  predicate Initial(s: State) {
    s.main == Start && s.x == 0 && s.counterLock == Free && s.sleeperLock == Free &&
    forall w :: 0 <= w < |s.ws| ==> s.ws[w] == Absent
  }

  predicate Enabled(s: State, a: Act) {
    match a
    case MainStep =>
      (s.main.Start? || s.main.LockCounter? || s.main.Relock? ==> s.counterLock == Free) &&
      (s.main.LockSleeper? || s.main.LockAgain? ==> s.sleeperLock == Free) &&
      !s.main.Waiting? && !s.main.Returned?
    case WorkerStep(w) =>
      w < |s.ws| && (s.ws[w].Lock? || s.ws[w].Woken? ==> s.sleeperLock == Free) &&
      (s.ws[w].Finished? ==> s.counterLock == Free) && !s.ws[w].Absent? && !s.ws[w].Asleep? && !s.ws[w].Done?
    case Spurious(w) => w < |s.ws| && s.ws[w] == Asleep
    case Timeout => s.main == Waiting
  }

  function WakeAll(ws: seq<Worker>): seq<Worker> {
    if ws == [] then [] else [if ws[0] == Asleep then Woken else ws[0]] + WakeAll(ws[1..])
  }

  function MainDoes(s: State): State {
    match s.main
    case Start => s.(main := Reset, counterLock := ByMain)
    case Reset => s.(main := LockSleeper, counter := 0)
    case LockSleeper => s.(main := SetWakeup, sleeperLock := ByMain)
    case SetWakeup => s.(main := UnlockSleeper, wakeup := true)
    case UnlockSleeper => s.(main := Create, sleeperLock := Free)
    case Create =>
      if s.x < |s.ws| then s.(main := Count, ws := s.ws[s.x := Lock])
      else s.(main := LockAgain, counterLock := Free)
    case Count => s.(main := Create, counter := s.counter + 1, x := s.x + 1)
    case LockAgain => s.(main := ClearWakeup, sleeperLock := ByMain)
    case ClearWakeup => s.(main := UnlockAgain, wakeup := false)
    case UnlockAgain => s.(main := Broadcast, sleeperLock := Free)
    case Broadcast => s.(main := LockCounter, ws := WakeAll(s.ws))
    case LockCounter => s.(main := Check, counterLock := ByMain)
    case Check => s.(main := if s.counter == 0 then Returned else Waiting, counterLock := Free)
    case Waiting => s
    case Relock => s.(main := Check, counterLock := ByMain)
    case Returned => s
  }

  function WorkerDoes(s: State, w: nat, plan: nat): State
    requires w < |s.ws|
  {
    match s.ws[w]
    case Lock => s.(ws := s.ws[w := Test], sleeperLock := By(w))
    case Woken => s.(ws := s.ws[w := Test], sleeperLock := By(w))
    case Test => if s.wakeup then s.(ws := s.ws[w := Wait]) else s.(ws := s.ws[w := Working(plan)], sleeperLock := Free)
    case Wait => s.(ws := s.ws[w := Asleep], sleeperLock := Free)
    case Working(n) => s.(ws := s.ws[w := if n > 0 then Working(n - 1) else Finished])
    case Finished => s.(ws := s.ws[w := Decrement], counterLock := By(w))
    case Decrement => s.(ws := s.ws[w := Signal], counter := s.counter - 1)
    case Signal => s.(ws := s.ws[w := Unlock], main := if s.main == Waiting then Relock else s.main)
    case Unlock => s.(ws := s.ws[w := Done], counterLock := Free)
    case _ => s
  }

  function Do(s: State, a: Act, plan: seq<nat>): State
    requires Enabled(s, a) && |plan| == |s.ws|
  {
    match a
    case MainStep => MainDoes(s)
    case WorkerStep(w) => WorkerDoes(s, w, plan[w])
    case Spurious(w) => s.(ws := s.ws[w := Woken])
    case Timeout => s.(main := Relock)
  }

  // ----- the invariant

  /** How far the scheduler is. */
  function Phase(m: Main): nat {
    match m
    case Start => 0 case Reset => 1 case LockSleeper => 2 case SetWakeup => 3 case UnlockSleeper => 4
    case Create => 5 case Count => 5 case LockAgain => 6 case ClearWakeup => 7 case UnlockAgain => 8
    case Broadcast => 9 case LockCounter => 10 case Check => 11 case Waiting => 11 case Relock => 11
    case Returned => 12
  }

  predicate Passed(w: Worker) { w.Working? || w.Finished? || w.Decrement? || Gone(w) }

  predicate Gone(w: Worker) { w.Signal? || Signalled(w) }

  predicate Signalled(w: Worker) { w.Unlock? || w.Done? }

  function CountGone(ws: seq<Worker>): nat {
    if ws == [] then 0 else (if Gone(ws[0]) then 1 else 0) + CountGone(ws[1..])
  }

  predicate MainOk(s: State) {
    && (s.counterLock == ByMain <==> 1 <= Phase(s.main) <= 5 || s.main == Check)
    && (s.sleeperLock == ByMain <==> s.main.SetWakeup? || s.main.UnlockSleeper? || s.main.ClearWakeup? || s.main.UnlockAgain?)
    && (4 <= Phase(s.main) <= 7 ==> s.wakeup) && (8 <= Phase(s.main) ==> !s.wakeup)
    && (Phase(s.main) < 5 ==> s.x == 0) && (6 <= Phase(s.main) ==> s.x == |s.ws|)
    && s.x <= |s.ws| && (s.main == Count ==> s.x < |s.ws|)
    && (2 <= Phase(s.main) ==> s.counter == s.x - CountGone(s.ws))
  }

  predicate WorkerOk(s: State, w: nat)
    requires w < |s.ws|
  {
    var p := s.ws[w];
    && (p.Test? || p.Wait? <==> s.sleeperLock == By(w))
    && (p.Decrement? || p.Signal? || p.Unlock? <==> s.counterLock == By(w))
    && (p == Absent <==> w >= if s.main == Count then s.x + 1 else s.x)
    && (Passed(p) ==> 8 <= Phase(s.main))
    && (p == Wait ==> s.wakeup)
    && (p == Asleep ==> Phase(s.main) < 10)
    && (s.main == Returned ==> p == Done)
  }

  predicate OwnersExist(s: State) {
    (s.counterLock.By? ==> s.counterLock.w < |s.ws|) && (s.sleeperLock.By? ==> s.sleeperLock.w < |s.ws|)
  }

  /** While the scheduler waits, some worker has still to signal. */
  predicate SomeoneLeft(s: State) {
    s.main == Waiting ==> exists w :: 0 <= w < |s.ws| && !Signalled(s.ws[w])
  }

  predicate Inv(s: State) {
    MainOk(s) && OwnersExist(s) && SomeoneLeft(s) && forall w :: 0 <= w < |s.ws| ==> WorkerOk(s, w)
  }

  lemma {:induction false} CountUpdate(ws: seq<Worker>, w: nat, p: Worker)
    requires w < |ws|
    ensures CountGone(ws[w := p]) == CountGone(ws) - (if Gone(ws[w]) then 1 else 0) + (if Gone(p) then 1 else 0)
  {
    if w == 0 {
      assert ws[0 := p][1..] == ws[1..];
    } else {
      assert ws[w := p][1..] == ws[1..][w - 1 := p];
      CountUpdate(ws[1..], w - 1, p);
    }
  }

  lemma {:induction false} CountAll(ws: seq<Worker>)
    ensures CountGone(ws) <= |ws|
    ensures CountGone(ws) == |ws| <==> forall w :: 0 <= w < |ws| ==> Gone(ws[w])
  {
    if ws == [] {
    } else {
      CountAll(ws[1..]);
      assert forall w :: 0 <= w < |ws| - 1 ==> ws[1..][w] == ws[w + 1];
      assert forall w :: 0 < w < |ws| ==> ws[w] == ws[1..][w - 1];
    }
  }

  lemma {:induction false} CountNone(ws: seq<Worker>)
    requires forall w :: 0 <= w < |ws| ==> !Gone(ws[w])
    ensures CountGone(ws) == 0
  {
    if ws != [] {
      CountNone(ws[1..]);
    }
  }

  lemma {:induction false} WokenAt(ws: seq<Worker>)
    ensures |WakeAll(ws)| == |ws| && CountGone(WakeAll(ws)) == CountGone(ws)
    ensures forall w :: 0 <= w < |ws| ==> WakeAll(ws)[w] == if ws[w] == Asleep then Woken else ws[w]
  {
    if ws == [] {
    } else {
      WokenAt(ws[1..]);
      assert forall w :: 0 < w < |ws| ==> ws[w] == ws[1..][w - 1];
    }
  }

  lemma MainKeepsWorker(s: State, w: nat)
    requires MainOk(s) && Enabled(s, MainStep) && w < |s.ws| && WorkerOk(s, w)
    requires s.main == Check && s.counter == 0 ==> Gone(s.ws[w])
    ensures |MainDoes(s).ws| == |s.ws| && WorkerOk(MainDoes(s), w)
  {
    hide CountGone, WakeAll;
    WokenAt(s.ws);
  }

  lemma MainKeepsMain(s: State)
    requires MainOk(s) && Enabled(s, MainStep)
    requires s.main == Reset ==> CountGone(s.ws) == 0
    requires s.main == Create && s.x < |s.ws| ==> !Gone(s.ws[s.x])
    ensures MainOk(MainDoes(s))
  {
    hide CountGone, WakeAll;
    WokenAt(s.ws);
    if s.main == Create && s.x < |s.ws| {
      CountUpdate(s.ws, s.x, Lock);
    }
  }

  lemma MainKeepsInv(s: State)
    requires Inv(s) && Enabled(s, MainStep)
    ensures Inv(MainDoes(s)) && |MainDoes(s).ws| == |s.ws|
  {
    var s' := MainDoes(s);
    WokenAt(s.ws);
    CountAll(s.ws);
    if s.main == Reset {
      forall w | 0 <= w < |s.ws|
        ensures !Gone(s.ws[w])
      {
        assert WorkerOk(s, w);
      }
      CountNone(s.ws);
    }
    if s.main == Create && s.x < |s.ws| {
      assert WorkerOk(s, s.x);
    }
    MainKeepsMain(s);
    hide WorkerOk, MainOk;
    forall w | 0 <= w < |s'.ws|
      ensures WorkerOk(s', w)
    {
      CheckedGone(s, w);
      MainKeepsWorker(s, w);
    }
  }

  lemma CheckedGone(s: State, w: nat)
    requires MainOk(s) && w < |s.ws|
    ensures s.main == Check && s.counter == 0 ==> Gone(s.ws[w])
  {
    CountAll(s.ws);
  }

  lemma WorkerKeepsItself(s: State, w: nat, plan: nat)
    requires MainOk(s) && Enabled(s, WorkerStep(w)) && WorkerOk(s, w)
    ensures WorkerOk(WorkerDoes(s, w, plan), w)
  {
    hide CountGone;
  }

  lemma WorkerKeepsOther(s: State, w: nat, plan: nat, v: nat)
    requires Enabled(s, WorkerStep(w)) && WorkerOk(s, w) && v < |s.ws| && WorkerOk(s, v) && v != w
    ensures WorkerOk(WorkerDoes(s, w, plan), v)
  {
    var s' := WorkerDoes(s, w, plan);
    assert s'.ws[v] == s.ws[v] && Phase(s'.main) == Phase(s.main) && s'.wakeup == s.wakeup;
    assert s'.main == Count <==> s.main == Count;
  }

  lemma WorkerKeepsMain(s: State, w: nat, plan: nat)
    requires MainOk(s) && Enabled(s, WorkerStep(w)) && WorkerOk(s, w)
    ensures MainOk(WorkerDoes(s, w, plan))
  {
    hide CountGone;
    CountUpdate(s.ws, w, WorkerDoes(s, w, plan).ws[w]);
  }

  lemma WorkerKeepsInv(s: State, w: nat, plan: nat)
    requires Inv(s) && Enabled(s, WorkerStep(w))
    ensures Inv(WorkerDoes(s, w, plan))
  {
    var s' := WorkerDoes(s, w, plan);
    WorkerKeepsMain(s, w, plan);
    hide WorkerOk, MainOk;
    forall v | 0 <= v < |s'.ws|
      ensures WorkerOk(s', v)
    {
      if v == w {
        WorkerKeepsItself(s, w, plan);
      } else {
        WorkerKeepsOther(s, w, plan, v);
      }
    }
    StillLeft(s, w, s'.ws[w], s'.main);
  }

  lemma StillLeft(s: State, w: nat, p: Worker, m: Main)
    requires SomeoneLeft(s) && w < |s.ws| && (m == Waiting ==> s.main == Waiting && (Signalled(p) ==> Signalled(s.ws[w])))
    ensures SomeoneLeft(s.(ws := s.ws[w := p], main := m))
  {
    if m == Waiting {
      var v :| 0 <= v < |s.ws| && !Signalled(s.ws[v]);
      assert !Signalled(s.ws[w := p][v]);
    }
  }

  lemma WakeKeepsInv(s: State, a: Act, plan: seq<nat>)
    requires Inv(s) && Enabled(s, a) && (a.Spurious? || a.Timeout?) && |plan| == |s.ws|
    ensures Inv(Do(s, a, plan))
  {
    var s' := Do(s, a, plan);
    if a.Spurious? {
      CountUpdate(s.ws, a.w, Woken);
      StillLeft(s, a.w, Woken, s.main);
    }
    forall v | 0 <= v < |s'.ws|
      ensures WorkerOk(s', v)
    {
      assert WorkerOk(s, v);
    }
  }

  lemma StepKeepsInv(s: State, a: Act, plan: seq<nat>)
    requires Inv(s) && Enabled(s, a) && |plan| == |s.ws|
    ensures Inv(Do(s, a, plan)) && |Do(s, a, plan).ws| == |s.ws|
  {
    hide Inv, MainDoes;
    if a.MainStep? {
      MainKeepsInv(s);
    } else if a.WorkerStep? {
      WorkerKeepsInv(s, a.w, plan[a.w]);
    } else {
      WakeKeepsInv(s, a, plan);
    }
  }

  // ----- whole runs

  predicate Legal(s: State, acts: seq<Act>, plan: seq<nat>)
    requires |plan| == |s.ws|
    decreases |acts|
  {
    acts == [] ||
    (Enabled(s, acts[0]) && |Do(s, acts[0], plan).ws| == |plan| && Legal(Do(s, acts[0], plan), acts[1..], plan))
  }

  function After(s: State, acts: seq<Act>, plan: seq<nat>): State
    requires |plan| == |s.ws| && Legal(s, acts, plan)
    decreases |acts|
  {
    if acts == [] then s else After(Do(s, acts[0], plan), acts[1..], plan)
  }

  lemma InitialInv(s: State)
    requires Initial(s)
    ensures Inv(s)
  {
  }

  lemma {:induction false} RunKeepsInv(s: State, acts: seq<Act>, plan: seq<nat>)
    requires |plan| == |s.ws| && Inv(s) && Legal(s, acts, plan)
    ensures Inv(After(s, acts, plan)) && |After(s, acts, plan).ws| == |s.ws|
    decreases |acts|
  {
    hide Inv, Enabled, Do;
    if acts == [] {
    } else {
      StepKeepsInv(s, acts[0], plan);
      RunKeepsInv(Do(s, acts[0], plan), acts[1..], plan);
    }
  }

  lemma {:induction false} CountBelow(ws: seq<Worker>, n: nat)
    requires n <= |ws| && forall w :: n <= w < |ws| ==> !Gone(ws[w])
    ensures CountGone(ws) <= n
  {
    if ws == [] {
    } else if n == 0 {
      CountNone(ws);
    } else {
      CountBelow(ws[1..], n - 1);
    }
  }

  /** In every state of every run: no worker has passed the barrier while the wakeup flag is set; the
      counter is the number of workers counted in and not yet out, never negative; after the broadcast
      nobody sleeps at the barrier; and once the scheduler has returned every worker is at its end. */
  lemma RunIsSafe(s0: State, acts: seq<Act>, plan: seq<nat>)
    requires |plan| == |s0.ws| && Initial(s0) && Legal(s0, acts, plan)
    ensures var s := After(s0, acts, plan);
            && (Phase(s.main) >= 2 ==> s.counter == s.x - CountGone(s.ws) && 0 <= s.counter)
            && (forall w :: 0 <= w < |s.ws| ==> SafeAt(s, s.ws[w]))
  {
    hide Inv, Initial;
    InitialInv(s0);
    RunKeepsInv(s0, acts, plan);
    var s := After(s0, acts, plan);
    forall w | 0 <= w < |s.ws|
      ensures SafeAt(s, s.ws[w])
    {
      InvAt(s, w);
    }
    CounterCounts(s);
  }

  predicate SafeAt(s: State, p: Worker) {
    && (Passed(p) ==> !s.wakeup)
    && (Phase(s.main) >= 10 ==> p != Asleep)
    && (s.main == Returned ==> p == Done)
  }

  lemma InvAt(s: State, w: nat)
    requires Inv(s) && w < |s.ws|
    ensures SafeAt(s, s.ws[w])
  {
    assert WorkerOk(s, w);
  }

  lemma CounterCounts(s: State)
    requires Inv(s)
    ensures Phase(s.main) >= 2 ==> s.counter == s.x - CountGone(s.ws) && 0 <= s.counter
  {
    hide CountGone;
    forall w | s.x <= w < |s.ws|
      ensures !Gone(s.ws[w])
    {
      assert WorkerOk(s, w);
    }
    CountBelow(s.ws, s.x);
  }

  // ----- progress

  /** A thread moves by itself, without a timeout or a spurious wake-up. */
  predicate Real(a: Act) { a.MainStep? || a.WorkerStep? }

  lemma OwnerMoves(s: State, w: nat)
    requires w < |s.ws| && WorkerOk(s, w) && (s.counterLock == By(w) || s.sleeperLock == By(w))
    ensures Enabled(s, WorkerStep(w))
  {
  }

  /** Until the scheduler returns, some thread can move: no signal is lost, the timeout of the wait is
      not needed. */
  lemma NoDeadlock(s: State) returns (a: Act)
    requires Inv(s) && s.main != Returned
    ensures Real(a) && Enabled(s, a)
  {
    if s.counterLock.By? {
      a := WorkerStep(s.counterLock.w);
      OwnerMoves(s, s.counterLock.w);
    } else if s.sleeperLock.By? {
      a := WorkerStep(s.sleeperLock.w);
      OwnerMoves(s, s.sleeperLock.w);
    } else if s.main != Waiting {
      a := MainStep;
    } else {
      var w :| 0 <= w < |s.ws| && !Signalled(s.ws[w]);
      assert WorkerOk(s, w);
      a := WorkerStep(w);
    }
  }

  // ----- termination

  function WorkerRank(w: Worker, plan: nat): nat {
    match w
    case Done => 0 case Unlock => 1 case Signal => 2 case Decrement => 3 case Finished => 4
    case Working(n) => 5 + n
    case Asleep => 6 + plan case Wait => 7 + plan case Test => 8 + plan
    case Woken => 9 + plan case Lock => 9 + plan case Absent => 10 + plan
  }

  function MainRank(m: Main, left: nat, n: nat): nat {
    match m
    case Returned => 0 case Waiting => 1 case Check => 4 case Relock => 5 case LockCounter => 5
    case Broadcast => 6 + 30 * n
    case UnlockAgain => 7 + 30 * n case ClearWakeup => 8 + 30 * n case LockAgain => 9 + 30 * n
    case Create => 10 + 30 * n + 2 * left
    case Count => 9 + 30 * n + 2 * left
    case UnlockSleeper => 11 + 32 * n case SetWakeup => 12 + 32 * n case LockSleeper => 13 + 32 * n
    case Reset => 14 + 32 * n case Start => 15 + 32 * n
  }

  function WorkersRank(ws: seq<Worker>, plan: seq<nat>): nat
    requires |ws| == |plan|
  {
    if ws == [] then 0 else WorkerRank(ws[0], plan[0]) + WorkersRank(ws[1..], plan[1..])
  }

  function Rank(s: State, plan: seq<nat>): nat
    requires |s.ws| == |plan|
  {
    10 * WorkersRank(s.ws, plan) + MainRank(s.main, if s.x < |s.ws| then |s.ws| - s.x else 0, |s.ws|)
  }

  lemma {:induction false} RankUpdate(ws: seq<Worker>, plan: seq<nat>, w: nat, p: Worker)
    requires |ws| == |plan| && w < |ws|
    ensures WorkersRank(ws[w := p], plan) == WorkersRank(ws, plan) - WorkerRank(ws[w], plan[w]) + WorkerRank(p, plan[w])
  {
    if w == 0 {
      assert ws[0 := p][1..] == ws[1..];
    } else {
      assert ws[w := p][1..] == ws[1..][w - 1 := p];
      RankUpdate(ws[1..], plan[1..], w - 1, p);
    }
  }

  lemma {:induction false} RankWoken(ws: seq<Worker>, plan: seq<nat>)
    requires |ws| == |plan|
    ensures |WakeAll(ws)| == |ws| && WorkersRank(WakeAll(ws), plan) <= WorkersRank(ws, plan) + 3 * |ws|
  {
    if ws == [] {
    } else {
      RankWoken(ws[1..], plan[1..]);
      assert WakeAll(ws)[1..] == WakeAll(ws[1..]);
    }
  }

  /** The scheduler's own part of the rank falls, far enough to pay for the workers it wakes. */
  lemma OwnRankFalls(s: State)
    requires MainOk(s) && Enabled(s, MainStep)
    ensures var n := |s.ws|;
            var left := n - s.x;
            var s' := MainDoes(s);
            s'.x <= n && MainRank(s'.main, n - s'.x, n) + (if s.main == Broadcast then 30 * n else 0) < MainRank(s.main, left, n)
  {
    hide CountGone, WakeAll;
  }

  lemma MainRankFalls(s: State, plan: seq<nat>)
    requires |plan| == |s.ws| && Inv(s) && Enabled(s, MainStep)
    ensures |MainDoes(s).ws| == |s.ws| && Rank(MainDoes(s), plan) < Rank(s, plan)
  {
    assert s.x < |s.ws| ==> WorkerOk(s, s.x);
    OwnRankFalls(s);
    RankWoken(s.ws, plan);
    hide WorkersRank, WakeAll, MainRank, Inv;
    if s.main == Create && s.x < |s.ws| {
      RankUpdate(s.ws, plan, s.x, Lock);
    }
  }

  lemma WorkerStepFalls(s: State, w: nat, plan: nat)
    requires Enabled(s, WorkerStep(w))
    ensures var s' := WorkerDoes(s, w, plan);
            s'.x == s.x && s'.ws == s.ws[w := s'.ws[w]] && WorkerRank(s'.ws[w], plan) < WorkerRank(s.ws[w], plan) &&
            (s'.main == s.main || (s.main == Waiting && s'.main == Relock))
  {
  }

  lemma WorkerRankFalls(s: State, w: nat, plan: seq<nat>)
    requires |plan| == |s.ws| && Inv(s) && Enabled(s, WorkerStep(w))
    ensures |WorkerDoes(s, w, plan[w]).ws| == |s.ws| && Rank(WorkerDoes(s, w, plan[w]), plan) < Rank(s, plan)
  {
    WorkerStepFalls(s, w, plan[w]);
    hide WorkersRank, WorkerRank, WorkerDoes, Inv, Enabled;
    RankUpdate(s.ws, plan, w, WorkerDoes(s, w, plan[w]).ws[w]);
  }

  /** Every step of a thread brings the run nearer to its end; a wake-up without a signal sets it back
      by a constant. */
  lemma StepRank(s: State, a: Act, plan: seq<nat>)
    requires |plan| == |s.ws| && Inv(s) && Enabled(s, a)
    ensures |Do(s, a, plan).ws| == |s.ws|
    ensures if Real(a) then Rank(Do(s, a, plan), plan) < Rank(s, plan) else Rank(Do(s, a, plan), plan) <= Rank(s, plan) + 30
  {
    hide WorkersRank, MainDoes, WorkerDoes, Inv;
    if a.MainStep? {
      MainRankFalls(s, plan);
    } else if a.WorkerStep? {
      WorkerRankFalls(s, a.w, plan);
    } else if a.Spurious? {
      RankUpdate(s.ws, plan, a.w, Woken);
    }
  }

  function Unsignalled(acts: seq<Act>): nat {
    if acts == [] then 0 else (if Real(acts[0]) then 0 else 1) + Unsignalled(acts[1..])
  }

  /** No run goes on for ever: its length is bounded by the plan and by the wake-ups without a signal.
      With `NoDeadlock`, a run that cannot be continued has the scheduler returned. */
  lemma {:induction false} RunIsBounded(s: State, acts: seq<Act>, plan: seq<nat>)
    requires |plan| == |s.ws| && Inv(s) && Legal(s, acts, plan)
    ensures |acts| <= Rank(s, plan) + 31 * Unsignalled(acts)
    decreases |acts|
  {
    hide Inv, Enabled, Do, Rank, Real;
    if acts == [] {
    } else {
      StepKeepsInv(s, acts[0], plan);
      StepRank(s, acts[0], plan);
      RunIsBounded(Do(s, acts[0], plan), acts[1..], plan);
    }
  }

  /** A run in which no thread can move is over: the scheduler has returned and so has every worker. */
  lemma RunEndsReturned(s0: State, acts: seq<Act>, plan: seq<nat>)
    requires |plan| == |s0.ws| && Initial(s0) && Legal(s0, acts, plan)
    requires forall a :: Real(a) ==> !Enabled(After(s0, acts, plan), a)
    ensures var s := After(s0, acts, plan);
            s.main == Returned && forall w :: 0 <= w < |s.ws| ==> s.ws[w] == Done
  {
    hide Inv, Initial, Legal, Enabled, After;
    InitialInv(s0);
    RunKeepsInv(s0, acts, plan);
    var s := After(s0, acts, plan);
    if s.main != Returned {
      var a := NoDeadlock(s);
    }
    forall w | 0 <= w < |s.ws|
      ensures s.ws[w] == Done
    {
      InvAt(s, w);
    }
  }
}
