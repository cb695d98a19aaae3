/** Which events of the given binary logs are printed: the start and stop checks of `process_event`,
    over the loop on all logs. Processing an event does not fail. */
module EventWindow {

  const MOD: nat := 0x1_0000_0000_0000_0000
  const NO_STOP: nat := MOD - 1

  /** `when` is the time of the event, `pos` its offset in its log. */
  datatype Event = Event(format: bool, rotate: bool, when: nat, pos: nat, serverId: nat)

  /** The options: first event by count and by time, stop time, stop position, and server id or 0. */
  datatype Options = Options(offset: nat, start: nat, stopTime: nat, stopPosition: nat, serverId: nat)

  // ----- the window

  /** An event and the stop position of its log. */
  datatype Item = Item(ev: Event, stopPosition: nat)

  /** The events of all logs; the stop position applies to the last log only. */
  function Items(logs: seq<seq<Event>>, stopPosition: nat): seq<Item> {
    if logs == [] then []
    else Tagged(logs[0], if |logs| == 1 then stopPosition else NO_STOP) + Items(logs[1..], stopPosition)
  }

  function Tagged(evs: seq<Event>, stopPosition: nat): seq<Item> {
    if evs == [] then [] else [Item(evs[0], stopPosition)] + Tagged(evs[1..], stopPosition)
  }

  /** The event is late enough, by number and by time. The record counter has 64 bits. */
  predicate Gated(item: Item, k: nat, o: Options) { !item.ev.format && k % MOD >= o.offset && item.ev.when >= o.start }

  /** The first such event from `k` on. */
  function First(items: seq<Item>, k: nat, o: Options): (f: nat)
    ensures f >= k
    decreases |items| - k
  {
    if k >= |items| || Gated(items[k], k, o) then k else First(items, k + 1, o)
  }

  /** Format events always matter; others matter from the first one in the window, if they come from
      the right server or are rotations. */
  predicate Matters(item: Item, k: nat, f: nat, o: Options) {
    item.ev.format || (k >= f && (item.ev.rotate || o.serverId == 0 || o.serverId == item.ev.serverId))
  }

  predicate Late(item: Item, o: Options) { item.ev.when >= o.stopTime || item.ev.pos >= item.stopPosition }

  /** The first event from `k` on that matters and is at or past the stop. */
  function Stop(items: seq<Item>, k: nat, f: nat, o: Options): (g: nat)
    requires k <= |items|
    ensures k <= g <= |items|
    decreases |items| - k
  {
    if k == |items| || (Matters(items[k], k, f, o) && Late(items[k], o)) then k else Stop(items, k + 1, f, o)
  }

  /** Of the first `k` events, those that matter. */
  function Chosen(items: seq<Item>, k: nat, f: nat, o: Options): seq<Event>
    requires k <= |items|
  {
    if k == 0 then []
    else Chosen(items, k - 1, f, o) + (if Matters(items[k - 1], k - 1, f, o) then [items[k - 1].ev] else [])
  }

  // ----- the same, of the events of the logs one after the other

  function Flat(logs: seq<seq<Event>>): seq<Event> { if logs == [] then [] else logs[0] + Flat(logs[1..]) }

  /** Where the last log begins. */
  function LastStart(logs: seq<seq<Event>>): nat { if |logs| <= 1 then 0 else |logs[0]| + LastStart(logs[1..]) }

  /** Some event up to the one at `k` is no format description, has the number asked for or a later
      one, modulo 2 to the 64th, and is not before the start time. */
  ghost predicate Begun(evs: seq<Event>, k: nat, o: Options)
    requires k < |evs|
  {
    exists w: nat :: w <= k && !evs[w].format && w % 0x1_0000_0000_0000_0000 >= o.offset && evs[w].when >= o.start
  }

  ghost predicate Wanted(evs: seq<Event>, k: nat, o: Options)
    requires k < |evs|
  {
    evs[k].format || (Begun(evs, k, o) && (evs[k].rotate || o.serverId == 0 || evs[k].serverId == o.serverId))
  }

  /** The event at `k` is before the stop time and, in the last log, before the stop position. The
      other logs have the largest position as theirs. */
  predicate BeforeStop(evs: seq<Event>, last: nat, k: nat, o: Options)
    requires k < |evs|
  {
    evs[k].when < o.stopTime && (if k >= last then evs[k].pos < o.stopPosition else evs[k].pos < 0xFFFF_FFFF_FFFF_FFFF)
  }

  /** The events of `passed` stand at the places `at`, which increase. */
  predicate StandAt(passed: seq<Event>, at: seq<nat>, evs: seq<Event>) {
    && |passed| == |at| && (forall j :: 0 <= j < |at| ==> at[j] < |evs| && passed[j] == evs[at[j]])
    && forall i, j :: 0 <= i < j < |at| ==> at[i] < at[j]
  }

  /** The events passed are those wanted among the first `handled`; all of them are before the stop,
      and the next event, if there is one, is wanted and is not. */
  ghost predicate IsRun(evs: seq<Event>, last: nat, o: Options, handled: nat, at: seq<nat>, passed: seq<Event>) {
    && handled <= |evs| && StandAt(passed, at, evs)
    && (forall k: nat :: k in at <==> k < handled && Wanted(evs, k, o))
    && (forall k: nat :: k in at ==> k < handled && BeforeStop(evs, last, k, o))
    && (handled < |evs| ==> Wanted(evs, handled, o) && !BeforeStop(evs, last, handled, o))
  }

  // ----- the program

  class Reader {
    const opts: Options
    var recCount: nat
    var offset: nat
    var start: nat
    var stopPosition: nat
    var passed: seq<Event>

    constructor (opts: Options)
      ensures this.opts == opts && recCount == 0 && offset == opts.offset && start == opts.start && passed == []
    {
      this.opts := opts;
      recCount, offset, start, stopPosition, passed := 0, opts.offset, opts.start, NO_STOP, [];
    }

    /** The state after the first `k` events, none of which stopped the program. */
    ghost predicate Reached(items: seq<Item>, k: nat, f: nat)
      reads `recCount, `offset, `start, `passed
      requires k <= |items|
    {
      && recCount == k % MOD && passed == Chosen(items, k, f, opts) && k <= Stop(items, 0, f, opts)
      && if k <= f then offset == opts.offset && start == opts.start else offset == 0 && start == 0
    }

    /** `process_event` without the printing itself. */
    method ProcessEvent(ev: Event, ghost items: seq<Item>, ghost k: nat, ghost f: nat) returns (stop: bool)
      requires k < |items| && items[k] == Item(ev, stopPosition) && f == First(items, 0, opts) && Reached(items, k, f)
      modifies this`recCount, this`offset, this`start, this`passed
      ensures if stop then k == Stop(items, 0, f, opts) && passed == Chosen(items, k, f, opts)
              else Reached(items, k + 1, f)
    {
      stop := false;
      FirstAt(items, 0, k, f, opts);
      StopStep(items, 0, k, f, opts);
      if (recCount >= offset && ev.when >= start) || ev.format {
        var skip := false;
        if !ev.format {
          start, offset := 0, 0;
          skip := !ev.rotate && opts.serverId != 0 && opts.serverId != ev.serverId;
        }
        if !skip {
          if ev.when >= opts.stopTime || ev.pos >= stopPosition {
            stop := true;
          } else {
            passed := passed + [ev];
          }
        }
      }
      recCount := (recCount + 1) % MOD;
    }

    /** The loop over the events of one log. */
    method DumpLog(evs: seq<Event>, ghost items: seq<Item>, ghost k: nat, ghost f: nat) returns (stop: bool)
      requires f == First(items, 0, opts) && k + |evs| <= |items| && items[k..k + |evs|] == Tagged(evs, stopPosition)
      requires Reached(items, k, f)
      modifies this`recCount, this`offset, this`start, this`passed
      ensures if stop then var g := Stop(items, 0, f, opts); g < |items| && passed == Chosen(items, g, f, opts)
              else Reached(items, k + |evs|, f)
    {
      hide Stop, First, Chosen, Tagged, Reached;
      stop := false;
      for i := 0 to |evs|
        invariant Reached(items, k + i, f)
      {
        TaggedAt(evs, stopPosition, i);
        assert items[k + i] == items[k..k + |evs|][i];
        stop := ProcessEvent(evs[i], items, k + i, f);
        if stop {
          return;
        }
      }
    }

    /** The loop over the logs: what is passed is what matters before the stop. `handled` is the number
        of events before the one that stops the program, and `at` the places of those passed. */
    method DumpLogs(logs: seq<seq<Event>>) returns (stop: bool, ghost handled: nat, ghost at: seq<nat>)
      requires recCount == 0 && offset == opts.offset && start == opts.start && passed == []
      modifies this
      ensures IsRun(Flat(logs), LastStart(logs), opts, handled, at, passed) && (stop <==> handled < |Flat(logs)|)
      ensures var items := Items(logs, opts.stopPosition);
              var f := First(items, 0, opts);
              var g := Stop(items, 0, f, opts);
              passed == Chosen(items, g, f, opts) && (stop <==> g < |items|)
    {
      hide *;
      ghost var items := Items(logs, opts.stopPosition);
      ghost var f, k: nat := First(items, 0, opts), 0;
      stopPosition, stop := NO_STOP, false;
      assert logs[0..] == logs && items[0..] == items && logs[|logs|..] == [];
      ReachedStart(items, f);
      for i := 0 to |logs|
        invariant k <= |items| && items[k..] == Items(logs[i..], opts.stopPosition) && Reached(items, k, f)
        invariant i < |logs| ==> stopPosition == NO_STOP
      {
        if i == |logs| - 1 {
          stopPosition := opts.stopPosition;
        }
        ItemsStep(logs, i, opts.stopPosition, items[k..]);
        assert items[k..k + |logs[i]|] == items[k..][..|logs[i]|];
        stop := DumpLog(logs[i], items, k, f);
        if stop {
          handled, at := RunMeans(logs, opts);
          return;
        }
        assert items[k + |logs[i]|..] == items[k..][|logs[i]|..];
        k := k + |logs[i]|;
      }
      assert k == |items|;
      ReachedEnd(items, f);
      handled, at := RunMeans(logs, opts);
    }

    lemma ReachedStart(items: seq<Item>, f: nat)
      requires recCount == 0 && offset == opts.offset && start == opts.start && passed == []
      ensures Reached(items, 0, f) && Items([], opts.stopPosition) == []
    {
    }

    lemma ReachedEnd(items: seq<Item>, f: nat)
      requires Reached(items, |items|, f)
      ensures Stop(items, 0, f, opts) == |items| && passed == Chosen(items, |items|, f, opts)
    {
    }
  }

  lemma {:induction false} TaggedAt(evs: seq<Event>, p: nat, i: nat)
    requires i <= |evs|
    ensures |Tagged(evs, p)| == |evs| && (i < |evs| ==> Tagged(evs, p)[i] == Item(evs[i], p))
  {
    if evs != [] {
      TaggedAt(evs[1..], p, if i == 0 then 0 else i - 1);
    }
  }

  lemma ItemsStep(logs: seq<seq<Event>>, i: nat, p: nat, rest: seq<Item>)
    requires i < |logs| && rest == Items(logs[i..], p)
    ensures |logs[i]| <= |rest| && rest[|logs[i]|..] == Items(logs[i + 1..], p)
    ensures rest[..|logs[i]|] == Tagged(logs[i], if i == |logs| - 1 then p else NO_STOP)
  {
    TaggedAt(logs[i], if i == |logs| - 1 then p else NO_STOP, 0);
    assert logs[i..][1..] == logs[i + 1..];
  }

  /** Events other than format descriptions. */
  function Ordinary(evs: seq<Event>): seq<Event> {
    if evs == [] then []
    else Ordinary(evs[..|evs| - 1]) + (if evs[|evs| - 1].format then [] else [evs[|evs| - 1]])
  }

  function EventsOf(items: seq<Item>): seq<Event> { seq(|items|, i requires 0 <= i < |items| => items[i].ev) }

  lemma OrdinarySnoc(evs: seq<Event>, ev: Event)
    ensures Ordinary(evs + [ev]) == if ev.format then Ordinary(evs) else Ordinary(evs) + [ev]
    ensures Ordinary([]) == []
  {
    assert (evs + [ev])[..|evs|] == evs;
  }

  /** Without a server filter the events passed, format descriptions aside, are one contiguous run:
      all the events from the first one in the window up to the stop. */
  lemma {:induction false} WindowIsContiguous(items: seq<Item>, k: nat, f: nat, o: Options)
    requires k <= |items| && o.serverId == 0
    ensures Ordinary(Chosen(items, k, f, o)) == if f < k then Ordinary(EventsOf(items[f..k])) else []
    decreases k
  {
    hide Ordinary, EventsOf, Chosen;
    ChosenStep(items, k, f, o);
    if k > 0 {
      WindowIsContiguous(items, k - 1, f, o);
      OrdinarySnoc(Chosen(items, k - 1, f, o), items[k - 1].ev);
      if f < k {
        EventsSnoc(items, f, k);
      }
    } else {
      OrdinarySnoc([], Event(true, false, 0, 0, 0));
    }
  }

  lemma ChosenStep(items: seq<Item>, k: nat, f: nat, o: Options)
    requires k <= |items|
    ensures Chosen(items, k, f, o) ==
            if k == 0 then []
            else if Matters(items[k - 1], k - 1, f, o) then Chosen(items, k - 1, f, o) + [items[k - 1].ev]
            else Chosen(items, k - 1, f, o)
  {
  }

  lemma EventsSnoc(items: seq<Item>, f: nat, k: nat)
    requires f < k <= |items|
    ensures var before := if f < k - 1 then Ordinary(EventsOf(items[f..k - 1])) else [];
            Ordinary(EventsOf(items[f..k])) == if items[k - 1].ev.format then before else before + [items[k - 1].ev]
  {
    var front := EventsOf(items[f..k - 1]);
    assert EventsOf(items[f..k]) == front + [items[k - 1].ev];
    assert f == k - 1 ==> front == [];
    OrdinarySnoc(front, items[k - 1].ev);
  }

  /** The gate opens at `f` and stays open. */
  lemma {:induction false} FirstAt(items: seq<Item>, i: nat, k: nat, f: nat, o: Options)
    requires i <= k < |items| && f == First(items, i, o)
    ensures k < f ==> !Gated(items[k], k, o)
    ensures k == f ==> Gated(items[k], k, o)
    decreases |items| - i
  {
    if !Gated(items[i], i, o) && i < k {
      FirstAt(items, i + 1, k, f, o);
    }
  }

  lemma {:induction false} StopStep(items: seq<Item>, i: nat, k: nat, f: nat, o: Options)
    requires i <= k < |items| && k <= Stop(items, i, f, o)
    ensures Matters(items[k], k, f, o) && Late(items[k], o) <==> k == Stop(items, i, f, o)
    decreases |items| - i
  {
    if i < k {
      StopStep(items, i + 1, k, f, o);
    }
  }

  // ----- the two views agree

  lemma {:induction false} ItemAt(logs: seq<seq<Event>>, p: nat, k: nat)
    ensures |Items(logs, p)| == |Flat(logs)|
    ensures k < |Flat(logs)| ==> Items(logs, p)[k] == Item(Flat(logs)[k], if k >= LastStart(logs) then p else NO_STOP)
    decreases |logs|
  {
    if logs != [] {
      var p0 := if |logs| == 1 then p else NO_STOP;
      var n := |logs[0]|;
      TaggedAt(logs[0], p0, if k < n then k else 0);
      ItemAt(logs[1..], p, if k < n then 0 else k - n);
    }
  }

  /** The gate is open exactly from the first event that opens it. */
  lemma BegunFrom(logs: seq<seq<Event>>, o: Options, k: nat)
    requires k < |Flat(logs)|
    ensures Begun(Flat(logs), k, o) <==> k >= First(Items(logs, o.stopPosition), 0, o)
  {
    var evs, items := Flat(logs), Items(logs, o.stopPosition);
    var f := First(items, 0, o);
    hide Flat, Items, First, LastStart;
    ItemAt(logs, o.stopPosition, k);
    forall w: nat | w <= k && Gated(items[w], w, o)
      ensures f <= w
    {
      FirstAt(items, 0, w, f, o);
    }
    if Begun(evs, k, o) {
      var w: nat :| w <= k && !evs[w].format && w % 0x1_0000_0000_0000_0000 >= o.offset && evs[w].when >= o.start;
      ItemAt(logs, o.stopPosition, w);
      assert Gated(items[w], w, o);
    }
    if f <= k {
      FirstAt(items, 0, f, f, o);
      ItemAt(logs, o.stopPosition, f);
    }
  }

  lemma WantedMatters(logs: seq<seq<Event>>, o: Options, k: nat)
    requires k < |Flat(logs)|
    ensures var items := Items(logs, o.stopPosition);
            && |items| == |Flat(logs)|
            && (Wanted(Flat(logs), k, o) <==> Matters(items[k], k, First(items, 0, o), o))
            && (BeforeStop(Flat(logs), LastStart(logs), k, o) <==> !Late(items[k], o))
  {
    hide Flat, Items, First, LastStart, Begun;
    ItemAt(logs, o.stopPosition, k);
    BegunFrom(logs, o, k);
  }

  /** The places of the events chosen. */
  function Places(items: seq<Item>, k: nat, f: nat, o: Options): (at: seq<nat>)
    requires k <= |items|
    ensures forall j :: 0 <= j < |at| ==> at[j] < k
  {
    if k == 0 then []
    else Places(items, k - 1, f, o) + (if Matters(items[k - 1], k - 1, f, o) then [k - 1] else [])
  }

  lemma {:induction false} PlacesOf(items: seq<Item>, o: Options, k: nat, f: nat)
    requires k <= |items|
    ensures StandAt(Chosen(items, k, f, o), Places(items, k, f, o), EventsOf(items))
    decreases k
  {
    if k > 0 {
      PlacesOf(items, o, k - 1, f);
    }
  }

  lemma {:induction false} PlacesHold(items: seq<Item>, o: Options, k: nat, f: nat, i: nat)
    requires k <= |items|
    ensures i in Places(items, k, f, o) <==> i < k && Matters(items[i], i, f, o)
    decreases k
  {
    if k > 0 {
      PlacesHold(items, o, k - 1, f, i);
    }
  }

  lemma FlatIs(logs: seq<seq<Event>>, p: nat)
    ensures Flat(logs) == EventsOf(Items(logs, p))
  {
    ItemAt(logs, p, 0);
    forall k: nat | k < |Flat(logs)|
      ensures Flat(logs)[k] == EventsOf(Items(logs, p))[k]
    {
      ItemAt(logs, p, k);
    }
  }

  /** What a whole run passes and where it stops, in terms of the events alone. */
  lemma RunMeans(logs: seq<seq<Event>>, o: Options) returns (handled: nat, at: seq<nat>)
    ensures var items := Items(logs, o.stopPosition);
            var f := First(items, 0, o);
            && handled == Stop(items, 0, f, o) && |items| == |Flat(logs)|
            && IsRun(Flat(logs), LastStart(logs), o, handled, at, Chosen(items, handled, f, o))
  {
    hide Flat, Items, First, LastStart, Wanted, BeforeStop, Stop, Matters, Late, Chosen, Places, StandAt;
    var items := Items(logs, o.stopPosition);
    var f := First(items, 0, o);
    handled := Stop(items, 0, f, o);
    at := Places(items, handled, f, o);
    PlacesOf(items, o, handled, f);
    FlatIs(logs, o.stopPosition);
    forall k: nat
      ensures k in at <==> k < handled && Matters(items[k], k, f, o)
    {
      PlacesHold(items, o, handled, f, k);
    }
    forall k: nat | k < handled
      ensures Wanted(Flat(logs), k, o) <==> Matters(items[k], k, f, o)
      ensures Wanted(Flat(logs), k, o) ==> BeforeStop(Flat(logs), LastStart(logs), k, o)
    {
      WantedMatters(logs, o, k);
      StopStep(items, 0, k, f, o);
    }
    if handled < |items| {
      WantedMatters(logs, o, handled);
      StopStep(items, 0, handled, f, o);
    }
  }
}
