/** `_db_push_`, `_db_set_`, `_db_pop_` and `_db_set_init_` on the heap.

    Every operation keeps `Good` and computes, on the lists' contents, what the value model in
    `DbugControl` says: nothing beneath the edited level changes. */
module DbugSettings {
  import opened DbugList
  import opened DbugControl
  import opened DbugHeap
  import opened DbugStack
  import DbugTrace

  /** The stack with level `i` replaced. */
  function Upd(v: seq<Settings>, i: nat, s: Settings): (r: seq<Settings>)
    requires i < |v|
    ensures |r| == |v| && r[i] == s
  {
    v[i := s]
  }

  lemma UpdTwice(v: seq<Settings>, i: nat, s: Settings, t: Settings)
    requires i < |v|
    ensures Upd(Upd(v, i, s), i, t) == Upd(v, i, t)
  {
  }

  lemma UpdElsewhere(v: seq<Settings>, i: nat, s: Settings, j: nat)
    requires i < |v| && j < |v| && j != i
    ensures Upd(v, i, s)[j] == v[j]
  {
  }

  function PutLst(s: Settings, k: Kind, l: Lst): Settings { s.(lists := s.lists.Put(k, l)) }

  /** Whatever its pointer looks like, a list that is not shared can be edited in place. */
  lemma UnsharedIsMovable(m: Mem, r: Ref)
    requires Good(m) && Editable(m, r.level) && !ListView(m, r).shared
    ensures Movable(m, r, Nodes(m.P(r)))
  {
    hide Good;
    if SamePointer(m, r) {
      ChainOf(m, r);
      NullIsEmpty(m.heap, m.P(r));
      SharedIsMovable(m, r);
      assert Nodes(m.P(r)) == {};
    } else {
      OwnIsMovable(m, r);
    }
  }

  lemma ViewList(m: Mem, bases: seq<Base>, i: nat, k: Kind)
    requires Good(m) && |bases| == |m.heads| && i < |bases| && m.Has(Ref(i, k))
    ensures Chain(m.heap, m.H(Ref(i, k)), m.P(Ref(i, k)))
    ensures Views(m, bases)[i].lists.Get(k) == ListView(m, Ref(i, k))
    ensures ListView(m, Ref(i, k)).elems == Contents(m.heap, m.P(Ref(i, k)))
  {
    hide Good, Linked, Contents;
    ChainOf(m, Ref(i, k));
  }

  lemma EmptyIsMovable(m: Mem, r: Ref)
    requires Good(m) && m.Has(r) && m.P(r) == []
    ensures Movable(m, r, {})
  {
    hide Good;
  }

  lemma InitialGood()
    ensures Good(Mem(map[], [NULLS], [NO_NODES]))
    ensures Views(Mem(map[], [NULLS], [NO_NODES]), [INIT_BASE]) == [Settings(INIT_BASE, NO_LISTS)]
  {
    var m := Mem(map[], [NULLS], [NO_NODES]);
    forall r: Ref | m.Has(r) ensures m.H(r) == NULL && m.P(r) == [] { }
    EmptyChain(m.heap);
    assert Views(m, [INIT_BASE])[0] == Settings(INIT_BASE, NO_LISTS);
  }

  const INIT_BASE := Base(NO_SWITCHES.(append := true), 0, 0, 0, Stderr, "")

  /** `DbugStrTok`, walking the string. */
  method FieldEnd(c: string, i: nat) returns (e: nat)
    requires i <= |c|
    ensures e == StrTok(c, i)
  {
    e := i;
    while e < |c| && (c[e] != ':' || (e + 1 < |c| && (c[e + 1] == '\\' || c[e + 1] == '/' || c[e + 1] == ':')))
      invariant i <= e <= |c| && StrTok(c, e) == StrTok(c, i)
    {
      if c[e] == ':' && c[e + 1] == ':' {
        e := e + 1;
      }
      e := e + 1;
    }
  }

  class SettingsStack {
    const mem: Allocator
    var heads: seq<Quad<Ptr>>
    var bases: seq<Base>
    ghost var paths: seq<Quad<seq<Ptr>>>

    ghost function M(): Mem
      reads this, mem
    {
      Mem(mem.heap, heads, paths)
    }

    ghost predicate Valid()
      reads this, mem
    {
      heads != [] && |bases| == |heads| == |paths| && Good(M())
    }

    ghost function View(): (v: seq<Settings>)
      reads this, mem
      requires Valid()
      ensures |v| == |heads|
    {
      Views(M(), bases)
    }

    /** The program starts with the initial settings only. */
    constructor ()
      ensures Valid() && fresh(mem) && View() == [Settings(INIT_BASE, NO_LISTS)]
    {
      mem := new Allocator();
      heads, bases, paths := [NULLS], [INIT_BASE], [NO_NODES];
      new;
      InitialGood();
    }

    /** `is_shared`. */
    predicate IsShared(i: nat, k: Kind)
      reads this
      requires i < |heads|
    {
      i > 0 && heads[i - 1].Get(k) == heads[i].Get(k)
    }

    /** Lets a list go, freeing its nodes unless the level beneath has them too. */
    method LetGo(i: nat, k: Kind)
      requires Valid() && Editable(M(), i)
      modifies this, mem
      ensures Valid() && Editable(M(), i) && bases == old(bases) && |heads| == old(|heads|)
      ensures View() == Upd(old(View()), i, PutLst(old(View()[i]), k, NO_LIST))
    {
      hide Good, Movable, Replaced, Linked, Views, ListView, Contents;
      ghost var m, r := M(), Ref(i, k);
      ChainOf(m, r);
      if !IsShared(i, k) {
        OwnIsMovable(m, r);
        mem.FreeList(heads[i].Get(k), paths[i].Get(k));
        EmptyList(mem.heap);
        MovedViews(m, bases, r, Nodes(m.P(r)), mem.heap, NULL, []);
      } else {
        SharedIsMovable(m, r);
        EmptyList(mem.heap);
        MovedViews(m, bases, r, {}, mem.heap, NULL, []);
      }
      heads := heads[i := heads[i].Put(k, NULL)];
      paths := paths[i := paths[i].Put(k, [])];
    }

    /** Copies a list of level `j` into the empty or shared place of level `i`. */
    method CopyInto(i: nat, j: nat, k: Kind)
      requires Valid() && Editable(M(), i) && j < |heads|
      requires Movable(M(), Ref(i, k), {})
      modifies this, mem
      ensures Valid() && Editable(M(), i) && bases == old(bases) && |heads| == old(|heads|)
      ensures View() == Upd(old(View()), i, PutLst(old(View()[i]), k, Copy(old(View()[j]).lists.Get(k))))
      ensures |paths| == |heads| && forall k' :: k' != k ==> paths[i].Get(k') == old(paths[i].Get(k'))
    {
      hide Good, Movable, Replaced, Linked, Reverse, Views, ListView, Contents;
      ghost var m, r := M(), Ref(i, k);
      ViewList(m, bases, j, k);
      var q, ms := mem.ListCopy(heads[j].Get(k), paths[j].Get(k));
      MovedViews(m, bases, r, {}, mem.heap, q, ms);
      heads := heads[i := heads[i].Put(k, q)];
      paths := paths[i := paths[i].Put(k, ms)];
    }

    /** Adds to or deletes from an own list in place. */
    method EditInPlace(i: nat, k: Kind, text: string, todo: Todo)
      requires Valid() && Editable(M(), i) && !View()[i].lists.Get(k).shared
      modifies this, mem
      ensures Valid() && Editable(M(), i) && bases == old(bases) && |heads| == old(|heads|)
      ensures View() == Upd(old(View()), i, PutLst(old(View()[i]), k, Lst(ListAddDel(old(View()[i]).lists.Get(k).elems, text, todo), false)))
    {
      hide Good, Movable, Replaced, Linked, ListAddDel, Views, ListView, Contents;
      ghost var m, r := M(), Ref(i, k);
      ViewList(m, bases, i, k);
      UnsharedIsMovable(m, r);
      var q, ms := mem.ListAddDelInPlace(heads[i].Get(k), text, todo, paths[i].Get(k));
      MovedViews(m, bases, r, Nodes(m.P(r)), mem.heap, q, ms);
      heads := heads[i := heads[i].Put(k, q)];
      paths := paths[i := paths[i].Put(k, ms)];
    }

    /** Copies a shared list before it is edited. */
    method UnshareList(i: nat, k: Kind, rel: bool)
      requires Valid() && Editable(M(), i)
      modifies this, mem
      ensures Valid() && Editable(M(), i) && bases == old(bases) && |heads| == old(|heads|)
      ensures View() == Upd(old(View()), i, PutLst(old(View()[i]), k, Unshare(old(View()[i]).lists.Get(k), rel)))
    {
      hide Good, Movable, Views, Reverse;
      ghost var m, v := M(), View();
      if rel && IsShared(i, k) {
        SharedIsMovable(m, Ref(i, k));
        CopyOfShared(m, bases, i, k);
        CopyInto(i, i, k);
      } else {
        if rel {
          NotSharedView(m, bases, i, k);
        }
        PutSame(v[i], k);
        assert v[i := v[i]] == v;
      }
    }

    /** `d`, `f` or `p`: the list part of one field. */
    method EditListOf(i: nat, k: Kind, rel: bool, cmd: Command, debugging: bool)
      requires Valid() && Editable(M(), i) && cmd.Command? && (rel || !View()[i].lists.Get(k).shared)
      modifies this, mem
      ensures Valid() && Editable(M(), i) && bases == old(bases) && |heads| == old(|heads|)
      ensures View() == Upd(old(View()), i, PutLst(old(View()[i]), k, EditList(old(View()[i]).lists.Get(k), rel, cmd, debugging)))
    {
      hide Good, Movable, ListAddDel, Views, Reverse, PutLst;
      ghost var v := View();
      if cmd.neg && cmd.arg == "" {
        LetGo(i, k);
        return;
      }
      UnshareList(i, k, rel);
      ghost var l := Unshare(v[i].lists.Get(k), rel);
      PutTwice(v[i], k, l);
      assert View()[i] == PutLst(v[i], k, l);
      if cmd.neg && cmd.letter == 'd' && !debugging {
        return;
      }
      EditInPlace(i, k, cmd.arg, if cmd.neg then Exclude else Include);
    }

    method SetBase(i: nat, b: Base)
      requires Valid() && i < |heads|
      modifies this`bases
      ensures Valid() && bases == old(bases)[i := b]
      ensures View() == Upd(old(View()), i, old(View()[i]).(base := b))
    {
      hide Good, ListView;
      ghost var v := View();
      bases := bases[i := b];
      assert View() == v[i := v[i].(base := b)];
    }

    method LetTwoGo(i: nat, k: Kind, l: Kind)
      requires Valid() && Editable(M(), i)
      modifies this, mem
      ensures Valid() && Editable(M(), i) && bases == old(bases) && |heads| == old(|heads|)
      ensures View() == Upd(old(View()), i, PutLst(PutLst(old(View()[i]), k, NO_LIST), l, NO_LIST))
    {
      assert i < |heads| == |paths|;
      ghost var v := View();
      hide Good, Views, PutLst, Valid, Editable, View, Upd;
      LetGo(i, k);
      ghost var s1 := PutLst(v[i], k, NO_LIST);
      LetGo(i, l);
      UpdTwice(v, i, s1, PutLst(s1, l, NO_LIST));
    }

    /** `FreeState`: all four lists are let go. */
    method FreeState(i: nat)
      requires Valid() && Editable(M(), i)
      modifies this, mem
      ensures Valid() && Editable(M(), i) && bases == old(bases) && |heads| == old(|heads|)
      ensures View() == Upd(old(View()), i, Settings(old(View()[i]).base, NO_LISTS))
      ensures heads[i] == NULLS && |paths| == |heads| && paths[i] == NO_NODES
    {
      assert i < |heads| == |paths|;
      ghost var v := View();
      hide Good, Views, PutLst, Valid, Editable, View, Upd;
      LetTwoGo(i, Keywords, Functions);
      ghost var s2 := PutLst(PutLst(v[i], Keywords, NO_LIST), Functions, NO_LIST);
      LetTwoGo(i, Processes, PFunctions);
      UpdTwice(v, i, s2, PutLst(PutLst(s2, Processes, NO_LIST), PFunctions, NO_LIST));
      FourGone(v[i]);
      EmptyViewIsEmpty(this, i);
    }

    /** One field of a control string. */
    method ApplyField(i: nat, rel: bool, text: string, level: nat)
      requires Valid() && Editable(M(), i) && text != ""
      requires rel || NothingShared(View()[i])
      modifies this, mem
      ensures Valid() && Editable(M(), i) && |heads| == old(|heads|)
      ensures View() == Upd(old(View()), i, Field(old(View()[i]), rel, text, level))
    {
      hide Good, Views, EditBase, EditList, ReadField, PutLst;
      ghost var v := View();
      var cmd := ReadField(text);
      if cmd.Command? {
        var b := bases[i];
        assert b == v[i].base by { BaseOf(M(), bases, i); }
        if EditsList(cmd.letter) {
          EditListOf(i, ListOf(cmd.letter), rel, cmd, b.sw.debug);
        }
        SetBase(i, EditBase(b, cmd, level));
        FieldByParts(v[i], rel, text, level);
      } else {
        assert v[i := v[i]] == v;
      }
    }

    /** A fresh level takes everything from the level beneath it. */
    method TakeFromBelow(i: nat)
      requires Valid() && i > 0 && i == |heads| - 1 && TopEmpty(M())
      modifies this, mem
      ensures Valid() && |heads| == old(|heads|)
      ensures View() == Upd(old(View()), i, Inherit(old(View()[i - 1]), i == 1))
    {
      hide Good, Views, View, TopEmpty, Upd, Inherit;
      if i == 1 {
        TakeFromInitial(i);
      } else {
        ShareBelow(i);
      }
    }

    method ShareBelow(i: nat)
      requires Valid() && i > 1 && i == |heads| - 1 && TopEmpty(M())
      modifies this
      ensures Valid() && |heads| == old(|heads|)
      ensures View() == Upd(old(View()), i, Inherit(old(View()[i - 1]), false))
    {
      hide Good, Views, TopEmpty, Inherit;
      SharedViews(M(), bases, bases[i - 1]);
      heads, bases := heads[i := heads[i - 1]], bases[i := bases[i - 1]];
      paths := paths[i := paths[i - 1]];
    }

    method TakeFromInitial(i: nat)
      requires Valid() && i == 1 == |heads| - 1 && TopEmpty(M())
      modifies this, mem
      ensures Valid() && |heads| == old(|heads|)
      ensures View() == Upd(old(View()), i, Inherit(old(View()[i - 1]), true))
    {
      ghost var v := View();
      BaseOf(M(), bases, i - 1);
      hide Good, Views, Valid, View, TopEmpty, Upd, Copy;
      var b := bases[i - 1];
      TakeCopies(i);
      ghost var s1 := Settings(v[i].base, Inherit(v[i - 1], true).lists);
      SetBase(i, b.(out := Stderr));
      UpdTwice(v, i, s1, s1.(base := b.(out := Stderr)));
    }

    /** The start of an absolute control string. */
    method ClearLevel(i: nat)
      requires Valid() && Editable(M(), i)
      modifies this, mem
      ensures Valid() && Editable(M(), i) && |heads| == old(|heads|)
      ensures View() == Upd(old(View()), i, Cleared(old(View()[i]).base))
    {
      ghost var v := View();
      BaseOf(M(), bases, i);
      assert i < |heads|;
      hide Good, Views, Upd, View;
      FreeState(i);
      ghost var s1 := Settings(v[i].base, NO_LISTS);
      SetBase(i, Base(NO_SWITCHES, 0, 0, 0, Stderr, bases[i].name));
      UpdTwice(v, i, s1, Cleared(v[i].base));
    }

    /** Brings level `i` to the settings that the fields of `c` start from. */
    method Prepare(i: nat, c: string)
      requires Valid() && Editable(M(), i) && (bases[i].out.Unset? ==> i == 0 || TopEmpty(M()))
      modifies this, mem
      ensures Valid() && Editable(M(), i) && |heads| == old(|heads|)
      ensures View() == Upd(old(View()), i, Start(old(View()[..i + 1]), c))
      ensures Relative(c) || NothingShared(View()[i])
    {
      ghost var v := View();
      BaseOf(M(), bases, i);
      UpdSame(v, i);
      StartIs(v, i, c);
      assert i < |heads|;
      hide Good, Views, Upd, Inherit, View, Start, Cleared;
      if !Relative(c) || (bases[i].out.Unset? && i == 0) {
        ClearLevel(i);
      } else if bases[i].out.Unset? {
        TakeFromBelow(i);
      }
    }

    /** The body of the field loop. */
    method OneField(i: nat, rel: bool, c: string, pos: nat, end: nat, level: nat, used: bool,
                    ghost v: seq<Settings>, ghost was: Settings)
      returns (used': bool, ghost cur: Settings)
      requires Valid() && i < |v| == |heads| && Editable(M(), i)
      requires pos <= |c| && pos < end == StrTok(c, pos) && (rel || NothingShared(was))
      requires View() == Upd(v, i, was) && Remaining(v[i], was, used, rel, c, pos, level)
      modifies this, mem
      ensures Valid() && Editable(M(), i) && |heads| == |v|
      ensures rel || NothingShared(cur)
      ensures View() == Upd(v, i, cur)
      ensures if end == |c| then Fields(v[i], rel, c, 0, level) == (cur, used')
              else Remaining(v[i], cur, used', rel, c, end + 1, level)
    {
      hide *;
      ApplyField(i, rel, c[pos..end], level);
      used' := used || UsesFunctions(c[pos..end]);
      cur := Field(was, rel, c[pos..end], level);
      UpdTwice(v, i, was, cur);
      FieldsStep(v[i], was, used, rel, c, pos, level);
      if !rel {
        FieldKeepsNothingShared(was, c[pos..end], level);
      }
    }

    /** The field loop of `DbugParse`. */
    method ApplyFields(i: nat, rel: bool, c: string, level: nat) returns (used: bool)
      requires Valid() && i < |heads| && Editable(M(), i) && (rel || NothingShared(View()[i]))
      modifies this, mem
      ensures Valid() && Editable(M(), i) && |heads| == old(|heads|)
      ensures (View()[i], used) == Fields(old(View()[i]), rel, c, 0, level)
      ensures View() == Upd(old(View()), i, View()[i])
    {
      hide *;
      ghost var v := View();
      ghost var cur := v[i];
      UpdSame(v, i);
      FieldsStart(cur, rel, c, level);
      var pos := 0;
      var end := FieldEnd(c, 0);
      used := false;
      while pos < end
        invariant Valid() && Editable(M(), i) && |heads| == |v|
        invariant pos <= |c| && end == StrTok(c, pos)
        invariant rel || NothingShared(cur)
        invariant View() == Upd(v, i, cur)
        invariant Remaining(v[i], cur, used, rel, c, pos, level)
        decreases |c| - pos
      {
        used, cur := OneField(i, rel, c, pos, end, level, used, v, cur);
        if end == |c| {
          return;
        }
        pos := end + 1;
        end := FieldEnd(c, pos);
      }
      FieldsEnd(v[i], cur, used, rel, c, pos, level);
    }

    method DbugParse(i: nat, control: string, level: nat) returns (changed: bool)
      requires Valid() && Editable(M(), i) && (bases[i].out.Unset? ==> i == 0 || TopEmpty(M()))
      modifies this, mem
      ensures Valid() && Editable(M(), i) && |heads| == old(|heads|)
      ensures (View()[i], changed) == Parse(old(View()[..i + 1]), control, level)
      ensures View() == Upd(old(View()), i, View()[i])
    {
      ghost var v := View();
      assert i < |heads|;
      var c := StripDash(control);
      hide Good, Views, View, Valid, Editable, Fields, Start, Upd, NothingShared;
      Prepare(i, c);
      changed := ApplyFields(i, Relative(c), c, level);
      UpdTwice(v, i, Start(v[..i + 1], c), View()[i]);
      changed := !Relative(c) || changed;
    }

    // ----- the operations

    /** No level is half initialised. */
    ghost predicate Ready()
      reads this, mem
    {
      Valid() && DbugTrace.Open(View())
    }

    method PushLevel()
      requires Valid()
      modifies this
      ensures Valid() && View() == PushState(old(View())) && |heads| == old(|heads|) + 1
      ensures TopEmpty(M()) && bases[|bases| - 1] == FRESH.base
    {
      ghost var m, b := M(), bases;
      hide Good, Views;
      GrownViews(m, b, FRESH.base);
      heads, bases, paths := heads + [NULLS], bases + [FRESH.base], paths + [NO_NODES];
    }

    /** `DbugParse` on the current settings. */
    method ParseTop(control: string, level: nat) returns (changed: bool)
      requires Valid() && OpenBeneath(View()) && (bases[|bases| - 1].out.Unset? ==> |heads| > 1 && TopEmpty(M()))
      modifies this, mem
      ensures Ready() && old(View()) != [] && View() == ReplaceTop(old(View()), Parse(old(View()), control, level).0)
      ensures changed == Parse(old(View()), control, level).1
    {
      hide Good, Views, View, Parse, Upd, TopEmpty;
      ghost var w := View();
      var i := |heads| - 1;
      assert w[..i + 1] == w;
      changed := DbugParse(i, control, level);
      DbugTrace.ParseOpens(w, control, level);
      ReplacedOpens(w, View()[i]);
    }

    method Push(control: string, level: nat) returns (changed: bool)
      requires Ready()
      modifies this, mem
      ensures Ready() && old(View()) != [] && View() == PushStack(old(View()), control, level)
      ensures changed == Parse(PushState(old(View())), control, level).1
    {
      hide Good, Views, View, Parse, TopEmpty;
      PushLevel();
      changed := ParseTop(control, level);
    }

    method Set(control: string, level: nat) returns (changed: bool)
      requires Ready()
      modifies this, mem
      ensures Ready() && old(View()) != [] && View() == SetStack(old(View()), control, level)
      ensures changed == Parse(if |old(View())| == 1 then PushState(old(View())) else old(View()), control, level).1
    {
      BaseOf(M(), bases, |bases| - 1);
      hide Good, Views, View, Parse, TopEmpty;
      if |heads| == 1 {
        changed := Push(control, level);
      } else {
        changed := ParseTop(control, level);
      }
    }

    method Pop()
      requires Ready()
      modifies this, mem
      ensures Ready() && old(View()) != [] && View() == PopStack(old(View()))
    {
      if |heads| > 1 {
        ghost var v := View();
        var i := |heads| - 1;
        FreeState(i);
        ghost var m, w := M(), View();
        ShrunkViews(m, bases);
        assert w[..i] == v[..i];
        heads, bases, paths := heads[..i], bases[..i], paths[..i];
      }
    }

    /** `_db_set_init_` edits the initial settings while other levels are on the stack. */
    method SetInit(control: string)
      requires Ready()
      modifies this, mem
      ensures Ready() && View() == Upd(old(View()), 0, Parse(old(View()[..1]), control, 0).0)
    {
      ghost var w := View();
      BaseOf(M(), bases, 0);
      hide Good, Views, View, Parse, Upd;
      var changed := DbugParse(0, control, 0);
      DbugTrace.ParseOpens(w[..1], control, 0);
      UpdOpens(w, 0, View()[0]);
    }

    method CopyTwo(i: nat, j: nat, k: Kind, l: Kind)
      requires Valid() && Editable(M(), i) && j < |heads| && j != i && k != l
      requires paths[i].Get(k) == [] && paths[i].Get(l) == []
      modifies this, mem
      ensures Valid() && Editable(M(), i) && bases == old(bases) && |heads| == old(|heads|)
      ensures View() == Upd(old(View()), i, PutLst(PutLst(old(View()[i]), k, Copy(old(View()[j]).lists.Get(k))),
                                                   l, Copy(old(View()[j]).lists.Get(l))))
      ensures |paths| == |heads| && forall k' :: k' != k && k' != l ==> paths[i].Get(k') == old(paths[i].Get(k'))
    {
      assert i < |heads| == |paths|;
      ghost var v := View();
      hide Good, Views, PutLst, Valid, Editable, View, Upd, Copy;
      CopyIntoEmpty(i, j, k);
      ghost var s1 := PutLst(v[i], k, Copy(v[j].lists.Get(k)));
      UpdElsewhere(v, i, s1, j);
      CopyIntoEmpty(i, j, l);
      UpdTwice(v, i, s1, PutLst(s1, l, Copy(v[j].lists.Get(l))));
    }

    /** From the initial settings every list is copied. */
    method TakeCopies(i: nat)
      requires Valid() && i == 1 == |heads| - 1 && TopEmpty(M())
      modifies this, mem
      ensures Valid() && bases == old(bases) && |heads| == old(|heads|)
      ensures View() == Upd(old(View()), i, Settings(old(View()[i]).base, Inherit(old(View()[i - 1]), true).lists))
    {
      ghost var v := View();
      FourEmpty(M(), i);
      hide Good, Views, Valid, View, PutLst, Copy, TopEmpty, Upd;
      CopyTwo(i, i - 1, Functions, PFunctions);
      ghost var below := v[i - 1];
      ghost var s2 := PutLst(PutLst(v[i], Functions, Copy(below.lists.functions)), PFunctions, Copy(below.lists.pFunctions));
      UpdElsewhere(v, i, s2, i - 1);
      CopyTwo(i, i - 1, Keywords, Processes);
      UpdTwice(v, i, s2, PutLst(PutLst(s2, Keywords, Copy(below.lists.keywords)), Processes, Copy(below.lists.processes)));
      FourCopied(v[i], below);
    }

    method CopyIntoEmpty(i: nat, j: nat, k: Kind)
      requires Valid() && Editable(M(), i) && j < |heads| && j != i && paths[i].Get(k) == []
      modifies this, mem
      ensures Valid() && Editable(M(), i) && bases == old(bases) && |heads| == old(|heads|)
      ensures View() == Upd(old(View()), i, PutLst(old(View()[i]), k, Copy(old(View()[j]).lists.Get(k))))
      ensures |paths| == |heads| && forall k' :: k' != k ==> paths[i].Get(k') == old(paths[i].Get(k'))
    {
      hide Good, Views, PutLst, Reverse;
      EmptyIsMovable(M(), Ref(i, k));
      CopyInto(i, j, k);
    }
  }

  lemma EmptyList(h: Heap)
    ensures Chain(h, NULL, []) && Nodes([]) == {} && Contents(h, []) == [] && Replaced(h, {}, h, {})
  {
  }

  /** A list that the level shares is what a copy of the level's own view copies. */
  lemma CopyOfShared(m: Mem, bases: seq<Base>, i: nat, k: Kind)
    requires Good(m) && |bases| == |m.heads| && i < |bases| && m.Has(Ref(i, k)) && SamePointer(m, Ref(i, k))
    ensures var l := Views(m, bases)[i].lists.Get(k); Copy(l) == Unshare(l, true)
  {
    hide Good, Linked;
    ViewList(m, bases, i, k);
    if m.H(Ref(i, k)) == NULL {
      NullIsEmpty(m.heap, m.P(Ref(i, k)));
    }
  }

  lemma NotSharedView(m: Mem, bases: seq<Base>, i: nat, k: Kind)
    requires Good(m) && |bases| == |m.heads| && i < |bases| && m.Has(Ref(i, k)) && !SamePointer(m, Ref(i, k))
    ensures !Views(m, bases)[i].lists.Get(k).shared
  {
    hide Good, Linked, Contents;
    ViewList(m, bases, i, k);
  }

  lemma PutSame(s: Settings, k: Kind)
    ensures PutLst(s, k, s.lists.Get(k)) == s
  {
  }

  lemma PutTwice(s: Settings, k: Kind, l: Lst)
    ensures PutLst(s, k, l).lists.Get(k) == l
    ensures forall l' :: PutLst(PutLst(s, k, l), k, l') == PutLst(s, k, l')
  {
  }

  lemma FourGone(s: Settings)
    ensures PutLst(PutLst(PutLst(PutLst(s, Keywords, NO_LIST), Functions, NO_LIST), Processes, NO_LIST), PFunctions, NO_LIST)
         == Settings(s.base, NO_LISTS)
  {
  }

  predicate NothingShared(s: Settings) {
    !s.lists.functions.shared && !s.lists.pFunctions.shared && !s.lists.keywords.shared && !s.lists.processes.shared
  }

  lemma BaseOf(m: Mem, bases: seq<Base>, i: nat)
    requires Good(m) && |bases| == |m.heads| && i < |bases|
    ensures Views(m, bases)[i].base == bases[i]
  {
    hide Good, ListView;
  }

  /** A field is its scalar part and its list part. */
  lemma FieldByParts(s: Settings, rel: bool, text: string, level: nat)
    requires text != "" && ReadField(text).Command?
    ensures var cmd := ReadField(text);
            Field(s, rel, text, level) ==
            (if EditsList(cmd.letter)
             then PutLst(s, ListOf(cmd.letter), EditList(s.lists.Get(ListOf(cmd.letter)), rel, cmd, s.base.sw.debug))
             else s).(base := EditBase(s.base, cmd, level))
  {
    hide EditBase, EditList, ReadField;
  }

  lemma FourEmpty(m: Mem, i: nat)
    requires TopEmpty(m) && i == |m.heads| - 1
    ensures forall k :: m.paths[i].Get(k) == []
  {
  }

  lemma FourCopied(s: Settings, below: Settings)
    ensures PutLst(PutLst(PutLst(PutLst(s, Functions, Copy(below.lists.functions)), PFunctions, Copy(below.lists.pFunctions)),
                          Keywords, Copy(below.lists.keywords)), Processes, Copy(below.lists.processes))
         == Settings(s.base, Inherit(below, true).lists)
  {
    hide Reverse;
  }

  lemma EmptyViewIsEmpty(st: SettingsStack, i: nat)
    requires st.Valid() && i < |st.heads| && st.View()[i].lists == NO_LISTS
    ensures |st.paths| == |st.heads| && st.heads[i] == NULLS && st.paths[i] == NO_NODES
  {
    hide Good, Linked, Contents;
    var m := st.M();
    forall k: Kind ensures m.H(Ref(i, k)) == NULL && m.P(Ref(i, k)) == [] {
      ViewList(m, st.bases, i, k);
      NullHasNoContents(m.heap, m.H(Ref(i, k)), m.P(Ref(i, k)));
      NullIsEmpty(m.heap, m.P(Ref(i, k)));
    }
    assert m.H(Ref(i, Functions)) == NULL && m.H(Ref(i, PFunctions)) == NULL && m.H(Ref(i, Keywords)) == NULL;
    assert m.H(Ref(i, Processes)) == NULL;
  }

  lemma FieldKeepsNothingShared(s: Settings, text: string, level: nat)
    requires text != "" && NothingShared(s)
    ensures NothingShared(Field(s, false, text, level))
  {
    hide EditBase, ReadField, ListAddDel;
  }

  lemma StartIs(v: seq<Settings>, i: nat, c: string)
    requires i < |v|
    ensures var unset := v[i].base.out.Unset?;
            Start(v[..i + 1], c) ==
            (if !Relative(c) || (unset && i == 0) then Cleared(v[i].base)
             else if unset then Inherit(v[i - 1], i == 1) else v[i])
    ensures NothingShared(Cleared(v[i].base))
  {
    hide Inherit;
  }

  lemma UpdSame(v: seq<Settings>, i: nat)
    requires i < |v|
    ensures Upd(v, i, v[i]) == v
  {
  }

  /** What is left of the field loop at position `pos`. */
  predicate Remaining(start: Settings, cur: Settings, used: bool, rel: bool, c: string, pos: nat, level: nat) {
    pos <= |c| &&
    var rest := Fields(cur, rel, c, pos, level);
    Fields(start, rel, c, 0, level) == (rest.0, used || rest.1)
  }

  lemma FieldsStart(start: Settings, rel: bool, c: string, level: nat)
    ensures Remaining(start, start, false, rel, c, 0, level)
  {
    hide Field;
  }

  lemma FieldsStep(start: Settings, cur: Settings, used: bool, rel: bool, c: string, pos: nat, level: nat)
    requires Remaining(start, cur, used, rel, c, pos, level) && pos < StrTok(c, pos)
    ensures var e := StrTok(c, pos);
            var next, f := Field(cur, rel, c[pos..e], level), used || UsesFunctions(c[pos..e]);
            if e == |c| then Fields(start, rel, c, 0, level) == (next, f)
            else Remaining(start, next, f, rel, c, e + 1, level)
  {
    hide Field, UsesFunctions;
  }

  lemma FieldsEnd(start: Settings, cur: Settings, used: bool, rel: bool, c: string, pos: nat, level: nat)
    requires Remaining(start, cur, used, rel, c, pos, level) && pos == StrTok(c, pos)
    ensures Fields(start, rel, c, 0, level) == (cur, used)
  {
    hide Field, UsesFunctions;
  }

  lemma UpdOpens(w: seq<Settings>, i: nat, s: Settings)
    requires i < |w| && DbugTrace.Open(w) && !s.base.out.Unset?
    ensures DbugTrace.Open(Upd(w, i, s))
  {
  }

  predicate OpenBeneath(w: seq<Settings>) {
    forall i :: 0 <= i < |w| - 1 ==> !w[i].base.out.Unset?
  }

  lemma ReplacedOpens(w: seq<Settings>, s: Settings)
    requires w != [] && !s.base.out.Unset? && OpenBeneath(w)
    ensures Upd(w, |w| - 1, s) == ReplaceTop(w, s) && DbugTrace.Open(Upd(w, |w| - 1, s))
  {
  }

  // ----- runs

  datatype StackOp = PushOp(control: string, level: nat) | SetOp(control: string, level: nat) | PopOp | InitOp(control: string)

  function StackStep(v: seq<Settings>, op: StackOp): (r: seq<Settings>)
    requires v != []
    ensures r != []
  {
    match op
    case PushOp(c, n) => PushStack(v, c, n)
    case SetOp(c, n) => SetStack(v, c, n)
    case PopOp => PopStack(v)
    case InitOp(c) => Upd(v, 0, Parse(v[..1], c, 0).0)
  }

  function StackRun(v: seq<Settings>, ops: seq<StackOp>): seq<Settings>
    requires v != []
    decreases |ops|
  {
    if ops == [] then v else StackRun(StackStep(v, ops[0]), ops[1..])
  }

  method Perform(st: SettingsStack, op: StackOp)
    requires st.Ready()
    modifies st, st.mem
    ensures st.Ready() && old(st.View()) != [] && st.View() == StackStep(old(st.View()), op)
  {
    assert |st.View()| > 0;
    hide Good, Views, Parse, PushStack, SetStack, PopStack, Upd;
    if op.PushOp? {
      var changed := st.Push(op.control, op.level);
    } else if op.SetOp? {
      var changed := st.Set(op.control, op.level);
    } else if op.PopOp? {
      st.Pop();
    } else {
      st.SetInit(op.control);
    }
  }

  /** Any run on the heap keeps the invariant and computes what the value model computes. */
  method Execute(st: SettingsStack, ops: seq<StackOp>)
    requires st.Ready()
    modifies st, st.mem
    ensures st.Ready() && old(st.View()) != [] && st.View() == StackRun(old(st.View()), ops)
  {
    assert |st.View()| > 0;
    hide *;
    ghost var v := st.View();
    WholeRun(v, ops);
    for i := 0 to |ops|
      invariant st.Ready() && st.View() != [] && StackRun(st.View(), ops[i..]) == StackRun(v, ops)
    {
      RunStep(st.View(), ops, i);
      Perform(st, ops[i]);
    }
    RunEnd(st.View(), ops);
  }

  lemma WholeRun(v: seq<Settings>, ops: seq<StackOp>)
    requires v != []
    ensures StackRun(v, ops[0..]) == StackRun(v, ops)
  {
    assert ops[0..] == ops;
  }

  lemma RunStep(v: seq<Settings>, ops: seq<StackOp>, i: nat)
    requires v != [] && i < |ops|
    ensures StackRun(v, ops[i..]) == StackRun(StackStep(v, ops[i]), ops[i + 1..])
  {
    hide Parse;
    assert ops[i..][1..] == ops[i + 1..];
  }

  lemma RunEnd(v: seq<Settings>, ops: seq<StackOp>)
    requires v != []
    ensures StackRun(v, ops[|ops|..]) == v
  {
  }

  /** The run never pops level `n` away. */
  predicate StaysAbove(v: seq<Settings>, n: nat, ops: seq<StackOp>)
    requires v != []
    decreases |ops|
  {
    |v| > n && (ops == [] || StaysAbove(StackStep(v, ops[0]), n, ops[1..]))
  }

  predicate NoInit(ops: seq<StackOp>) {
    forall i :: 0 <= i < |ops| ==> !ops[i].InitOp?
  }

  lemma StepKeepsBeneath(v: seq<Settings>, n: nat, op: StackOp)
    requires 0 < n < |v| && n < |StackStep(v, op)|
    ensures StackStep(v, op)[1..n] == v[1..n]
    ensures !op.InitOp? ==> StackStep(v, op)[..n] == v[..n]
  {
    hide Parse;
  }

  /** However lists are shared and edited above level `n`, the levels beneath keep their contents;
      the initial settings keep theirs unless they are set themselves. */
  lemma {:induction false} RunKeepsBeneath(v: seq<Settings>, n: nat, ops: seq<StackOp>)
    requires v != [] && n > 0 && StaysAbove(v, n, ops)
    ensures |StackRun(v, ops)| > n && StackRun(v, ops)[1..n] == v[1..n]
    ensures NoInit(ops) ==> StackRun(v, ops)[..n] == v[..n]
    decreases |ops|
  {
    hide StackStep;
    if ops != [] {
      StepKeepsBeneath(v, n, ops[0]);
      if NoInit(ops) {
        assert !ops[0].InitOp? && NoInit(ops[1..]);
      }
      RunKeepsBeneath(StackStep(v, ops[0]), n, ops[1..]);
    }
  }

  /** A push, any run above it and the matching pop give back exactly the settings of before. */
  lemma PushRunPop(v: seq<Settings>, control: string, level: nat, ops: seq<StackOp>)
    requires v != [] && NoInit(ops)
    requires StaysAbove(PushStack(v, control, level), |v|, ops)
    requires |StackRun(PushStack(v, control, level), ops)| == |v| + 1
    ensures PopStack(StackRun(PushStack(v, control, level), ops)) == v
  {
    hide Parse, StackRun, StaysAbove;
    var w := PushStack(v, control, level);
    assert w[..|v|] == v;
    RunKeepsBeneath(w, |v|, ops);
  }
}
