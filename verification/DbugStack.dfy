/** The stack of settings with its lists on the heap.

    Neighbouring levels may share a list by pointer, and the top level edits its lists in place.
    `Good` is what every run keeps: live lists are intact chains, a list is shared only between
    neighbours above the initial settings, two lists that are not the same are disjoint, and every
    allocated node belongs to a live list. */
module DbugStack {
  import opened DbugList
  import opened DbugControl
  import opened DbugHeap

  datatype Ref = Ref(level: nat, kind: Kind)

  datatype Mem = Mem(heap: Heap, heads: seq<Quad<Ptr>>, paths: seq<Quad<seq<Ptr>>>) {
    predicate Has(r: Ref) { r.level < |heads| && r.level < |paths| }

    function H(r: Ref): Ptr
      requires Has(r)
    {
      heads[r.level].Get(r.kind)
    }

    function P(r: Ref): seq<Ptr>
      requires Has(r)
    {
      paths[r.level].Get(r.kind)
    }

    /** The memory with one list pointer moved to another chain. */
    function With(h: Heap, r: Ref, q: Ptr, ms: seq<Ptr>): (m: Mem)
      requires Has(r)
      ensures m.heap == h && |m.heads| == |heads| && |m.paths| == |paths|
      ensures m.Has(r) && m.H(r) == q && m.P(r) == ms
      ensures forall s: Ref :: Has(s) && s != r ==> m.Has(s) && m.H(s) == H(s) && m.P(s) == P(s)
    {
      Mem(h, heads[r.level := heads[r.level].Put(r.kind, q)], paths[r.level := paths[r.level].Put(r.kind, ms)])
    }
  }

  // ----- the invariant

  ghost predicate Chains(m: Mem) {
    forall r: Ref :: m.Has(r) ==> Chain(m.heap, m.H(r), m.P(r))
  }

  ghost predicate Apart(m: Mem) {
    forall r: Ref, s: Ref :: m.Has(r) && m.Has(s) && m.H(r) != m.H(s) ==> Nodes(m.P(r)) !! Nodes(m.P(s))
  }

  /** Equal pointers are the same list of neighbouring levels above the initial settings. */
  predicate PairOk(m: Mem, r: Ref, s: Ref)
    requires m.Has(r) && m.Has(s)
  {
    m.H(r) == m.H(s) != NULL ==>
      && r.kind == s.kind && m.P(r) == m.P(s)
      && (r.level < s.level ==> 0 < r.level && m.H(Ref(s.level - 1, s.kind)) == m.H(s))
  }

  ghost predicate Neighbours(m: Mem) {
    forall r: Ref, s: Ref :: m.Has(r) && m.Has(s) ==> PairOk(m, r, s)
  }

  ghost predicate Live(m: Mem, p: Ptr) {
    exists r: Ref :: m.Has(r) && p in m.P(r)
  }

  ghost predicate NoLeak(m: Mem) {
    forall p :: p in m.heap ==> Live(m, p)
  }

  ghost predicate Good(m: Mem) {
    && |m.heads| == |m.paths|
    && Chains(m) && Apart(m) && Neighbours(m) && NoLeak(m)
  }

  // ----- replacing one list

  /** What it takes to move list `r`: the nodes that go are its own, and those that stay are still
      in some other list. */
  ghost predicate Movable(m: Mem, r: Ref, dead: set<Ptr>)
    requires m.Has(r)
  {
    && dead <= Nodes(m.P(r))
    && (forall s: Ref :: m.Has(s) && s != r ==> Nodes(m.P(s)) !! dead)
    && (forall p :: p in Nodes(m.P(r)) - dead ==> exists s: Ref :: m.Has(s) && s != r && p in m.P(s))
  }

  lemma MovedChains(m: Mem, r: Ref, dead: set<Ptr>, h: Heap, q: Ptr, ms: seq<Ptr>)
    requires Good(m) && m.Has(r) && Movable(m, r, dead)
    requires Chain(h, q, ms) && Replaced(m.heap, dead, h, Nodes(ms))
    ensures Chains(m.With(h, r, q, ms))
    ensures forall s: Ref :: m.Has(s) && s != r ==> Contents(h, m.P(s)) == Contents(m.heap, m.P(s))
    ensures forall s: Ref :: m.Has(s) && s != r ==> Nodes(m.P(s)) !! Nodes(ms)
  {
    hide Contents, Linked;
    forall s: Ref | m.Has(s) && s != r
      ensures Chain(h, m.H(s), m.P(s)) && Contents(h, m.P(s)) == Contents(m.heap, m.P(s))
      ensures Nodes(m.P(s)) !! Nodes(ms)
    {
      assert Chain(m.heap, m.H(s), m.P(s));
      ChainAllocated(m.heap, m.P(s));
      assert Nodes(m.P(s)) !! dead;
      forall p | p in m.P(s) ensures p in h && p in m.heap && h[p] == m.heap[p] && p !in ms {
        assert p in Nodes(m.P(s));
        assert p in m.heap.Keys - dead;
      }
      ChainKept(m.heap, h, m.H(s), m.P(s));
    }
  }

  lemma ChainAllocated(h: Heap, ns: seq<Ptr>)
    requires Linked(h, ns)
    ensures Nodes(ns) <= h.Keys
  {
  }

  /** Lists are edited on the top level, or on the initial settings. */
  predicate Editable(m: Mem, i: nat) { i < |m.heads| == |m.paths| && (i == 0 || i == |m.heads| - 1) }

  lemma ApartAt(m: Mem, s: Ref, t: Ref)
    requires Good(m) && m.Has(s) && m.Has(t) && m.H(s) != m.H(t)
    ensures Nodes(m.P(s)) !! Nodes(m.P(t))
  {
    hide Linked, Chains, NoLeak, Neighbours;
  }

  lemma NeighbourAt(m: Mem, s: Ref, t: Ref)
    requires Good(m) && m.Has(s) && m.Has(t) && m.H(s) == m.H(t) != NULL
    ensures s.kind == t.kind && m.P(s) == m.P(t)
    ensures s.level < t.level ==> 0 < s.level && m.H(Ref(t.level - 1, t.kind)) == m.H(t)
  {
    hide Linked, Chains, NoLeak, Apart;
    assert PairOk(m, s, t);
  }

  lemma MovedApart(m: Mem, r: Ref, dead: set<Ptr>, h: Heap, q: Ptr, ms: seq<Ptr>)
    requires Good(m) && m.Has(r) && Movable(m, r, dead)
    requires Chain(h, q, ms) && Replaced(m.heap, dead, h, Nodes(ms))
    ensures Apart(m.With(h, r, q, ms))
  {
    hide Linked, Good, Movable, Replaced, Contents;
    MovedChains(m, r, dead, h, q, ms);
    var m' := m.With(h, r, q, ms);
    forall s: Ref, t: Ref | m'.Has(s) && m'.Has(t) && m'.H(s) != m'.H(t)
      ensures Nodes(m'.P(s)) !! Nodes(m'.P(t))
    {
      assert m.Has(s) && m.Has(t);
      if s != r && t != r {
        ApartAt(m, s, t);
      }
    }
  }

  /** Nodes that are new to a list make its pointer new as well. */
  lemma MovedPointer(m: Mem, r: Ref, dead: set<Ptr>, h: Heap, q: Ptr, ms: seq<Ptr>, s: Ref)
    requires Good(m) && m.Has(r) && Movable(m, r, dead) && q != NULL
    requires Chain(h, q, ms) && Replaced(m.heap, dead, h, Nodes(ms))
    requires m.Has(s) && s != r
    ensures m.H(s) != q
  {
    hide Linked, Good, Movable, Replaced, Contents;
    MovedChains(m, r, dead, h, q, ms);
    ChainOf(m, s);
    assert q in Nodes(ms);
    assert m.H(s) == NULL || m.H(s) in Nodes(m.P(s));
  }

  lemma MovedNeighbours(m: Mem, r: Ref, dead: set<Ptr>, h: Heap, q: Ptr, ms: seq<Ptr>)
    requires Good(m) && Editable(m, r.level) && Movable(m, r, dead)
    requires Chain(h, q, ms) && Replaced(m.heap, dead, h, Nodes(ms))
    ensures Neighbours(m.With(h, r, q, ms))
  {
    hide Linked, Good, Movable, Replaced, Chain;
    var m' := m.With(h, r, q, ms);
    forall s: Ref, t: Ref | m'.Has(s) && m'.Has(t) ensures PairOk(m', s, t) {
      MovedPair(m, r, dead, h, q, ms, s, t);
    }
  }

  lemma MovedPair(m: Mem, r: Ref, dead: set<Ptr>, h: Heap, q: Ptr, ms: seq<Ptr>, s: Ref, t: Ref)
    requires Editable(m, r.level) && m.Has(s) && m.Has(t) && Movable(m, r, dead)
    requires Good(m) && Chain(h, q, ms) && Replaced(m.heap, dead, h, Nodes(ms))
    ensures PairOk(m.With(h, r, q, ms), s, t)
  {
    hide Linked, Good, Movable, Replaced, Chain;
    var m' := m.With(h, r, q, ms);
    if m'.H(s) == m'.H(t) != NULL {
      if s != r && t != r {
        NeighbourAt(m, s, t);
        if s.level < t.level {
          assert Ref(t.level - 1, t.kind) != r;
        }
      } else if s != r {
        MovedPointer(m, r, dead, h, q, ms, s);
      } else if t != r {
        MovedPointer(m, r, dead, h, q, ms, t);
      }
    }
  }

  lemma ChainOf(m: Mem, r: Ref)
    requires Good(m) && m.Has(r)
    ensures Chain(m.heap, m.H(r), m.P(r))
  {
    hide Linked;
  }

  lemma MovedNoLeak(m: Mem, r: Ref, dead: set<Ptr>, h: Heap, q: Ptr, ms: seq<Ptr>)
    requires Good(m) && m.Has(r) && Movable(m, r, dead) && Replaced(m.heap, dead, h, Nodes(ms))
    ensures NoLeak(m.With(h, r, q, ms))
  {
    hide Linked, Chains, Apart, Neighbours;
    var m' := m.With(h, r, q, ms);
    forall p | p in h ensures Live(m', p) {
      if p in Nodes(ms) {
        assert m'.Has(r) && p in m'.P(r);
      } else {
        assert p in m.heap && Live(m, p);
        var s: Ref :| m.Has(s) && p in m.P(s);
        if s == r {
          assert p in Nodes(m.P(r)) - dead;
          var t: Ref :| m.Has(t) && t != r && p in m.P(t);
          assert m'.Has(t) && p in m'.P(t);
        } else {
          assert m'.Has(s) && p in m'.P(s);
        }
      }
    }
  }

  lemma MovedGood(m: Mem, r: Ref, dead: set<Ptr>, h: Heap, q: Ptr, ms: seq<Ptr>)
    requires Good(m) && Editable(m, r.level) && Movable(m, r, dead)
    requires Chain(h, q, ms) && Replaced(m.heap, dead, h, Nodes(ms))
    ensures Good(m.With(h, r, q, ms))
  {
    MovedChains(m, r, dead, h, q, ms);
    MovedApart(m, r, dead, h, q, ms);
    MovedNeighbours(m, r, dead, h, q, ms);
    MovedNoLeak(m, r, dead, h, q, ms);
    hide Chains, Apart, Neighbours, NoLeak, Movable, Replaced, Linked;
  }

  // ----- whose nodes a list has

  /** The pointer is the one of the level beneath: the program's `is_shared`. */
  predicate SamePointer(m: Mem, r: Ref)
    requires m.Has(r)
  {
    r.level > 0 && m.H(Ref(r.level - 1, r.kind)) == m.H(r)
  }

  lemma NotSharedElsewhere(m: Mem, r: Ref, s: Ref)
    requires Good(m) && Editable(m, r.level) && !SamePointer(m, r) && m.Has(s) && s != r
    ensures m.H(s) != m.H(r) || m.H(r) == NULL
  {
    hide Good;
    if m.H(s) == m.H(r) != NULL {
      NeighbourAt(m, s, r);
      NeighbourAt(m, r, s);
    }
  }

  /** A list whose pointer the level beneath does not have is the level's own. */
  lemma OwnIsMovable(m: Mem, r: Ref)
    requires Good(m) && Editable(m, r.level) && !SamePointer(m, r)
    ensures Movable(m, r, Nodes(m.P(r)))
  {
    hide Good, Linked;
    ChainOf(m, r);
    forall s: Ref | m.Has(s) && s != r ensures Nodes(m.P(s)) !! Nodes(m.P(r)) {
      NotSharedElsewhere(m, r, s);
      if m.H(r) == NULL {
        NullIsEmpty(m.heap, m.P(r));
      } else {
        ApartAt(m, s, r);
      }
    }
  }

  /** A shared list can be let go without freeing anything. */
  lemma SharedIsMovable(m: Mem, r: Ref)
    requires Good(m) && Editable(m, r.level) && SamePointer(m, r)
    ensures Movable(m, r, {})
  {
    hide Linked, Chains, NoLeak, Apart;
    var s := Ref(r.level - 1, r.kind);
    assert m.Has(s) && s != r;
    if m.H(r) == NULL {
      ChainOf(m, r);
      NullIsEmpty(m.heap, m.P(r));
    } else {
      NeighbourAt(m, s, r);
    }
  }

  // ----- what the memory means

  ghost function ListView(m: Mem, r: Ref): Lst
    requires Good(m) && m.Has(r)
  {
    ChainOf(m, r);
    Lst(Contents(m.heap, m.P(r)), SamePointer(m, r) && m.H(r) != NULL)
  }

  ghost function LevelView(m: Mem, b: Base, i: nat): Settings
    requires Good(m) && i < |m.heads|
  {
    Settings(b, Quad(ListView(m, Ref(i, Functions)), ListView(m, Ref(i, PFunctions)),
                     ListView(m, Ref(i, Keywords)), ListView(m, Ref(i, Processes))))
  }

  ghost function Views(m: Mem, bases: seq<Base>): (v: seq<Settings>)
    requires Good(m) && |bases| == |m.heads|
    ensures |v| == |bases| && forall i :: 0 <= i < |v| ==> v[i] == LevelView(m, bases[i], i)
  {
    seq(|bases|, i requires 0 <= i < |bases| => LevelView(m, bases[i], i))
  }

  /** Moving one list changes nothing but that list, which is the level's own afterwards. */
  lemma MovedListView(m: Mem, r: Ref, dead: set<Ptr>, h: Heap, q: Ptr, ms: seq<Ptr>, s: Ref)
    requires Good(m) && Editable(m, r.level) && Movable(m, r, dead) && m.Has(s)
    requires Chain(h, q, ms) && Replaced(m.heap, dead, h, Nodes(ms))
    ensures Good(m.With(h, r, q, ms))
    ensures ListView(m.With(h, r, q, ms), s) == if s == r then Lst(Contents(h, ms), false) else ListView(m, s)
  {
    hide Linked, Good, Movable, Replaced, Contents;
    MovedGood(m, r, dead, h, q, ms);
    MovedChains(m, r, dead, h, q, ms);
    var m' := m.With(h, r, q, ms);
    if s == r {
      if q != NULL && r.level > 0 {
        MovedPointer(m, r, dead, h, q, ms, Ref(r.level - 1, r.kind));
      }
    } else if s.level > 0 && s.level - 1 == r.level && s.kind == r.kind {
      NoShareWithInitial(m, s);
      NoShareWithInitial(m', s);
    }
  }

  lemma NoShareWithInitial(m: Mem, s: Ref)
    requires Good(m) && m.Has(s) && s.level == 1
    ensures m.H(s) == NULL || m.H(Ref(0, s.kind)) != m.H(s)
  {
    hide Good;
    if m.H(s) != NULL && m.H(Ref(0, s.kind)) == m.H(s) {
      NeighbourAt(m, Ref(0, s.kind), s);
    }
  }

  lemma MovedViews(m: Mem, bases: seq<Base>, r: Ref, dead: set<Ptr>, h: Heap, q: Ptr, ms: seq<Ptr>)
    requires Good(m) && |bases| == |m.heads| && Editable(m, r.level) && Movable(m, r, dead)
    requires Chain(h, q, ms) && Replaced(m.heap, dead, h, Nodes(ms))
    ensures Good(m.With(h, r, q, ms))
    ensures var v := Views(m, bases);
            Views(m.With(h, r, q, ms), bases) ==
            v[r.level := v[r.level].(lists := v[r.level].lists.Put(r.kind, Lst(Contents(h, ms), false)))]
  {
    hide Linked, Good, Movable, Replaced, Contents, ListView;
    MovedGood(m, r, dead, h, q, ms);
    var m', v := m.With(h, r, q, ms), Views(m, bases);
    var w := v[r.level := v[r.level].(lists := v[r.level].lists.Put(r.kind, Lst(Contents(h, ms), false)))];
    forall i | 0 <= i < |bases| ensures LevelView(m', bases[i], i) == w[i] {
      MovedListView(m, r, dead, h, q, ms, Ref(i, Functions));
      MovedListView(m, r, dead, h, q, ms, Ref(i, PFunctions));
      MovedListView(m, r, dead, h, q, ms, Ref(i, Keywords));
      MovedListView(m, r, dead, h, q, ms, Ref(i, Processes));
    }
    assert Views(m', bases) == w;
  }

  // ----- whole levels

  const NULLS: Quad<Ptr> := Quad(NULL, NULL, NULL, NULL)
  const NO_NODES: Quad<seq<Ptr>> := Quad([], [], [], [])

  function Grown(m: Mem): Mem { Mem(m.heap, m.heads + [NULLS], m.paths + [NO_NODES]) }

  lemma GrownGood(m: Mem)
    requires Good(m)
    ensures Good(Grown(m))
  {
    hide Linked;
    var g := Grown(m);
    forall r: Ref | g.Has(r) ensures Chain(g.heap, g.H(r), g.P(r)) {
      if r.level == |m.heads| {
        EmptyChain(m.heap);
      } else {
        assert m.Has(r) && g.H(r) == m.H(r) && g.P(r) == m.P(r);
      }
    }
    forall r: Ref, s: Ref | g.Has(r) && g.Has(s) && g.H(r) != g.H(s) ensures Nodes(g.P(r)) !! Nodes(g.P(s)) {
      if m.Has(r) && m.Has(s) {
        ApartAt(m, r, s);
      }
    }
    forall r: Ref, s: Ref | g.Has(r) && g.Has(s) ensures PairOk(g, r, s) {
      if m.Has(r) && m.Has(s) {
        assert PairOk(m, r, s);
      }
    }
    forall p | p in g.heap ensures Live(g, p) {
      assert Live(m, p);
      var r: Ref :| m.Has(r) && p in m.P(r);
      assert g.Has(r) && p in g.P(r);
    }
  }

  /** The top level has no lists. */
  predicate TopEmpty(m: Mem) {
    |m.heads| == |m.paths| > 0 && m.heads[|m.heads| - 1] == NULLS && m.paths[|m.paths| - 1] == NO_NODES
  }

  function Shrunk(m: Mem): Mem
    requires TopEmpty(m)
  {
    Mem(m.heap, m.heads[..|m.heads| - 1], m.paths[..|m.paths| - 1])
  }

  lemma Lengths(m: Mem)
    requires Good(m)
    ensures |m.heads| == |m.paths|
  {
    hide Chains, Apart, Neighbours, NoLeak;
  }

  lemma LiveAt(m: Mem, p: Ptr) returns (r: Ref)
    requires Good(m) && p in m.heap
    ensures m.Has(r) && p in m.P(r)
  {
    hide Chains, Apart, Neighbours;
    assert Live(m, p);
    r :| m.Has(r) && p in m.P(r);
  }

  lemma PairAt(m: Mem, r: Ref, s: Ref)
    requires Good(m) && m.Has(r) && m.Has(s)
    ensures PairOk(m, r, s)
  {
    hide Chains, Apart, NoLeak, PairOk;
  }

  lemma ShrunkRef(m: Mem, r: Ref)
    requires TopEmpty(m) && Shrunk(m).Has(r)
    ensures m.Has(r) && Shrunk(m).H(r) == m.H(r) && Shrunk(m).P(r) == m.P(r)
  {
  }

  lemma ShrunkChains(m: Mem)
    requires Good(m) && TopEmpty(m)
    ensures Chains(Shrunk(m)) && Apart(Shrunk(m))
  {
    hide Good, Linked;
    var g := Shrunk(m);
    forall r: Ref | g.Has(r) ensures Chain(g.heap, g.H(r), g.P(r)) {
      ShrunkRef(m, r);
      ChainOf(m, r);
    }
    forall r: Ref, s: Ref | g.Has(r) && g.Has(s) && g.H(r) != g.H(s) ensures Nodes(g.P(r)) !! Nodes(g.P(s)) {
      ShrunkRef(m, r);
      ShrunkRef(m, s);
      ApartAt(m, r, s);
    }
  }

  lemma ShrunkNeighbours(m: Mem)
    requires Good(m) && TopEmpty(m)
    ensures Neighbours(Shrunk(m))
  {
    hide Good;
    var g := Shrunk(m);
    forall r: Ref, s: Ref | g.Has(r) && g.Has(s) ensures PairOk(g, r, s) {
      PairAt(m, r, s);
    }
  }

  lemma ShrunkNoLeak(m: Mem)
    requires Good(m) && TopEmpty(m)
    ensures NoLeak(Shrunk(m))
  {
    hide Good;
    var g := Shrunk(m);
    forall p | p in g.heap ensures Live(g, p) {
      var r := LiveAt(m, p);
      assert g.Has(r) && p in g.P(r);
    }
  }

  lemma ShrunkGood(m: Mem)
    requires Good(m) && TopEmpty(m)
    ensures Good(Shrunk(m))
  {
    hide Chains, Apart, Neighbours, NoLeak;
    ShrunkChains(m);
    ShrunkNeighbours(m);
    ShrunkNoLeak(m);
  }

  /** The top level takes over the pointers of the level beneath. */
  function Shared(m: Mem): Mem
    requires |m.heads| == |m.paths| > 1
  {
    var t := |m.heads| - 1;
    Mem(m.heap, m.heads[t := m.heads[t - 1]], m.paths[t := m.paths[t - 1]])
  }

  /** The list of the level beneath, for a list of the top level. */
  function Origin(m: Mem, r: Ref): Ref {
    if r.level > 0 && r.level == |m.heads| - 1 then Ref(r.level - 1, r.kind) else r
  }

  lemma SharedPair(m: Mem, r: Ref, s: Ref)
    requires |m.heads| == |m.paths| > 2 && m.Has(r) && m.Has(s) && Good(m)
    ensures PairOk(Shared(m), r, s)
  {
    hide Chains, Apart, NoLeak, Linked;
    var g, r', s' := Shared(m), Origin(m, r), Origin(m, s);
    assert g.H(r) == m.H(r') && g.H(s) == m.H(s') && g.P(r) == m.P(r') && g.P(s) == m.P(s');
    assert PairOk(m, r', s');
    if g.H(r) == g.H(s) != NULL && r.level < s.level {
      var u := Ref(s.level - 1, s.kind);
      assert g.H(u) == m.H(u);
    }
  }

  lemma SharedGood(m: Mem)
    requires |m.heads| == |m.paths| > 2 && TopEmpty(m) && Good(m)
    ensures Good(Shared(m))
  {
    hide Linked;
    var g := Shared(m);
    forall r: Ref | g.Has(r)
      ensures m.Has(Origin(m, r)) && g.H(r) == m.H(Origin(m, r)) && g.P(r) == m.P(Origin(m, r))
    { }
    assert Chains(g);
    forall r: Ref, s: Ref | g.Has(r) && g.Has(s) && g.H(r) != g.H(s) ensures Nodes(g.P(r)) !! Nodes(g.P(s)) {
      ApartAt(m, Origin(m, r), Origin(m, s));
    }
    forall r: Ref, s: Ref | g.Has(r) && g.Has(s) ensures PairOk(g, r, s) {
      SharedPair(m, r, s);
    }
    forall p | p in g.heap ensures Live(g, p) {
      assert Live(m, p);
      var r: Ref :| m.Has(r) && p in m.P(r);
      assert g.Has(r) && p in g.P(r);
    }
  }

  // -- their views

  lemma GrownViews(m: Mem, bases: seq<Base>, b: Base)
    requires Good(m) && |bases| == |m.heads|
    ensures Good(Grown(m)) && Views(Grown(m), bases + [b]) == Views(m, bases) + [Settings(b, NO_LISTS)]
  {
    hide Good, Linked;
    GrownGood(m);
    Lengths(m);
    var g := Grown(m);
    forall i | 0 <= i < |bases| ensures LevelView(g, (bases + [b])[i], i) == LevelView(m, bases[i], i) {
      forall k: Kind ensures ListView(g, Ref(i, k)) == ListView(m, Ref(i, k)) {
        assert g.H(Ref(i, k)) == m.H(Ref(i, k)) && g.P(Ref(i, k)) == m.P(Ref(i, k));
      }
    }
    forall k: Kind ensures ListView(g, Ref(|bases|, k)) == NO_LIST {
      assert g.P(Ref(|bases|, k)) == [] && g.H(Ref(|bases|, k)) == NULL;
    }
    assert Views(g, bases + [b]) == Views(m, bases) + [Settings(b, NO_LISTS)];
  }

  lemma ShrunkViews(m: Mem, bases: seq<Base>)
    requires Good(m) && |bases| == |m.heads| && TopEmpty(m)
    ensures Good(Shrunk(m)) && Views(Shrunk(m), bases[..|bases| - 1]) == Views(m, bases)[..|bases| - 1]
  {
    hide Good, Linked;
    ShrunkGood(m);
    var g := Shrunk(m);
    forall i | 0 <= i < |bases| - 1 ensures LevelView(g, bases[i], i) == LevelView(m, bases[i], i) {
      forall k: Kind ensures ListView(g, Ref(i, k)) == ListView(m, Ref(i, k)) {
        assert g.H(Ref(i, k)) == m.H(Ref(i, k)) && g.P(Ref(i, k)) == m.P(Ref(i, k));
      }
    }
    assert Views(g, bases[..|bases| - 1]) == Views(m, bases)[..|bases| - 1];
  }

  lemma SharedList(m: Mem, k: Kind)
    requires |m.heads| == |m.paths| > 2 && TopEmpty(m) && Good(m)
    ensures Good(Shared(m))
    ensures ListView(Shared(m), Ref(|m.heads| - 1, k)) == ShareList(ListView(m, Ref(|m.heads| - 2, k)))
  {
    hide Good, Linked, Contents;
    SharedGood(m);
    var r, s, g := Ref(|m.heads| - 1, k), Ref(|m.heads| - 2, k), Shared(m);
    assert g.H(r) == m.H(s) == g.H(s) && g.P(r) == m.P(s);
    ChainOf(m, s);
    NullHasNoContents(m.heap, m.H(s), m.P(s));
  }

  lemma NullHasNoContents(h: Heap, p: Ptr, ns: seq<Ptr>)
    requires Chain(h, p, ns)
    ensures p == NULL <==> Contents(h, ns) == []
  {
  }

  lemma SharedViews(m: Mem, bases: seq<Base>, b: Base)
    requires |bases| == |m.heads| == |m.paths| > 2 && TopEmpty(m) && Good(m) && b == bases[|bases| - 2]
    ensures Good(Shared(m))
    ensures var v, t := Views(m, bases), |bases| - 1;
            Views(Shared(m), bases[t := b]) == v[t := Inherit(v[t - 1], false)]
  {
    hide Good, Linked, Contents, ListView;
    SharedGood(m);
    var g, v, t := Shared(m), Views(m, bases), |bases| - 1;
    forall i | 0 <= i < t ensures LevelView(g, bases[i], i) == v[i] {
      forall k: Kind ensures ListView(g, Ref(i, k)) == ListView(m, Ref(i, k)) { BelowSame(m, Ref(i, k)); }
    }
    SharedList(m, Functions);
    SharedList(m, PFunctions);
    SharedList(m, Keywords);
    SharedList(m, Processes);
    assert LevelView(g, b, t) == Inherit(v[t - 1], false);
    assert Views(g, bases[t := b]) == v[t := Inherit(v[t - 1], false)];
  }

  lemma BelowSame(m: Mem, r: Ref)
    requires |m.heads| == |m.paths| > 2 && r.level < |m.heads| - 1 && Good(m) && Good(Shared(m))
    ensures ListView(Shared(m), r) == ListView(m, r)
  {
    hide Good, Linked, Contents;
    var g := Shared(m);
    assert g.H(r) == m.H(r) && g.P(r) == m.P(r);
    if r.level > 0 {
      assert g.H(Ref(r.level - 1, r.kind)) == m.H(Ref(r.level - 1, r.kind));
    }
  }
}
