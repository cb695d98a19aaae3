/** The linked pattern lists of the settings stack on an explicit heap.

    Nodes are allocated and freed one by one; reading or freeing a node that is not allocated is
    not expressible, so that every method verifies says that no node is used after it was freed or
    freed twice.  The methods are proved against the value model in `DbugControl`. */
module DbugHeap {
  import opened DbugList
  import opened DbugControl

  type Ptr = nat

  const NULL: Ptr := 0

  datatype Link = Link(next: Ptr, elem: Elem)

  type Heap = map<Ptr, Link>

  // ----- chains of nodes

  function Head(ns: seq<Ptr>): Ptr { if ns == [] then NULL else ns[0] }

  predicate Distinct(ns: seq<Ptr>) {
    forall i, j :: 0 <= i < j < |ns| ==> ns[i] != ns[j]
  }

  function Next(ns: seq<Ptr>, i: int): Ptr { if 0 <= i + 1 < |ns| then ns[i + 1] else NULL }

  /** `ns` are the nodes of a NULL-terminated list, in order. */
  predicate Linked(h: Heap, ns: seq<Ptr>) {
    && Distinct(ns)
    && forall i :: 0 <= i < |ns| ==> ns[i] in h && ns[i] != NULL && h[ns[i]].next == Next(ns, i)
  }

  predicate Chain(h: Heap, p: Ptr, ns: seq<Ptr>) { p == Head(ns) && Linked(h, ns) }

  ghost function Nodes(ns: seq<Ptr>): set<Ptr> { set n | n in ns }

  function Contents(h: Heap, ns: seq<Ptr>): (r: seq<Elem>)
    requires Linked(h, ns)
    ensures |r| == |ns| && forall i :: 0 <= i < |ns| ==> r[i] == h[ns[i]].elem
  {
    seq(|ns|, i requires 0 <= i < |ns| => h[ns[i]].elem)
  }

  /** From `h0` to `h` the nodes `dead` went and the nodes `born` came; all others are as before. */
  ghost predicate Replaced(h0: Heap, dead: set<Ptr>, h: Heap, born: set<Ptr>) {
    && h.Keys == (h0.Keys - dead) + born
    && born !! (h0.Keys - dead)
    && forall p :: p in h0.Keys - dead ==> p in h && h[p] == h0[p]
  }

  lemma ReplacedTwice(h0: Heap, a: set<Ptr>, h1: Heap, b: set<Ptr>, h2: Heap, c: set<Ptr>)
    requires Replaced(h0, a, h1, b) && Replaced(h1, b, h2, c)
    ensures Replaced(h0, a, h2, c)
  {
    assert h1.Keys - b == h0.Keys - a;
  }

  lemma FreedOne(h0: Heap, dead: set<Ptr>, h: Heap, born: set<Ptr>, p: Ptr)
    requires Replaced(h0, dead, h, born) && p in h && p in h0.Keys - dead
    ensures Replaced(h0, dead + {p}, h - {p}, born)
  {
  }

  lemma AddedOne(h0: Heap, dead: set<Ptr>, h: Heap, born: set<Ptr>, p: Ptr, l: Link)
    requires Replaced(h0, dead, h, born) && p !in h
    ensures Replaced(h0, dead, h[p := l], born + {p})
  {
  }

  lemma StillThere(h0: Heap, dead: set<Ptr>, h: Heap, born: set<Ptr>, p: Ptr)
    requires Replaced(h0, dead, h, born) && p in h0.Keys - dead
    ensures p in h && h[p] == h0[p]
  {
  }

  lemma LinkedTail(h: Heap, ns: seq<Ptr>)
    requires Linked(h, ns) && ns != []
    ensures Linked(h, ns[1..]) && h[ns[0]].next == Head(ns[1..])
  {
    var t := ns[1..];
    assert Next(ns, 0) == Head(t);
    forall i | 0 <= i < |t| ensures t[i] in h && t[i] != NULL && h[t[i]].next == Next(t, i) {
      assert t[i] == ns[i + 1] && Next(t, i) == Next(ns, i + 1);
    }
  }

  /** One step along a chain. */
  lemma FirstNode(h: Heap, p: Ptr, ns: seq<Ptr>)
    requires Chain(h, p, ns) && p != NULL
    ensures ns != [] && p == ns[0] && p in h && Chain(h, h[p].next, ns[1..])
    ensures Contents(h, ns) == [h[p].elem] + Contents(h, ns[1..])
    ensures Nodes(ns) == {p} + Nodes(ns[1..]) && p !in ns[1..]
  {
    LinkedTail(h, ns);
    assert ns == [p] + ns[1..];
    assert Contents(h, ns) == [h[p].elem] + Contents(h, ns[1..]);
  }

  lemma LinkedCons(h: Heap, p: Ptr, ns: seq<Ptr>)
    requires Linked(h, ns) && p in h && p != NULL && p !in ns && h[p].next == Head(ns)
    ensures Linked(h, [p] + ns) && Contents(h, [p] + ns) == [h[p].elem] + Contents(h, ns)
  {
    var t := [p] + ns;
    forall i | 0 <= i < |t| ensures t[i] in h && t[i] != NULL && h[t[i]].next == Next(t, i) {
      if i > 0 {
        assert t[i] == ns[i - 1] && Next(t, i) == Next(ns, i - 1);
      }
    }
    assert Contents(h, t) == [h[p].elem] + Contents(h, ns);
  }

  /** A chain survives changes elsewhere. */
  lemma LinkedElsewhere(h0: Heap, h: Heap, ns: seq<Ptr>)
    requires Linked(h0, ns) && forall i :: 0 <= i < |ns| ==> ns[i] in h && h[ns[i]] == h0[ns[i]]
    ensures Linked(h, ns) && Contents(h, ns) == Contents(h0, ns)
  {
    assert forall i :: 0 <= i < |ns| ==> Contents(h, ns)[i] == Contents(h0, ns)[i];
  }

  lemma EmptyChain(h: Heap)
    ensures Chain(h, NULL, []) && Contents(h, []) == [] && Replaced(h, {}, h, {})
  {
  }

  lemma ReverseCons<T>(x: T, s: seq<T>)
    ensures Reverse([x] + s) == Reverse(s) + [x]
  {
    assert ([x] + s)[1..] == s;
  }

  lemma ChainKept(h0: Heap, h: Heap, p: Ptr, ns: seq<Ptr>)
    requires Chain(h0, p, ns) && forall q :: q in ns ==> q in h && q in h0 && h[q] == h0[q]
    ensures Chain(h, p, ns) && Contents(h, ns) == Contents(h0, ns)
  {
    LinkedElsewhere(h0, h, ns);
  }

  lemma NullIsEmpty(h: Heap, ns: seq<Ptr>)
    requires Chain(h, NULL, ns)
    ensures ns == []
  {
  }

  lemma {:induction false} Bound(s: set<nat>) returns (b: nat)
    ensures forall x :: x in s ==> x < b
  {
    if s == {} {
      b := 0;
    } else {
      var x :| x in s;
      b := Bound(s - {x});
      if b <= x {
        b := x + 1;
      }
      forall y | y in s ensures y < b {
        assert y == x || y in s - {x};
      }
    }
  }

  lemma FreshExists(h: Heap)
    ensures exists p: Ptr :: p != NULL && p !in h
  {
    var b := Bound(h.Keys);
    assert b + 1 !in h.Keys;
  }

  // ----- edits in place

  lemma AddTokenMiss(list: seq<Elem>, tok: string, todo: Todo)
    requires list != [] && !Hits(list[0], tok)
    ensures AddToken(list, tok, todo) == [list[0]] + AddToken(list[1..], tok, todo)
  {
  }

  lemma {:induction false} AddTokenSkips(list: seq<Elem>, i: nat, tok: string, todo: Todo)
    requires i <= |list| && forall j :: 0 <= j < i ==> !Hits(list[j], tok)
    ensures AddToken(list, tok, todo) == list[..i] + AddToken(list[i..], tok, todo)
  {
    hide Hits, AddToken;
    if i == 0 {
      assert list[0..] == list && list[..0] == [];
    } else {
      AddTokenMiss(list, tok, todo);
      AddTokenSkips(list[1..], i - 1, tok, todo);
      assert list[1..][i - 1..] == list[i..];
      assert [list[0]] + (list[1..][..i - 1] + AddToken(list[i..], tok, todo))
          == list[..i] + AddToken(list[i..], tok, todo);
    }
  }

  /** One token in terms of the first position it hits. */
  function EditAt(list: seq<Elem>, i: nat, tok: string, todo: Todo): seq<Elem>
    requires i <= |list|
  {
    if i == |list| then list + [NewElem(tok, todo)]
    else if SameAction(list[i], todo) then
      list[i := list[i].(subdir := list[i].subdir || EndsWithSlash(tok))]
    else if todo.Exclude? then list[..i] + list[i + 1..]
    else list[i := list[i].(incl := true, subdir := list[i].subdir || EndsWithSlash(tok))]
  }

  lemma AddTokenAt(list: seq<Elem>, i: nat, tok: string, todo: Todo)
    requires i <= |list| && forall j :: 0 <= j < i ==> !Hits(list[j], tok)
    requires i < |list| ==> Hits(list[i], tok)
    ensures AddToken(list, tok, todo) == EditAt(list, i, tok, todo)
  {
    hide Hits, EndsWithSlash, SameAction, NewElem;
    AddTokenSkips(list, i, tok, todo);
    var t := list[i..];
    if i == |list| {
      assert t == [] && list[..i] == list;
    } else {
      assert t[0] == list[i] && t[1..] == list[i + 1..];
      assert forall e :: list[..i] + ([e] + t[1..]) == list[i := e];
    }
  }

  lemma ElemChanged(h: Heap, ns: seq<Ptr>, i: nat, e: Elem)
    requires Linked(h, ns) && i < |ns|
    ensures var h' := h[ns[i] := Link(h[ns[i]].next, e)];
            && Linked(h', ns) && Contents(h', ns) == Contents(h, ns)[i := e]
            && Replaced(h, Nodes(ns), h', Nodes(ns))
  {
    var h' := h[ns[i] := Link(h[ns[i]].next, e)];
    forall j | 0 <= j < |ns| ensures ns[j] in h' && h'[ns[j]].next == Next(ns, j) {
    }
    assert Contents(h', ns) == Contents(h, ns)[i := e];
    assert ns[i] in Nodes(ns);
    assert h'.Keys == h.Keys;
  }

  /** The pointer that led to position `i` set to `p`: the previous node's link, if there is one. */
  function Redirected(h: Heap, ns: seq<Ptr>, i: nat, p: Ptr): Heap
    requires i <= |ns| && Linked(h, ns)
  {
    if i == 0 then h else h[ns[i - 1] := Link(p, h[ns[i - 1]].elem)]
  }

  lemma UnlinkedDistinct(ns: seq<Ptr>, i: nat)
    requires Distinct(ns) && i < |ns|
    ensures Distinct(ns[..i] + ns[i + 1..])
  {
    var ms := ns[..i] + ns[i + 1..];
    forall j, k | 0 <= j < k < |ms| ensures ms[j] != ms[k] {
      assert ms[j] == ns[if j < i then j else j + 1] && ms[k] == ns[if k < i then k else k + 1];
    }
  }

  lemma UnlinkedAt(h: Heap, ns: seq<Ptr>, i: nat, j: nat)
    requires Linked(h, ns) && i < |ns| && j + 1 < |ns|
    ensures var h' := Redirected(h, ns, i, Next(ns, i)) - {ns[i]};
            var k := if j < i then j else j + 1;
            && ns[k] in h' && h'[ns[k]].elem == h[ns[k]].elem
            && h'[ns[k]].next == if j + 1 == i then Next(ns, i) else Next(ns, k)
  {
    var k := if j < i then j else j + 1;
    assert ns[k] != ns[i];
    if j + 1 != i && i > 0 {
      assert ns[k] != ns[i - 1];
    }
  }

  lemma UnlinkedChain(h: Heap, ns: seq<Ptr>, i: nat)
    requires Linked(h, ns) && i < |ns|
    ensures var h' := Redirected(h, ns, i, Next(ns, i)) - {ns[i]};
            var ms := ns[..i] + ns[i + 1..];
            Linked(h', ms) && Contents(h', ms) == Contents(h, ns)[..i] + Contents(h, ns)[i + 1..]
  {
    hide Redirected;
    var h' := Redirected(h, ns, i, Next(ns, i)) - {ns[i]};
    var ms := ns[..i] + ns[i + 1..];
    forall j | 0 <= j < |ms|
      ensures ms[j] in h' && ms[j] != NULL && h'[ms[j]].next == Next(ms, j)
      ensures h'[ms[j]].elem == h[ms[j]].elem
    {
      UnlinkedAt(h, ns, i, j);
    }
    UnlinkedDistinct(ns, i);
    assert Contents(h', ms) == Contents(h, ns)[..i] + Contents(h, ns)[i + 1..];
  }

  lemma UnlinkedNodes(ns: seq<Ptr>, i: nat)
    requires Distinct(ns) && i < |ns|
    ensures Nodes(ns[..i] + ns[i + 1..]) == Nodes(ns) - {ns[i]}
  {
    var ms := ns[..i] + ns[i + 1..];
    forall p | p in Nodes(ns) - {ns[i]} ensures p in Nodes(ms) {
      var k :| 0 <= k < |ns| && ns[k] == p;
      assert p == ms[if k < i then k else k - 1];
    }
  }

  lemma RedirectedElsewhere(h: Heap, ns: seq<Ptr>, i: nat, p: Ptr)
    requires Linked(h, ns) && i <= |ns|
    ensures Replaced(h, Nodes(ns), Redirected(h, ns, i, p), Nodes(ns))
  {
    if i > 0 {
      assert ns[i - 1] in Nodes(ns);
    }
    assert Redirected(h, ns, i, p).Keys == h.Keys;
  }

  lemma Unlinked(h: Heap, ns: seq<Ptr>, i: nat)
    requires Linked(h, ns) && i < |ns|
    ensures var h' := Redirected(h, ns, i, Next(ns, i)) - {ns[i]};
            var ms := ns[..i] + ns[i + 1..];
            && Linked(h', ms) && Contents(h', ms) == Contents(h, ns)[..i] + Contents(h, ns)[i + 1..]
            && Replaced(h, Nodes(ns), h', Nodes(ms))
  {
    UnlinkedChain(h, ns, i);
    UnlinkedNodes(ns, i);
    RedirectedElsewhere(h, ns, i, Next(ns, i));
    assert ns[i] in Nodes(ns);
  }

  lemma AppendedChain(h: Heap, ns: seq<Ptr>, p: Ptr)
    requires Linked(h, ns) && p in h && p !in ns && p != NULL && h[p].next == NULL
    ensures var h' := Redirected(h, ns, |ns|, p);
            Linked(h', ns + [p]) && Contents(h', ns + [p]) == Contents(h, ns) + [h[p].elem]
  {
    var h' := Redirected(h, ns, |ns|, p);
    var ms := ns + [p];
    forall j | 0 <= j < |ms|
      ensures ms[j] in h' && ms[j] != NULL && h'[ms[j]].next == Next(ms, j)
      ensures h'[ms[j]].elem == h[ms[j]].elem
    {
      if j < |ns| {
        assert ms[j] == ns[j];
      }
    }
    assert Contents(h', ms) == Contents(h, ns) + [h[p].elem];
  }

  lemma Appended(h0: Heap, h: Heap, ns: seq<Ptr>, p: Ptr, e: Elem)
    requires Linked(h0, ns) && p !in h0 && p != NULL && h == h0[p := Link(NULL, e)]
    ensures Linked(h, ns)
    ensures var h' := Redirected(h, ns, |ns|, p);
            && Linked(h', ns + [p]) && Contents(h', ns + [p]) == Contents(h0, ns) + [e]
            && Replaced(h0, Nodes(ns), h', Nodes(ns + [p]))
  {
    hide Contents;
    LinkedElsewhere(h0, h, ns);
    AppendedChain(h, ns, p);
    RedirectedElsewhere(h, ns, |ns|, p);
    assert Nodes(ns + [p]) == Nodes(ns) + {p};
    assert Nodes(ns) <= h0.Keys;
  }

  class Allocator {
    var heap: Heap

    constructor ()
      ensures heap == map[]
    {
      heap := map[];
    }

    /** `DbugMalloc`: any address that is not in use. */
    method Alloc(link: Link) returns (p: Ptr)
      modifies this
      ensures p != NULL && p !in old(heap) && heap == old(heap)[p := link]
    {
      FreshExists(heap);
      p :| p != NULL && p !in heap;
      heap := heap[p := link];
    }

    method Free(p: Ptr)
      requires p in heap
      modifies this
      ensures heap == old(heap) - {p}
    {
      heap := heap - {p};
    }

    method FreeList(p: Ptr, ghost ns: seq<Ptr>)
      requires Chain(heap, p, ns)
      modifies this
      ensures Replaced(old(heap), Nodes(ns), heap, {})
    {
      var linkp := p;
      ghost var rest, dead := ns, {};
      ghost var h0 := heap;
      assert Replaced(h0, {}, heap, {});
      while linkp != NULL
        invariant Chain(h0, linkp, rest)
        invariant Replaced(h0, dead, heap, {})
        invariant dead + Nodes(rest) == Nodes(ns) && dead !! Nodes(rest)
        decreases |rest|
      {
        hide Linked, Replaced;
        var old_ := linkp;
        FirstNode(h0, linkp, rest);
        StillThere(h0, dead, heap, {}, old_);
        linkp := heap[linkp].next;
        FreedOne(h0, dead, heap, {}, old_);
        Free(old_);
        dead, rest := dead + {old_}, rest[1..];
      }
      NullIsEmpty(h0, rest);
      assert dead == Nodes(ns);
    }

    /** A new node in front of a chain. */
    method Prepend(elem: Elem, p: Ptr, ghost ns: seq<Ptr>) returns (q: Ptr)
      requires Chain(heap, p, ns)
      modifies this
      ensures q != NULL && q !in old(heap) && heap == old(heap)[q := Link(p, elem)]
      ensures Chain(heap, q, [q] + ns) && Contents(heap, [q] + ns) == [elem] + old(Contents(heap, ns))
    {
      q := Alloc(Link(p, elem));
      LinkedElsewhere(old(heap), heap, ns);
      LinkedCons(heap, q, ns);
    }

    /** The copy has the elements in reverse order. */
    method ListCopy(p: Ptr, ghost ns: seq<Ptr>) returns (q: Ptr, ghost ms: seq<Ptr>)
      requires Chain(heap, p, ns)
      modifies this
      ensures Chain(heap, q, ms) && Replaced(old(heap), {}, heap, Nodes(ms))
      ensures Contents(heap, ms) == Reverse(old(Contents(heap, ns)))
    {
      hide Linked, Contents, Replaced, Reverse;
      var orig := p;
      ghost var rest, born := ns, {};
      ghost var h0 := heap;
      q, ms := NULL, [];
      EmptyChain(heap);
      while orig != NULL
        invariant Chain(h0, orig, rest)
        invariant Chain(heap, q, ms) && Replaced(h0, {}, heap, born) && born == Nodes(ms)
        invariant Reverse(Contents(h0, rest)) + Contents(heap, ms) == Reverse(Contents(h0, ns))
        decreases |rest|
      {
        FirstNode(h0, orig, rest);
        StillThere(h0, {}, heap, born, orig);
        ghost var was, h := ms, heap;
        var e := heap[orig].elem;
        q := Prepend(e, q, ms);
        AddedOne(h0, {}, h, born, q, heap[q]);
        ms, born := [q] + ms, born + {q};
        ReverseCons(e, Contents(h0, rest[1..]));
        orig := heap[orig].next;
        rest := rest[1..];
      }
      NullIsEmpty(h0, rest);
      EmptyChain(h0);
      ReverseNothing<Elem>();
    }

    /** Position of the first element that the token hits, walking the links; `prev` is the node
        before it. */
    method Search(head: Ptr, tok: string, ghost ns: seq<Ptr>) returns (prev: Ptr, cur: Ptr, ghost i: nat)
      requires Chain(heap, head, ns)
      ensures i <= |ns| && prev == (if i == 0 then NULL else ns[i - 1])
      ensures if i < |ns| then cur == ns[i] != NULL else cur == NULL
      ensures forall j :: 0 <= j < i ==> !Hits(Contents(heap, ns)[j], tok)
      ensures i < |ns| ==> Hits(Contents(heap, ns)[i], tok)
    {
      hide Hits;
      prev, cur, i := NULL, head, 0;
      while cur != NULL
        invariant i <= |ns| && prev == (if i == 0 then NULL else ns[i - 1])
        invariant cur == (if i < |ns| then ns[i] else NULL)
        invariant forall j :: 0 <= j < i ==> !Hits(Contents(heap, ns)[j], tok)
        decreases |ns| - i
      {
        assert heap[cur].elem == Contents(heap, ns)[i];
        if Hits(heap[cur].elem, tok) {
          return;
        }
        assert heap[cur].next == Next(ns, i);
        prev, cur, i := cur, heap[cur].next, i + 1;
      }
    }

    /** The body of the token loop of `ListAddDel`: one token applied to the list in place. */
    method AddTokenInPlace(head: Ptr, tok: string, todo: Todo, ghost ns: seq<Ptr>) returns (q: Ptr, ghost ms: seq<Ptr>)
      requires Chain(heap, head, ns)
      modifies this
      ensures Chain(heap, q, ms) && Replaced(old(heap), Nodes(ns), heap, Nodes(ms))
      ensures Contents(heap, ms) == AddToken(old(Contents(heap, ns)), tok, todo)
    {
      hide Linked, Contents, Replaced, AddToken, Hits;
      ghost var h0 := heap;
      var prev, cur, i := Search(head, tok, ns);
      AddTokenAt(Contents(h0, ns), i, tok, todo);
      q, ms := head, ns;
      if cur != NULL {
        assert cur in heap && heap[cur].elem == Contents(h0, ns)[i] && heap[cur].next == Next(ns, i) by {
          NodeAt(heap, ns, i);
        }
        var e := heap[cur].elem;
        if SameAction(e, todo) {
          var e' := e.(subdir := e.subdir || EndsWithSlash(tok));
          ElemChanged(heap, ns, i, e');
          heap := heap[cur := Link(heap[cur].next, e')];
        } else if todo.Exclude? {
          Unlinked(heap, ns, i);
          ms := ns[..i] + ns[i + 1..];
          q := Relink(head, prev, heap[cur].next, ns, i);
          StillAllocated(h0, ns, i);
          Free(cur);
        } else {
          var e' := e.(incl := true, subdir := e.subdir || EndsWithSlash(tok));
          ElemChanged(heap, ns, i, e');
          heap := heap[cur := Link(heap[cur].next, e')];
        }
      } else {
        var p := Alloc(Link(NULL, NewElem(tok, todo)));
        Appended(h0, heap, ns, p, NewElem(tok, todo));
        ms := ns + [p];
        q := Relink(head, prev, p, ns, i);
      }
    }

    /** `*cur = p`, where `cur` is the head variable or the previous node's link. */
    method Relink(head: Ptr, prev: Ptr, p: Ptr, ghost ns: seq<Ptr>, ghost i: nat) returns (q: Ptr)
      requires Chain(heap, head, ns) && i <= |ns| && prev == if i == 0 then NULL else ns[i - 1]
      modifies this
      ensures heap == Redirected(old(heap), ns, i, p) && q == if i == 0 then p else head
    {
      q := head;
      if prev == NULL {
        q := p;
      } else {
        heap := heap[prev := Link(p, heap[prev].elem)];
      }
    }

    /** `ListAddDel`: every token of the modifier list in turn. */
    method ListAddDelInPlace(head: Ptr, text: string, todo: Todo, ghost ns: seq<Ptr>) returns (q: Ptr, ghost ms: seq<Ptr>)
      requires Chain(heap, head, ns)
      modifies this
      ensures Chain(heap, q, ms) && Replaced(old(heap), Nodes(ns), heap, Nodes(ms))
      ensures Contents(heap, ms) == ListAddDel(old(Contents(heap, ns)), text, todo)
    {
      hide Linked, Contents, Replaced, AddToken, ListAddDel, Pattern;
      ghost var h0 := heap;
      q, ms := head, ns;
      SelfReplaced(heap, ns);
      var i := 0;
      assert text[0..] == text;
      while i < |text|
        invariant 0 <= i <= |text| + 1
        invariant Chain(heap, q, ms) && Replaced(h0, Nodes(ns), heap, Nodes(ms))
        invariant ListAddDel(Contents(heap, ms), Rest(text, i), todo) == ListAddDel(Contents(h0, ns), text, todo)
      {
        var start := i;
        while i < |text| && text[i] != ','
          invariant start <= i <= |text|
          invariant forall j :: start <= j < i ==> text[j] != ','
        {
          i := i + 1;
        }
        var tok := text[start..i];
        ListAddDelAt(Contents(heap, ms), text, start, i, todo);
        if Pattern(tok) != "" {
          ghost var h1, ks := heap, ms;
          q, ms := AddTokenInPlace(q, tok, todo, ms);
          ReplacedTwice(h0, Nodes(ns), h1, Nodes(ks), heap, Nodes(ms));
        }
        i := i + 1;
      }
      assert Rest(text, i) == "";
      ListAddDelNothing(Contents(heap, ms), todo);
    }
  }

  lemma NodeAt(h: Heap, ns: seq<Ptr>, i: nat)
    requires Linked(h, ns) && i < |ns|
    ensures ns[i] in h && h[ns[i]].elem == Contents(h, ns)[i] && h[ns[i]].next == Next(ns, i)
  {
  }

  lemma StillAllocated(h: Heap, ns: seq<Ptr>, i: nat)
    requires Linked(h, ns) && i < |ns|
    ensures ns[i] in Redirected(h, ns, i, Next(ns, i))
  {
  }

  lemma SelfReplaced(h: Heap, ns: seq<Ptr>)
    requires Linked(h, ns)
    ensures Replaced(h, Nodes(ns), h, Nodes(ns))
  {
  }

  lemma {:induction false} TokenEndAt(text: string, start: nat, i: nat)
    requires start <= i <= |text| && forall j :: start <= j < i ==> text[j] != ','
    requires i < |text| ==> text[i] == ','
    ensures TokenEnd(text[start..]) == i - start
    decreases i - start
  {
    if start < i {
      TokenEndAt(text, start + 1, i);
      assert text[start..][1..] == text[start + 1..];
    }
  }

  function Rest(text: string, i: nat): string { if i <= |text| then text[i..] else "" }

  lemma ListAddDelAt(list: seq<Elem>, text: string, start: nat, i: nat, todo: Todo)
    requires start < |text| && start <= i <= |text| && forall j :: start <= j < i ==> text[j] != ','
    requires i < |text| ==> text[i] == ','
    ensures var tok := text[start..i];
            ListAddDel(list, Rest(text, start), todo) ==
            ListAddDel(if Pattern(tok) == "" then list else AddToken(list, tok, todo), Rest(text, i + 1), todo)
  {
    hide AddToken, TokenEnd, Pattern;
    TokenEndAt(text, start, i);
    assert text[start..][..i - start] == text[start..i];
    if i < |text| {
      assert text[start..][i - start + 1..] == text[i + 1..];
    }
  }

  lemma ListAddDelNothing(list: seq<Elem>, todo: Todo)
    ensures ListAddDel(list, "", todo) == list
  {
  }

  lemma ReverseNothing<T>()
    ensures Reverse<T>([]) == []
  {
  }
}
