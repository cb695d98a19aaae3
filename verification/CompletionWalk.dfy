/** `new_command_generator`: one word per call, from a prefix or, on empty text, from a walk over the
    whole table. */
module CompletionWalk {
  import opened Completion

  datatype Option = None | Some(word: string)

  /** The buckets of the chains from `i` on. */
  function FlatFrom(chains: seq<seq<Bucket>>, i: nat): seq<Bucket>
    decreases |chains| - i
  {
    if i >= |chains| then [] else chains[i] + FlatFrom(chains, i + 1)
  }

  /** The entries as long as the key, that is, the ones equal to it. */
  function Whole(entries: seq<string>, n: nat): seq<string> {
    if entries == [] then []
    else (if |entries[0]| == n then [entries[0]] else []) + Whole(entries[1..], n)
  }

  function Emitted(bs: seq<Bucket>): seq<string> {
    if bs == [] then [] else Whole(bs[0].entries, bs[0].keyLen) + Emitted(bs[1..])
  }

  // ----- what the walk emits

  predicate AllHave(entries: seq<string>, key: string) { forall j :: 0 <= j < |entries| ==> key <= entries[j] }

  lemma {:induction false} WholeCount(entries: seq<string>, key: string, w: string)
    requires AllHave(entries, key)
    ensures multiset(Whole(entries, |key|))[w] == if w == key then multiset(entries)[w] else 0
  {
    if entries == [] {
    } else {
      assert entries == [entries[0]] + entries[1..];
      WholeCount(entries[1..], key, w);
      assert key <= entries[0];
      assert |entries[0]| == |key| <==> entries[0] == key;
    }
  }

  ghost predicate Distinct(bs: seq<Bucket>) {
    forall j, k :: 0 <= j < k < |bs| ==> bs[j].Key() != bs[k].Key()
  }

  /** Each bucket holds words that extend its key. */
  predicate Sound(bs: seq<Bucket>) {
    forall j :: 0 <= j < |bs| ==> bs[j].keyLen == |bs[j].Key()| && AllHave(bs[j].entries, bs[j].Key())
  }

  /** A word comes out of its own bucket only, as often as it is there. */
  lemma {:induction false} EmittedCount(bs: seq<Bucket>, w: string)
    requires Distinct(bs) && Sound(bs)
    ensures !Has(bs, w) ==> multiset(Emitted(bs))[w] == 0
    ensures forall j :: 0 <= j < |bs| && bs[j].Key() == w ==> multiset(Emitted(bs))[w] == multiset(bs[j].entries)[w]
  {
    if bs == [] {
    } else {
      var rest := bs[1..];
      assert forall k :: 0 <= k < |rest| ==> rest[k] == bs[k + 1];
      EmittedCount(rest, w);
      WholeCount(bs[0].entries, bs[0].Key(), w);
      assert multiset(Emitted(bs))[w] == multiset(Whole(bs[0].entries, bs[0].keyLen))[w] + multiset(Emitted(rest))[w];
      forall j | 0 <= j < |bs| && bs[j].Key() == w
        ensures multiset(Emitted(bs))[w] == multiset(bs[j].entries)[w]
      {
        assert j > 0 ==> rest[j - 1].Key() == w;
      }
    }
  }

  ghost predicate ChainsOk(chains: seq<seq<Bucket>>, index: map<string, Slot>, hash: string -> nat) {
    forall i :: 0 <= i < |chains| ==> ChainOk(chains[i], i, |chains|, index, hash)
  }

  ghost predicate FromHere(b: Bucket, i: nat, size: nat, index: map<string, Slot>, hash: string -> nat)
    requires size > 0
  {
    BucketOk(b, index, hash) && i <= hash(b.Key()) % size
  }

  /** The walk meets every bucket of the table, each key once. */
  lemma {:induction false} FlatOk(chains: seq<seq<Bucket>>, i: nat, index: map<string, Slot>, hash: string -> nat)
    requires chains != [] && ChainsOk(chains, index, hash)
    ensures var bs := FlatFrom(chains, i);
            Distinct(bs) && forall k :: 0 <= k < |bs| ==> FromHere(bs[k], i, |chains|, index, hash)
    decreases |chains| - i
  {
    if i >= |chains| {
    } else {
      FlatOk(chains, i + 1, index, hash);
      var c, rest := chains[i], FlatFrom(chains, i + 1);
      assert ChainOk(c, i, |chains|, index, hash);
      var bs := c + rest;
      forall k | 0 <= k < |bs|
        ensures FromHere(bs[k], i, |chains|, index, hash)
      {
        assert k >= |c| ==> bs[k] == rest[k - |c|] && FromHere(rest[k - |c|], i + 1, |chains|, index, hash);
      }
      forall j, k | 0 <= j < k < |bs|
        ensures bs[j].Key() != bs[k].Key()
      {
        if j < |c| <= k {
          assert FromHere(rest[k - |c|], i + 1, |chains|, index, hash);
        }
      }
    }
  }

  lemma {:induction false} FlatHas(chains: seq<seq<Bucket>>, i: nat, c: nat, key: string)
    requires i <= c < |chains| && Has(chains[c], key)
    ensures Has(FlatFrom(chains, i), key)
    decreases |chains| - i
  {
    if i == c {
      var j :| 0 <= j < |chains[c]| && chains[c][j].Key() == key;
      assert FlatFrom(chains, i)[j].Key() == key;
    } else {
      FlatHas(chains, i + 1, c, key);
      var j :| 0 <= j < |FlatFrom(chains, i + 1)| && FlatFrom(chains, i + 1)[j].Key() == key;
      assert FlatFrom(chains, i)[|chains[i]| + j].Key() == key;
    }
  }

  lemma {:induction false} MatchingMultiset(words: seq<string>, w: string)
    ensures multiset(Matching(words, w))[w] == multiset(words)[w]
    decreases |words|
  {
    if words == [] {
    } else {
      MatchingMultiset(words[..|words| - 1], w);
      assert words == words[..|words| - 1] + [words[|words| - 1]];
    }
  }

  /** The walk gives back each word once per time it was added, except the empty word. */
  lemma WalkIsTheWords(table: HashTable, w: string)
    requires table.Current()
    ensures multiset(Emitted(FlatFrom(table.buckets[..], 0)))[w] == if w == "" then 0 else multiset(table.words)[w]
  {
    var chains, bs := table.buckets[..], FlatFrom(table.buckets[..], 0);
    FlatOk(chains, 0, table.index, table.hash);
    assert Sound(bs) by {
      forall j | 0 <= j < |bs|
        ensures bs[j].keyLen == |bs[j].Key()| && AllHave(bs[j].entries, bs[j].Key())
      {
        assert FromHere(bs[j], 0, |chains|, table.index, table.hash);
        IndexMeaning(table.words, bs[j].Key());
        forall k | 0 <= k < |bs[j].entries|
          ensures bs[j].Key() <= bs[j].entries[k]
        {
          MatchingHas(table.words, bs[j].Key(), bs[j].entries[k]);
        }
      }
    }
    EmittedCount(bs, w);
    IndexMeaning(table.words, w);
    MatchingMultiset(table.words, w);
    if w in table.index {
      FlatHas(chains, 0, table.hash(w) % table.size, w);
      var j :| 0 <= j < |bs| && bs[j].Key() == w;
      assert FromHere(bs[j], 0, |chains|, table.index, table.hash);
    } else {
      forall j | 0 <= j < |bs|
        ensures bs[j].Key() != w
      {
        assert FromHere(bs[j], 0, |chains|, table.index, table.hash);
      }
    }
  }

  // ----- the generator

  ghost predicate AllUsed(chain: seq<Bucket>) { forall j :: 0 <= j < |chain| ==> chain[j].entries != [] }

  /** Static cursors: the rest of the chain from the current bucket, the entries left in it, and the
      chain's number. */
  class Generator {
    const table: HashTable
    var textLen: nat
    var chain: seq<Bucket>
    var entry: seq<string>
    var i: nat

    ghost predicate Valid()
      reads this, table, table.buckets
    {
      && table.Current() && (textLen == 0 && entry != [] ==> i < table.size && chain != [] && AllUsed(chain))
      && (entry != [] ==> UsedFrom(table, 0))
    }

    /** What the walk has still to emit. */
    ghost function Walking(): seq<string>
      reads this, table, table.buckets
    {
      if entry == [] || chain == [] then []
      else Whole(entry, chain[0].keyLen) + Emitted(chain[1..] + FlatFrom(table.buckets[..], i + 1))
    }

    ghost function Pending(): seq<string>
      reads this, table, table.buckets
    {
      if textLen > 0 then entry else Walking()
    }

    constructor (table: HashTable)
      requires table.Current()
      ensures this.table == table && Valid() && Pending() == []
    {
      this.table := table;
      textLen, chain, entry, i := 0, [], [], 0;
    }

    method FirstUsed(from: nat) returns (k: nat)
      requires table.Current() && from <= table.size
      ensures table.size == table.buckets.Length && from <= k <= table.size
      ensures k < table.size ==> table.buckets[k] != [] && AllUsed(table.buckets[k])
      ensures UsedFrom(table, from) <==> k < table.size
      ensures FlatFrom(table.buckets[..], k) == FlatFrom(table.buckets[..], from)
    {
      assert table.size == table.buckets.Length;
      hide FlatFrom, HashTable.Current;
      k := from;
      while k < table.size && table.buckets[k] == []
        invariant from <= k <= table.size
        invariant forall c :: from <= c < k ==> table.buckets[c] == []
        invariant FlatFrom(table.buckets[..], k) == FlatFrom(table.buckets[..], from)
      {
        FlatSkip(table.buckets[..], k);
        k := k + 1;
      }
      if k < table.size {
        UsedChain(table, k);
      }
    }

    lemma WalkingHere()
      ensures Walking() == if entry == [] || chain == [] then []
                           else Whole(entry, chain[0].keyLen) + Emitted(chain[1..] + FlatFrom(table.buckets[..], i + 1))
    {
    }

    /** To the first used bucket from chain `from` on; the cursors stay if there is none. */
    method Seek(from: nat)
      requires table.Current() && textLen == 0 && from <= table.size && (entry != [] ==> UsedFrom(table, from))
      modifies this`i, this`chain, this`entry
      ensures from <= i <= table.size && table.Current()
      ensures entry != [] ==> i < table.size && chain != [] && AllUsed(chain) && UsedFrom(table, from)
      ensures Walking() == Emitted(FlatFrom(table.buckets[..], from))
    {
      hide *;
      i := FirstUsed(from);
      if i < table.size {
        chain := table.buckets[i];
        entry := chain[0].entries;
        EmitFirst(table.buckets[..], i);
      } else {
        EmitNothing(table.buckets[..], i);
      }
      WalkingHere();
    }

    /** To the next used entry. */
    method Advance()
      requires Valid() && textLen == 0 && entry != []
      modifies this`i, this`chain, this`entry
      ensures Valid()
      ensures old(Walking()) == (if |old(entry[0])| == old(chain[0].keyLen) then [old(entry[0])] else []) + Walking()
      ensures i > old(i) || (i == old(i) && (|chain| < |old(chain)| || (|chain| == |old(chain)| && |entry| < |old(entry)|)))
    {
      hide FlatFrom, Emitted, Whole, HashTable.Current, AllUsed, Walking;
      ghost var e, b, rest := entry, chain[0], chain[1..] + FlatFrom(table.buckets[..], i + 1);
      WalkingHere();
      WholeStep(e, b.keyLen, Emitted(rest));
      entry := entry[1..];
      if entry == [] {
        UsedRest(chain);
        chain := chain[1..];
        if chain == [] {
          assert rest == FlatFrom(table.buckets[..], i + 1);
          Seek(i + 1);
        } else {
          entry := chain[0].entries;
          EmitHead(chain, FlatFrom(table.buckets[..], i + 1));
        }
      }
      WalkingHere();
    }

    /** One call in the walk over the whole table. */
    method NextInWalk() returns (r: Option)
      requires Valid() && textLen == 0
      modifies this`i, this`chain, this`entry
      ensures Valid()
      ensures old(Walking()) == [] ==> r == None && Walking() == []
      ensures old(Walking()) != [] ==> r == Some(old(Walking())[0]) && Walking() == old(Walking())[1..]
    {
      r := None;
      ghost var all := Walking();
      while entry != [] && r == None
        invariant Valid()
        invariant r == None ==> Walking() == all
        invariant r != None ==> all == [r.word] + Walking()
        decreases table.size - i, |chain|, |entry|
      {
        hide *;
        var word, b := entry[0], chain[0];
        Advance();
        if |word| == b.keyLen {
          r := Some(word);
        }
      }
    }

    /** What a completion starting now will list. */
    ghost function Listing(text: string): seq<string>
      reads table, table.buckets
    {
      if text == "" then Emitted(FlatFrom(table.buckets[..], 0)) else Matching(table.words, text)
    }

    /** `new_command_generator` */
    method Generate(text: string, first: bool) returns (r: Option)
      requires Valid()
      modifies this
      ensures Valid()
      ensures var all := if first then Listing(text) else old(Pending());
              if all == [] then r == None && (!first ==> Pending() == [])
              else r == Some(all[0]) && Pending() == all[1..]
    {
      hide FlatFrom, Emitted, Whole, HashTable.Current, AllUsed, Walking, Matching;
      r := None;
      if first {
        textLen := |text|;
      }
      if textLen > 0 {
        if first {
          var found, b, _ := table.FindAllMatches(text);
          MatchingSome(table.words, text);
          if !found {
            return;
          }
          entry := b.entries;
          UsedByPrefix(table, text);
        }
        if entry != [] {
          r := Some(entry[0]);
          entry := entry[1..];
        }
      } else {
        if first {
          Seek(0);
        }
        r := NextInWalk();
      }
    }
  }

  lemma UsedByPrefix(table: HashTable, text: string)
    requires table.Current() && text != "" && exists w :: w in table.words && text <= w
    ensures UsedFrom(table, 0)
  {
    var w :| w in table.words && text <= w;
    UsedByWord(table, w);
  }

  lemma UsedByWord(table: HashTable, w: string)
    requires table.Current() && w in table.words && w != ""
    ensures UsedFrom(table, 0)
  {
    IndexMeaning(table.words, w);
    MatchingHas(table.words, w, w);
    assert Has(table.buckets[table.hash(w) % table.size], w);
  }

  /** The loop of the line editor: it asks until there is no more. */
  method ListAll(generator: Generator, text: string) returns (list: seq<string>)
    requires generator.Valid()
    modifies generator
    ensures list == old(generator.Listing(text))
  {
    hide *;
    ghost var all := generator.Listing(text);
    var r := generator.Generate(text, true);
    list := [];
    while r != None
      invariant generator.Valid()
      invariant r == None ==> list == all
      invariant r != None ==> list + [r.word] + generator.Pending() == all
      decreases |all| - |list|, r != None
    {
      list := list + [r.word];
      r := generator.Generate(text, false);
    }
  }

  /** A prefix gives the added words that have it, newest first; empty text gives every non-empty
      word, as often as it was added. */
  method Complete(table: HashTable, text: string) returns (list: seq<string>)
    requires table.Current()
    ensures text != "" ==> list == Matching(table.words, text)
    ensures text == "" ==> forall w :: multiset(list)[w] == if w == "" then 0 else multiset(table.words)[w]
  {
    if text == "" {
      forall w {
        WalkIsTheWords(table, w);
      }
    }
    hide HashTable.Current, Generator.Walking, Emitted, FlatFrom, Matching, UsedFrom;
    var generator := new Generator(table);
    list := ListAll(generator, text);
  }

  lemma WholeStep(entries: seq<string>, n: nat, more: seq<string>)
    requires entries != []
    ensures Whole(entries, n) + more == (if |entries[0]| == n then [entries[0]] else []) + (Whole(entries[1..], n) + more)
    ensures Whole([], n) + more == more
  {
  }

  lemma UsedRest(chain: seq<Bucket>)
    requires chain != [] && AllUsed(chain)
    ensures AllUsed(chain[1..]) && (chain[1..] != [] ==> chain[1].entries != [])
  {
  }

  lemma EmitHead(chain: seq<Bucket>, rest: seq<Bucket>)
    requires chain != []
    ensures Emitted(chain + rest) == Whole(chain[0].entries, chain[0].keyLen) + Emitted(chain[1..] + rest)
  {
    assert (chain + rest)[1..] == chain[1..] + rest;
  }

  ghost predicate UsedFrom(table: HashTable, from: nat)
    reads table.buckets
  {
    exists c :: from <= c < table.buckets.Length && table.buckets[c] != []
  }

  lemma FlatSkip(chains: seq<seq<Bucket>>, i: nat)
    requires i < |chains| && chains[i] == []
    ensures FlatFrom(chains, i + 1) == FlatFrom(chains, i)
  {
  }

  lemma EmitFirst(chains: seq<seq<Bucket>>, i: nat)
    requires i < |chains| && chains[i] != [] && AllUsed(chains[i])
    ensures chains[i][0].entries != []
    ensures Emitted(FlatFrom(chains, i)) ==
            Whole(chains[i][0].entries, chains[i][0].keyLen) + Emitted(chains[i][1..] + FlatFrom(chains, i + 1))
  {
    assert FlatFrom(chains, i) == chains[i] + FlatFrom(chains, i + 1);
    assert (chains[i] + FlatFrom(chains, i + 1))[1..] == chains[i][1..] + FlatFrom(chains, i + 1);
  }

  lemma EmitNothing(chains: seq<seq<Bucket>>, i: nat)
    requires i >= |chains|
    ensures Emitted(FlatFrom(chains, i)) == []
  {
  }

  lemma UsedChain(table: HashTable, i: nat)
    requires table.Current() && i < table.size
    ensures AllUsed(table.buckets[i])
  {
    assert ChainOk(table.buckets[i], i, table.size, table.index, table.hash);
  }
}
