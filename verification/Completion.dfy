/** The completion index of the command-line client: a chained hash with one bucket for every prefix
    of every added word. The hash function is arbitrary. */
module Completion {

  /** `word` is the key pointer of the source: the bucket's key is its first `keyLen` characters. */
  datatype Bucket = Bucket(h: nat, word: string, keyLen: nat, count: nat, entries: seq<string>) {
    function Key(): string { if keyLen <= |word| then word[..keyLen] else "" }
  }

  // ----- what the index means

  /** What is stored for one key: the word it was first added for, and its words, newest first. */
  datatype Slot = Slot(first: string, entries: seq<string>)

  function Put(index: map<string, Slot>, key: string, word: string, str: string): map<string, Slot> {
    index[key := if key in index then Slot(index[key].first, [str] + index[key].entries) else Slot(word, [str])]
  }

  /** The first `n` prefixes of a word. */
  function PutPrefixes(index: map<string, Slot>, word: string, n: nat): map<string, Slot>
    requires n <= |word|
  {
    if n == 0 then index else Put(PutPrefixes(index, word, n - 1), word[..n], word, word)
  }

  function IndexOf(words: seq<string>): map<string, Slot> {
    if words == [] then map[]
    else
      var last := words[|words| - 1];
      PutPrefixes(IndexOf(words[..|words| - 1]), last, |last|)
  }

  /** The plain list search: the added words with the prefix, newest first. */
  function Matching(words: seq<string>, key: string): seq<string> {
    if words == [] then []
    else
      var last := words[|words| - 1];
      (if key <= last then [last] else []) + Matching(words[..|words| - 1], key)
  }

  lemma {:induction false} PrefixesPut(index: map<string, Slot>, word: string, n: nat, key: string)
    requires n <= |word|
    ensures var put := PutPrefixes(index, word, n);
            if 0 < |key| <= n && key <= word then
              key in put && put[key] == (if key in index then Slot(index[key].first, [word] + index[key].entries) else Slot(word, [word]))
            else (key in put <==> key in index) && (key in index ==> put[key] == index[key])
    decreases n
  {
    if n == 0 {
    } else {
      PrefixesPut(index, word, n - 1, key);
      assert key <= word && |key| == n <==> key == word[..n];
    }
  }

  /** The key is there exactly when it is not empty and has words; it lists them, and was opened for
      the oldest. */
  predicate Means(index: map<string, Slot>, key: string, matches: seq<string>) {
    && (key in index <==> key != "" && matches != [])
    && (key in index ==> index[key].entries == matches && index[key].first == matches[|matches| - 1])
  }

  lemma MeansStep(index: map<string, Slot>, word: string, key: string, matches: seq<string>)
    requires Means(index, key, matches)
    ensures Means(PutPrefixes(index, word, |word|), key, (if key <= word then [word] else []) + matches)
  {
    PrefixesPut(index, word, |word|, key);
    hide PutPrefixes;
    assert [] + matches == matches;
  }

  /** The index holds a key exactly when it is a non-empty prefix of an added word; it lists those
      words, newest first, and was opened for the oldest of them. */
  lemma {:induction false} IndexMeaning(words: seq<string>, key: string)
    ensures Means(IndexOf(words), key, Matching(words, key))
    decreases |words|
  {
    if words == [] {
    } else {
      hide Means;
      IndexMeaning(words[..|words| - 1], key);
      MeansStep(IndexOf(words[..|words| - 1]), words[|words| - 1], key, Matching(words[..|words| - 1], key));
    }
  }

  lemma {:induction false} MatchingHas(words: seq<string>, key: string, w: string)
    ensures w in Matching(words, key) <==> w in words && key <= w
    decreases |words|
  {
    if words == [] {
    } else {
      assert words == words[..|words| - 1] + [words[|words| - 1]];
      MatchingHas(words[..|words| - 1], key, w);
    }
  }

  /** A longer key has as many words only if it has the same ones. */
  lemma {:induction false} MatchingCount(words: seq<string>, short: string, long: string)
    requires short <= long
    ensures |Matching(words, long)| <= |Matching(words, short)|
    ensures |Matching(words, long)| == |Matching(words, short)| <==> AllExtend(words, short, long)
    decreases |words|
  {
    if words == [] {
    } else {
      var last, front := words[|words| - 1], words[..|words| - 1];
      assert words == front + [last];
      MatchingCount(front, short, long);
      AllExtendSnoc(front, last, short, long);
      assert long <= last ==> short == last[..|short|];
    }
  }

  /** Every word with the short prefix has the long one. */
  predicate AllExtend(words: seq<string>, short: string, long: string) {
    forall w :: w in words && short <= w ==> long <= w
  }

  lemma AllExtendSnoc(front: seq<string>, last: string, short: string, long: string)
    ensures AllExtend(front + [last], short, long) <==> AllExtend(front, short, long) && (short <= last ==> long <= last)
  {
    var words := front + [last];
    assert last == words[|front|];
    assert last in words && forall w :: w in words <==> w in front || w == last;
  }

  lemma AllExtendSelf(words: seq<string>, str: string)
    ensures AllExtend(words, str, str)
  {
  }

  lemma MatchingSome(words: seq<string>, str: string)
    ensures Matching(words, str) != [] <==> exists w :: w in words && str <= w
  {
    if Matching(words, str) != [] {
      MatchingHas(words, str, Matching(words, str)[0]);
    }
    if w :| w in words && str <= w {
      MatchingHas(words, str, w);
    }
  }

  function Oldest(matches: seq<string>): string
    requires matches != []
  {
    matches[|matches| - 1]
  }

  lemma {:induction false} OldestIsFirst(words: seq<string>, key: string, i: nat)
    requires i < |words| && key <= words[i] && forall j :: 0 <= j < i ==> !(key <= words[j])
    ensures Matching(words, key) != [] && Oldest(Matching(words, key)) == words[i]
    decreases |words|
  {
    var front := words[..|words| - 1];
    if i == |words| - 1 {
      MatchingSome(front, key);
      assert Matching(front, key) == [];
    } else {
      OldestIsFirst(front, key, i);
    }
  }

  /** An added word is not reported as present when a longer word with it as prefix came first. */
  lemma AddedButNotReported()
    ensures var words := ["ab", "a"];
            "a" in words && Matching(words, "a") != [] && Oldest(Matching(words, "a")) != "a"
  {
    OldestIsFirst(["ab", "a"], "a", 0);
    assert ["ab", "a"][1] == "a";
  }

  /** The longest prefix shared by all the words that extend `str`. */
  ghost predicate IsLongestCommon(words: seq<string>, str: string, p: string) {
    str <= p && AllExtend(words, str, p) && forall q :: AllExtend(words, str, q) ==> q <= p
  }

  lemma ShorterExtends(words: seq<string>, str: string, q: string, k: nat)
    requires AllExtend(words, str, q) && k <= |q|
    ensures AllExtend(words, str, q[..k])
  {
    forall w | w in words && str <= w
      ensures q[..k] <= w
    {
      assert q == w[..|q|];
    }
  }

  lemma LongestStop(words: seq<string>, str: string, s: string, n: nat)
    requires s in words && str <= s && |str| <= n <= |s| && AllExtend(words, str, s[..n])
    requires n < |s| ==> !AllExtend(words, str, s[..n + 1])
    ensures IsLongestCommon(words, str, s[..n])
  {
    forall q | AllExtend(words, str, q)
      ensures q <= s[..n]
    {
      var k := if |q| <= n then |q| else n + 1;
      ShorterExtends(words, str, q, k);
      assert q[..k] == s[..k];
    }
  }

  // ----- chains

  ghost predicate BucketOk(b: Bucket, index: map<string, Slot>, hash: string -> nat) {
    && 0 < b.keyLen <= |b.word| && b.h == hash(b.Key())
    && b.Key() in index && index[b.Key()] == Slot(b.word, b.entries) && b.count == |b.entries| > 0
  }

  predicate Has(chain: seq<Bucket>, key: string) { exists j :: 0 <= j < |chain| && chain[j].Key() == key }

  /** The chain holds right buckets, all of this chain, no key twice. */
  ghost predicate ChainOk(chain: seq<Bucket>, i: nat, size: nat, index: map<string, Slot>, hash: string -> nat)
    requires size > 0
  {
    && (forall j :: 0 <= j < |chain| ==> BucketOk(chain[j], index, hash) && hash(chain[j].Key()) % size == i)
    && (forall j, k :: 0 <= j < k < |chain| ==> chain[j].Key() != chain[k].Key())
  }

  function Raised(chain: seq<Bucket>, j: nat, str: string): seq<Bucket>
    requires j < |chain|
  {
    chain[j := chain[j].(entries := [str] + chain[j].entries, count := chain[j].count + 1)]
  }

  lemma KeyChanged(b: Bucket, index: map<string, Slot>, hash: string -> nat, key: string, word: string, str: string)
    requires BucketOk(b, index, hash)
    ensures b.Key() != key ==> BucketOk(b, Put(index, key, word, str), hash)
    ensures b.Key() == key ==> BucketOk(b.(entries := [str] + b.entries, count := b.count + 1), Put(index, key, word, str), hash)
  {
  }

  lemma KeysRaised(chain: seq<Bucket>, j: nat, str: string)
    requires j < |chain|
    ensures forall k :: 0 <= k < |chain| ==> Raised(chain, j, str)[k].Key() == chain[k].Key()
  {
  }

  lemma RaisedOk(chain: seq<Bucket>, i: nat, size: nat, index: map<string, Slot>, hash: string -> nat, j: nat, word: string, str: string)
    requires size > 0 && ChainOk(chain, i, size, index, hash) && j < |chain|
    ensures ChainOk(Raised(chain, j, str), i, size, Put(index, chain[j].Key(), word, str), hash)
  {
    var after := Raised(chain, j, str);
    KeysRaised(chain, j, str);
    forall k | 0 <= k < |chain|
      ensures BucketOk(after[k], Put(index, chain[j].Key(), word, str), hash)
    {
      KeyChanged(chain[k], index, hash, chain[j].Key(), word, str);
    }
  }

  /** A chain without the key does not notice. */
  lemma AwayOk(chain: seq<Bucket>, i: nat, size: nat, index: map<string, Slot>, hash: string -> nat, key: string, word: string, str: string)
    requires size > 0 && ChainOk(chain, i, size, index, hash) && !Has(chain, key)
    ensures ChainOk(chain, i, size, Put(index, key, word, str), hash)
  {
    forall k | 0 <= k < |chain|
      ensures BucketOk(chain[k], Put(index, key, word, str), hash)
    {
      KeyChanged(chain[k], index, hash, key, word, str);
    }
  }

  lemma PrependedOk(chain: seq<Bucket>, i: nat, size: nat, index: map<string, Slot>, hash: string -> nat, word: string, n: nat, str: string)
    requires size > 0 && ChainOk(chain, i, size, index, hash) && 0 < n <= |word|
    requires word[..n] !in index && hash(word[..n]) % size == i
    ensures ChainOk([Bucket(hash(word[..n]), word, n, 1, [str])] + chain, i, size, Put(index, word[..n], word, str), hash)
  {
    AwayOk(chain, i, size, index, hash, word[..n], word, str);
  }

  predicate Keeps(chain: seq<Bucket>, after: seq<Bucket>) {
    forall j :: 0 <= j < |chain| ==> Has(after, chain[j].Key())
  }

  lemma StillHas(chain: seq<Bucket>, after: seq<Bucket>, d: nat)
    requires |after| == |chain| + d && forall j :: 0 <= j < |chain| ==> after[j + d].Key() == chain[j].Key()
    ensures Keeps(chain, after)
  {
  }

  /** The chain after one more word for the key of its bucket `j`, or for a key it did not have. */
  lemma AfterRaise(chain: seq<Bucket>, i: nat, size: nat, index: map<string, Slot>, hash: string -> nat, j: nat, word: string, str: string)
    requires size > 0 && ChainOk(chain, i, size, index, hash) && j < |chain|
    ensures var after := Raised(chain, j, str);
            ChainOk(after, i, size, Put(index, chain[j].Key(), word, str), hash) && Has(after, chain[j].Key()) && Keeps(chain, after)
  {
    hide ChainOk, Put, BucketOk;
    RaisedOk(chain, i, size, index, hash, j, word, str);
    KeysRaised(chain, j, str);
    StillHas(chain, Raised(chain, j, str), 0);
  }

  lemma AfterPrepend(chain: seq<Bucket>, i: nat, size: nat, index: map<string, Slot>, hash: string -> nat, word: string, n: nat, str: string)
    requires size > 0 && ChainOk(chain, i, size, index, hash) && 0 < n <= |word|
    requires word[..n] !in index && hash(word[..n]) % size == i
    ensures var after := [Bucket(hash(word[..n]), word, n, 1, [str])] + chain;
            ChainOk(after, i, size, Put(index, word[..n], word, str), hash) && Has(after, word[..n]) && Keeps(chain, after)
  {
    hide ChainOk, Put, BucketOk;
    PrependedOk(chain, i, size, index, hash, word, n, str);
    var after := [Bucket(hash(word[..n]), word, n, 1, [str])] + chain;
    StillHas(chain, after, 1);
    assert after[0].Key() == word[..n];
  }

  lemma OtherChainLacks(chain: seq<Bucket>, i: nat, size: nat, index: map<string, Slot>, hash: string -> nat, key: string)
    requires size > 0 && ChainOk(chain, i, size, index, hash) && hash(key) % size != i
    ensures !Has(chain, key)
  {
  }

  lemma KeyInIndex(chain: seq<Bucket>, i: nat, size: nat, index: map<string, Slot>, hash: string -> nat, j: nat)
    requires size > 0 && ChainOk(chain, i, size, index, hash) && j < |chain|
    ensures chain[j].Key() in index && index[chain[j].Key()] == Slot(chain[j].word, chain[j].entries)
    ensures chain[j].h == hash(chain[j].Key()) && chain[j].keyLen == |chain[j].Key()| > 0 && chain[j].count == |chain[j].entries| > 0
  {
  }

  // ----- the table

  class HashTable {
    const size: nat
    const hash: string -> nat
    const buckets: array<seq<Bucket>>
    /** what is stored under each key */
    ghost var index: map<string, Slot>
    /** the words added so far */
    ghost var words: seq<string>

    ghost predicate Valid()
      reads this`index, buckets
    {
      && size == buckets.Length > 0
      && (forall i :: 0 <= i < size ==> ChainOk(buckets[i], i, size, index, hash))
      && (forall key :: key in index ==> Has(buckets[hash(key) % size], key))
    }

    /** Between calls the index is that of the added words. */
    ghost predicate Current()
      reads this, buckets
    {
      Valid() && index == IndexOf(words)
    }

    constructor (size: nat, hash: string -> nat)
      requires size > 0
      ensures this.size == size && this.hash == hash && fresh(buckets) && Current() && words == []
    {
      this.size, this.hash := size, hash;
      buckets := new seq<Bucket>[size](i => []);
      index, words := map[], [];
    }

    /** The walk along a chain, up to the bucket of the key. */
    method Walk(key: string) returns (i: nat, j: nat)
      requires Valid()
      ensures size == buckets.Length && i < size && i == hash(key) % size && j <= |buckets[i]|
      ensures j < |buckets[i]| <==> key in index
      ensures j < |buckets[i]| ==> buckets[i][j].Key() == key
    {
      var h := hash(key);
      i := h % size;
      var chain := buckets[i];
      assert ChainOk(chain, i, size, index, hash);
      assert key in index ==> Has(chain, key);
      hide ChainOk;
      j := 0;
      while j < |chain| && !(chain[j].h == h && chain[j].keyLen == |key| && chain[j].Key() == key)
        invariant j <= |chain| && forall k :: 0 <= k < j ==> chain[k].Key() != key
      {
        KeyInIndex(chain, i, size, index, hash, j);
        j := j + 1;
      }
      if j < |chain| {
        KeyInIndex(chain, i, size, index, hash, j);
      }
    }

    /** Replaces the chain of a key by one that is right for the new index. */
    method Store(i: nat, chain: seq<Bucket>, ghost key: string, ghost word: string, ghost str: string)
      requires Valid() && i < buckets.Length && hash(key) % size == i
      requires ChainOk(chain, i, size, Put(index, key, word, str), hash) && Has(chain, key) && Keeps(buckets[i], chain)
      modifies this`index, buckets
      ensures Valid() && index == Put(old(index), key, word, str)
    {
      ghost var after := Put(index, key, word, str);
      forall c | 0 <= c < size && c != i
        ensures ChainOk(buckets[c], c, size, after, hash)
      {
        OtherChainLacks(buckets[c], c, size, index, hash, key);
        AwayOk(buckets[c], c, size, index, hash, key, word, str);
      }
      hide ChainOk, Has;
      buckets[i] := chain;
      index := after;
    }

    /** `completion_hash_update` */
    method Update(arKey: string, n: nat, str: string) returns (ok: bool)
      requires Valid() && n <= |arKey|
      modifies this`index, buckets
      ensures Valid() && ok == (n > 0)
      ensures index == if ok then Put(old(index), arKey[..n], arKey, str) else old(index)
    {
      ok := n > 0;
      if ok {
        var key := arKey[..n];
        var i, j := Walk(key);
        assert ChainOk(buckets[i], i, size, index, hash);
        hide *;
        if j < |buckets[i]| {
          AfterRaise(buckets[i], i, size, index, hash, j, arKey, str);
          Store(i, Raised(buckets[i], j, str), key, arKey, str);
        } else {
          AfterPrepend(buckets[i], i, size, index, hash, arKey, n, str);
          Store(i, [Bucket(hash(key), arKey, n, 1, [str])] + buckets[i], key, arKey, str);
        }
      }
    }

    /** `add_word` */
    method AddWord(str: string)
      requires Current()
      modifies this, buckets
      ensures Current() && words == old(words) + [str]
    {
      hide Valid;
      for i := 1 to |str| + 1
        invariant Valid() && index == PutPrefixes(old(index), str, i - 1) && words == old(words)
      {
        var _ := Update(str, i, str);
      }
      assert (words + [str])[..|words|] == words;
      words := words + [str];
    }

    /** `completion_hash_find`: the position of the key's bucket, if it has one. */
    method Find(key: string) returns (found: bool, b: Bucket)
      requires Valid()
      ensures found <==> key in index
      ensures found ==> b.Key() == key && b.keyLen == |key| && index[key] == Slot(b.word, b.entries) && b.count == |b.entries|
    {
      var i, j := Walk(key);
      found := j < |buckets[i]|;
      if found {
        b := buckets[i][j];
        KeyInIndex(buckets[i], i, size, index, hash, j);
      } else {
        b := Bucket(0, "", 0, 0, []);
      }
    }

    /** `completion_hash_exists` compares the whole word a bucket was opened for. */
    method Exists(key: string) returns (r: bool)
      requires Current()
      ensures r <==> key != "" && Matching(words, key) != [] && Oldest(Matching(words, key)) == key
    {
      var found, b := Find(key);
      IndexMeaning(words, key);
      r := found && b.word == key;
    }

    /** `find_all_matches` */
    method FindAllMatches(str: string) returns (found: bool, b: Bucket, length: nat)
      requires Current()
      ensures found <==> str != "" && exists w :: w in words && str <= w
      ensures found ==> b.Key() == str && b.entries == Matching(words, str) && b.count == |b.entries| > 0 && length == |str|
    {
      found, b := Find(str);
      IndexMeaning(words, str);
      length := if found then |str| else 0;
      MatchingSome(words, str);
    }

    /** `find_longest_match`: it follows one word and compares counts only. */
    method FindLongestMatch(str: string) returns (found: bool, b: Bucket, length: nat)
      requires Current()
      ensures found <==> str != "" && exists w :: w in words && str <= w
      ensures found ==> IsLongestCommon(words, str, b.Key()) && b.entries == Matching(words, b.Key()) && length == |b.Key()|
    {
      hide *;
      found, b, length := FindAllMatches(str);
      if found {
        var count, s := b.count, b.entries[0];
        MatchingHas(words, str, s);
        AllExtendSelf(words, str);
        assert s[..length] == str;
        while length < |s|
          invariant |str| <= length <= |s| && b.Key() == s[..length] && b.entries == Matching(words, s[..length])
          invariant AllExtend(words, str, s[..length]) && count == |Matching(words, str)|
        {
          var next, b', n := FindAllMatches(s[..length + 1]);
          MatchingCount(words, str, s[..length + 1]);
          if !next || b'.count < count {
            break;
          }
          b, length := b', length + 1;
        }
        LongestStop(words, str, s, length);
      }
    }
  }
}
