/** The statement loops of the load emulator: `run_task` of a worker and `create_schema`. A statement
    list ends at its first empty statement. */
module SlapTask {

  function Usable(stmts: seq<string>): (n: nat)
    ensures n <= |stmts| && (n < |stmts| ==> stmts[n] == "") && forall i :: 0 <= i < n ==> stmts[i] != ""
  {
    if stmts == [] || stmts[0] == "" then 0 else 1 + Usable(stmts[1..])
  }

  /** The remainder of `k` by `n`. */
  function Rem(k: nat, n: nat): (r: nat)
    requires n > 0
    ensures r < n
  {
    if k < n then k else Rem(k - n, n)
  }

  datatype Sent = Query(text: string) | Commit

  /** The log of `k` statements taken in turn, with a commit after every `rate` of them. */
  function Log(stmts: seq<string>, n: nat, k: nat, rate: nat): seq<Sent>
    requires 0 < n <= |stmts| || k == 0
  {
    if k == 0 then []
    else Log(stmts, n, k - 1, rate) + [Query(stmts[Rem(k - 1, n)])] + (if rate > 0 && Rem(k, rate) == 0 then [Commit] else [])
  }

  /** The texts of the queries. */
  function Texts(log: seq<Sent>): seq<string> {
    if log == [] then []
    else Texts(log[..|log| - 1]) + (if log[|log| - 1].Query? then [log[|log| - 1].text] else [])
  }

  /** A commit stands after every `rate`-th query, and nowhere else. */
  predicate InBatches(log: seq<Sent>, rate: nat)
    requires rate > 0
  {
    forall i :: 0 <= i < |log| ==> InBatch(log, i, rate)
  }

  predicate InBatch(log: seq<Sent>, i: nat, rate: nat)
    requires rate > 0 && i < |log|
  {
    if log[i] == Commit then i > 0 && log[i - 1] != Commit && Rem(|Texts(log[..i])|, rate) == 0
    else Rem(|Texts(log[..i + 1])|, rate) == 0 ==> i + 1 < |log| && log[i + 1] == Commit
  }

  /** `Rem` is the remainder. */
  lemma {:induction false} RemIs(k: nat, n: nat)
    requires n > 0
    ensures Rem(k, n) == k % n
  {
    var q := RemQuotient(k, n);
    RemainderOf(k, q, n, Rem(k, n));
  }

  lemma {:induction false} RemQuotient(k: nat, n: nat) returns (q: nat)
    requires n > 0
    ensures k == q * n + Rem(k, n)
    decreases k
  {
    if k < n {
      q := 0;
    } else {
      q := RemQuotient(k - n, n);
      assert (q + 1) * n == q * n + n;
      q := q + 1;
    }
  }

  lemma RemainderOf(k: nat, q: nat, n: nat, r: nat)
    requires r < n && k == q * n + r
    ensures k % n == r
  {
    hide *;
    var d := k / n - q;
    assert d * n == r - k % n by {
      assert k == (k / n) * n + k % n;
      assert d * n == (k / n) * n - q * n;
    }
    Multiple(d, n);
  }

  /** A multiple of `n` that is smaller than `n` either way is zero. */
  lemma Multiple(d: int, n: nat)
    requires -1 * n < d * n < n
    ensures d == 0
  {
    if d > 0 {
      AtLeastOne(d, n);
    }
  }

  lemma {:induction false} AtLeastOne(d: nat, n: nat)
    requires d > 0
    ensures d * n >= n
  {
    if d > 1 {
      AtLeastOne(d - 1, n);
      assert d * n == (d - 1) * n + n;
    }
  }

  lemma TextsSnoc(log: seq<Sent>, s: Sent)
    ensures Texts(log + [s]) == if s.Query? then Texts(log) + [s.text] else Texts(log)
  {
    assert (log + [s])[..|log|] == log;
  }

  lemma LogStep(stmts: seq<string>, n: nat, k: nat, rate: nat) returns (q: Sent)
    requires 0 < n <= |stmts| && k > 0
    ensures q == Query(stmts[Rem(k - 1, n)])
    ensures var before := Log(stmts, n, k - 1, rate);
            Log(stmts, n, k, rate) == if rate > 0 && Rem(k, rate) == 0 then before + [q] + [Commit] else before + [q]
  {
    hide Rem;
    q := Query(stmts[Rem(k - 1, n)]);
    assert Log(stmts, n, k - 1, rate) + [q] + [] == Log(stmts, n, k - 1, rate) + [q];
  }

  /** The statements in turn, starting over at the end of the list. */
  predicate InTurn(t: seq<string>, stmts: seq<string>, n: nat)
    requires 0 < n <= |stmts| || t == []
  {
    forall j :: 0 <= j < |t| ==> t[j] == stmts[Rem(j, n)]
  }

  lemma NextInTurn(t: seq<string>, stmts: seq<string>, n: nat)
    requires 0 < n <= |stmts| && InTurn(t, stmts, n)
    ensures InTurn(t + [stmts[Rem(|t|, n)]], stmts, n)
  {
    hide Rem;
  }

  /** The queries are the statements in turn. */
  lemma {:induction false} LogTexts(stmts: seq<string>, n: nat, k: nat, rate: nat)
    requires 0 < n <= |stmts| || k == 0
    ensures |Texts(Log(stmts, n, k, rate))| == k && InTurn(Texts(Log(stmts, n, k, rate)), stmts, n)
    decreases k
  {
    hide *;
    if k == 0 {
      NoneYet(stmts, n, rate);
    } else {
      LogTexts(stmts, n, k - 1, rate);
      NextText(stmts, n, k, rate, Log(stmts, n, k - 1, rate));
    }
  }

  lemma NextText(stmts: seq<string>, n: nat, k: nat, rate: nat, before: seq<Sent>)
    requires 0 < n <= |stmts| && k > 0 && before == Log(stmts, n, k - 1, rate)
    requires |Texts(before)| == k - 1 && InTurn(Texts(before), stmts, n)
    ensures |Texts(Log(stmts, n, k, rate))| == k && InTurn(Texts(Log(stmts, n, k, rate)), stmts, n)
  {
    hide *;
    var q := LogStep(stmts, n, k, rate);
    TextsSnoc(before, q);
    TextsSnoc(before + [q], Commit);
    NextInTurn(Texts(before), stmts, n);
  }

  /** Commits stand where they should. */
  lemma {:induction false} LogCommits(stmts: seq<string>, n: nat, k: nat, rate: nat)
    requires 0 < n <= |stmts| || k == 0
    ensures if rate > 0 then InBatches(Log(stmts, n, k, rate), rate) else Commit !in Log(stmts, n, k, rate)
    decreases k
  {
    hide *;
    if k == 0 {
      NoneYet(stmts, n, rate);
    } else {
      LogCommits(stmts, n, k - 1, rate);
      var q := LogStep(stmts, n, k, rate);
      if rate > 0 {
        LogTexts(stmts, n, k - 1, rate);
        TextsSnoc(Log(stmts, n, k - 1, rate), q);
        NextBatch(Log(stmts, n, k - 1, rate), q, rate);
      }
    }
  }

  lemma NoneYet(stmts: seq<string>, n: nat, rate: nat)
    ensures Log(stmts, n, 0, rate) == [] && (rate > 0 ==> InBatches([], rate)) && Texts([]) == [] && InTurn([], stmts, n)
  {
  }

  /** One more query keeps the batches, with a commit if it fills one. */
  lemma NextBatch(log: seq<Sent>, q: Sent, rate: nat)
    requires rate > 0 && InBatches(log, rate) && q.Query?
    ensures InBatches(if Rem(|Texts(log + [q])|, rate) == 0 then log + [q] + [Commit] else log + [q], rate)
  {
    var full := Rem(|Texts(log + [q])|, rate) == 0;
    var next := if full then log + [q] + [Commit] else log + [q];
    hide Texts, Rem, InBatch;
    assert next[..|log| + 1] == log + [q];
    forall i | 0 <= i < |next|
      ensures InBatch(next, i, rate)
    {
      if i < |log| {
        BatchKept(log, next, i, rate);
      } else {
        BatchFilled(log, q, full, i, rate);
      }
    }
  }

  lemma BatchKept(log: seq<Sent>, next: seq<Sent>, i: nat, rate: nat)
    requires rate > 0 && i < |log| && log <= next && InBatch(log, i, rate)
    ensures InBatch(next, i, rate)
  {
    hide Texts, Rem;
    assert next[..i] == log[..i] && next[..i + 1] == log[..i + 1];
  }

  lemma BatchFilled(log: seq<Sent>, q: Sent, full: bool, i: nat, rate: nat)
    requires rate > 0 && q.Query? && full == (Rem(|Texts(log + [q])|, rate) == 0)
    requires var next := if full then log + [q] + [Commit] else log + [q];
             |log| <= i < |next|
    ensures InBatch(if full then log + [q] + [Commit] else log + [q], i, rate)
  {
    hide Texts, Rem;
    var next := if full then log + [q] + [Commit] else log + [q];
    assert next[..|log| + 1] == log + [q];
  }

  /** One pass over the list, up to the limit; `since` counts the queries since the last commit. */
  method Pass(stmts: seq<string>, limit: nat, rate: nat, queries: nat, since: nat, log: seq<Sent>)
    returns (queries': nat, since': nat, log': seq<Sent>)
    requires var n := Usable(stmts);
             && (limit > 0 ==> 0 < n && queries < limit) && (n > 0 ==> Rem(queries, n) == 0) && (n == 0 ==> queries == 0)
             && log == Log(stmts, n, queries, rate) && (rate > 0 ==> since == Rem(queries, rate))
    ensures var n := Usable(stmts);
            && queries' == (if limit > 0 && limit < queries + n then limit else queries + n)
            && (n > 0 || queries' == 0) && log' == Log(stmts, n, queries', rate) && (rate > 0 ==> since' == Rem(queries', rate))
  {
    ghost var n := Usable(stmts);
    hide Log, Rem;
    queries', since', log' := queries, since, log;
    var i := 0;
    while i < |stmts| && stmts[i] != ""
      invariant i <= n && queries' == queries + i && (limit > 0 && i < n ==> queries' < limit)
      invariant limit > 0 ==> queries' <= limit
      invariant limit > 0 && i == n ==> queries' < limit
      invariant (n > 0 || queries' == 0) && log' == Log(stmts, n, queries', rate) && (rate > 0 ==> since' == Rem(queries', rate))
    {
      TurnOf(queries, n, i);
      ghost var _ := LogStep(stmts, n, queries' + 1, rate);
      log' := log' + [Query(stmts[i])];
      queries' := queries' + 1;
      if rate > 0 {
        CommitTurn(queries' - 1, rate);
        since' := since' + 1;
        if since' == rate {
          since' := 0;
          log' := log' + [Commit];
        }
      }
      if limit > 0 && queries' == limit {
        return;
      }
      i := i + 1;
    }
  }

  lemma {:induction false} TurnOf(q: nat, n: nat, i: nat)
    requires 0 < n && Rem(q, n) == 0 && i < n
    ensures Rem(q + i, n) == i
    decreases q
  {
    if q >= n {
      TurnOf(q - n, n, i);
    }
  }

  lemma {:induction false} CommitTurn(q: nat, rate: nat)
    requires rate > 0
    ensures Rem(q + 1, rate) == if Rem(q, rate) + 1 == rate then 0 else Rem(q, rate) + 1
    decreases q
  {
    if q >= rate {
      CommitTurn(q - rate, rate);
    }
  }

  /** `run_task`: with a limit, exactly that many queries, taken in turn; without, one pass. A commit
      follows every `rate` queries and the last one. */
  method RunTask(stmts: seq<string>, limit: nat, rate: nat) returns (log: seq<Sent>)
    requires limit > 0 ==> Usable(stmts) > 0
    ensures var n := Usable(stmts);
            var k := if limit > 0 then limit else n;
            && log == Log(stmts, n, k, rate) + (if rate > 0 then [Commit] else [])
            && |Texts(log)| == k && InTurn(Texts(log), stmts, n)
            && (limit == 0 ==> Texts(log) == stmts[..n])
            && (rate == 0 ==> Commit !in log)
            && (rate > 0 ==> |log| > 0 && log[|log| - 1] == Commit && InBatches(log[..|log| - 1], rate))
  {
    hide Log, Texts, InBatches, Usable;
    ghost var n := Usable(stmts);
    var queries: nat, since: nat := 0, 0;
    log := [];
    NoneYet(stmts, n, rate);
    queries, since, log := Pass(stmts, limit, rate, queries, since, log);
    while limit > 0 && queries < limit
      invariant queries <= limit || limit == 0
      invariant (n > 0 || queries == 0) && log == Log(stmts, n, queries, rate) && (rate > 0 ==> since == Rem(queries, rate))
      invariant limit > 0 && queries < limit ==> Rem(queries, n) == 0
      invariant limit == 0 ==> queries == n
      decreases limit - queries
    {
      queries, since, log := Pass(stmts, limit, rate, queries, since, log);
    }
    ghost var k := if limit > 0 then limit else n;
    LogTexts(stmts, n, k, rate);
    LogCommits(stmts, n, k, rate);
    assert log + [] == log;
    TextsSnoc(log, Commit);
    if rate > 0 {
      log := log + [Commit];
    }
  }

  function Queries(log: seq<Sent>): nat {
    if log == [] then 0 else (if log[0].Query? then 1 else 0) + Queries(log[1..])
  }

  /** The queries after the last commit. */
  function Open(log: seq<Sent>): nat {
    if log == [] || log[|log| - 1] == Commit then 0 else 1 + Open(log[..|log| - 1])
  }

  lemma {:induction false} QueriesAdd(a: seq<Sent>, b: seq<Sent>)
    ensures Queries(a + b) == Queries(a) + Queries(b)
  {
    if a == [] {
      assert a + b == b;
    } else {
      assert (a + b)[1..] == a[1..] + b;
      QueriesAdd(a[1..], b);
    }
  }

  /** The log holds as many queries as asked for, and never leaves `rate` of them uncommitted. */
  lemma {:induction false} LogCounts(stmts: seq<string>, n: nat, k: nat, rate: nat)
    requires 0 < n <= |stmts| || k == 0
    ensures Queries(Log(stmts, n, k, rate)) == k
    ensures rate > 0 ==> Open(Log(stmts, n, k, rate)) == Rem(k, rate)
    decreases k
  {
    if k > 0 {
      hide Log, Rem;
      LogCounts(stmts, n, k - 1, rate);
      var before := Log(stmts, n, k - 1, rate);
      var q := LogStep(stmts, n, k, rate);
      QueriesAdd(before, [q]);
      QueriesAdd(before + [q], [Commit]);
      assert (before + [q])[..|before + [q]| - 1] == before;
      if rate > 0 {
        CommitTurn(k - 1, rate);
      }
    }
  }

  // ----- the schema

  /** The statement at turn `k`: the first one is not repeated. */
  function Turn(n: nat, k: nat): (i: nat)
    requires n > 1 || k < n
    ensures i < n
  {
    if k < n then k else 1 + Rem(k - 1, n - 1)
  }

  function Turns(stmts: seq<string>, n: nat, k: nat): seq<string>
    requires n <= |stmts| && (n > 1 || k <= n)
  {
    if k == 0 then [] else Turns(stmts, n, k - 1) + [stmts[Turn(n, k - 1)]]
  }

  /** A pass over the list from its head, or from its second statement when it starts over. */
  method SchemaPass(stmts: seq<string>, again: bool, number: nat, auto: bool, count: nat, run: seq<string>)
    returns (count': nat, run': seq<string>)
    requires var n := Usable(stmts);
             && (auto ==> count <= number && (n > 1 || number <= n)) && (n > 1 || count <= n) && run == Turns(stmts, n, count)
             && if again then auto && n <= count < number && Rem(count - 1, n - 1) == 0 else count == 0
    ensures var n := Usable(stmts);
            var end := if again then count + n - 1 else n;
            && count' == (if auto && number < end then number else end) && (n > 1 || count' <= n)
            && run' == Turns(stmts, n, count')
  {
    ghost var n := Usable(stmts);
    count', run' := count, run;
    var from: nat := if again then 1 else 0;
    var i := from;
    hide Turns, Rem;
    while i < |stmts| && stmts[i] != "" && !(auto && number == count')
      invariant from <= i <= n && count' == count + i - from && (auto ==> count' <= number) && (n > 1 || count' <= n)
      invariant run' == Turns(stmts, n, count')
    {
      if again {
        TurnOf(count - 1, n - 1, i - 1);
      }
      NextTurn(stmts, n, count');
      run' := run' + [stmts[i]];
      count', i := count' + 1, i + 1;
    }
  }

  lemma NextTurn(stmts: seq<string>, n: nat, k: nat)
    requires n <= |stmts| && (n > 1 || k < n)
    ensures Turns(stmts, n, k + 1) == Turns(stmts, n, k) + [stmts[Turn(n, k)]]
  {
  }

  /** `create_schema`: as many statements as asked for, the first one, which creates the table, only
      once; without a number, the list once. */
  method CreateSchema(stmts: seq<string>, number: nat, auto: bool) returns (run: seq<string>)
    requires auto ==> Usable(stmts) > 1 || number <= Usable(stmts)
    ensures run == Turns(stmts, Usable(stmts), if auto then number else Usable(stmts))
  {
    ghost var n := Usable(stmts);
    var count: nat;
    count, run := SchemaPass(stmts, false, number, auto, 0, []);
    while auto && number > count
      invariant auto ==> count <= number
      invariant auto && number > count ==> n > 1 && n <= count && Rem(count - 1, n - 1) == 0
      invariant (n > 1 || count <= n) && run == Turns(stmts, n, count)
      invariant !auto ==> count == n
      decreases number - count
    {
      count, run := SchemaPass(stmts, true, number, auto, count, run);
    }
  }

  /** The table is created first and only then; the other statements take turns. */
  lemma {:induction false} CreatedOnce(stmts: seq<string>, n: nat, k: nat, j: nat)
    requires n <= |stmts| && (n > 1 || k <= n) && j < k
    ensures |Turns(stmts, n, k)| == k && Turns(stmts, n, k)[j] == stmts[Turn(n, j)]
    ensures Turn(n, j) == 0 <==> j == 0
    ensures j < n ==> Turn(n, j) == j
    ensures j + 1 < k && 1 <= j ==> Turn(n, j + 1) == if Turn(n, j) + 1 < n then Turn(n, j) + 1 else 1
    decreases k
  {
    if k > 1 && j < k - 1 {
      CreatedOnce(stmts, n, k - 1, j);
    } else if k > 1 {
      CreatedOnce(stmts, n, k - 1, 0);
    }
    if j + 1 < k && 1 <= j && n > 1 {
      CommitTurn(j - 1, n - 1);
      SmallTurn(n, j);
      SmallTurn(n, j + 1);
    }
  }

  lemma SmallTurn(n: nat, k: nat)
    requires n > 1 && 1 <= k
    ensures Turn(n, k) == 1 + Rem(k - 1, n - 1)
  {
  }
}
