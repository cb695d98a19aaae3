/** `_db_explain_` prints settings as a control string.  Parsing that string gives the settings
    back, up to the order of the lists, for exactly the lists that `ListRoundTrip` names. */
module DbugExplain {
  import opened DbugList
  import opened DbugControl

  // ----- printing

  function Digits(n: nat): (t: string)
    ensures t != "" && forall i :: 0 <= i < |t| ==> IsDigit(t[i])
  {
    var d := [('0' as int + n % 10) as char];
    if n < 10 then d else Digits(n / 10) + d
  }

  function Token(e: Elem): string {
    if e.subdir then e.str + "/" else e.str
  }

  /** The tokens of the elements that carry the flag. */
  function Selected(list: seq<Elem>, todo: Todo): seq<string> {
    if list == [] then []
    else (if SameAction(list[0], todo) then [Token(list[0])] else []) + Selected(list[1..], todo)
  }

  function Modifiers(toks: seq<string>): string {
    if toks == [] then "" else "," + (toks[0] + Modifiers(toks[1..]))
  }

  function ListFields(letter: char, list: seq<Elem>): seq<string> {
    [[letter] + Modifiers(Selected(list, Include))] +
    if AnyExclude(list) then ["-" + [letter] + Modifiers(Selected(list, Exclude))] else []
  }

  function When(cond: bool, fields: seq<string>): seq<string> {
    if cond then fields else []
  }

  /** The letter for the output file: a capital flushes on every write, `a` appends. */
  function OutputLetter(sw: Switches): char {
    if sw.flush then (if sw.append then 'A' else 'O') else (if sw.append then 'a' else 'o')
  }

  function OutputField(b: Base): string {
    [OutputLetter(b.sw)] + if b.name == "" then "" else "," + b.name
  }

  function DepthField(maxdepth: nat): string {
    if maxdepth == MAXDEPTH then "t" else "t," + Digits(maxdepth)
  }

  /** The printed fields, in print order. */
  function FirstFields(s: Settings): seq<string> {
    When(s.base.sw.debug, ListFields('d', s.lists.keywords.elems)) +
    (When(s.base.delay != 0, ["D," + Digits(s.base.delay)]) +
    (When(s.lists.functions.elems != [], ListFields('f', s.lists.functions.elems)) +
    (When(s.base.sw.file, ["F"]) +
     When(s.base.sw.pid, ["i"]))))
  }

  function MiddleFields(s: Settings): seq<string> {
    When(s.base.sw.profile, ListFields('g', s.lists.pFunctions.elems)) +
    (When(s.base.sw.line, ["L"]) +
    (When(s.base.sw.depth, ["n"]) +
    (When(s.base.sw.number, ["N"]) +
     When(!s.base.out.Stderr?, [OutputField(s.base)]))))
  }

  function LastFields(s: Settings): seq<string> {
    When(s.lists.processes.elems != [], ListFields('p', s.lists.processes.elems)) +
    (When(s.base.sw.process, ["P"]) +
    (When(s.base.subLevel != 0, ["r"]) +
    (When(s.base.sw.trace, [DepthField(s.base.maxdepth)]) +
     When(s.base.sw.timestamp, ["T"]))))
  }

  function ExplainFields(s: Settings): seq<string> {
    FirstFields(s) + (MiddleFields(s) + LastFields(s))
  }

  function Join(fields: seq<string>): string {
    if fields == [] then ""
    else if |fields| == 1 then fields[0]
    else fields[0] + ":" + Join(fields[1..])
  }

  function Explain(s: Settings): string { Join(ExplainFields(s)) }

  // ----- a list printed and parsed again

  predicate OneFlag(list: seq<Elem>) {
    forall i :: 0 <= i < |list| ==> list[i].incl != list[i].excl
  }

  /** INCLUDE elements first, EXCLUDE elements after them, each in list order. */
  function Keep(list: seq<Elem>, todo: Todo): seq<Elem> {
    if list == [] then []
    else (if SameAction(list[0], todo) then [list[0]] else []) + Keep(list[1..], todo)
  }

  function Reorder(list: seq<Elem>): seq<Elem> { Keep(list, Include) + Keep(list, Exclude) }

  predicate Covers(e: Elem, later: Elem) { later.str <= e.str }

  /** No pattern is a prefix of an earlier one. */
  predicate NoLaterPrefix(list: seq<Elem>) {
    forall i, j :: 0 <= i < j < |list| ==> !Covers(list[i], list[j])
  }

  function AddTokens(list: seq<Elem>, toks: seq<string>, todo: Todo): seq<Elem>
    decreases |toks|
  {
    if toks == [] then list else AddTokens(AddToken(list, toks[0], todo), toks[1..], todo)
  }

  /** What parsing the printed list gives. */
  function Reparsed(list: seq<Elem>): seq<Elem> {
    AddTokens(AddTokens([], Selected(list, Include), Include), Selected(list, Exclude), Exclude)
  }

  /** A text in which `DbugStrTok` sees no end of field. */
  predicate Safe(t: string) {
    if t == "" then true
    else if t[0] != ':' then Safe(t[1..])
    else if |t| == 1 then false
    else if t[1] == '\\' || t[1] == '/' then Safe(t[1..])
    else t[1] == ':' && Safe(t[2..])
  }

  predicate NoComma(t: string) { forall i :: 0 <= i < |t| ==> t[i] != ',' }

  /** An element the parser can have made. */
  predicate Printable(e: Elem) {
    && e.str != "" && NoComma(e.str) && Safe(Token(e))
    && (!e.subdir ==> !EndsWithSlash(e.str))
    && (e.incl || e.excl)
  }

  predicate PrintableList(list: seq<Elem>) {
    forall i :: 0 <= i < |list| ==> Printable(list[i])
  }

  lemma TokenReads(e: Elem)
    requires Printable(e)
    ensures Pattern(Token(e)) == e.str && EndsWithSlash(Token(e)) == e.subdir && NoComma(Token(e))
  {
    if e.subdir {
      assert Token(e)[..|Token(e)| - 1] == e.str;
    }
  }

  // -- AddToken on its own

  predicate HitsNone(list: seq<Elem>, tok: string) {
    forall i :: 0 <= i < |list| ==> !Hits(list[i], tok)
  }

  lemma {:induction false} AddTokenAppends(list: seq<Elem>, tok: string, todo: Todo)
    requires HitsNone(list, tok)
    ensures AddToken(list, tok, todo) == list + [NewElem(tok, todo)]
  {
    if list != [] {
      assert HitsNone(list[1..], tok);
      AddTokenAppends(list[1..], tok, todo);
      assert [list[0]] + (list[1..] + [NewElem(tok, todo)]) == list + [NewElem(tok, todo)];
    }
  }

  lemma {:induction false} AddTokenSize(list: seq<Elem>, tok: string, todo: Todo)
    ensures |AddToken(list, tok, todo)| <= |list| + 1
    ensures |AddToken(list, tok, todo)| == |list| + 1 ==> HitsNone(list, tok)
  {
    if list != [] && !Hits(list[0], tok) {
      AddTokenSize(list[1..], tok, todo);
      if |AddToken(list, tok, todo)| == |list| + 1 {
        forall i | 0 <= i < |list| ensures !Hits(list[i], tok) {
          if i > 0 {
            assert list[i] == list[1..][i - 1];
          }
        }
      }
    }
  }

  /** Lists made by inclusions alone, or where every element has one flag, stay of that kind. */
  predicate OnlyIncluded(list: seq<Elem>) {
    forall i :: 0 <= i < |list| ==> list[i].incl && !list[i].excl
  }

  lemma {:induction false} AddTokenFlags(list: seq<Elem>, tok: string, todo: Todo)
    ensures todo.Include? && OnlyIncluded(list) ==> OnlyIncluded(AddToken(list, tok, todo))
    ensures todo.Exclude? && OneFlag(list) ==> OneFlag(AddToken(list, tok, todo))
  {
    if list != [] && !Hits(list[0], tok) {
      if OnlyIncluded(list) {
        assert OnlyIncluded(list[1..]);
      }
      if OneFlag(list) {
        assert OneFlag(list[1..]);
      }
      AddTokenFlags(list[1..], tok, todo);
    }
  }

  lemma {:induction false} AddTokensFlags(list: seq<Elem>, toks: seq<string>, todo: Todo)
    ensures todo.Include? && OnlyIncluded(list) ==> OnlyIncluded(AddTokens(list, toks, todo))
    ensures todo.Exclude? && OneFlag(list) ==> OneFlag(AddTokens(list, toks, todo))
    decreases |toks|
  {
    if toks != [] {
      AddTokenFlags(list, toks[0], todo);
      AddTokensFlags(AddToken(list, toks[0], todo), toks[1..], todo);
    }
  }

  // -- adding tokens one after the other

  function NewElems(toks: seq<string>, todo: Todo): (r: seq<Elem>)
    ensures |r| == |toks|
  {
    if toks == [] then [] else [NewElem(toks[0], todo)] + NewElems(toks[1..], todo)
  }

  lemma {:induction false} AddTokensAppends(list: seq<Elem>, toks: seq<string>, todo: Todo)
    requires NoLaterPrefix(list + NewElems(toks, todo))
    ensures AddTokens(list, toks, todo) == list + NewElems(toks, todo)
    decreases |toks|
  {
    hide AddToken;
    if toks == [] {
      assert list + [] == list;
    } else {
      var all := list + NewElems(toks, todo);
      var new_ := NewElem(toks[0], todo);
      assert all[|list|] == new_;
      assert HitsNone(list, toks[0]) by {
        forall i | 0 <= i < |list| ensures !Hits(list[i], toks[0]) {
          assert all[i] == list[i];
          assert !Covers(all[i], all[|list|]);
        }
      }
      AddTokenAppends(list, toks[0], todo);
      assert list + [new_] + NewElems(toks[1..], todo) == all;
      AddTokensAppends(list + [new_], toks[1..], todo);
    }
  }

  lemma {:induction false} AddTokensSize(list: seq<Elem>, toks: seq<string>, todo: Todo)
    ensures |AddTokens(list, toks, todo)| <= |list| + |toks|
    ensures NoLaterPrefix(list) && |AddTokens(list, toks, todo)| == |list| + |toks| ==>
              NoLaterPrefix(list + NewElems(toks, todo))
    decreases |toks|
  {
    hide AddToken;
    if toks == [] {
      assert list + [] == list;
    } else {
      var new_ := NewElem(toks[0], todo);
      var next := AddToken(list, toks[0], todo);
      AddTokenSize(list, toks[0], todo);
      AddTokensSize(next, toks[1..], todo);
      if NoLaterPrefix(list) && |AddTokens(list, toks, todo)| == |list| + |toks| {
        AddTokenAppends(list, toks[0], todo);
        assert NoLaterPrefix(list + [new_]) by {
          forall i, j | 0 <= i < j < |list + [new_]| ensures !Covers((list + [new_])[i], (list + [new_])[j]) {
            if j == |list| {
              assert !Hits(list[i], toks[0]);
            } else {
              assert !Covers(list[i], list[j]);
            }
          }
        }
        assert list + [new_] + NewElems(toks[1..], todo) == list + NewElems(toks, todo);
      }
    }
  }

  // -- the printed tokens

  lemma {:induction false} SelectedIsKept(list: seq<Elem>, todo: Todo)
    requires PrintableList(list) && OneFlag(list)
    ensures NewElems(Selected(list, todo), todo) == Keep(list, todo)
  {
    if list != [] {
      assert PrintableList(list[1..]) && OneFlag(list[1..]);
      SelectedIsKept(list[1..], todo);
      if SameAction(list[0], todo) {
        TokenReads(list[0]);
        assert NewElem(Token(list[0]), todo) == list[0];
        assert Selected(list, todo)[1..] == Selected(list[1..], todo);
      } else {
        assert Selected(list, todo) == Selected(list[1..], todo);
      }
    }
  }

  lemma {:induction false} ReorderIsPermutation(list: seq<Elem>)
    requires OneFlag(list)
    ensures multiset(Reorder(list)) == multiset(list)
  {
    if list != [] {
      assert OneFlag(list[1..]);
      ReorderIsPermutation(list[1..]);
      assert list == [list[0]] + list[1..];
    }
  }

  lemma {:induction false} SelectedCount(list: seq<Elem>)
    requires OneFlag(list)
    ensures |Selected(list, Include)| + |Selected(list, Exclude)| == |list|
  {
    if list != [] {
      assert OneFlag(list[1..]);
      SelectedCount(list[1..]);
    }
  }

  lemma SameElemsSameFlags(a: seq<Elem>, b: seq<Elem>)
    requires multiset(a) == multiset(b) && OneFlag(a)
    ensures OneFlag(b) && |a| == |b|
  {
    assert |multiset(a)| == |multiset(b)|;
    forall i | 0 <= i < |b| ensures b[i].incl != b[i].excl {
      assert b[i] in multiset(b);
      assert b[i] in a;
    }
  }

  /** Printing a list and parsing the text gives the same elements exactly when every element has
      one flag and, in print order, no pattern is a prefix of an earlier one.  Then the result is
      the list in print order. */
  lemma ListRoundTrip(list: seq<Elem>)
    requires PrintableList(list)
    ensures multiset(Reparsed(list)) == multiset(list) <==> OneFlag(list) && NoLaterPrefix(Reorder(list))
    ensures OneFlag(list) && NoLaterPrefix(Reorder(list)) ==> Reparsed(list) == Reorder(list)
  {
    hide AddToken, AddTokens, NoLaterPrefix, Selected, Keep, Printable, OneFlag;
    var inc, exc := Selected(list, Include), Selected(list, Exclude);
    EmptyIsFine();
    var mid := AddTokens([], inc, Include);
    if OneFlag(list) {
      SelectedIsKept(list, Include);
      SelectedIsKept(list, Exclude);
      assert [] + NewElems(inc, Include) == Keep(list, Include);
    }
    if OneFlag(list) && NoLaterPrefix(Reorder(list)) {
      KeepPrefixFree(list);
      AddTokensAppends([], inc, Include);
      AddTokensAppends(mid, exc, Exclude);
      ReorderIsPermutation(list);
    }
    if multiset(Reparsed(list)) == multiset(list) {
      AddTokensFlags([], inc, Include);
      OnlyIncludedHasOneFlag(mid);
      AddTokensFlags(mid, exc, Exclude);
      SameElemsSameFlags(Reparsed(list), list);
      SelectedCount(list);
      AddTokensSize([], inc, Include);
      AddTokensSize(mid, exc, Exclude);
      SelectedIsKept(list, Include);
      SelectedIsKept(list, Exclude);
      assert [] + NewElems(inc, Include) == Keep(list, Include);
      AddTokensAppends([], inc, Include);
    }
  }

  lemma EmptyIsFine()
    ensures NoLaterPrefix([]) && OnlyIncluded([])
  {
  }

  lemma OnlyIncludedHasOneFlag(list: seq<Elem>)
    requires OnlyIncluded(list)
    ensures OneFlag(list)
  {
  }

  lemma KeepPrefixFree(list: seq<Elem>)
    requires NoLaterPrefix(Reorder(list))
    ensures NoLaterPrefix(Keep(list, Include))
  {
    var k := Keep(list, Include);
    forall i, j | 0 <= i < j < |k| ensures !Covers(k[i], k[j]) {
      assert Reorder(list)[i] == k[i] && Reorder(list)[j] == k[j];
    }
  }

  /** A shared list is copied in reverse before its first edit.  `f,a,ab` copied that way prints as
      `f,ab,a`, which parses to the single element `ab`. */
  lemma CopiedListDoesNotRoundTrip()
    ensures var list := [Elem("ab", false, true, false), Elem("a", false, true, false)];
            PrintableList(list) && OneFlag(list) && Reparsed(list) == list[..1]
  {
    var ab, a := Elem("ab", false, true, false), Elem("a", false, true, false);
    var list := [ab, a];
    assert Safe("ab") by { assert "ab"[1..] == "b" && "b"[1..] == ""; }
    assert Safe("a") by { assert "a"[1..] == ""; }
    assert list[1..] == [a] && [a][1..] == [];
    assert Selected(list, Include) == ["ab", "a"] by { assert Selected([a], Include) == ["a"]; }
    assert Selected(list, Exclude) == [] by { assert Selected([a], Exclude) == []; }
    assert AddToken([], "ab", Include) == [ab];
    assert AddToken([ab], "a", Include) == [ab] by { assert "a" <= "ab"; assert [ab][1..] == []; }
    assert ["ab", "a"][1..] == ["a"] && ["a"][1..] == [];
    assert AddTokens([ab], [], Include) == [ab];
    assert AddTokens([ab], ["a"], Include) == [ab];
    assert AddTokens([], ["ab", "a"], Include) == [ab];
  }

  // ----- fields put together and taken apart

  lemma {:induction false} SafeConcat(a: string, b: string)
    requires Safe(a) && Safe(b)
    ensures Safe(a + b)
    decreases |a|
  {
    if a == "" {
      assert a + b == b;
    } else if a[0] == ':' && a[1] == ':' {
      SafeConcat(a[2..], b);
      assert (a + b)[2..] == a[2..] + b;
    } else {
      SafeConcat(a[1..], b);
      assert (a + b)[1..] == a[1..] + b;
    }
  }

  lemma {:induction false} SafeWithoutColon(t: string)
    requires forall i :: 0 <= i < |t| ==> t[i] != ':'
    ensures Safe(t)
  {
    if t != "" {
      SafeWithoutColon(t[1..]);
    }
  }

  /** A field: `DbugStrTok` finds no end in it, and it does not start with a character that
      would glue it to the colon before it. */
  predicate FieldText(t: string) {
    t != "" && Safe(t) && t[0] != ':' && t[0] != '/' && t[0] != '\\'
  }

  predicate FieldTexts(fields: seq<string>) {
    forall i :: 0 <= i < |fields| ==> FieldText(fields[i])
  }

  /** `DbugStrTok` stops exactly behind a safe text. */
  lemma {:induction false} StrTokStops(c: string, i: nat, e: nat)
    requires i <= e <= |c| && Safe(c[i..e])
    requires e < |c| ==> c[e] == ':' && e + 1 < |c| && c[e + 1] != ':' && c[e + 1] != '/' && c[e + 1] != '\\'
    ensures StrTok(c, i) == e
    decreases e - i
  {
    if i < e {
      var t := c[i..e];
      if t[0] == ':' && t[1] == ':' {
        assert t[2..] == c[i + 2..e];
        StrTokStops(c, i + 2, e);
      } else {
        assert t[1..] == c[i + 1..e];
        StrTokStops(c, i + 1, e);
      }
    }
  }

  function ApplyFields(s: Settings, fields: seq<string>, level: nat): Settings
    requires FieldTexts(fields)
    decreases |fields|
  {
    if fields == [] then s else ApplyFields(Field(s, false, fields[0], level), fields[1..], level)
  }

  lemma {:induction false} ApplyConcat(s: Settings, a: seq<string>, b: seq<string>, level: nat)
    requires FieldTexts(a) && FieldTexts(b)
    ensures FieldTexts(a + b)
    ensures ApplyFields(s, a + b, level) == ApplyFields(ApplyFields(s, a, level), b, level)
    decreases |a|
  {
    hide Field;
    if a == [] {
      assert a + b == b;
    } else {
      ApplyConcat(Field(s, false, a[0], level), a[1..], b, level);
      assert (a + b)[1..] == a[1..] + b;
    }
  }

  /** The field loop takes a joined text apart again. */
  lemma {:induction false} FieldsOfJoin(s: Settings, c: string, i: nat, fields: seq<string>, level: nat)
    requires i <= |c| && c[i..] == Join(fields) && FieldTexts(fields)
    ensures Fields(s, false, c, i, level).0 == ApplyFields(s, fields, level)
    decreases |fields|
  {
    hide Field, UsesFunctions, Safe;
    if fields == [] {
      assert i == |c|;
    } else {
      var f := fields[0];
      var e := i + |f|;
      assert c[i..e] == f by { assert c[i..][..|f|] == f; }
      if |fields| > 1 {
        var rest := Join(fields[1..]);
        assert c[e] == ':' by { assert c[i..][|f|] == ':'; }
        assert c[e + 1..] == rest by { assert c[i..][|f| + 1..] == rest; }
        assert fields[1..][0] == fields[1];
        JoinStart(fields[1..]);
        assert c[e + 1] == c[e + 1..][0] == fields[1][0];
        StrTokStops(c, i, e);
        FieldsOfJoin(Field(s, false, f, level), c, e + 1, fields[1..], level);
      } else {
        StrTokStops(c, i, e);
        assert fields[1..] == [];
      }
    }
  }

  lemma JoinStart(fields: seq<string>)
    requires fields != [] && FieldTexts(fields)
    ensures Join(fields) != "" && Join(fields)[0] == fields[0][0]
  {
  }

  // ----- what each printed field does when it is parsed

  lemma {:induction false} ModifiersAreSafe(toks: seq<string>)
    requires forall i :: 0 <= i < |toks| ==> Safe(toks[i])
    ensures Safe(Modifiers(toks))
  {
    if toks == [] {
      SafeWithoutColon("");
    } else {
      hide Safe;
      ModifiersAreSafe(toks[1..]);
      SafeWithoutColon(",");
      SafeConcat(toks[0], Modifiers(toks[1..]));
      SafeConcat(",", toks[0] + Modifiers(toks[1..]));
    }
  }

  /** A token that parses to one element. */
  predicate GoodToken(t: string) { NoComma(t) && Pattern(t) != "" && Safe(t) }

  lemma {:induction false} SelectedAreGood(list: seq<Elem>, todo: Todo)
    requires PrintableList(list)
    ensures forall i :: 0 <= i < |Selected(list, todo)| ==> GoodToken(Selected(list, todo)[i])
  {
    if list != [] {
      assert PrintableList(list[1..]);
      SelectedAreGood(list[1..], todo);
      TokenReads(list[0]);
    }
  }

  lemma {:induction false} TokenEndIs(t: string, m: string)
    requires NoComma(t) && (m == "" || m[0] == ',')
    ensures TokenEnd(t + m) == |t|
  {
    if t == "" {
      assert t + m == m;
    } else {
      TokenEndIs(t[1..], m);
      assert (t + m)[1..] == t[1..] + m;
    }
  }

  lemma ListAddDelStep(list: seq<Elem>, t: string, m: string, todo: Todo)
    requires NoComma(t) && Pattern(t) != "" && (m == "" || m[0] == ',')
    ensures ListAddDel(list, t + m, todo) ==
            if m == "" then AddToken(list, t, todo) else ListAddDel(AddToken(list, t, todo), m[1..], todo)
  {
    hide AddToken, TokenEnd;
    TokenEndIs(t, m);
    assert (t + m)[..|t|] == t;
    if m != "" {
      assert (t + m)[|t| + 1..] == m[1..];
    }
  }

  lemma ModifiersStep(toks: seq<string>)
    requires toks != []
    ensures var m := Modifiers(toks[1..]);
            && Modifiers(toks) != "" && Modifiers(toks)[1..] == toks[0] + m
            && (m == "" <==> |toks| == 1) && (m == "" || m[0] == ',')
  {
    var x := toks[0] + Modifiers(toks[1..]);
    assert ("," + x)[1..] == x;
  }

  lemma {:induction false} ModifiersParse(list: seq<Elem>, toks: seq<string>, todo: Todo)
    requires toks != [] && forall i :: 0 <= i < |toks| ==> GoodToken(toks[i])
    ensures Modifiers(toks) != "" && ListAddDel(list, Modifiers(toks)[1..], todo) == AddTokens(list, toks, todo)
    decreases |toks|
  {
    hide AddToken, TokenEnd, Safe, ListAddDel, Modifiers, Pattern, NoComma;
    var t, m := toks[0], Modifiers(toks[1..]);
    assert GoodToken(t);
    ModifiersStep(toks);
    ListAddDelStep(list, t, m, todo);
    if |toks| > 1 {
      ModifiersParse(AddToken(list, t, todo), toks[1..], todo);
    } else {
      assert toks[1..] == [];
    }
  }

  lemma ReadPlain(letter: char, m: string)
    requires letter != '+' && letter != '-' && (m == "" || m[0] == ',')
    ensures ReadField([letter] + m) == Command(false, letter, if m == "" then "" else m[1..])
    ensures ReadField("-" + [letter] + m) == Command(true, letter, if m == "" then "" else m[1..])
  {
    var t := [letter] + m;
    assert t[1..] == m;
    assert ("-" + t)[1..] == t;
    assert "-" + [letter] + m == "-" + t;
    if m != "" {
      assert t[2..] == m[1..];
    }
  }

  lemma ListFieldTexts(letter: char, list: seq<Elem>)
    requires PrintableList(list) && letter != ':' && letter != '/' && letter != '\\'
    ensures FieldTexts(ListFields(letter, list))
  {
    forall todo: Todo
      ensures FieldText([letter] + Modifiers(Selected(list, todo)))
      ensures FieldText("-" + [letter] + Modifiers(Selected(list, todo)))
    {
      var m := Modifiers(Selected(list, todo));
      SelectedAreGood(list, todo);
      ModifiersAreSafe(Selected(list, todo));
      SafeWithoutColon([letter]);
      SafeWithoutColon("-" + [letter]);
      SafeConcat([letter], m);
      SafeConcat("-" + [letter], m);
    }
  }

  lemma {:induction false} NoneSelected(list: seq<Elem>, todo: Todo)
    requires forall i :: 0 <= i < |list| ==> !SameAction(list[i], todo)
    ensures Selected(list, todo) == []
  {
    if list != [] {
      NoneSelected(list[1..], todo);
    }
  }

  lemma {:induction false} SomeSelected(list: seq<Elem>, todo: Todo)
    requires exists i :: 0 <= i < |list| && SameAction(list[i], todo)
    ensures Selected(list, todo) != []
  {
    if !SameAction(list[0], todo) {
      var i :| 0 <= i < |list| && SameAction(list[i], todo);
      assert list[1..][i - 1] == list[i];
      SomeSelected(list[1..], todo);
    }
  }

  function WithDebug(b: Base, letter: char): Base {
    if letter == 'd' then b.(sw := b.sw.(debug := true)) else b
  }

  /** A list field, read as a command. */
  lemma ListField(s: Settings, text: string, level: nat)
    requires text != "" && ReadField(text).Command? && EditsList(ReadField(text).letter)
    ensures var cmd := ReadField(text);
            Field(s, false, text, level) ==
            Settings(EditBase(s.base, cmd, level),
                     s.lists.Put(ListOf(cmd.letter),
                                 EditList(s.lists.Get(ListOf(cmd.letter)), false, cmd, s.base.sw.debug)))
  {
    hide EditBase, EditList, ReadField;
  }

  lemma ListFieldBase(b: Base, cmd: Command, level: nat)
    requires cmd.Command? && EditsList(cmd.letter) && !(cmd.neg && cmd.arg == "")
    ensures EditBase(b, cmd, level) == if cmd.neg then b else WithDebug(b, cmd.letter)
  {
    hide Atoi, EditTrace, EditOutput;
  }

  lemma IncludeField(s: Settings, letter: char, toks: seq<string>, level: nat)
    requires EditsList(letter) && s.lists.Get(ListOf(letter)) == NO_LIST
    requires forall i :: 0 <= i < |toks| ==> GoodToken(toks[i])
    ensures Field(s, false, [letter] + Modifiers(toks), level) ==
            Settings(WithDebug(s.base, letter),
                     s.lists.Put(ListOf(letter), Lst(AddTokens([], toks, Include), false)))
  {
    hide Field, EditBase, ReadField, AddToken, TokenEnd, GoodToken;
    var m := Modifiers(toks);
    ReadPlain(letter, m);
    ListField(s, [letter] + m, level);
    ListFieldBase(s.base, ReadField([letter] + m), level);
    if toks != [] {
      ModifiersParse([], toks, Include);
    }
  }

  lemma ExcludeField(s: Settings, letter: char, toks: seq<string>, level: nat)
    requires EditsList(letter) && !s.lists.Get(ListOf(letter)).shared && (letter == 'd' ==> s.base.sw.debug)
    requires toks != [] && forall i :: 0 <= i < |toks| ==> GoodToken(toks[i])
    ensures Field(s, false, "-" + [letter] + Modifiers(toks), level) ==
            Settings(s.base,
                     s.lists.Put(ListOf(letter),
                                 Lst(AddTokens(s.lists.Get(ListOf(letter)).elems, toks, Exclude), false)))
  {
    hide Field, EditBase, ReadField, AddToken, TokenEnd, ListAddDel;
    var m := Modifiers(toks);
    ReadPlain(letter, m);
    assert toks[0] != "" && m[1..] != "";
    ListField(s, "-" + [letter] + m, level);
    ListFieldBase(s.base, ReadField("-" + [letter] + m), level);
    ModifiersParse(s.lists.Get(ListOf(letter)).elems, toks, Exclude);
  }

  lemma ListGroup(s: Settings, letter: char, list: seq<Elem>, level: nat)
    requires EditsList(letter) && s.lists.Get(ListOf(letter)) == NO_LIST && PrintableList(list)
    ensures FieldTexts(ListFields(letter, list))
    ensures ApplyFields(s, ListFields(letter, list), level) ==
            Settings(WithDebug(s.base, letter), s.lists.Put(ListOf(letter), Lst(Reparsed(list), false)))
  {
    hide Field, Selected, AddTokens, Modifiers, GoodToken, FieldText, Printable;
    var inc, exc := Selected(list, Include), Selected(list, Exclude);
    ListFieldTexts(letter, list);
    SelectedAreGood(list, Include);
    SelectedAreGood(list, Exclude);
    IncludeField(s, letter, inc, level);
    var first := [letter] + Modifiers(inc);
    assert ListFields(letter, list)[0] == first;
    var s1 := Field(s, false, first, level);
    if AnyExclude(list) {
      var i :| 0 <= i < |list| && list[i].excl;
      assert SameAction(list[i], Exclude);
      SomeSelected(list, Exclude);
      ExcludeField(s1, letter, exc, level);
      var second := "-" + [letter] + Modifiers(exc);
      assert ListFields(letter, list) == [first, second];
      assert ListFields(letter, list)[1] == second;
      assert [first, second][1..] == [second];
      assert FieldTexts([second]);
      ApplyOne(s1, second, level);
    } else {
      NoneSelected(list, Exclude);
      AddNoTokens(AddTokens([], inc, Include));
      assert ListFields(letter, list) == [first];
      ApplyOne(s, first, level);
    }
  }

  lemma AddNoTokens(list: seq<Elem>)
    ensures AddTokens(list, [], Exclude) == list
  {
  }

  lemma ApplyOne(s: Settings, field: string, level: nat)
    requires FieldText(field)
    ensures FieldTexts([field]) && ApplyFields(s, [field], level) == Field(s, false, field, level)
  {
    hide Field, FieldText;
    assert [field][1..] == [];
  }

  lemma ApplyNone(s: Settings, level: nat)
    ensures FieldTexts([]) && ApplyFields(s, [], level) == s
  {
    hide Field;
  }

  /** A field without a list changes the scalars only. */
  lemma BaseField(s: Settings, text: string, level: nat)
    requires text != "" && ReadField(text).Command? && !EditsList(ReadField(text).letter)
    ensures Field(s, false, text, level) == Settings(EditBase(s.base, ReadField(text), level), s.lists)
  {
    hide EditBase, EditList, ReadField;
  }

  predicate IsSwitch(c: char) { c == 'F' || c == 'i' || c == 'L' || c == 'n' || c == 'N' || c == 'P' || c == 'T' }

  lemma LetterText(c: char)
    requires c != ':' && c != '/' && c != '\\'
    ensures FieldText([c])
  {
    SafeWithoutColon([c]);
  }

  lemma SwitchGroup(s: Settings, c: char, cond: bool, level: nat)
    requires IsSwitch(c)
    ensures FieldTexts(When(cond, [[c]]))
    ensures ApplyFields(s, When(cond, [[c]]), level) ==
            if cond then s.(base := s.base.(sw := EditSwitch(s.base.sw, c, true))) else s
  {
    hide Field, EditSwitch, ReadField, EditTrace, EditOutput, Atoi;
    if cond {
      LetterText(c);
      ReadPlain(c, "");
      assert [c] + "" == [c];
      BaseField(s, [c], level);
      ApplyOne(s, [c], level);
    } else {
      ApplyNone(s, level);
    }
  }

  // -- numbers

  lemma {:induction false} AtoiSnoc(t: string, d: char, acc: nat)
    requires IsDigit(d) && forall i :: 0 <= i < |t| ==> IsDigit(t[i])
    ensures AtoiDigits(t + [d], acc) == AtoiDigits(t, acc) * 10 + (d as int - '0' as int)
    decreases |t|
  {
    if t == "" {
      assert t + [d] == [d] && [d][1..] == "";
    } else {
      AtoiSnoc(t[1..], d, acc * 10 + (t[0] as int - '0' as int));
      assert (t + [d])[1..] == t[1..] + [d];
    }
  }

  lemma {:induction false} AtoiOfDigits(n: nat)
    ensures AtoiDigits(Digits(n), 0) == n && Atoi(Digits(n)) == n
  {
    var d := ('0' as int + n % 10) as char;
    if n < 10 {
      assert [d][1..] == "";
    } else {
      AtoiOfDigits(n / 10);
      AtoiSnoc(Digits(n / 10), d, 0);
    }
    assert IsDigit(Digits(n)[0]);
  }

  lemma NumberField(c: char, n: nat)
    requires c == 'D' || c == 't'
    ensures var f := [c] + "," + Digits(n); FieldText(f) && ReadField(f) == Command(false, c, Digits(n))
  {
    var f := [c] + "," + Digits(n);
    SafeWithoutColon(f);
    assert f == [c] + ("," + Digits(n)) && ("," + Digits(n))[1..] == Digits(n);
    ReadPlain(c, "," + Digits(n));
  }

  /** The range of C's `int`, in which `atoi` is defined. */
  predicate IsInt(n: nat) { n < 0x8000_0000 }

  lemma DelayGroup(s: Settings, n: nat, level: nat)
    requires IsInt(n) && s.base.delay == 0
    ensures FieldTexts(When(n != 0, ["D," + Digits(n)]))
    ensures ApplyFields(s, When(n != 0, ["D," + Digits(n)]), level) == s.(base := s.base.(delay := n))
  {
    hide Field, ReadField, Digits, Atoi, FieldText;
    if n != 0 {
      var f := "D," + Digits(n);
      assert f == ['D'] + "," + Digits(n);
      NumberField('D', n);
      AtoiOfDigits(n);
      BaseField(s, f, level);
      ApplyOne(s, f, level);
    } else {
      ApplyNone(s, level);
    }
  }

  lemma DepthGroup(s: Settings, trace: bool, n: nat, level: nat)
    requires IsInt(n) && s.base.maxdepth == 0 && !s.base.sw.trace && trace == (n > 0)
    ensures FieldTexts(When(trace, [DepthField(n)]))
    ensures ApplyFields(s, When(trace, [DepthField(n)]), level) ==
            s.(base := s.base.(maxdepth := n, sw := s.base.sw.(trace := trace)))
  {
    hide Field, ReadField, Digits, Atoi, FieldText;
    if trace {
      var f := DepthField(n);
      if n == MAXDEPTH {
        LetterText('t');
        ReadPlain('t', "");
        assert ['t'] + "" == "t";
      } else {
        assert f == ['t'] + "," + Digits(n);
        NumberField('t', n);
        AtoiOfDigits(n);
      }
      BaseField(s, f, level);
      ApplyOne(s, f, level);
    } else {
      ApplyNone(s, level);
    }
  }

  // -- output stream

  /** An output stream that `DBUGOpenFile` can have set. */
  predicate OutputOk(b: Base) {
    match b.out
    case Unset => false
    case Stderr => true
    case Stdout => b.name == "" && b.sw.flush
    case File(path) => path == b.name && path != "" && path != "-" && Safe(path)
  }

  function WithOutput(u: Base, b: Base): Base {
    var keep := b.out.Stderr?;
    u.(out := if keep then u.out else b.out, name := if keep then u.name else b.name,
       sw := u.sw.(flush := if keep then u.sw.flush else b.sw.flush,
                   append := if keep then u.sw.append else b.sw.append))
  }

  lemma OutputIsEdited(u: Base, c: char, arg: string, level: nat)
    requires IsOutput(c)
    ensures EditBase(u, Command(false, c, arg), level) == EditOutput(u, c, false, arg)
  {
    hide Atoi, EditTrace, EditSwitch, EditDebug, EditOutput;
  }

  lemma LetterSetsSwitches(u: Switches, sw: Switches)
    requires !u.flush
    ensures var c := OutputLetter(sw);
            u.(flush := u.flush || c == 'A' || c == 'O', append := c == 'a' || c == 'A')
            == u.(flush := sw.flush, append := sw.append)
  {
  }

  lemma OpenedOutput(u: Base, b: Base)
    requires OutputOk(b) && !b.out.Stderr?
    ensures OpenFile(u.(sw := u.sw.(flush := b.sw.flush, append := b.sw.append)),
                     if b.name != "" then b.name else "-") == WithOutput(u, b)
  {
    hide Safe;
    if b.out.Stdout? {
      assert u.sw.(flush := true, append := b.sw.append) == u.sw.(flush := b.sw.flush, append := b.sw.append);
    }
  }

  lemma OutputBase(u: Base, b: Base, level: nat)
    requires OutputOk(b) && !b.out.Stderr? && u.out.Stderr? && !u.sw.flush
    ensures EditBase(u, Command(false, OutputLetter(b.sw), b.name), level) == WithOutput(u, b)
  {
    hide EditBase, OutputOk, OutputLetter, OpenFile, WithOutput;
    var c := OutputLetter(b.sw);
    OutputLetterIsOutput(b.sw);
    OutputIsEdited(u, c, b.name, level);
    LetterSetsSwitches(u.sw, b.sw);
    OpenedOutput(u, b);
  }

  lemma OutputLetterIsOutput(sw: Switches)
    ensures IsOutput(OutputLetter(sw))
  {
  }

  lemma OutputGroup(s: Settings, b: Base, level: nat)
    requires OutputOk(b) && s.base.out.Stderr? && !s.base.sw.flush
    ensures FieldTexts(When(!b.out.Stderr?, [OutputField(b)]))
    ensures ApplyFields(s, When(!b.out.Stderr?, [OutputField(b)]), level) == s.(base := WithOutput(s.base, b))
  {
    hide Field, ReadField, FieldText, EditBase, Safe;
    if b.out.Stderr? {
      ApplyNone(s, level);
    } else {
      var c := OutputLetter(b.sw);
      var m := if b.name == "" then "" else "," + b.name;
      assert OutputField(b) == [c] + m;
      assert m != "" ==> m[1..] == b.name;
      ReadPlain(c, m);
      OutputText(c, m);
      OutputBase(s.base, b, level);
      BaseField(s, OutputField(b), level);
      ApplyOne(s, OutputField(b), level);
    }
  }

  lemma OutputText(c: char, m: string)
    requires IsOutput(c) && (m == "" || (m[0] == ',' && Safe(m[1..])))
    ensures FieldText([c] + m)
  {
    SafeWithoutColon([c]);
    SafeConcat([c], m);
  }
}
