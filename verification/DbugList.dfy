/** The pattern lists of the dbug runtime as values: how a comma separated modifier list edits
    them (`ListAddDel`), how they are copied (`ListCopy`) and queried (`InList`, `ListFlags`). */
module DbugList {

  /** What `ListAddDel` is asked to do with every token. */
  datatype Todo = Include | Exclude

  /** One `struct link`: the pattern and its three flag bits. */
  datatype Elem = Elem(str: string, subdir: bool, incl: bool, excl: bool)

  /** Position of the first comma of `text`, or its length. */
  function TokenEnd(text: string): (n: nat)
    ensures n <= |text|
    ensures forall i :: 0 <= i < n ==> text[i] != ','
    ensures n < |text| ==> text[n] == ','
  {
    if text == "" || text[0] == ',' then 0 else 1 + TokenEnd(text[1..])
  }

  predicate EndsWithSlash(tok: string) {
    |tok| > 0 && tok[|tok| - 1] == '/'
  }

  /** The pattern of a token: a trailing slash is the SUBDIR mark, not part of the pattern. */
  function Pattern(tok: string): string {
    if EndsWithSlash(tok) then tok[..|tok| - 1] else tok
  }

  function NewElem(tok: string, todo: Todo): Elem {
    Elem(Pattern(tok), EndsWithSlash(tok), todo.Include?, todo.Exclude?)
  }

  /** `strncmp(cur->str, start, len) == 0`: the token's pattern is a prefix of the stored one. */
  predicate Hits(e: Elem, tok: string) {
    Pattern(tok) <= e.str
  }

  predicate SameAction(e: Elem, todo: Todo) {
    if todo.Include? then e.incl else e.excl
  }

  /** One token applied to the list: the first element it hits is merged, deleted or re-flagged;
      with no hit a new element goes to the end. */
  function AddToken(list: seq<Elem>, tok: string, todo: Todo): seq<Elem> {
    if list == [] then [NewElem(tok, todo)]
    else if Hits(list[0], tok) then
      if SameAction(list[0], todo) then
        [list[0].(subdir := list[0].subdir || EndsWithSlash(tok))] + list[1..]
      else if todo.Exclude? then
        list[1..]
      else
        // EXCLUDE & SUBDIR is zero, so the EXCLUDE bit survives
        [list[0].(incl := true, subdir := list[0].subdir || EndsWithSlash(tok))] + list[1..]
    else
      [list[0]] + AddToken(list[1..], tok, todo)
  }

  function ListAddDel(list: seq<Elem>, text: string, todo: Todo): seq<Elem>
    decreases |text|
  {
    if text == "" then list else
    var n := TokenEnd(text);
    var tok := text[..n];
    var list' := if Pattern(tok) == "" then list else AddToken(list, tok, todo);
    if n == |text| then list' else ListAddDel(list', text[n + 1..], todo)
  }

  function Reverse<T>(s: seq<T>): (r: seq<T>)
    ensures |r| == |s|
    ensures forall i :: 0 <= i < |s| ==> r[i] == s[|s| - 1 - i]
  {
    if s == [] then [] else Reverse(s[1..]) + [s[0]]
  }

  /** OR of one flag over the list. */
  predicate AnySubdir(list: seq<Elem>) {
    exists i :: 0 <= i < |list| && list[i].subdir
  }

  predicate AnyInclude(list: seq<Elem>) {
    exists i :: 0 <= i < |list| && list[i].incl
  }

  predicate AnyExclude(list: seq<Elem>) {
    exists i :: 0 <= i < |list| && list[i].excl
  }

  /** Result of `InList`: the flags of the first matching element, or the default for a name
      that matches nothing (MATCHED bit, SUBDIR bit). */
  datatype Lookup = Hit(subdir: bool, incl: bool, excl: bool) | Miss(matched: bool, sub: bool)

  function InListFrom(list: seq<Elem>, name: string, fnmatch: (string, string) -> bool,
                      matched: bool, sub: bool): Lookup
  {
    if list == [] then Miss(matched, sub)
    else if fnmatch(list[0].str, name) then Hit(list[0].subdir, list[0].incl, list[0].excl)
    else
      // NOT_MATCHED overwrites the whole result, the SUBDIR bit included
      InListFrom(list[1..], name, fnmatch, matched && list[0].excl,
                 (list[0].excl && sub) || list[0].subdir)
  }

  function InList(list: seq<Elem>, name: string, fnmatch: (string, string) -> bool): Lookup {
    InListFrom(list, name, fnmatch, true, false)
  }

  /** A list without SUBDIR elements never answers with a SUBDIR bit. */
  lemma {:induction false} NoSubdirNoLookupSubdir(list: seq<Elem>, name: string,
                                                  fnmatch: (string, string) -> bool, matched: bool)
    requires !AnySubdir(list)
    ensures var r := InListFrom(list, name, fnmatch, matched, false);
            if r.Hit? then !r.subdir else !r.sub
  {
    if list != [] {
      assert !list[0].subdir;
      assert !AnySubdir(list[1..]) by {
        forall i | 0 <= i < |list[1..]| ensures !list[1..][i].subdir { assert list[1..][i] == list[i + 1]; }
      }
      NoSubdirNoLookupSubdir(list[1..], name, fnmatch, matched && list[0].excl);
    }
  }

  /** `ListCopy` reverses, which keeps the aggregate flags. */
  lemma ReverseKeepsFlags(list: seq<Elem>)
    ensures AnySubdir(Reverse(list)) == AnySubdir(list)
    ensures AnyInclude(Reverse(list)) == AnyInclude(list)
  {
    var r := Reverse(list);
    assert forall i :: 0 <= i < |list| ==> list[i] == r[|list| - 1 - i];
    assert forall i :: 0 <= i < |list| ==> r[i] == list[|list| - 1 - i];
  }
}
