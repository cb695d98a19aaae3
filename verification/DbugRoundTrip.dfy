/** `DbugParse` applied to the output of `_db_explain_`, for every settings level a run can reach. */
module DbugRoundTrip {
  import opened DbugList
  import opened DbugControl
  import opened DbugExplain

  /** What every reachable settings level satisfies (see `StackStaysExplainable`). */
  predicate Explainable(s: Settings) {
    && !s.base.sw.profile && s.lists.pFunctions.elems == []
    && (!s.base.sw.debug ==> s.lists.keywords.elems == [])
    && s.base.sw.trace == (s.base.maxdepth > 0)
    && OutputOk(s.base)
    && PrintableList(s.lists.keywords.elems)
    && PrintableList(s.lists.functions.elems)
    && PrintableList(s.lists.processes.elems)
  }

  lemma ReparsedNothing()
    ensures Reparsed([]) == []
  {
  }

  // ----- the effect of each group of fields

  /** A switch, or DEBUG_ON, turned on if `cond`. */
  function TurnOn(sw: Switches, c: char, cond: bool): Switches {
    Switches(
      sw.debug || (cond && c == 'd'), sw.file || (cond && c == 'F'), sw.line || (cond && c == 'L'),
      sw.depth || (cond && c == 'n'), sw.process || (cond && c == 'P'), sw.number || (cond && c == 'N'),
      sw.profile, sw.pid || (cond && c == 'i'), sw.timestamp || (cond && c == 'T'),
      sw.flush, sw.append, sw.trace)
  }

  function On(u: Settings, c: char, cond: bool): (r: Settings)
    ensures r.lists == u.lists
    ensures r.base.delay == u.base.delay && r.base.maxdepth == u.base.maxdepth && r.base.out == u.base.out
    ensures r.base.sw.flush == u.base.sw.flush && r.base.sw.trace == u.base.sw.trace
  {
    u.(base := u.base.(sw := TurnOn(u.base.sw, c, cond)))
  }

  function PutList(u: Settings, k: Kind, list: seq<Elem>): (r: Settings)
    ensures r.base == u.base && forall j :: j != k ==> r.lists.Get(j) == u.lists.Get(j)
  {
    u.(lists := u.lists.Put(k, Lst(Reparsed(list), false)))
  }

  function SetDelay(u: Settings, n: nat): (r: Settings)
    ensures r.lists == u.lists
    ensures r.base.maxdepth == u.base.maxdepth && r.base.out == u.base.out
    ensures r.base.sw == u.base.sw
  {
    u.(base := u.base.(delay := n))
  }

  function SetDepth(u: Settings, trace: bool, n: nat): (r: Settings) {
    u.(base := u.base.(maxdepth := n, sw := u.base.sw.(trace := trace)))
  }

  function SetOut(u: Settings, b: Base): (r: Settings)
    ensures r.lists == u.lists && r.base.maxdepth == u.base.maxdepth && r.base.sw.trace == u.base.sw.trace
  {
    u.(base := WithOutput(u.base, b))
  }

  lemma WhenSwitch(u: Settings, c: char, cond: bool, level: nat)
    requires IsSwitch(c)
    ensures FieldTexts(When(cond, [[c]])) && ApplyFields(u, When(cond, [[c]]), level) == On(u, c, cond)
  {
    hide ApplyFields, FieldTexts, When;
    SwitchGroup(u, c, cond, level);
  }

  lemma WhenList(u: Settings, letter: char, cond: bool, list: seq<Elem>, level: nat)
    requires EditsList(letter) && u.lists.Get(ListOf(letter)) == NO_LIST && PrintableList(list)
    requires !cond ==> list == []
    ensures FieldTexts(When(cond, ListFields(letter, list)))
    ensures ApplyFields(u, When(cond, ListFields(letter, list)), level) ==
            On(PutList(u, ListOf(letter), list), 'd', cond && letter == 'd')
  {
    hide Field, ListFields, FieldText, Printable;
    if cond {
      ListGroup(u, letter, list, level);
    } else {
      ReparsedNothing();
      ApplyNone(u, level);
    }
  }

  /** Five groups of fields applied one after the other. */
  lemma ApplyFive(u: Settings, a: seq<string>, b: seq<string>, c: seq<string>, d: seq<string>, e: seq<string>,
                  level: nat)
    requires FieldTexts(a) && FieldTexts(b) && FieldTexts(c) && FieldTexts(d) && FieldTexts(e)
    ensures FieldTexts(a + (b + (c + (d + e))))
    ensures ApplyFields(u, a + (b + (c + (d + e))), level) ==
            ApplyFields(ApplyFields(ApplyFields(ApplyFields(ApplyFields(u, a, level), b, level), c, level), d, level), e, level)
  {
    hide ApplyFields, FieldTexts;
    var u1 := ApplyFields(u, a, level);
    var u2 := ApplyFields(u1, b, level);
    var u3 := ApplyFields(u2, c, level);
    ApplyConcat(u3, d, e, level);
    ApplyConcat(u2, c, d + e, level);
    ApplyConcat(u1, b, c + (d + e), level);
    ApplyConcat(u, a, b + (c + (d + e)), level);
  }

  function AfterFirst(u: Settings, s: Settings): Settings {
    var u1 := On(PutList(u, Keywords, s.lists.keywords.elems), 'd', s.base.sw.debug);
    var u2 := SetDelay(u1, s.base.delay);
    var u3 := On(PutList(u2, Functions, s.lists.functions.elems), 'd', false);
    On(On(u3, 'F', s.base.sw.file), 'i', s.base.sw.pid)
  }

  lemma FirstPart(u: Settings, s: Settings, level: nat)
    requires Explainable(s) && IsInt(s.base.delay)
    requires u.lists.keywords == NO_LIST && u.lists.functions == NO_LIST && u.base.delay == 0
    ensures FieldTexts(FirstFields(s)) && ApplyFields(u, FirstFields(s), level) == AfterFirst(u, s)
  {
    hide ApplyFields, FieldTexts, ListFields, Digits, PrintableList, When, OutputOk, On, PutList, SetDelay;
    var b, l := s.base, s.lists;
    assert u.lists.Get(Functions) == NO_LIST;
    WhenList(u, 'd', b.sw.debug, l.keywords.elems, level);
    var u1 := On(PutList(u, Keywords, l.keywords.elems), 'd', b.sw.debug);
    assert u1.lists.Get(Functions) == NO_LIST;
    DelayStep(u1, b.delay, level);
    var u2 := SetDelay(u1, b.delay);
    WhenList(u2, 'f', l.functions.elems != [], l.functions.elems, level);
    var u3 := On(PutList(u2, Functions, l.functions.elems), 'd', false);
    WhenSwitch(u3, 'F', b.sw.file, level);
    WhenSwitch(On(u3, 'F', b.sw.file), 'i', b.sw.pid, level);
    ApplyFive(u, When(b.sw.debug, ListFields('d', l.keywords.elems)), When(b.delay != 0, ["D," + Digits(b.delay)]),
              When(l.functions.elems != [], ListFields('f', l.functions.elems)),
              When(b.sw.file, ["F"]), When(b.sw.pid, ["i"]), level);
  }

  lemma DelayStep(u: Settings, n: nat, level: nat)
    requires IsInt(n) && u.base.delay == 0
    ensures FieldTexts(When(n != 0, ["D," + Digits(n)]))
    ensures ApplyFields(u, When(n != 0, ["D," + Digits(n)]), level) == SetDelay(u, n)
  {
    hide ApplyFields, FieldTexts, When;
    DelayGroup(u, n, level);
  }

  lemma NotWhen(fields: seq<string>)
    ensures When(false, fields) == []
  {
  }

  function AfterMiddle(u: Settings, s: Settings): Settings {
    SetOut(On(On(On(u, 'L', s.base.sw.line), 'n', s.base.sw.depth), 'N', s.base.sw.number), s.base)
  }

  lemma MiddlePart(u: Settings, s: Settings, level: nat)
    requires Explainable(s)
    requires u.base.out.Stderr? && !u.base.sw.flush
    ensures FieldTexts(MiddleFields(s)) && ApplyFields(u, MiddleFields(s), level) == AfterMiddle(u, s)
  {
    hide ApplyFields, FieldTexts, ListFields, When, OutputOk, OutputField, PrintableList, On;
    var b := s.base;
    var g := When(b.sw.profile, ListFields('g', s.lists.pFunctions.elems));
    assert g == [] by { NotWhen(ListFields('g', s.lists.pFunctions.elems)); }
    ApplyNone(u, level);
    WhenSwitch(u, 'L', b.sw.line, level);
    var u1 := On(u, 'L', b.sw.line);
    WhenSwitch(u1, 'n', b.sw.depth, level);
    var u2 := On(u1, 'n', b.sw.depth);
    WhenSwitch(u2, 'N', b.sw.number, level);
    OutputGroup(On(u2, 'N', b.sw.number), b, level);
    ApplyFive(u, g, When(b.sw.line, ["L"]), When(b.sw.depth, ["n"]), When(b.sw.number, ["N"]),
              When(!b.out.Stderr?, [OutputField(b)]), level);
  }

  function AfterLast(u: Settings, s: Settings): Settings {
    var u1 := On(PutList(u, Processes, s.lists.processes.elems), 'd', false);
    On(SetDepth(On(u1, 'P', s.base.sw.process), s.base.sw.trace, s.base.maxdepth), 'T', s.base.sw.timestamp)
  }

  lemma LastPart(u: Settings, s: Settings, level: nat)
    requires Explainable(s) && IsInt(s.base.maxdepth) && s.base.subLevel == 0
    requires u.lists.processes == NO_LIST && u.base.maxdepth == 0 && !u.base.sw.trace
    ensures FieldTexts(LastFields(s)) && ApplyFields(u, LastFields(s), level) == AfterLast(u, s)
  {
    hide ApplyFields, FieldTexts, ListFields, When, OutputOk, DepthField, PrintableList, On, PutList;
    var b, l := s.base, s.lists;
    WhenList(u, 'p', l.processes.elems != [], l.processes.elems, level);
    var u1 := On(PutList(u, Processes, l.processes.elems), 'd', false);
    WhenSwitch(u1, 'P', b.sw.process, level);
    var u2 := On(u1, 'P', b.sw.process);
    assert When(b.subLevel != 0, ["r"]) == [] by { NotWhen(["r"]); }
    ApplyNone(u2, level);
    DepthGroup(u2, b.sw.trace, b.maxdepth, level);
    WhenSwitch(SetDepth(u2, b.sw.trace, b.maxdepth), 'T', b.sw.timestamp, level);
    ApplyFive(u, When(l.processes.elems != [], ListFields('p', l.processes.elems)), When(b.sw.process, ["P"]),
              When(b.subLevel != 0, ["r"]), When(b.sw.trace, [DepthField(b.maxdepth)]),
              When(b.sw.timestamp, ["T"]), level);
  }

  // ----- the round trip

  /** The settings that the printed string is parsed to.  With output to stderr nothing is printed
      about the file, so its switches are cleared and the name is left over from before. */
  function Rebuilt(s: Settings, before: Base): Settings {
    Settings(
      s.base.(name := if s.base.out.Stderr? then before.name else s.base.name,
              sw := s.base.sw.(flush := s.base.sw.flush && !s.base.out.Stderr?,
                               append := s.base.sw.append && !s.base.out.Stderr?)),
      Quad(Lst(Reparsed(s.lists.functions.elems), false), NO_LIST,
           Lst(Reparsed(s.lists.keywords.elems), false), Lst(Reparsed(s.lists.processes.elems), false)))
  }

  /** The settings on the way, after the first and after the middle fields. */
  function Halfway(s: Settings, before: Base): Settings {
    Settings(Base(Switches(s.base.sw.debug, s.base.sw.file, false, false, false, false, false, s.base.sw.pid,
                           false, false, false, false), 0, s.base.delay, 0, Stderr, before.name),
             Quad(Lst(Reparsed(s.lists.functions.elems), false), NO_LIST,
                  Lst(Reparsed(s.lists.keywords.elems), false), NO_LIST))
  }

  function AlmostThere(s: Settings, before: Base): Settings {
    var h, toFile := Halfway(s, before), !s.base.out.Stderr?;
    h.(base := Base(Switches(s.base.sw.debug, s.base.sw.file, s.base.sw.line, s.base.sw.depth, false,
                             s.base.sw.number, false, s.base.sw.pid, false,
                             toFile && s.base.sw.flush, toFile && s.base.sw.append, false),
                    0, s.base.delay, 0, s.base.out, if toFile then s.base.name else before.name))
  }

  lemma FirstFromCleared(s: Settings, before: Base)
    ensures AfterFirst(Cleared(before), s) == Halfway(s, before)
  {
    hide Reparsed;
    var sw := s.base.sw;
    assert TurnOn(TurnOn(TurnOn(TurnOn(NO_SWITCHES, 'd', sw.debug), 'd', false), 'F', sw.file), 'i', sw.pid)
        == Halfway(s, before).base.sw;
  }

  lemma MiddleSwitches(s: Settings, before: Base)
    ensures TurnOn(TurnOn(TurnOn(Halfway(s, before).base.sw, 'L', s.base.sw.line), 'n', s.base.sw.depth),
                   'N', s.base.sw.number)
         == AlmostThere(s, before).base.sw.(flush := false, append := false)
  {
    hide Reparsed;
  }

  lemma MiddleFromHalfway(s: Settings, before: Base)
    ensures AfterMiddle(Halfway(s, before), s) == AlmostThere(s, before)
  {
    hide Reparsed, TurnOn;
    MiddleSwitches(s, before);
  }

  lemma LastSwitches(s: Settings, before: Base)
    requires !s.base.sw.profile
    ensures var sw := TurnOn(TurnOn(AlmostThere(s, before).base.sw, 'd', false), 'P', s.base.sw.process);
            TurnOn(sw.(trace := s.base.sw.trace), 'T', s.base.sw.timestamp) == Rebuilt(s, before).base.sw
  {
    hide Reparsed;
  }

  lemma LastFromAlmostThere(s: Settings, before: Base)
    requires !s.base.sw.profile && s.base.subLevel == 0
    ensures AfterLast(AlmostThere(s, before), s) == Rebuilt(s, before)
  {
    hide Reparsed, TurnOn;
    LastSwitches(s, before);
  }

  lemma PartsCompose(s: Settings, before: Base)
    requires !s.base.sw.profile && s.base.subLevel == 0
    ensures AfterLast(AfterMiddle(AfterFirst(Cleared(before), s), s), s) == Rebuilt(s, before)
  {
    hide AfterFirst, AfterMiddle, AfterLast, Rebuilt;
    FirstFromCleared(s, before);
    MiddleFromHalfway(s, before);
    LastFromAlmostThere(s, before);
  }

  predicate StartsUnsigned(fields: seq<string>) {
    fields == [] || (fields[0] != "" && fields[0][0] != '-' && fields[0][0] != '+')
  }

  lemma ConcatUnsigned(a: seq<string>, b: seq<string>)
    requires StartsUnsigned(a) && StartsUnsigned(b)
    ensures StartsUnsigned(a + b)
  {
  }

  lemma ListFieldsUnsigned(cond: bool, c: char, list: seq<Elem>)
    requires c != '-' && c != '+'
    ensures StartsUnsigned(When(cond, ListFields(c, list)))
  {
    hide AnyExclude;
    if cond {
      assert ListFields(c, list)[0][0] == c;
    }
  }

  lemma FiveUnsigned(a: seq<string>, b: seq<string>, c: seq<string>, d: seq<string>, e: seq<string>)
    requires StartsUnsigned(a) && StartsUnsigned(b) && StartsUnsigned(c) && StartsUnsigned(d) && StartsUnsigned(e)
    ensures StartsUnsigned(a + (b + (c + (d + e))))
  {
    hide StartsUnsigned;
    ConcatUnsigned(d, e);
    ConcatUnsigned(c, d + e);
    ConcatUnsigned(b, c + (d + e));
    ConcatUnsigned(a, b + (c + (d + e)));
  }

  lemma WhenUnsigned(cond: bool, field: string)
    requires field != "" && field[0] != '-' && field[0] != '+'
    ensures StartsUnsigned(When(cond, [field]))
  {
  }

  lemma FirstUnsigned(s: Settings)
    ensures StartsUnsigned(FirstFields(s))
  {
    hide ListFields, Digits, StartsUnsigned, When;
    var b, l := s.base, s.lists;
    ListFieldsUnsigned(b.sw.debug, 'd', l.keywords.elems);
    WhenUnsigned(b.delay != 0, "D," + Digits(b.delay));
    ListFieldsUnsigned(l.functions.elems != [], 'f', l.functions.elems);
    WhenUnsigned(b.sw.file, "F");
    WhenUnsigned(b.sw.pid, "i");
    FiveUnsigned(When(b.sw.debug, ListFields('d', l.keywords.elems)), When(b.delay != 0, ["D," + Digits(b.delay)]),
                 When(l.functions.elems != [], ListFields('f', l.functions.elems)),
                 When(b.sw.file, ["F"]), When(b.sw.pid, ["i"]));
  }

  lemma MiddleUnsigned(s: Settings)
    ensures StartsUnsigned(MiddleFields(s))
  {
    hide ListFields, StartsUnsigned, When, OutputLetter;
    var b := s.base;
    ListFieldsUnsigned(b.sw.profile, 'g', s.lists.pFunctions.elems);
    WhenUnsigned(b.sw.line, "L");
    WhenUnsigned(b.sw.depth, "n");
    WhenUnsigned(b.sw.number, "N");
    OutputLetterIsOutput(b.sw);
    WhenUnsigned(!b.out.Stderr?, OutputField(b));
    FiveUnsigned(When(b.sw.profile, ListFields('g', s.lists.pFunctions.elems)),
                 When(b.sw.line, ["L"]), When(b.sw.depth, ["n"]), When(b.sw.number, ["N"]),
                 When(!b.out.Stderr?, [OutputField(b)]));
  }

  lemma LastUnsigned(s: Settings)
    ensures StartsUnsigned(LastFields(s))
  {
    hide ListFields, Digits, StartsUnsigned, When;
    var b, l := s.base, s.lists;
    ListFieldsUnsigned(l.processes.elems != [], 'p', l.processes.elems);
    WhenUnsigned(b.sw.process, "P");
    WhenUnsigned(b.subLevel != 0, "r");
    WhenUnsigned(b.sw.trace, DepthField(b.maxdepth));
    WhenUnsigned(b.sw.timestamp, "T");
    FiveUnsigned(When(l.processes.elems != [], ListFields('p', l.processes.elems)), When(b.sw.process, ["P"]),
                 When(b.subLevel != 0, ["r"]), When(b.sw.trace, [DepthField(b.maxdepth)]),
                 When(b.sw.timestamp, ["T"]));
  }

  lemma ExplainUnsigned(s: Settings)
    ensures StartsUnsigned(ExplainFields(s))
  {
    hide FirstFields, MiddleFields, LastFields, StartsUnsigned;
    FirstUnsigned(s);
    MiddleUnsigned(s);
    LastUnsigned(s);
    ConcatUnsigned(MiddleFields(s), LastFields(s));
    ConcatUnsigned(FirstFields(s), MiddleFields(s) + LastFields(s));
  }

  lemma AllParts(u: Settings, s: Settings, level: nat)
    requires Explainable(s) && IsInt(s.base.delay) && IsInt(s.base.maxdepth) && s.base.subLevel == 0
    requires u.lists == NO_LISTS && u.base.delay == 0 && u.base.maxdepth == 0
    requires u.base.out.Stderr? && u.base.sw == NO_SWITCHES
    ensures FieldTexts(ExplainFields(s))
    ensures ApplyFields(u, ExplainFields(s), level) == AfterLast(AfterMiddle(AfterFirst(u, s), s), s)
  {
    hide ApplyFields, FieldTexts, FirstFields, MiddleFields, LastFields, Explainable, On, PutList, SetDelay, SetOut;
    FirstPart(u, s, level);
    var u1 := AfterFirst(u, s);
    assert u1.lists.Get(Processes) == NO_LIST;
    MiddlePart(u1, s, level);
    var u2 := AfterMiddle(u1, s);
    LastPart(u2, s, level);
    ApplyConcat(u1, MiddleFields(s), LastFields(s), level);
    ApplyConcat(u, FirstFields(s), MiddleFields(s) + LastFields(s), level);
  }

  lemma NotProfiled(s: Settings)
    requires Explainable(s)
    ensures !s.base.sw.profile
  {
  }

  /** Parsing what `_db_explain_` printed. */
  lemma ParseExplained(s: Settings, stack: seq<Settings>, level: nat)
    requires Explainable(s) && IsInt(s.base.delay) && IsInt(s.base.maxdepth) && s.base.subLevel == 0
    requires stack != []
    ensures Parse(stack, Explain(s), level) == (Rebuilt(s, stack[|stack| - 1].base), true)
  {
    hide ApplyFields, ExplainFields, Explainable, AfterFirst, AfterMiddle, AfterLast, Rebuilt, Fields, FieldText;
    var before := stack[|stack| - 1].base;
    AllParts(Cleared(before), s, level);
    assert !s.base.sw.profile by { NotProfiled(s); }
    PartsCompose(s, before);
    ExplainUnsigned(s);
    var c := Explain(s);
    if ExplainFields(s) != [] {
      JoinStart(ExplainFields(s));
    }
    assert c[0..] == c;
    FieldsOfJoin(Cleared(before), c, 0, ExplainFields(s), level);
  }

  /** A list survives printing and parsing with its elements exactly when its condition holds, and
      then comes back in print order. */
  predicate ListSurvives(was: seq<Elem>, now: seq<Elem>) {
    && (multiset(now) == multiset(was) <==> OneFlag(was) && NoLaterPrefix(Reorder(was)))
    && (OneFlag(was) && NoLaterPrefix(Reorder(was)) ==> now == Reorder(was))
  }

  lemma RoundTrip(s: Settings, stack: seq<Settings>, level: nat)
    requires Explainable(s) && IsInt(s.base.delay) && IsInt(s.base.maxdepth) && s.base.subLevel == 0
    requires stack != []
    ensures var r := Parse(stack, Explain(s), level).0;
            && (!s.base.out.Stderr? ==> r.base == s.base)
            && (s.base.out.Stderr? ==>
                  r.base == s.base.(name := r.base.name, sw := s.base.sw.(flush := false, append := false)))
            && ListSurvives(s.lists.keywords.elems, r.lists.keywords.elems)
            && ListSurvives(s.lists.functions.elems, r.lists.functions.elems)
            && ListSurvives(s.lists.processes.elems, r.lists.processes.elems)
  {
    hide Parse, Reparsed, OneFlag, NoLaterPrefix, Reorder, Explain;
    ParseExplained(s, stack, level);
    ListRoundTrip(s.lists.keywords.elems);
    ListRoundTrip(s.lists.functions.elems);
    ListRoundTrip(s.lists.processes.elems);
  }
}
