/** The replay of LOAD DATA by the binary log reader: temporary files are filled block by block and
    named when the statement is printed. Calls to the file system do not fail, except that a file
    cannot be created under a name that exists. */
module LoadProcessor {

  /** Events of LOAD DATA statements, each with its file id. `skip` is the database filter. */
  datatype Event =
    | Begin(id: nat, block: string)
    | Create(id: nat, block: string, bname: string, skip: bool)
    | Append(id: nat, block: string)
    | ExecuteQuery(id: nat, skip: bool)
    | ExecLoad(id: nat)

  // ----- what the events mean

  /** `bname` is the name its file is derived from. */
  datatype Load = Closed | Open(created: bool, bname: string, content: string)

  function BaseName(ev: Event): string { if ev.Create? then ev.bname else "SQL_LOAD_MB" }

  /** What an event does to the load of an id. */
  function Step(load: Load, ev: Event, id: nat): Load {
    if ev.id != id then load
    else
      match ev
      case Begin(_, block) => Open(false, BaseName(ev), block)
      case Create(_, block, _, skip) => if skip then load else Open(true, BaseName(ev), block)
      case Append(_, block) => if load.Open? then load.(content := load.content + block) else load
      case ExecuteQuery(_, _) => if load.Open? && !load.created then Closed else load
      case ExecLoad(_) => if load.Open? && load.created then Closed else load
  }

  /** The load open under an id after a history. */
  function Opened(h: seq<Event>, id: nat): Load {
    if h == [] then Closed else Step(Opened(h[..|h| - 1], id), h[|h| - 1], id)
  }

  /** Does the event print the statement of the open load? */
  predicate Prints(ev: Event, load: Load) {
    load.Open? && ((ev.ExecuteQuery? && !ev.skip && !load.created) || (ev.ExecLoad? && load.created))
  }

  /** The loads whose statements are printed, in order. */
  function Printed(h: seq<Event>): seq<Load> {
    if h == [] then []
    else
      var ev := h[|h| - 1];
      var load := Opened(h[..|h| - 1], ev.id);
      Printed(h[..|h| - 1]) + (if Prints(ev, load) then [load] else [])
  }

  predicate Opens(ev: Event, id: nat) { ev.id == id && (ev.Begin? || (ev.Create? && !ev.skip)) }

  predicate Closes(ev: Event, id: nat, created: bool) {
    ev.id == id && if created then ev.ExecLoad? else ev.ExecuteQuery?
  }

  /** The blocks appended to an id. */
  function Blocks(h: seq<Event>, id: nat): string {
    if h == [] then ""
    else Blocks(h[..|h| - 1], id) + (if h[|h| - 1].Append? && h[|h| - 1].id == id then h[|h| - 1].block else "")
  }

  /** From an opening event on, until it is opened again or executed, a load holds the first block and
      all the appended ones, in order, whatever happens to other ids. */
  lemma {:induction false} OpenedIsBlocks(h: seq<Event>, first: Event, later: seq<Event>, id: nat)
    requires Opens(first, id)
    requires forall k :: 0 <= k < |later| ==> !Opens(later[k], id) && !Closes(later[k], id, first.Create?)
    ensures Opened(h + [first] + later, id) == Open(first.Create?, BaseName(first), first.block + Blocks(later, id))
    decreases |later|
  {
    var all := h + [first] + later;
    hide Step, Closes;
    if later == [] {
      assert all == h + [first] && all[..|all| - 1] == h;
      StepOpens(Opened(h, id), first, id);
    } else {
      var front, ev := later[..|later| - 1], later[|later| - 1];
      assert all[..|all| - 1] == h + [first] + front && all[|all| - 1] == ev;
      OpenedIsBlocks(h, first, front, id);
      StepAppends(Open(first.Create?, BaseName(first), first.block + Blocks(front, id)), first.block, Blocks(front, id), ev, id);
    }
  }

  /** The execution of a load, after any number of events that neither open nor execute it: the statement
      printed is for the first block and all the appended ones, nothing is printed if the database is
      filtered out, and the load is closed in both cases. */
  lemma Executes(h: seq<Event>, first: Event, later: seq<Event>, id: nat, skip: bool)
    requires first.id == id && (first.Begin? || (first.Create? && !first.skip))
    requires forall k :: 0 <= k < |later| ==> !Opens(later[k], id) && !Closes(later[k], id, first.Create?)
    ensures var all := h + [first] + later;
            var end := all + [if first.Create? then ExecLoad(id) else ExecuteQuery(id, skip)];
            && Opened(end, id) == Closed
            && Printed(end) == Printed(all) + (if skip && first.Begin? then []
                                               else [Open(first.Create?, BaseName(first), first.block + Blocks(later, id))])
  {
    var all, ev := h + [first] + later, if first.Create? then ExecLoad(id) else ExecuteQuery(id, skip);
    OpenedIsBlocks(h, first, later, id);
    OpenedNext(all, ev, id);
    PrintedNext(all, ev);
    assert Printed(all) + [] == Printed(all);
    hide Opened, Printed, Blocks;
  }

  /** No other event prints anything or closes the load of an id: not the first one of a load, not a
      block, and not an execution of the other kind or of another id. */
  lemma PrintsNothing(h: seq<Event>, ev: Event)
    requires ev.Begin? || ev.Create? || ev.Append? || Opened(h, ev.id).Closed? || (Opened(h, ev.id).created <==> ev.ExecuteQuery?)
    ensures Printed(h + [ev]) == Printed(h)
    ensures forall id: nat :: Opened(h, id).Open? ==> Opened(h + [ev], id).Open?
  {
    PrintedNext(h, ev);
    hide Printed, Opened;
    forall id: nat | Opened(h, id).Open?
      ensures Opened(h + [ev], id).Open?
    {
      OpenedNext(h, ev, id);
    }
  }

  lemma StepOpens(load: Load, first: Event, id: nat)
    requires Opens(first, id)
    ensures Step(load, first, id) == Open(first.Create?, BaseName(first), first.block + "")
  {
    assert first.block + "" == first.block;
  }

  lemma StepAppends(load: Load, block: string, blocks: string, ev: Event, id: nat)
    requires load.Open? && load.content == block + blocks && !Opens(ev, id) && !Closes(ev, id, load.created)
    ensures Step(load, ev, id) == load.(content := block + (blocks + (if ev.Append? && ev.id == id then ev.block else "")))
  {
    assert ev.Append? ==> block + blocks + ev.block == block + (blocks + ev.block);
    assert blocks + "" == blocks;
  }

  // ----- the program

  datatype Record = Empty | Active(fname: string, created: bool)

  function Digit(n: nat): char
    requires n < 16
  {
    "0123456789abcdef"[n]
  }

  function Hex(n: nat): string { if n < 16 then [Digit(n)] else Hex(n / 16) + [Digit(n % 16)] }

  /** The record of an id; the table is as long as the largest id seen. */
  function At(names: seq<Record>, id: nat): Record { if id < |names| then names[id] else Empty }

  /** The file holds the load; its name has a backslash exactly when the directory or the base name
      has one. */
  predicate InFile(dir: string, name: string, load: Load, disk: map<string, string>) {
    && name in disk && load.Open? && load.content == disk[name]
    && (NoBackslash(name) <==> NoBackslash(dir) && NoBackslash(load.bname))
  }

  /** The record holds the load, in a file of its own. */
  predicate Holds(dir: string, r: Record, load: Load, disk: map<string, string>) {
    if r.Empty? then load.Closed? else load.Open? && load.created == r.created && InFile(dir, r.fname, load, disk)
  }

  ghost predicate Uses(names: seq<Record>, name: string) { exists id: nat :: At(names, id).Active? && At(names, id).fname == name }

  /** No two open loads share a file, and none uses a printed file or one that was there before. */
  ghost predicate Apart(names: seq<Record>, printed: seq<string>, before: map<string, string>) {
    && (forall i: nat, j: nat :: i != j && At(names, i).Active? && At(names, j).Active? ==> At(names, i).fname != At(names, j).fname)
    && (forall k :: 0 <= k < |printed| ==> !Uses(names, printed[k]))
    && (forall n :: n in before ==> !Uses(names, n))
  }

  /** Every open load is held. */
  ghost predicate Loads(dir: string, names: seq<Record>, disk: map<string, string>, h: seq<Event>) {
    forall id: nat :: Holds(dir, At(names, id), Opened(h, id), disk)
  }

  /** Each printed file holds its load, and old files have the contents they had. */
  ghost predicate Files(dir: string, disk: map<string, string>, files: seq<string>, loads: seq<Load>, before: map<string, string>) {
    && |files| == |loads|
    && (forall k :: 0 <= k < |files| ==> InFile(dir, files[k], loads[k], disk))
    && (forall n :: n in before ==> n in disk && disk[n] == before[n])
  }

  /** The new table differs in one record. */
  ghost predicate Set(names: seq<Record>, after: seq<Record>, id: nat, r: Record) {
    forall i: nat :: At(after, i) == if i == id then r else At(names, i)
  }

  lemma OpenedNext(h: seq<Event>, ev: Event, id: nat)
    ensures Opened(h + [ev], id) == Step(Opened(h, id), ev, id)
  {
    assert (h + [ev])[..|h|] == h;
  }

  lemma PrintedNext(h: seq<Event>, ev: Event)
    ensures Printed(h + [ev]) ==
            if Prints(ev, Opened(h, ev.id)) then Printed(h) + [Opened(h, ev.id)] else Printed(h)
  {
    assert (h + [ev])[..|h|] == h;
  }

  /** A name that is not on the disk is not in use. */
  lemma NewName(dir: string, names: seq<Record>, disk: map<string, string>, h: seq<Event>, name: string)
    requires Loads(dir, names, disk, h) && name !in disk
    ensures !Uses(names, name)
  {
    forall id: nat | At(names, id).Active?
      ensures At(names, id).fname != name
    {
      assert Holds(dir, At(names, id), Opened(h, id), disk);
    }
  }

  /** One record is emptied or gets a file nobody uses. */
  lemma SetApart(names: seq<Record>, after: seq<Record>, id: nat, r: Record, printed: seq<string>, before: map<string, string>)
    requires Apart(names, printed, before) && Set(names, after, id, r)
    requires r.Active? ==> !Uses(names, r.fname) && r.fname !in printed && r.fname !in before
    ensures Apart(after, printed, before)
  {
    forall n | Uses(after, n)
      ensures Uses(names, n) || (r.Active? && n == r.fname)
    {
      var i: nat :| At(after, i).Active? && At(after, i).fname == n;
      assert i != id ==> At(names, i).fname == n;
    }
    forall i: nat, j: nat | i != j && At(after, i).Active? && At(after, j).Active?
      ensures At(after, i).fname != At(after, j).fname
    {
      assert i != id ==> At(names, i) == At(after, i);
      assert j != id ==> At(names, j) == At(after, j);
    }
  }

  /** Writing to one file leaves the loads that do not use it. */
  lemma WriteLoads(dir: string, names: seq<Record>, after: seq<Record>, id: nat, r: Record, disk: map<string, string>, name: string, text: string,
                   h: seq<Event>, ev: Event)
    requires Loads(dir, names, disk, h) && Set(names, after, id, r) && ev.id == id
    requires Holds(dir, r, Step(Opened(h, id), ev, id), disk[name := text])
    requires forall i: nat :: i != id && At(names, i).Active? ==> At(names, i).fname != name
    ensures Loads(dir, after, disk[name := text], h + [ev])
  {
    forall i: nat
      ensures Holds(dir, At(after, i), Opened(h + [ev], i), disk[name := text])
    {
      OpenedNext(h, ev, i);
      assert Holds(dir, At(names, i), Opened(h, i), disk);
    }
  }

  lemma SameLoads(dir: string, names: seq<Record>, after: seq<Record>, id: nat, r: Record, disk: map<string, string>, h: seq<Event>, ev: Event)
    requires Loads(dir, names, disk, h) && Set(names, after, id, r) && ev.id == id && Holds(dir, r, Step(Opened(h, id), ev, id), disk)
    ensures Loads(dir, after, disk, h + [ev])
  {
    forall i: nat
      ensures Holds(dir, At(after, i), Opened(h + [ev], i), disk)
    {
      OpenedNext(h, ev, i);
      assert Holds(dir, At(names, i), Opened(h, i), disk);
    }
  }

  datatype Option = None | Some(name: string)

  class Processor {
    const dir: string
    var fileNames: seq<Record>
    var disk: map<string, string>
    /** the names in printed statements, and the files meant */
    var printed: seq<string>
    ghost var files: seq<string>
    ghost var history: seq<Event>
    /** the files that were there before */
    ghost const before: map<string, string>

    ghost predicate Valid()
      reads this
    {
      && Apart(fileNames, files, before) && Loads(dir, fileNames, disk, history)
      && Files(dir, disk, files, Printed(history), before) && Named(printed, files)
    }

    constructor (dir: string, disk: map<string, string>)
      ensures Valid() && history == [] && this.dir == dir && this.disk == disk == before
    {
      this.dir, this.disk := dir, disk;
      before := disk;
      fileNames, printed, files, history := [], [], [], [];
    }

    /** `create_unique_file` */
    method CreateUniqueFile(base: string) returns (name: Option)
      modifies `disk
      ensures name == None ==> disk == old(disk) && Taken(disk, base)
      ensures name.Some? ==> name.name !in old(disk) && disk == old(disk)[name.name := ""]
      ensures name.Some? ==> exists v :: 0 <= v < 1000 && name.name == base + "-" + Hex(v)
    {
      for version := 0 to 1000
        invariant disk == old(disk) && forall v :: 0 <= v < version ==> base + "-" + Hex(v) in disk
      {
        var n := base + "-" + Hex(version);
        if n !in disk {
          disk := disk[n := ""];
          return Some(n);
        }
      }
      name := None;
    }

    /** `set_dynamic`: the table grows with empty records. */
    method SetRecord(id: nat, r: Record)
      modifies `fileNames
      ensures Set(old(fileNames), fileNames, id, r)
    {
      if id >= |fileNames| {
        fileNames := fileNames + seq(id + 1 - |fileNames|, i => Empty);
      }
      fileNames := fileNames[id := r];
    }

    /** `process_first_event`: a new file, registered under the id, with the first block in it. It fails
        only if a thousand names are taken, and then changes nothing. */
    method ProcessFirst(ev: Event) returns (ok: bool)
      requires Valid() && Opens(ev, ev.id)
      modifies this
      ensures Valid() && history == old(history) + (if ok then [ev] else [])
      ensures ok <==> !Taken(old(disk), Base(dir, ev))
      ensures !ok ==> disk == old(disk) && fileNames == old(fileNames)
    {
      hide Apart, Loads, Printed, Opened, Uses, Set, Files, Named, NoBackslash;
      var name := CreateUniqueFile(Base(dir, ev));
      ok := name.Some?;
      if ok {
        ghost var d := old(disk);
        var r := Active(name.name, ev.Create?);
        SetRecord(ev.id, r);
        disk := disk[name.name := disk[name.name] + ev.block];
        assert "" + ev.block == ev.block;
        assert disk == d[name.name := ev.block];
        PlainName(dir, ev, name.name);
        NewName(dir, old(fileNames), d, history, name.name);
        NewFile(dir, d, files, Printed(history), before, name.name, ev.block);
        SetApart(old(fileNames), fileNames, ev.id, r, files, before);
        NotUsed(old(fileNames), name.name);
        WriteLoads(dir, old(fileNames), fileNames, ev.id, r, d, name.name, ev.block, history, ev);
        PrintedNext(history, ev);
        history := history + [ev];
      }
    }

    /** Appends to the file of the id, if it has one. */
    method ProcessAppend(ev: Event)
      requires Valid() && ev.Append?
      modifies this
      ensures Valid() && history == old(history) + [ev] && fileNames == old(fileNames)
      ensures At(fileNames, ev.id).Empty? ==> disk == old(disk)
    {
      hide Apart, Loads, Printed, Opened, Uses, Set, Files, Named;
      var r := At(fileNames, ev.id);
      LoadAt(dir, fileNames, disk, history, ev.id);
      SetSame(fileNames, ev.id);
      if r.Active? {
        var text := disk[r.fname] + ev.block;
        OthersElsewhere(fileNames, files, before, ev.id);
        OldFile(dir, disk, files, Printed(history), before, r.fname, text);
        WriteLoads(dir, fileNames, fileNames, ev.id, r, disk, r.fname, text, history, ev);
        disk := disk[r.fname := text];
      } else {
        SameLoads(dir, fileNames, fileNames, ev.id, r, disk, history, ev);
      }
      PrintedNext(history, ev);
      history := history + [ev];
    }

    /** `grab_fname` and `grab_event`: the file of an open load, which is then forgotten. */
    method Grab(id: nat, created: bool) returns (name: Option)
      modifies `fileNames
      ensures var r := At(old(fileNames), id);
              if r.Active? && r.created == created then name == Some(r.fname) && Set(old(fileNames), fileNames, id, Empty)
              else name == None && fileNames == old(fileNames)
    {
      name := None;
      if id < |fileNames| && fileNames[id].Active? && fileNames[id].created == created {
        name := Some(fileNames[id].fname);
        fileNames := fileNames[id := Empty];
      }
    }

    /** The execution of a load: its statement is printed with the name of its file, unless there is no
        load of the kind or its database is filtered out. */
    method ProcessExecute(ev: Event)
      requires Valid() && (ev.ExecuteQuery? || ev.ExecLoad?)
      modifies this
      ensures Valid() && history == old(history) + [ev]
    {
      hide Apart, Loads, Printed, Opened, Uses, Set, Files, Named;
      ghost var r := At(fileNames, ev.id);
      LoadAt(dir, fileNames, disk, history, ev.id);
      SetSame(fileNames, ev.id);
      PrintedNext(history, ev);
      var name := Grab(ev.id, ev.ExecLoad?);
      if name == None {
        SameLoads(dir, fileNames, fileNames, ev.id, r, disk, history, ev);
      } else {
        SameLoads(dir, old(fileNames), fileNames, ev.id, Empty, disk, history, ev);
        Forgotten(old(fileNames), fileNames, ev.id, files, before);
        if ev.ExecLoad? || !ev.skip {
          MoreFiles(dir, disk, files, Printed(history), before, name.name, Opened(history, ev.id));
          MoreNamed(printed, files, name.name);
          printed, files := printed + [Forward(name.name)], files + [name.name];
        }
      }
      history := history + [ev];
    }

    /** `process_event`, as far as it concerns loads. */
    method ProcessEvent(ev: Event) returns (ok: bool)
      requires Valid()
      modifies this
      ensures Valid() && history == old(history) + (if ok then [ev] else [])
      ensures ok <==> !(Opens(ev, ev.id) && Taken(old(disk), Base(dir, ev)))
      ensures !ok ==> disk == old(disk) && fileNames == old(fileNames)
    {
      ok := true;
      if ev.Begin? || (ev.Create? && !ev.skip) {
        ok := ProcessFirst(ev);
      } else if ev.Append? {
        ProcessAppend(ev);
      } else if ev.Create? {
        ProcessSkipped(ev);
      } else {
        ProcessExecute(ev);
      }
    }

    /** A load of a database that is filtered out is not opened. */
    ghost method ProcessSkipped(ev: Event)
      requires Valid() && ev.Create? && ev.skip
      modifies `history
      ensures Valid() && history == old(history) + [ev]
    {
      hide Apart, Loads, Printed, Opened, Uses, Set, Files, Named;
      LoadAt(dir, fileNames, disk, history, ev.id);
      SetSame(fileNames, ev.id);
      SameLoads(dir, fileNames, fileNames, ev.id, At(fileNames, ev.id), disk, history, ev);
      PrintedNext(history, ev);
      history := history + [ev];
    }
  }

  /** A whole log: at its end every file named in a printed statement holds exactly the blocks of its
      load and the files that were there before are as they were.  The printed names are the names of
      the files if and only if neither the directory nor the name of a printed load has a backslash.
      The program gives up only at an event that opens a load for which all names are taken. */
  method ProcessAll(p: Processor, events: seq<Event>) returns (ok: bool)
    requires p.Valid() && p.history == []
    modifies p
    ensures ok ==> Files(p.dir, p.disk, p.files, Printed(events), p.before) && Named(p.printed, p.files)
    ensures ok ==> (p.printed == p.files <==> PlainLog(p.dir, events))
    ensures !ok ==> exists k :: 0 <= k < |events| && Stopped(p, events, k)
  {
    ok := true;
    var i := 0;
    while i < |events| && ok
      invariant p.Valid() && 0 <= i <= |events| && p.history == events[..i]
      invariant !ok ==> i < |events| && Stopped(p, events, i)
      decreases |events| - i, ok
    {
      ok := p.ProcessEvent(events[i]);
      if ok {
        i := i + 1;
      }
    }
    assert events[..|events|] == events;
    if ok {
      PlainNamed(p.dir, p.disk, p.printed, p.files, Printed(events), p.before);
    }
  }

  /** The state in which the program gives up at event `k`. */
  ghost predicate Stopped(p: Processor, events: seq<Event>, k: nat)
    requires k < |events|
    reads p
  {
    && Opens(events[k], events[k].id) && Taken(p.disk, Base(p.dir, events[k]))
    && Files(p.dir, p.disk, p.files, Printed(events[..k]), p.before)
  }

  // ----- names

  predicate NoBackslash(s: string) { forall i :: 0 <= i < |s| ==> s[i] != '\\' }

  /** `convert_path_to_forward_slashes` */
  function Forward(s: string): string { seq(|s|, i requires 0 <= i < |s| => if s[i] == '\\' then '/' else s[i]) }

  /** A name is printed as it is exactly when it has no backslash. */
  lemma ForwardSame(s: string)
    ensures Forward(s) == s <==> NoBackslash(s)
  {
    if Forward(s) == s {
      forall i | 0 <= i < |s|
        ensures s[i] != '\\'
      {
        assert Forward(s)[i] == s[i];
      }
    }
  }

  lemma {:induction false} HexPlain(n: nat)
    ensures NoBackslash(Hex(n))
  {
    if n >= 16 {
      HexPlain(n / 16);
    }
  }

  /** What the thousand names for an opening event start with. */
  function Base(dir: string, ev: Event): string { dir + BaseName(ev) + "-" + Hex(ev.id) }

  ghost predicate Taken(disk: map<string, string>, base: string) {
    forall v :: 0 <= v < 1000 ==> base + "-" + Hex(v) in disk
  }

  /** No backslash is in the way of a printed name. */
  predicate PlainLog(dir: string, h: seq<Event>) {
    forall k :: 0 <= k < |Printed(h)| ==> PlainLoad(dir, Printed(h)[k])
  }

  predicate PlainLoad(dir: string, load: Load) { load.Open? ==> NoBackslash(dir) && NoBackslash(load.bname) }

  ghost predicate Named(printed: seq<string>, files: seq<string>) {
    |printed| == |files| && forall k :: 0 <= k < |files| ==> printed[k] == Forward(files[k])
  }

  lemma PlainNamed(dir: string, disk: map<string, string>, printed: seq<string>, files: seq<string>, loads: seq<Load>, before: map<string, string>)
    requires Files(dir, disk, files, loads, before) && Named(printed, files)
    ensures printed == files <==> forall k :: 0 <= k < |loads| ==> PlainLoad(dir, loads[k])
  {
    forall k | 0 <= k < |files|
      ensures printed[k] == files[k] <==> PlainLoad(dir, loads[k])
    {
      ForwardSame(files[k]);
      assert InFile(dir, files[k], loads[k], disk);
    }
  }

  lemma PlainName(dir: string, ev: Event, name: string)
    requires exists v :: 0 <= v < 1000 && name == Base(dir, ev) + "-" + Hex(v)
    ensures NoBackslash(name) <==> NoBackslash(dir) && NoBackslash(BaseName(ev))
  {
    var v :| 0 <= v < 1000 && name == Base(dir, ev) + "-" + Hex(v);
    HexPlain(ev.id);
    HexPlain(v);
    PlainConcat(dir, BaseName(ev));
    PlainConcat(dir + BaseName(ev), "-");
    PlainConcat(dir + BaseName(ev) + "-", Hex(ev.id));
    PlainConcat(Base(dir, ev), "-");
    PlainConcat(Base(dir, ev) + "-", Hex(v));
  }

  lemma PlainConcat(a: string, b: string)
    ensures NoBackslash(a + b) <==> NoBackslash(a) && NoBackslash(b)
  {
    assert forall i :: 0 <= i < |a| ==> (a + b)[i] == a[i];
    assert forall i :: 0 <= i < |b| ==> (a + b)[|a| + i] == b[i];
  }

  /** One load into a directory with a backslash in its name. */
  const BACKSLASH_DIR := "a\\"
  const ONE_LOAD := [Begin(0, "x"), ExecuteQuery(0, false)]

  lemma BackslashLog()
    ensures Printed(ONE_LOAD) == [Open(false, "SQL_LOAD_MB", "x")]
    ensures !PlainLog(BACKSLASH_DIR, ONE_LOAD)
  {
    assert ONE_LOAD[..1] == [Begin(0, "x")] && [Begin(0, "x")][..0] == [];
    assert Opened(ONE_LOAD[..1], 0) == Open(false, "SQL_LOAD_MB", "x");
    assert Printed(ONE_LOAD[..1]) == [];
    assert BACKSLASH_DIR[1] == '\\';
    assert !PlainLoad(BACKSLASH_DIR, Printed(ONE_LOAD)[0]);
  }

  /** Its statement is printed with a name that is not the name of the file. */
  method BackslashIsLost() returns (p: Processor)
    ensures p.Valid() && p.history == ONE_LOAD && |p.printed| == |p.files| == 1 && p.printed[0] != p.files[0]
  {
    BackslashLog();
    hide Printed, PlainLog, Apart, Loads;
    p := new Processor(BACKSLASH_DIR, map[]);
    assert Base(p.dir, Begin(0, "x")) + "-" + Hex(0) !in p.disk;
    var _ := p.ProcessEvent(Begin(0, "x"));
    var _ := p.ProcessEvent(ExecuteQuery(0, false));
    assert p.history == ONE_LOAD;
    PlainNamed(p.dir, p.disk, p.printed, p.files, Printed(ONE_LOAD), p.before);
    assert p.printed == [p.printed[0]] && p.files == [p.files[0]];
    assert !PlainLoad(p.dir, Printed(ONE_LOAD)[0]) by { assert BACKSLASH_DIR[1] == '\\'; }
  }

  // ----- steps

  lemma NewFile(dir: string, disk: map<string, string>, files: seq<string>, loads: seq<Load>, before: map<string, string>, name: string, text: string)
    requires Files(dir, disk, files, loads, before) && name !in disk
    ensures Files(dir, disk[name := text], files, loads, before) && name !in files && name !in before
  {
  }

  lemma OldFile(dir: string, disk: map<string, string>, files: seq<string>, loads: seq<Load>, before: map<string, string>, name: string, text: string)
    requires Files(dir, disk, files, loads, before) && name !in files && name !in before
    ensures Files(dir, disk[name := text], files, loads, before)
  {
  }

  lemma MoreFiles(dir: string, disk: map<string, string>, files: seq<string>, loads: seq<Load>, before: map<string, string>, name: string, load: Load)
    requires Files(dir, disk, files, loads, before) && InFile(dir, name, load, disk)
    ensures Files(dir, disk, files + [name], loads + [load], before)
  {
  }

  lemma MoreNamed(printed: seq<string>, files: seq<string>, name: string)
    requires Named(printed, files)
    ensures Named(printed + [Forward(name)], files + [name])
  {
  }

  /** A forgotten file is used by no load any more. */
  lemma Forgotten(names: seq<Record>, after: seq<Record>, id: nat, files: seq<string>, before: map<string, string>)
    requires Apart(names, files, before) && At(names, id).Active? && Set(names, after, id, Empty)
    ensures Apart(after, files, before) && Apart(after, files + [At(names, id).fname], before)
  {
    SetApart(names, after, id, Empty, files, before);
    OthersElsewhere(names, files, before, id);
  }

  lemma NotUsed(names: seq<Record>, name: string)
    requires !Uses(names, name)
    ensures forall i: nat :: At(names, i).Active? ==> At(names, i).fname != name
  {
  }

  lemma LoadAt(dir: string, names: seq<Record>, disk: map<string, string>, h: seq<Event>, id: nat)
    requires Loads(dir, names, disk, h)
    ensures Holds(dir, At(names, id), Opened(h, id), disk)
  {
  }

  lemma SetSame(names: seq<Record>, id: nat)
    ensures Set(names, names, id, At(names, id))
  {
  }

  lemma OthersElsewhere(names: seq<Record>, printed: seq<string>, before: map<string, string>, id: nat)
    requires Apart(names, printed, before) && At(names, id).Active?
    ensures forall i: nat :: i != id && At(names, i).Active? ==> At(names, i).fname != At(names, id).fname
    ensures At(names, id).fname !in printed && At(names, id).fname !in before
  {
    assert Uses(names, At(names, id).fname);
  }
}
