/** Loading in the hash.c dialect: loadFile over the file that saveSymbols writes. */
module HashLoad {
  import opened CString
  import opened Symbols
  import opened SymbolTables
  import opened TextLines
  import opened HashDialect

  function ParseLines(lines: seq<string>): seq<HashCommand> {
    ParseWith(ParseHash, lines)
  }

  /** loadFile on the text of a readable file. */
  function LoadFile(st: State, text: string): Result {
    Run(st, ParseLines(FileLines(text)))
  }

  lemma {:induction false} ParseFirst(text: string)
    requires text != ""
    ensures var cmds := ParseLines(FileLines(text));
            |cmds| > 0 && cmds[0] == ParseHash(Fgets(text).0) && cmds[1..] == ParseLines(FileLines(Fgets(text).1))
  {
    assert FileLines(text) == [Fgets(text).0] + FileLines(Fgets(text).1);
  }

  lemma {:induction false} RunFirst(st: State, cmds: seq<HashCommand>)
    requires cmds != []
    ensures Run(st, cmds) == match Exec(st, cmds[0])
                             case Crash => Crash
                             case Ok(next) => Run(next, cmds[1..])
  {
  }

  /** cmdInterp and loadFile on the table in memory. */
  class Client {
    const table: SymbolTable
    var flags: Flags

    ghost predicate Valid()
      reads this, table, table.Repr
    {
      table.Valid() && this !in table.Repr
    }

    ghost function Abs(): State
      reads this, table
    {
      State(table.model, flags)
    }

    constructor (flags: Flags)
      ensures Valid() && fresh(this) && fresh(table.Repr) && Abs() == State(map[], flags)
    {
      this.flags := flags;
      table := new SymbolTable();
    }

    /** The ^set branch, with its CLIENT flags. */
    method Set(key: string, value: string)
      requires Valid()
      modifies this, table.Repr
      ensures Valid() && fresh(table.Repr - old(table.Repr))
      ensures Abs() == AfterSet(old(Abs()), key, value)
    {
      InstallSymbol(table, key, value, false, true);
      if key == "CLIENT" {
        var f := flags;
        f := f.(raw := false, redis := false, format := false);
        if value == "raw" { f := f.(raw := true); }
        if value == "redis" { f := f.(redis := true); }
        if value == "format" { f := f.(format := true); }
        if value == "cmd" { f := f.(cmd := true); }
        if !f.raw && !f.redis && !f.format && !f.cmd {
          f := f.(raw := true);
          SetSymbolValue(table, "CLIENT", "raw");
        }
        flags := f;
      }
    }

    /** The ^set branch without a value: install copies it unless the symbol is locked, and the
        CLIENT flags compare it. */
    method SetNothing(key: string) returns (crash: bool)
      requires Valid()
      ensures crash <==> !SetIgnores(table.model, key)
    {
      var np := table.Lookup(key);
      if np == null || !np.locked { return true; }
      crash := key == "CLIENT";
    }

    method Perform(c: HashCommand) returns (crash: bool)
      requires Valid()
      modifies this, table.Repr
      ensures Valid() && fresh(table.Repr - old(table.Repr))
      ensures crash <==> Exec(old(Abs()), c) == Crash
      ensures !crash ==> Exec(old(Abs()), c) == Ok(Abs())
    {
      crash := false;
      var mode := table.GetSymbol("MODE");
      if mode.Some? && Lower(mode.value) != "local" { return; }
      match c {
        case Skip =>
        case Set(key, value) =>
          if key == None { return true; }
          if value == None {
            crash := SetNothing(key.value);
          } else {
            Set(key.value, value.value);
          }
        case Lock(name) =>
          if name == None { return true; }
          table.LockSymbol(name.value);
      }
    }

    method CmdInterp(line: string) returns (crash: bool)
      requires Valid()
      modifies this, table.Repr
      ensures Valid() && fresh(table.Repr - old(table.Repr))
      ensures crash <==> Exec(old(Abs()), ParseHash(line)) == Crash
      ensures !crash ==> Exec(old(Abs()), ParseHash(line)) == Ok(Abs())
    {
      var c := ParseHash(line);
      crash := Perform(c);
    }

    method Load(text: string) returns (crash: bool)
      requires Valid()
      modifies this, table.Repr
      ensures Valid() && fresh(table.Repr - old(table.Repr))
      ensures crash <==> LoadFile(old(Abs()), text) == Crash
      ensures !crash ==> LoadFile(old(Abs()), text) == Ok(Abs())
    {
      ghost var st := Abs();
      ghost var rest := ParseLines(FileLines(text));
      ghost var all := rest;
      var left := text;
      crash := false;
      while left != ""
        invariant Valid() && fresh(table.Repr - old(table.Repr))
        invariant rest == ParseLines(FileLines(left))
        invariant Run(st, all) == Run(Abs(), rest)
        decreases |left|
      {
        ParseFirst(left);
        RunFirst(Abs(), rest);
        crash := CmdInterp(Fgets(left).0);
        if crash { return; }
        left, rest := Fgets(left).1, rest[1..];
      }
    }
  }

  // ----- reading back what was saved -----

  /** Names are words; values are not empty and stay on their line, which may fill fgets' buffer
      and leave its newline behind. */
  predicate Savable(e: Entry) {
    && e.name != "" && Avoids(e.name, {' ', '\n'})
    && e.sym.value != "" && Avoids(e.sym.value, {'\n'})
    && |SetLine(e)| < BUFFSIZE && (e.sym.locked ==> |LockLine(e)| < BUFFSIZE)
  }

  lemma {:induction false} LowerWords()
    ensures Lower("^set") == "^set" && Lower("^lock") == "^lock"
  {
  }

  /** Every space of the value survives, leading ones too. */
  lemma {:induction false} ParseSetLine(e: Entry, end: string)
    requires Savable(e) && (end == "" || end == "\n")
    ensures ParseHash(SetLine(e) + end) == Set(Some(e.name), Some(e.sym.value))
  {
    var v := e.sym.value;
    assert SetLine(e) + end == "^set" + " " + (e.name + " " + (v + end));
    StrTokHead("^set", ' ', e.name + " " + (v + end), WORD);
    StrTokHead(e.name, ' ', v + end, {' '});
    StrTokHead(v, '\n', "", {'\n'});
    assert v + "\n" + "" == v + "\n" && v + "" == v;
    LowerWords();
  }

  lemma {:induction false} ParseLockLine(e: Entry, end: string)
    requires Savable(e) && (end == "" || end == "\n")
    ensures ParseHash(LockLine(e) + end) == Lock(Some(e.name))
  {
    assert LockLine(e) + end == "^lock" + " " + (e.name + end);
    StrTokHead("^lock", ' ', e.name + end, WORD);
    StrTokHead(e.name, '\n', "", {'\n'});
    assert e.name + "\n" + "" == e.name + "\n" && e.name + "" == e.name;
    LowerWords();
  }

  lemma {:induction false} SetParses(e: Entry, end: string)
    requires Savable(e) && (end == "" || end == "\n")
    ensures ParseWith(ParseHash, [SetLine(e) + end]) == [Set(Some(e.name), Some(e.sym.value))]
  {
    ParseSetLine(e, end);
  }

  lemma {:induction false} LockParses(e: Entry, end: string)
    requires Savable(e) && (end == "" || end == "\n")
    ensures ParseWith(ParseHash, [LockLine(e) + end]) == [Lock(Some(e.name))]
  {
    ParseLockLine(e, end);
  }

  lemma {:induction false} NewlineParses()
    ensures ParseWith(ParseHash, ["\n"]) == [Skip]
  {
    var line := "\n";
    assert line[0] == '\n' && ParseHash(line) == Skip;
    assert ParseWith(ParseHash, [line])[0] == ParseHash(line);
  }

  lemma {:induction false} LineReads(l: string, c: HashCommand)
    requires OnOneLine(l) && |l| < BUFFSIZE
    requires ParseWith(ParseHash, [l + "\n"]) == [c] && ParseWith(ParseHash, [l + ""]) == [c]
    ensures ParseWith(ParseHash, FileLines(l + "\n")) == ReadAs(l, c, Skip)
  {
    if |l| < BUFFSIZE - 1 {
      ShortReads(ParseHash, l, c, Skip);
    } else {
      NewlineParses();
      assert l + "" == l[..BUFFSIZE - 1] && "\n" == l[BUFFSIZE - 1..] + "\n";
      LongReads(ParseHash, l, l + "", "\n", c, Skip);
    }
  }

  /** A line that leaves its newline behind reads as its command and one to skip. */
  function EntryCommands(e: Entry): seq<HashCommand> {
    EntryReading(e, ReadAs(SetLine(e), Set(Some(e.name), Some(e.sym.value)), Skip),
                 ReadAs(LockLine(e), Lock(Some(e.name)), Skip))
  }

  function AllCommands(es: seq<Entry>): seq<HashCommand> {
    Gather(EntryCommands, es)
  }

  function Skips(n: nat): seq<HashCommand> { Repeat(Skip, n) }

  // ----- running it -----

  /** One saved entry over a table, cmd being whether cmdClient is already set. */
  function Put(t: Table, e: Entry, cmd: bool): Table {
    if !e.sym.global then t else
      var t1 := Install(t, e.name, e.sym.value, false, true);
      var t2 := if e.name == "CLIENT" && !Recognised(e.sym.value) && !cmd then SetValue(t1, "CLIENT", "raw") else t1;
      if e.sym.locked then LockSym(t2, e.name) else t2
  }

  function PutState(st: State, e: Entry): State {
    State(Put(st.syms, e, st.flags.cmd),
          if e.sym.global && e.name == "CLIENT" then ClientFlags(st.flags, e.sym.value) else st.flags)
  }

  function PutStates(st: State, es: seq<Entry>): State
    decreases |es|
  {
    if es == [] then st else PutStates(PutState(st, es[0]), es[1..])
  }

  lemma {:induction false} RunAppend(st: State, a: seq<HashCommand>, b: seq<HashCommand>)
    ensures Run(st, a + b) == match Run(st, a)
                              case Crash => Crash
                              case Ok(next) => Run(next, b)
    decreases |a|
  {
    if a == [] {
      assert a + b == b;
    } else {
      RunFirst(st, a);
      RunFirst(st, a + b);
      assert (a + b)[1..] == a[1..] + b;
      if Exec(st, a[0]).Ok? { RunAppend(Exec(st, a[0]).st, a[1..], b); }
    }
  }

  /** A saved line has the effect of its command, split or not. */
  lemma {:induction false} RunRead(st: State, l: string, c: HashCommand)
    ensures Run(st, ReadAs(l, c, Skip)) == Exec(st, c)
  {
    var read := ReadAs(l, c, Skip);
    RunFirst(st, read);
    if |l| >= BUFFSIZE - 1 && Exec(st, c).Ok? {
      assert read[1..] == [Skip] && [Skip][1..] == [];
      RunFirst(Exec(st, c).st, [Skip]);
    }
  }

  lemma {:induction false} RunEntry(st: State, e: Entry)
    requires LocalMode(st.syms) && (e.sym.global ==> e.name != "MODE")
    ensures LocalMode(PutState(st, e).syms)
    ensures Run(st, EntryCommands(e)) == Ok(PutState(st, e))
  {
    var set1, lock := Set(Some(e.name), Some(e.sym.value)), Lock(Some(e.name));
    var sets, locks := ReadAs(SetLine(e), set1, Skip), ReadAs(LockLine(e), lock, Skip);
    RunRead(st, SetLine(e), set1);
    RunRead(AfterSet(st, e.name, e.sym.value), LockLine(e), lock);
    RunAppend(st, sets, locks);
    assert sets + [] == sets;
  }

  lemma {:induction false} RunEntries(st: State, es: seq<Entry>)
    requires LocalMode(st.syms) && forall i :: 0 <= i < |es| && es[i].sym.global ==> es[i].name != "MODE"
    ensures Run(st, AllCommands(es)) == Ok(PutStates(st, es))
    decreases |es|
  {
    if es == [] {
    } else {
      RunEntry(st, es[0]);
      RunAppend(st, EntryCommands(es[0]), AllCommands(es[1..]));
      RunEntries(PutState(st, es[0]), es[1..]);
    }
  }

  lemma {:induction false} RunSkips(st: State, n: nat)
    ensures Run(st, Skips(n)) == Ok(st)
  {
    if n == 0 {
    } else {
      assert Skips(n)[0] == Skip && Skips(n)[1..] == Skips(n - 1);
      RunFirst(st, Skips(n));
      RunSkips(st, n - 1);
    }
  }

  // ----- the merge -----

  /** What a saved symbol becomes in u. A known name keeps its scope, a locked one its value too,
      except that an unknown CLIENT is forced to raw whatever the lock. */
  function Stored(u: Table, k: string, sym: Symbol, cmd: bool): Symbol {
    var back := k == "CLIENT" && !Recognised(sym.value) && !cmd;
    if k !in u then Symbol(if back then "raw" else sym.value, sym.locked, true)
    else if u[k].locked then (if back then u[k].(value := "raw") else u[k])
    else Symbol(if back then "raw" else sym.value, sym.locked, u[k].global)
  }

  predicate IsSaved(t: Table, k: string) {
    k in t && t[k].global && k != "MODE"
  }

  ghost function Merge(t: Table, u: Table, cmd: bool): Table {
    map k | k in u.Keys + (set n | n in t && IsSaved(t, n)) ::
      if IsSaved(t, k) then Stored(u, k, t[k], cmd) else u[k]
  }

  lemma {:induction false} PutIsStored(u: Table, e: Entry, cmd: bool)
    ensures e.sym.global ==> Put(u, e, cmd) == u[e.name := Stored(u, e.name, e.sym, cmd)]
    ensures !e.sym.global ==> Put(u, e, cmd) == u
  {
  }

  /** An entry leaves other names, and what is stored for them later, alone. */
  lemma {:induction false} PutApart(st: State, e: Entry, name: string, sym: Symbol)
    requires e.name != name || !e.sym.global
    ensures var next := PutState(st, e);
            && (name in next.syms <==> name in st.syms)
            && (name in st.syms ==> next.syms[name] == st.syms[name])
            && Stored(next.syms, name, sym, next.flags.cmd) == Stored(st.syms, name, sym, st.flags.cmd)
  {
    PutIsStored(st.syms, e, st.flags.cmd);
  }

  lemma {:induction false} PutOthers(st: State, es: seq<Entry>, name: string)
    requires forall i :: 0 <= i < |es| && es[i].name == name ==> !es[i].sym.global
    ensures name in PutStates(st, es).syms <==> name in st.syms
    ensures name in st.syms ==> PutStates(st, es).syms[name] == st.syms[name]
    decreases |es|
  {
    if es == [] {
    } else {
      PutApart(st, es[0], name, es[0].sym);
      PutOthers(PutState(st, es[0]), es[1..], name);
    }
  }

  /** Distinct names: a name in es gets what its own entry stores over the first table. */
  lemma {:induction false} PutStatesAt(st: State, es: seq<Entry>, i: nat)
    requires forall i, j :: 0 <= i < j < |es| ==> es[i].name != es[j].name
    requires i < |es| && es[i].sym.global
    ensures var k, t := es[i].name, PutStates(st, es).syms;
            k in t && t[k] == Stored(st.syms, k, es[i].sym, st.flags.cmd)
    decreases |es|
  {
    var next := PutState(st, es[0]);
    if i == 0 {
      PutIsStored(st.syms, es[0], st.flags.cmd);
      PutOthers(next, es[1..], es[0].name);
    } else {
      PutApart(st, es[0], es[i].name, es[i].sym);
      PutStatesAt(next, es[1..], i - 1);
    }
  }

  lemma {:induction false} SavedAt(es: seq<Entry>, t: Table, k: string)
    requires Lists(es, t)
    ensures IsSaved(t, k) ==> exists i :: 0 <= i < |es| && Saved(es)[i] == Entry(k, t[k])
    ensures !IsSaved(t, k) ==>
              forall i :: 0 <= i < |es| && Saved(es)[i].name == k ==> !Saved(es)[i].sym.global
  {
    if IsSaved(t, k) {
      var i :| 0 <= i < |es| && es[i].name == k;
      assert Saved(es)[i] == Entry(k, t[k]);
    }
  }

  lemma {:induction false} PutStatesMerge(t: Table, es: seq<Entry>, st: State, k: string)
    requires Lists(es, t)
    ensures var got, want := PutStates(st, Saved(es)).syms, Merge(t, st.syms, st.flags.cmd);
            (k in got <==> k in want) && (k in got ==> got[k] == want[k])
  {
    SavedAt(es, t, k);
    if IsSaved(t, k) {
      var i :| 0 <= i < |es| && Saved(es)[i] == Entry(k, t[k]);
      PutStatesAt(st, Saved(es), i);
    } else {
      PutOthers(st, Saved(es), k);
    }
  }

  lemma {:induction false} PutStatesIsMerge(t: Table, es: seq<Entry>, st: State)
    requires Lists(es, t)
    ensures PutStates(st, Saved(es)).syms == Merge(t, st.syms, st.flags.cmd)
  {
    var got, want := PutStates(st, Saved(es)).syms, Merge(t, st.syms, st.flags.cmd);
    forall k ensures k in got <==> k in want ensures k in got ==> got[k] == want[k] {
      PutStatesMerge(t, es, st, k);
    }
  }

  predicate DateOk(date: string) {
    Avoids(date, {'\n'}) && |date| < 200
  }

  lemma {:induction false} HeaderComments(date: string)
    requires DateOk(date)
    ensures |HashHeaderLines(date)| == 7
    ensures forall i :: 0 <= i < 7 ==> CommentLine(HashHeaderLines(date)[i])
  {
    FixedComments(date);
    assert CommentLine("# Startup file.");
  }

  lemma {:induction false} EntryReads(e: Entry)
    requires e.sym.global ==> Savable(e)
    ensures EntryOnLines(e)
    ensures ParseWith(ParseHash, Pieces(EntryLines(e))) == EntryCommands(e)
  {
    var set1, lock := Set(Some(e.name), Some(e.sym.value)), Lock(Some(e.name));
    if e.sym.global {
      SetParses(e, "\n");
      SetParses(e, "");
      LineReads(SetLine(e), set1);
      if e.sym.locked {
        LockParses(e, "\n");
        LockParses(e, "");
        LineReads(LockLine(e), lock);
      }
    }
    ParseEntry(ParseHash, e, ReadAs(SetLine(e), set1, Skip), ReadAs(LockLine(e), lock, Skip));
  }

  /** What a loader reads out of comments followed by a rendered table. */
  lemma {:induction false} SavedCommands(fs: seq<Entry>, ls: seq<string>)
    requires forall i :: 0 <= i < |ls| ==> CommentLine(ls[i])
    requires forall i :: 0 <= i < |fs| && fs[i].sym.global ==> Savable(fs[i])
    ensures ParseLines(FileLines(Lines(ls) + RenderAll(fs))) == Skips(|ls|) + AllCommands(fs)
  {
    forall i | 0 <= i < |ls| ensures ParseHash(ls[i] + "\n") == Skip { assert (ls[i] + "\n")[0] == '#'; }
    forall i | 0 <= i < |fs|
      ensures EntryOnLines(fs[i])
      ensures ParseWith(ParseHash, Pieces(EntryLines(fs[i]))) == EntryCommands(fs[i])
    {
      EntryReads(fs[i]);
    }
    SavedReads(ParseHash, EntryCommands, Skip, ls, fs);
  }

  /** The comment lines of a saved file. */
  lemma {:induction false} HeaderText(date: string)
    ensures HashHeader(date) == "#" + "\n" + ("# Save Date:" + date + "\n" + ("#" + "\n" + ("# Startup file." + "\n"
              + ("# Comments MUST be at the start of a line." + "\n" + ("# Any comments added will be lost." + "\n"
              + ("#" + "\n" + ""))))))
  {
    LinesOfSeven(HashHeaderLines(date));
  }

  lemma {:induction false} ReadSaved(es: seq<Entry>, date: string)
    requires DateOk(date)
    requires forall i :: 0 <= i < |Saved(es)| && Saved(es)[i].sym.global ==> Savable(Saved(es)[i])
    ensures ParseLines(FileLines(SaveText(date, es))) == Skips(7) + AllCommands(Saved(es))
  {
    HeaderComments(date);
    SavedCommands(Saved(es), HashHeaderLines(date));
  }

  lemma {:induction false} RunSaved(st: State, n: nat, fs: seq<Entry>)
    requires LocalMode(st.syms) && forall i :: 0 <= i < |fs| && fs[i].sym.global ==> fs[i].name != "MODE"
    ensures Run(st, Skips(n) + AllCommands(fs)) == Ok(PutStates(st, fs))
  {
    RunSkips(st, n);
    RunAppend(st, Skips(n), AllCommands(fs));
    RunEntries(st, fs);
  }

  lemma {:induction false} SavedNotMode(es: seq<Entry>)
    ensures forall i :: 0 <= i < |Saved(es)| && Saved(es)[i].sym.global ==> Saved(es)[i].name != "MODE"
  {
  }

  lemma {:induction false} LoadRuns(es: seq<Entry>, st: State, date: string)
    requires DateOk(date) && LocalMode(st.syms)
    requires forall i :: 0 <= i < |Saved(es)| && Saved(es)[i].sym.global ==> Savable(Saved(es)[i])
    ensures LoadFile(st, SaveText(date, es)) == Ok(PutStates(st, Saved(es)))
  {
    SavedNotMode(es);
    ReadSaved(es, date);
    RunSaved(st, 7, Saved(es));
  }

  /** In local mode, loading the file saved from t executes every line and leaves any table with
      exactly the merge. */
  lemma {:induction false} LoadSaved(t: Table, es: seq<Entry>, st: State, date: string)
    requires Lists(es, t) && DateOk(date) && LocalMode(st.syms)
    requires forall k :: IsSaved(t, k) ==> Savable(Entry(k, t[k]))
    ensures LoadFile(st, SaveText(date, es)).Ok?
    ensures LoadFile(st, SaveText(date, es)).st.syms == Merge(t, st.syms, st.flags.cmd)
  {
    LoadRuns(es, st, date);
    PutStatesIsMerge(t, es, st);
  }

  lemma {:induction false} MergeRestoresIff(t: Table, u: Table, cmd: bool)
    requires forall k :: IsSaved(t, k) ==> k !in u
    ensures forall k :: k in Merge(t, u, cmd) <==> k in u || IsSaved(t, k)
    ensures forall k :: k in u ==> Merge(t, u, cmd)[k] == u[k]
    ensures (forall k :: IsSaved(t, k) ==> Merge(t, u, cmd)[k] == t[k])
            <==> (IsSaved(t, "CLIENT") ==> Recognised(t["CLIENT"].value) || cmd)
  {
    var m := Merge(t, u, cmd);
    forall k | IsSaved(t, k) ensures m[k] == Stored(u, k, t[k], cmd) {
      assert k in m;
    }
  }

  /** Where no saved name is known yet, the load adds exactly the GLOBAL symbols but MODE, and gives
      them all their value and lock if and only if a saved CLIENT is one the client flags know. */
  lemma {:induction false} RestoresIff(t: Table, es: seq<Entry>, st: State, date: string)
    requires Lists(es, t) && DateOk(date) && LocalMode(st.syms)
    requires forall k :: IsSaved(t, k) ==> Savable(Entry(k, t[k])) && k !in st.syms
    ensures LoadFile(st, SaveText(date, es)).Ok?
    ensures var m := LoadFile(st, SaveText(date, es)).st.syms;
            && (forall k :: k in m <==> k in st.syms || IsSaved(t, k))
            && (forall k :: k in st.syms ==> m[k] == st.syms[k])
            && ((forall k :: IsSaved(t, k) ==> m[k] == t[k])
                <==> (IsSaved(t, "CLIENT") ==> Recognised(t["CLIENT"].value) || st.flags.cmd))
  {
    LoadSaved(t, es, st, date);
    MergeRestoresIff(t, st.syms, st.flags.cmd);
  }
}
