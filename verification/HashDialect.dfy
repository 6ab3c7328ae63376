/** The older symbol table of hash.c with its own save and load dialect, and the ^set and ^lock
    part of cmdInterp (connectToSpread.c) that reads the file back. */
module HashDialect {
  import opened CString
  import opened Symbols
  import opened SymbolTables

  /** The client flags of struct globalDefinitions. */
  datatype Flags = Flags(raw: bool, redis: bool, format: bool, cmd: bool)

  datatype State = State(syms: Table, flags: Flags)

  /** Crash is a null pointer handed to strlen, strcmp or lookup. */
  datatype Result = Ok(st: State) | Crash

  // ----- the table operations -----

  /** install: a known name keeps its lock and scope, and a locked one its value. */
  function Install(t: Table, name: string, value: string, locked: bool, global: bool): Table {
    if name !in t then t[name := Symbol(value, locked, global)]
    else if t[name].locked then t
    else t[name := t[name].(value := value)]
  }

  /** setSymbolValue: overwrites whatever the lock. */
  function SetValue(t: Table, name: string, value: string): Table {
    if name !in t then Install(t, name, value, false, false)
    else t[name := t[name].(value := value)]
  }

  method InstallSymbol(tab: SymbolTable, name: string, value: string, locked: bool, global: bool)
    requires tab.Valid()
    modifies tab.Repr
    ensures tab.Valid() && fresh(tab.Repr - old(tab.Repr))
    ensures tab.model == Install(old(tab.model), name, value, locked, global)
  {
    var np := tab.Lookup(name);
    if np == null {
      tab.Install(name, value, locked, global);
    } else {
      if !np.locked {
        tab.Rewrite(np, value, np.locked, np.global);
      }
    }
  }

  method SetSymbolValue(tab: SymbolTable, name: string, value: string)
    requires tab.Valid()
    modifies tab.Repr
    ensures tab.Valid() && fresh(tab.Repr - old(tab.Repr))
    ensures tab.model == SetValue(old(tab.model), name, value)
  {
    var np := tab.Lookup(name);
    if np == null {
      InstallSymbol(tab, name, value, false, false);
    } else {
      tab.Rewrite(np, value, np.locked, np.global);
    }
  }

  // ----- cmdInterp -----

  datatype HashCommand = Skip | Set(key: Option<string>, value: Option<string>) | Lock(name: Option<string>)

  const WORD: set<char> := {' ', '\n'}

  function Lower(s: string): string {
    seq(|s|, i requires 0 <= i < |s| =>
      if 'A' <= s[i] <= 'Z' then ((s[i] as int - 'A' as int) + 'a' as int) as char else s[i])
  }

  /** A value runs to the end of the line, a name to the next space. */
  function ParseHash(line: string): HashCommand {
    if line == "" || line[0] != '^' then Skip else
      var (cmd, r0) := StrTok(line, WORD);
      if cmd == None then Skip
      else if Lower(cmd.value) == "^set" then
        var (key, r1) := StrTok(r0, {' '});
        Set(key, StrTok(r1, {'\n'}).0)
      else if Lower(cmd.value) == "^lock" then Lock(StrTok(r0, {'\n'}).0)
      else Skip
  }

  predicate LocalMode(t: Table) {
    "MODE" in t ==> Lower(t["MODE"].value) == "local"
  }

  predicate Recognised(client: string) {
    client == "raw" || client == "redis" || client == "format" || client == "cmd"
  }

  predicate FallsBack(f: Flags, v: string) {
    !Recognised(v) && !f.cmd
  }

  /** The flags after ^set CLIENT: cmdClient is never taken back. */
  function ClientFlags(f: Flags, v: string): Flags {
    var g := Flags(v == "raw", v == "redis", v == "format", f.cmd || v == "cmd");
    if FallsBack(f, v) then g.(raw := true) else g
  }

  function AfterSet(st: State, key: string, value: string): State {
    var t := Install(st.syms, key, value, false, true);
    if key != "CLIENT" then State(t, st.flags)
    else State(if FallsBack(st.flags, value) then SetValue(t, "CLIENT", "raw") else t,
               ClientFlags(st.flags, value))
  }

  /** A ^set without a value is harmless where nothing looks at the value. */
  predicate SetIgnores(t: Table, key: string) {
    Locked(t, key) && key != "CLIENT"
  }

  function Exec(st: State, c: HashCommand): Result {
    if !LocalMode(st.syms) then Ok(st) else
      match c
      case Skip => Ok(st)
      case Set(key, value) =>
        if key == None then Crash
        else if value == None then (if SetIgnores(st.syms, key.value) then Ok(st) else Crash)
        else Ok(AfterSet(st, key.value, value.value))
      case Lock(name) =>
        if name == None then Crash else Ok(st.(syms := LockSym(st.syms, name.value)))
  }

  function Run(st: State, cmds: seq<HashCommand>): Result
    decreases |cmds|
  {
    if cmds == [] then Ok(st) else
      match Exec(st, cmds[0])
      case Crash => Crash
      case Ok(next) => Run(next, cmds[1..])
  }

  // ----- the save file -----

  /** MODE is never saved. */
  function Visible(e: Entry): Entry {
    if e.name == "MODE" then e.(sym := e.sym.(global := false)) else e
  }

  function Saved(es: seq<Entry>): seq<Entry> {
    seq(|es|, i requires 0 <= i < |es| => Visible(es[i]))
  }

  function HashHeaderLines(date: string): seq<string> {
    ["#", "# Save Date:" + date, "#", "# Startup file.",
     "# Comments MUST be at the start of a line.", "# Any comments added will be lost.", "#"]
  }

  function HashHeader(date: string): string {
    Lines(HashHeaderLines(date))
  }

  /** What saveSymbols prints for the listing es. */
  function SaveText(date: string, es: seq<Entry>): string {
    HashHeader(date) + RenderAll(Saved(es))
  }

  lemma {:induction false} SavedAppend(es: seq<Entry>, fs: seq<Entry>)
    ensures Saved(es + fs) == Saved(es) + Saved(fs)
  {
  }

  method SaveParam(np: Node) returns (lines: string)
    ensures lines == RenderEntry(Visible(Entry(np.name, np.Sym())))
  {
    lines := "";
    if np.global && np.name != "MODE" {
      lines := "^set " + np.name + " " + np.def + "\n";
      if np.locked { lines := lines + ("^lock " + np.name + "\n"); }
    }
  }

  method SaveBucket(tab: SymbolTable, b: nat) returns (text: string)
    requires tab.Valid() && b < TABLE_SIZE
    ensures text == RenderAll(Saved(ChainEntries(tab.chains[b], tab.model)))
  {
    ShapeAt(tab.heads, tab.chains, tab.node, |tab.heads|, b);
    text := "";
    ghost var c := tab.chains[b];
    ghost var es := ChainEntries(c, tab.model);
    ghost var i := 0;
    var np := tab.buckets[b];
    while np != null
      invariant 0 <= i <= |c| && ChainOk(np, c[i..], b, tab.node)
      invariant text == RenderAll(Saved(es)[..i])
      decreases |c| - i
    {
      ChainMember(np, c[i..], b, tab.node, 0);
      var lines := SaveParam(np);
      assert es[i] == Entry(np.name, np.Sym());
      RenderMore(Saved(es), i);
      assert c[i..][1..] == c[i + 1..];
      text := text + lines;
      np, i := np.next, i + 1;
    }
    assert Saved(es)[..i] == Saved(es);
  }

  /** The walk of saveSymbols over the buckets. */
  method SaveNodes(tab: SymbolTable, date: string) returns (text: string, ghost listing: seq<Entry>)
    requires tab.Valid()
    ensures Lists(listing, tab.model)
    ensures text == SaveText(date, listing)
  {
    var body := "";
    listing := [];
    for b := 0 to TABLE_SIZE
      invariant listing == TableEntries(tab.chains, tab.model, b) && body == RenderAll(Saved(listing))
    {
      var lines := SaveBucket(tab, b);
      ghost var more := ChainEntries(tab.chains[b], tab.model);
      RenderAppend(Saved(listing), Saved(more));
      SavedAppend(listing, more);
      body, listing := body + lines, listing + more;
    }
    ListsTable(tab.heads, tab.chains, tab.node, tab.model, TABLE_SIZE);
    assert forall k :: k in tab.model ==> Mentions(listing, k);
    text := HashHeader(date) + body;
  }

  /** The table after saveSymbols: defaults for SAVE_ALLOWED and START_FILE, both LOCAL. */
  function AfterSave(t: Table): Table {
    var t1 := if "SAVE_ALLOWED" in t then t else SetValue(t, "SAVE_ALLOWED", "true");
    if !SaveAllowed(t1) then t1
    else if "START_FILE" in t1 then t1 else Install(t1, "START_FILE", "./start.rc", false, false)
  }

  /** The name of the file to write, if saving is allowed. */
  method PrepareSave(tab: SymbolTable) returns (fileName: Option<string>)
    requires tab.Valid()
    modifies tab.Repr
    ensures tab.Valid() && fresh(tab.Repr - old(tab.Repr))
    ensures tab.model == AfterSave(old(tab.model))
    ensures fileName == if SaveAllowed(old(tab.model)) then Get(tab.model, "START_FILE") else None
    ensures SaveAllowed(old(tab.model)) ==> "START_FILE" in tab.model
  {
    var save := tab.GetSymbol("SAVE_ALLOWED");
    if save == None {
      SetSymbolValue(tab, "SAVE_ALLOWED", "true");
    } else if save.value == "false" {
      return None;
    }
    fileName := tab.GetSymbol("START_FILE");
    if fileName == None {
      InstallSymbol(tab, "START_FILE", "./start.rc", false, false);
      fileName := tab.GetSymbol("START_FILE");
    }
  }

  /** saveSymbols. canOpen is whether the file can be opened for writing. */
  method SaveSymbols(tab: SymbolTable, date: string, canOpen: bool)
    returns (file: Option<(string, string)>, ghost listing: seq<Entry>)
    requires tab.Valid()
    modifies tab.Repr
    ensures tab.Valid() && fresh(tab.Repr - old(tab.Repr))
    ensures tab.model == AfterSave(old(tab.model))
    ensures file.Some? <==> Get(old(tab.model), "SAVE_ALLOWED") != Some("false") && canOpen
    ensures file.Some? ==> Lists(listing, tab.model) && "START_FILE" in tab.model
    ensures file.Some? ==> file.value.0 == tab.model["START_FILE"].value
    ensures file.Some? ==> file.value.1 == SaveText(date, listing)
  {
    file, listing := None, [];
    var fileName := PrepareSave(tab);
    if fileName.Some? && canOpen {
      var text;
      text, listing := SaveNodes(tab, date);
      file := Some((fileName.value, text));
    }
  }
}
