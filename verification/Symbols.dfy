/** What the symbol table of commonToSpread.c stands for: a map from names to symbols,
    the operations on it, and the text that ^save writes for it. */
module Symbols {
  import opened CString

  /** locked is ro == LOCK, global is local == GLOBAL. */
  datatype Symbol = Symbol(value: string, locked: bool, global: bool)

  type Table = map<string, Symbol>

  datatype Entry = Entry(name: string, sym: Symbol)

  const TABLE_SIZE: nat := 31

  function CharSum(s: string): nat {
    if s == "" then 0 else CharSum(s[..|s| - 1]) + s[|s| - 1] as nat
  }

  function Hash(s: string): (h: nat)
    ensures h < TABLE_SIZE
  {
    CharSum(s) % TABLE_SIZE
  }

  function Get(t: Table, name: string): Option<string> {
    if name in t then Some(t[name].value) else None
  }

  predicate Holds(t: Table, name: string, value: string) {
    name in t && t[name].value == value
  }

  predicate Locked(t: Table, name: string) {
    name in t && t[name].locked
  }

  function SetSym(t: Table, name: string, value: string, locked: bool, global: bool): Table {
    if Locked(t, name) then t else t[name := Symbol(value, locked, global)]
  }

  function LockSym(t: Table, name: string): Table {
    if name in t then t[name := t[name].(locked := true)] else t
  }

  // ----- the save file -----

  /** es names every symbol of t once, in some order. */
  ghost predicate Lists(es: seq<Entry>, t: Table) {
    && (forall i :: 0 <= i < |es| ==> es[i].name in t && t[es[i].name] == es[i].sym)
    && (forall i, j :: 0 <= i < j < |es| ==> es[i].name != es[j].name)
    && (forall k :: k in t ==> exists i :: 0 <= i < |es| && es[i].name == k)
  }

  function SetLine(e: Entry): string { "^set " + e.name + " " + e.sym.value }

  function LockLine(e: Entry): string { "^lock " + e.name }

  function RenderEntry(e: Entry): string {
    if !e.sym.global then "" else
      SetLine(e) + "\n" + (if e.sym.locked then LockLine(e) + "\n" else "")
  }

  function RenderAll(es: seq<Entry>): string {
    if es == [] then "" else RenderEntry(es[0]) + RenderAll(es[1..])
  }

  lemma {:induction false} RenderAppend(es: seq<Entry>, fs: seq<Entry>)
    ensures RenderAll(es + fs) == RenderAll(es) + RenderAll(fs)
  {
    if es == [] {
      assert es + fs == fs;
    } else {
      assert (es + fs)[1..] == es[1..] + fs;
      RenderAppend(es[1..], fs);
      assert RenderEntry(es[0]) + (RenderAll(es[1..]) + RenderAll(fs))
          == RenderEntry(es[0]) + RenderAll(es[1..]) + RenderAll(fs);
    }
  }

  lemma {:induction false} RenderMore(es: seq<Entry>, i: nat)
    requires i < |es|
    ensures RenderAll(es[..i + 1]) == RenderAll(es[..i]) + RenderEntry(es[i])
  {
    assert es[..i + 1] == es[..i] + [es[i]];
    RenderAppend(es[..i], [es[i]]);
    assert RenderAll([es[i]]) == RenderEntry(es[i]);
  }

  /** The comment lines at the head of the file; date is asctime's line without its newline. */
  function HeaderLines(date: string, prog: string): seq<string> {
    ["#", "# Save Date:" + date, "#", "# " + prog + " startup file.",
     "# Comments MUST be at the start of a line.", "# Any comments added will be lost.", "#"]
  }

  function Lines(ls: seq<string>): string {
    if ls == [] then "" else ls[0] + "\n" + Lines(ls[1..])
  }

  function Header(date: string, prog: string): string {
    Lines(HeaderLines(date, prog))
  }

  predicate SaveAllowed(t: Table) {
    !Holds(t, "SAVE_ALLOWED", "false")
  }

  /** saveSymbols names a file when none is configured. */
  function AfterSave(t: Table): Table {
    if SaveAllowed(t) && "START_FILE" !in t
    then SetSym(t, "START_FILE", "./start.rc", false, false) else t
  }
}
