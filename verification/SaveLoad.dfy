/** What a file written by ^save does when it is loaded into any table. */
module SaveLoad {
  import opened CString
  import opened Symbols
  import opened Commands
  import opened DaemonSpec
  import opened TextLines

  predicate Plainly(s: string) { Avoids(s, {'\r', '\n'}) }

  /** The ^set line up to its last word. */
  function SetWords(e: Entry): string {
    "^set " + e.name + (if e.sym.value == "" then "" else " " + e.sym.value)
  }

  /** Names and values as the command parser can store them, on lines that keep them whole: a line
      may fill fgets' buffer and leave its newline, and the space after an empty value, behind. */
  predicate Savable(e: Entry) {
    && e.name != "" && Avoids(e.name, {' ', '\r', '\n'}) && Plainly(e.sym.value)
    && |SetWords(e)| < BUFFSIZE && (e.sym.locked ==> |LockLine(e)| < BUFFSIZE)
  }

  predicate HeaderOk(date: string, prog: string) {
    Avoids(date, {'\n'}) && |date| < 200 && Avoids(prog, {'\n'}) && |prog| < 64
  }

  /** What ^set keeps of a saved value: its first space-free token. */
  function Kept(value: string): string {
    var v := StrTok(value, SP).0;
    if v.Some? then v.value else ""
  }

  /** The token ^set keeps of a saved value is the whole value exactly when it holds no space. */
  lemma {:induction false} KeptIff(value: string)
    ensures Kept(value) == value <==> Avoids(value, SP)
  {
    if value != "" && Avoids(value, SP) {
      StrTokHead(value, ' ', "", SP);
    }
    StrTokShape(value, SP);
  }

  function Put(t: Table, e: Entry): Table {
    if !e.sym.global || Locked(t, e.name) then t
    else t[e.name := Symbol(Kept(e.sym.value), e.sym.locked, true)]
  }

  function PutAll(t: Table, es: seq<Entry>): Table
    decreases |es|
  {
    if es == [] then t else PutAll(Put(t, es[0]), es[1..])
  }

  // ----- one line at a time -----

  lemma {:induction false} ParseComment(line: string)
    requires line != "" && line[0] == '#' && Avoids(line, {'\n'})
    ensures ParseLine(line + "\n") == Comment
  {
    var s := line + "\n";
    var tmp := StrTok(s, EOL).0.value;
    assert s[0] == '#';
    assert tmp[0] == '#';
  }

  lemma {:induction false} ParseBlank(line: string)
    requires line == "\n" || line == " \n"
    ensures ParseLine(line) == Blank
  {
    if line == "\n" {
    } else {
      StrTokHead(" ", '\n', "", EOL);
      assert " " + "\n" + "" == line;
    }
  }

  /** A line that holds one text, with or without its newline. */
  lemma {:induction false} OneText(line: string, tmp: string)
    requires tmp != "" && Avoids(tmp, EOL) && (line == tmp || line == tmp + "\n")
    ensures StrTok(line, EOL).0 == Some(tmp)
  {
    StrTokHead(tmp, '\n', "", EOL);
    assert tmp + "\n" + "" == tmp + "\n";
  }

  lemma {:induction false} SetTokens(e: Entry, tmp: string)
    requires Savable(e) && (tmp == SetLine(e) || tmp == SetWords(e))
    ensures StrTok(tmp, SP).0 == Some("^set")
    ensures var r0 := StrTok(tmp, SP).1;
            StrTok(r0, SP).0 == Some(e.name) && StrTok(StrTok(r0, SP).1, SP).0 == StrTok(e.sym.value, SP).0
  {
    StrTokHead(e.name, ' ', e.sym.value, SP);
    if tmp == SetLine(e) {
      assert tmp == "^set" + " " + (e.name + " " + e.sym.value);
      StrTokHead("^set", ' ', e.name + " " + e.sym.value, SP);
    } else {
      assert e.sym.value == "" && tmp == "^set" + " " + e.name;
      StrTokHead("^set", ' ', e.name, SP);
    }
  }

  lemma {:induction false} ParseSetLine(e: Entry, line: string, tmp: string)
    requires Savable(e) && (tmp == SetLine(e) || tmp == SetWords(e)) && |tmp| < BUFFSIZE
    requires line == tmp || line == tmp + "\n"
    ensures ParseLine(line) == SetCmd(e.name, Kept(e.sym.value))
  {
    OneText(line, tmp);
    SetTokens(e, tmp);
    ParseWords(line, tmp, "^set");
  }

  lemma {:induction false} ParseLockLine(e: Entry, line: string)
    requires Savable(e) && e.sym.locked && (line == LockLine(e) || line == LockLine(e) + "\n")
    ensures ParseLine(line) == LockCmd(e.name)
  {
    var tmp := LockLine(e);
    OneText(line, tmp);
    assert tmp == "^lock" + " " + e.name;
    StrTokHead("^lock", ' ', e.name, SP);
    StrTokHead(e.name, ' ', "", SP);
    ParseWords(line, tmp, "^lock");
  }

  // ----- the whole file -----

  /** A line that leaves its newline behind reads as its command and a blank line. */
  function EntryCommands(e: Entry): seq<Command> {
    EntryReading(e, ReadAs(SetLine(e), SetCmd(e.name, Kept(e.sym.value)), Blank),
                 ReadAs(LockLine(e), LockCmd(e.name), Blank))
  }

  function AllCommands(es: seq<Entry>): seq<Command> {
    Gather(EntryCommands, es)
  }

  function Comments(n: nat): seq<Command> { Repeat(Comment, n) }

  predicate Quiet(cmds: seq<Command>) {
    forall i :: 0 <= i < |cmds| ==> !cmds[i].Connect? && !cmds[i].Exit?
  }

  function ExecAll(t: Table, cmds: seq<Command>): Table
    decreases |cmds|
  {
    if cmds == [] then t else ExecAll(Executed(t, cmds[0]), cmds[1..])
  }

  lemma {:induction false} RunQuiet(st: State, cmds: seq<Command>, w: nat -> World, k: nat)
    requires Quiet(cmds)
    ensures RunCommands(st, cmds, w, k) == st.(syms := ExecAll(st.syms, cmds))
    decreases |cmds|
  {
    if cmds == [] {
    } else {
      RunQuiet(st.(syms := Executed(st.syms, cmds[0])), cmds[1..], w, k + 1);
    }
  }

  lemma {:induction false} ExecAppend(t: Table, a: seq<Command>, b: seq<Command>)
    ensures ExecAll(t, a + b) == ExecAll(ExecAll(t, a), b)
    decreases |a|
  {
    if a == [] {
      assert a + b == b;
    } else {
      assert (a + b)[1..] == a[1..] + b;
      ExecAppend(Executed(t, a[0]), a[1..], b);
    }
  }

  lemma {:induction false} ExecComments(t: Table, n: nat)
    ensures ExecAll(t, Comments(n)) == t
  {
    if n == 0 {
    } else {
      assert Comments(n)[1..] == Comments(n - 1);
      ExecComments(t, n - 1);
    }
  }

  /** A saved line has the effect of its command, split or not. */
  lemma {:induction false} ExecRead(t: Table, l: string, c: Command)
    ensures ExecAll(t, ReadAs(l, c, Blank)) == Executed(t, c)
  {
    assert [c][1..] == [] && [c, Blank][1..] == [Blank] && [Blank][1..] == [];
    assert ExecAll(Executed(t, c), [Blank]) == ExecAll(Executed(t, c), []);
  }

  lemma {:induction false} ExecEntry(t: Table, e: Entry)
    ensures ExecAll(t, EntryCommands(e)) == Put(t, e)
  {
    var set1, lock := SetCmd(e.name, Kept(e.sym.value)), LockCmd(e.name);
    var sets, locks := ReadAs(SetLine(e), set1, Blank), ReadAs(LockLine(e), lock, Blank);
    ExecRead(t, SetLine(e), set1);
    ExecRead(Executed(t, set1), LockLine(e), lock);
    ExecAppend(t, sets, locks);
    assert sets + [] == sets;
  }

  lemma {:induction false} ExecEntries(t: Table, es: seq<Entry>)
    ensures ExecAll(t, AllCommands(es)) == PutAll(t, es) && Quiet(AllCommands(es))
    decreases |es|
  {
    if es == [] {
    } else {
      ExecAppend(t, EntryCommands(es[0]), AllCommands(es[1..]));
      ExecEntry(t, es[0]);
      ExecEntries(Put(t, es[0]), es[1..]);
    }
  }

  // ----- the merge -----

  /** t's GLOBAL symbols over u, except where u has locked them. */
  ghost function Merge(t: Table, u: Table): Table {
    map k | k in u.Keys + (set n | n in t && t[n].global) ::
      if k in t && t[k].global && !Locked(u, k) then Symbol(Kept(t[k].value), t[k].locked, true)
      else u[k]
  }

  /** Entry by entry, distinct names: a name in es gets that entry's symbol, others keep theirs. */
  lemma {:induction false} PutAllAt(u: Table, es: seq<Entry>, name: string)
    requires forall i, j :: 0 <= i < j < |es| ==> es[i].name != es[j].name
    ensures forall i :: 0 <= i < |es| && es[i].name == name ==>
              (name in PutAll(u, es) <==> name in Put(u, es[i]))
              && (name in Put(u, es[i]) ==> PutAll(u, es)[name] == Put(u, es[i])[name])
    ensures (forall i :: 0 <= i < |es| ==> es[i].name != name) ==>
              (name in PutAll(u, es) <==> name in u) && (name in u ==> PutAll(u, es)[name] == u[name])
    decreases |es|
  {
    if es == [] {
    } else {
      var fs := es[1..];
      PutAllAt(Put(u, es[0]), fs, name);
      assert forall i :: 0 <= i < |fs| ==> fs[i] == es[i + 1];
      if i :| 0 < i < |es| && es[i].name == name {
        assert fs[i - 1].name == name;
        assert es[0].name != name;
      }
    }
  }

  lemma {:induction false} PutAllMerges(t: Table, es: seq<Entry>, u: Table, k: string)
    requires Lists(es, t)
    ensures k in PutAll(u, es) <==> k in Merge(t, u)
    ensures k in PutAll(u, es) ==> PutAll(u, es)[k] == Merge(t, u)[k]
  {
    PutAllAt(u, es, k);
    if k in t {
      var i :| 0 <= i < |es| && es[i].name == k;
      assert es[i].sym == t[k];
    }
  }

  lemma {:induction false} PutAllIsMerge(t: Table, es: seq<Entry>, u: Table)
    requires Lists(es, t)
    ensures PutAll(u, es) == Merge(t, u)
  {
    forall k
      ensures k in PutAll(u, es) <==> k in Merge(t, u)
      ensures k in PutAll(u, es) ==> PutAll(u, es)[k] == Merge(t, u)[k]
    {
      PutAllMerges(t, es, u, k);
    }
  }

  /** A ^set line that is split leaves a blank rest. */
  lemma {:induction false} SplitSetLine(e: Entry) returns (rest: string)
    requires Savable(e) && |SetLine(e)| >= BUFFSIZE - 1
    ensures var l := SetLine(e);
            |l| <= BUFFSIZE && rest == l[BUFFSIZE - 1..] + "\n" && (rest == "\n" || rest == " \n")
            && (l[..BUFFSIZE - 1] == l || l[..BUFFSIZE - 1] == SetWords(e))
  {
    var l := SetLine(e);
    rest := l[BUFFSIZE - 1..] + "\n";
    if |l| == BUFFSIZE {
      assert l == SetWords(e) + " ";
    }
  }

  lemma {:induction false} SetParses(e: Entry, line: string, tmp: string)
    requires Savable(e) && (tmp == SetLine(e) || tmp == SetWords(e)) && |tmp| < BUFFSIZE
    requires line == tmp || line == tmp + "\n"
    ensures ParseWith(ParseLine, [line]) == [SetCmd(e.name, Kept(e.sym.value))]
  {
    ParseSetLine(e, line, tmp);
  }

  lemma {:induction false} LockParses(e: Entry, line: string)
    requires Savable(e) && e.sym.locked && (line == LockLine(e) || line == LockLine(e) + "\n")
    ensures ParseWith(ParseLine, [line]) == [LockCmd(e.name)]
  {
    ParseLockLine(e, line);
  }

  lemma {:induction false} BlankParses(line: string)
    requires line == "\n" || line == " \n"
    ensures ParseWith(ParseLine, [line]) == [Blank]
  {
    ParseBlank(line);
  }

  lemma {:induction false} SetLineReads(e: Entry, l: string)
    requires Savable(e) && l == SetLine(e)
    ensures ParseWith(ParseLine, FileLines(l + "\n")) == ReadAs(l, SetCmd(e.name, Kept(e.sym.value)), Blank)
  {
    if |l| < BUFFSIZE - 1 {
      SetParses(e, l + "\n", l);
      ShortReads(ParseLine, l, SetCmd(e.name, Kept(e.sym.value)), Blank);
    } else {
      var rest := SplitSetLine(e);
      SetParses(e, l[..BUFFSIZE - 1], l[..BUFFSIZE - 1]);
      BlankParses(rest);
      LongReads(ParseLine, l, l[..BUFFSIZE - 1], rest, SetCmd(e.name, Kept(e.sym.value)), Blank);
    }
  }

  lemma {:induction false} LockLineReads(e: Entry, l: string)
    requires Savable(e) && e.sym.locked && l == LockLine(e)
    ensures ParseWith(ParseLine, FileLines(l + "\n")) == ReadAs(l, LockCmd(e.name), Blank)
  {
    if |l| < BUFFSIZE - 1 {
      LockParses(e, l + "\n");
      ShortReads(ParseLine, l, LockCmd(e.name), Blank);
    } else {
      assert l[..BUFFSIZE - 1] == l && l[BUFFSIZE - 1..] + "\n" == "\n";
      LockParses(e, l);
      BlankParses("\n");
      LongReads(ParseLine, l, l, "\n", LockCmd(e.name), Blank);
    }
  }

  lemma {:induction false} EntryReads(e: Entry)
    requires e.sym.global ==> Savable(e)
    ensures EntryOnLines(e)
    ensures ParseWith(ParseLine, Pieces(EntryLines(e))) == EntryCommands(e)
  {
    if e.sym.global {
      SetLineReads(e, SetLine(e));
      if e.sym.locked { LockLineReads(e, LockLine(e)); }
    }
    ParseEntry(ParseLine, e, ReadAs(SetLine(e), SetCmd(e.name, Kept(e.sym.value)), Blank),
               ReadAs(LockLine(e), LockCmd(e.name), Blank));
  }

  /** What a loader reads out of a saved file: comments, then the entries' commands. */
  lemma {:induction false} SavedCommands(es: seq<Entry>, ls: seq<string>)
    requires forall i :: 0 <= i < |ls| ==> CommentLine(ls[i])
    requires forall i :: 0 <= i < |es| && es[i].sym.global ==> Savable(es[i])
    ensures ParseLines(FileLines(Lines(ls) + RenderAll(es))) == Comments(|ls|) + AllCommands(es)
  {
    forall i | 0 <= i < |ls| ensures ParseLine(ls[i] + "\n") == Comment { ParseComment(ls[i]); }
    forall i | 0 <= i < |es|
      ensures EntryOnLines(es[i])
      ensures ParseWith(ParseLine, Pieces(EntryLines(es[i]))) == EntryCommands(es[i])
    {
      EntryReads(es[i]);
    }
    SavedReads(ParseLine, EntryCommands, Comment, ls, es);
  }

  lemma {:induction false} RunSaved(es: seq<Entry>, st: State, n: nat, w: nat -> World)
    ensures RunCommands(st, Comments(n) + AllCommands(es), w, 0) == st.(syms := PutAll(st.syms, es))
  {
    ExecComments(st.syms, n);
    ExecEntries(st.syms, es);
    ExecAppend(st.syms, Comments(n), AllCommands(es));
    RunQuiet(st, Comments(n) + AllCommands(es), w, 0);
  }

  /** The symbol table processConfigFile leaves, from a table that holds u: the merge, with USER
      locked on top when AUTOCONNECT ends up "true". */
  ghost function Merged(t: Table, u: Table): Table {
    if AutoConnects(Merge(t, u)) then LockSym(Merge(t, u), "USER") else Merge(t, u)
  }

  ghost predicate SaveFile(text: string, es: seq<Entry>) {
    exists date, prog :: HeaderOk(date, prog) && text == Header(date, prog) + RenderAll(es)
  }

  lemma {:induction false} HeaderComments(date: string, prog: string)
    requires HeaderOk(date, prog)
    ensures |HeaderLines(date, prog)| == 7
    ensures forall i :: 0 <= i < 7 ==> CommentLine(HeaderLines(date, prog)[i])
  {
    FixedComments(date);
    assert Avoids(" startup file.", {'\n'});
    assert CommentLine("# " + prog + " startup file.");
  }

  /** The comment lines of a saved file. */
  lemma {:induction false} HeaderText(date: string, prog: string)
    ensures Header(date, prog) == "#" + "\n" + ("# Save Date:" + date + "\n" + ("#" + "\n" + ("# " + prog
              + " startup file." + "\n" + ("# Comments MUST be at the start of a line." + "\n"
              + ("# Any comments added will be lost." + "\n" + ("#" + "\n" + ""))))))
  {
    LinesOfSeven(HeaderLines(date, prog));
  }

  lemma {:induction false} ReadSaved(es: seq<Entry>, text: string)
    requires SaveFile(text, es)
    requires forall i :: 0 <= i < |es| && es[i].sym.global ==> Savable(es[i])
    ensures ParseLines(FileLines(text)) == Comments(7) + AllCommands(es)
  {
    var date, prog :| HeaderOk(date, prog) && text == Header(date, prog) + RenderAll(es);
    HeaderComments(date, prog);
    SavedCommands(es, HeaderLines(date, prog));
  }

  /** Loading the file that ^save writes for t leaves every table with exactly the merge. */
  lemma {:induction false} LoadSaved(t: Table, es: seq<Entry>, st: State, text: string, w: nat -> World)
    requires Lists(es, t) && SaveFile(text, es)
    requires forall i :: 0 <= i < |es| && es[i].sym.global ==> Savable(es[i])
    ensures LoadConfig(st, text, w) == st.(syms := Merged(t, st.syms))
  {
    ReadSaved(es, text);
    RunSaved(es, st, 7, w);
    PutAllIsMerge(t, es, st.syms);
  }

  /** Loading the file once more changes nothing. */
  lemma {:induction false} MergedTwice(t: Table, u: Table)
    ensures Merged(t, Merged(t, u)) == Merged(t, u)
  {
    assert Merge(t, Merged(t, u)) == Merged(t, u);
  }

  predicate UnlockedGlobal(t: Table, k: string) {
    k in t && t[k].global && !t[k].locked
  }

  lemma {:induction false} MergeSelfIff(t: Table)
    ensures Merge(t, t) == t <==> forall k :: UnlockedGlobal(t, k) ==> Avoids(t[k].value, SP)
  {
    forall k | UnlockedGlobal(t, k) ensures Avoids(t[k].value, SP) <==> Merge(t, t)[k] == t[k] {
      KeptIff(t[k].value);
    }
  }

  lemma {:induction false} MergedSelfIff(t: Table)
    ensures Merged(t, t) == t
            <==> (forall k :: UnlockedGlobal(t, k) ==> Avoids(t[k].value, SP))
                 && (AutoConnects(t) && "USER" in t ==> t["USER"].locked)
  {
    MergeSelfIff(t);
  }

  /** A table survives being saved and loaded again into the daemon that saved it exactly when no
      unlocked GLOBAL value holds a space and AUTOCONNECT finds no unlocked USER to lock. */
  lemma {:induction false} SelfLoadIff(t: Table, es: seq<Entry>, flip: bool, text: string, w: nat -> World)
    requires Lists(es, t) && SaveFile(text, es)
    requires forall i :: 0 <= i < |es| && es[i].sym.global ==> Savable(es[i])
    ensures LoadConfig(State(t, flip), text, w) == State(t, flip)
            <==> (forall k :: UnlockedGlobal(t, k) ==> Avoids(t[k].value, SP))
                 && (AutoConnects(t) && "USER" in t ==> t["USER"].locked)
  {
    LoadSaved(t, es, State(t, flip), text, w);
    MergedSelfIff(t);
  }

  /** The default SET_FMT of initDefaultSymbols is not such a value. */
  lemma {:induction false} DefaultFormatIsCut()
    ensures Kept("%s %s") == "%s"
  {
    StrTokHead("%s", ' ', "%s", SP);
    assert "%s" + " " + "%s" == "%s %s";
  }

  lemma {:induction false} SkipAvoids(s: string, d: set<char>, e: set<char>)
    requires Avoids(s, e)
    ensures Avoids(SkipDelims(s, d), e)
  {
    if s == "" || s[0] !in d {
    } else {
      SkipAvoids(s[1..], d, e);
    }
  }

  lemma {:induction false} StrTokAvoids(s: string, d: set<char>, e: set<char>)
    requires Avoids(s, e)
    ensures StrTok(s, d).0.Some? ==> Avoids(StrTok(s, d).0.value, e)
    ensures Avoids(StrTok(s, d).1, e)
  {
    SkipAvoids(s, d, e);
  }

  lemma {:induction false} SetCmdWords(cmd: string, p1: Option<string>, p2: Option<string>, safe: string,
        name: string, value: string)
    requires ParseCommand(cmd, p1, p2, safe) == SetCmd(name, value)
    ensures cmd == "^set" && p1 == Some(name) && value == if p2.Some? then p2.value else ""
  {
  }

  lemma {:induction false} LockCmdWords(cmd: string, p1: Option<string>, p2: Option<string>, safe: string,
        name: string)
    requires ParseCommand(cmd, p1, p2, safe) == LockCmd(name)
    ensures cmd == "^lock" && p1 == Some(name)
  {
  }

  lemma {:induction false} StrTokLength(s: string, d: set<char>)
    ensures StrTok(s, d).0.Some? && StrTok(s, d).1 != "" ==>
              |StrTok(s, d).0.value| + 1 + |StrTok(s, d).1| <= |s|
  {
    SkipDelimsHead(s, d);
  }

  /** Whatever a ^set line stores can be saved, and loses nothing in the file. */
  lemma {:induction false} SetIsSavable(line: string, name: string, value: string)
    requires |line| < BUFFSIZE && ParseLine(line) == SetCmd(name, value)
    ensures Savable(Entry(name, Symbol(value, false, true)))
    ensures Kept(value) == value
  {
    var tmp := StrTok(line, EOL).0.value;
    var (cmd, r0) := StrTok(tmp, SP);
    var (p1, r1) := StrTok(r0, SP);
    var p2 := StrTok(r1, SP).0;
    SetCmdWords(cmd.value, p1, p2, Truncate(tmp), name, value);
    StrTokShape(line, EOL);
    StrTokAvoids(tmp, SP, EOL);
    StrTokShape(r0, SP);
    StrTokAvoids(r0, SP, EOL);
    StrTokShape(r1, SP);
    StrTokAvoids(r1, SP, EOL);
    StrTokLength(tmp, SP);
    StrTokLength(r0, SP);
    KeptIff(value);
  }

  /** It still can after a ^lock line has locked it. */
  lemma {:induction false} LockIsSavable(line: string, e: Entry)
    requires |line| < BUFFSIZE && ParseLine(line) == LockCmd(e.name) && Savable(e)
    ensures Savable(e.(sym := e.sym.(locked := true)))
  {
    var tmp := StrTok(line, EOL).0.value;
    var (cmd, r0) := StrTok(tmp, SP);
    var (p1, r1) := StrTok(r0, SP);
    LockCmdWords(cmd.value, p1, StrTok(r1, SP).0, Truncate(tmp), e.name);
    StrTokShape(line, EOL);
    StrTokShape(r0, SP);
    StrTokLength(tmp, SP);
  }
}
