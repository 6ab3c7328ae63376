/** Whole runs of a daemon: any interleaving of start-up, options, command lines, connects, lost
    connections and received messages, and what holds of the symbol table after all of them. */
module Runs {
  import opened CString
  import opened Symbols
  import opened Commands
  import opened DaemonSpec

  /** One call of setSymbol or lockSymbol. remote marks the call made for a received ^set. */
  datatype SymOp =
    | Write(name: string, value: string, locked: bool, global: bool, remote: bool)
    | Lock(name: string)

  function Apply(t: Table, op: SymOp): Table {
    match op
    case Write(name, value, locked, global, _) => SetSym(t, name, value, locked, global)
    case Lock(name) => LockSym(t, name)
  }

  function ApplyAll(t: Table, ops: seq<SymOp>): Table {
    if ops == [] then t else Apply(ApplyAll(t, ops[..|ops| - 1]), ops[|ops| - 1])
  }

  lemma {:induction false} ApplyAllAppend(t: Table, a: seq<SymOp>, b: seq<SymOp>)
    ensures ApplyAll(t, a + b) == ApplyAll(ApplyAll(t, a), b)
  {
    if b == [] {
      assert a + b == a;
    } else {
      assert (a + b)[..|a + b| - 1] == a + b[..|b| - 1];
      ApplyAllAppend(t, a, b[..|b| - 1]);
    }
  }

  lemma {:induction false} ApplySnoc(t: Table, ops: seq<SymOp>, op: SymOp)
    ensures ApplyAll(t, ops + [op]) == Apply(ApplyAll(t, ops), op)
  {
    assert (ops + [op])[..|ops|] == ops;
  }

  lemma {:induction false} ApplyOne(t: Table, op: SymOp)
    ensures ApplyAll(t, [op]) == Apply(t, op)
  {
    ApplySnoc(t, [], op);
    assert [] + [op] == [op];
  }

  datatype Event =
    | Init(prog: string, date: string, startFile: string)
    | Opt(ch: char, arg: string, logOpens: bool)
    | Finish(user: Option<string>, host: Option<string>, rcFile: string)
    | Line(text: string, w: World)
    | ConfigRead
    | SetupDatabase
    | RxConnect(world: World)
    | RxLost
    | Received(message: string)

  function Def(name: string, value: string, locked: bool, global: bool): SymOp {
    Write(name, value, locked, global, false)
  }

  /** initDefaultSymbols, in source order. */
  function InitOps(prog: string, date: string, startFile: string): seq<SymOp> {
    [Def("DEBUG", "false", false, true), Def("SHOW_SENDER", "false", false, true),
     Def("EXIT_COMMAND", "false", false, true), Def("OWN_MESSAGES", "false", false, true),
     Def("SAVE_ALLOWED", "true", false, true), Def("CONNECTED", "false", false, false),
     Def("CONFIGURED", "false", false, false), Def("CLIENT", "raw", false, true),
     Def("AUTOCONNECT", "false", false, true), Def("PASSTHROUGH", "true", false, true),
     Def("INTERACTIVE", "false", false, true), Def("BUILD", date, true, false),
     Def("CLEARDB", "false", false, true), Def("SET_FMT", "%s %s", false, true),
     Def("AUTOPURGE", "false", false, true), Def("STALE_AFTER", "600", false, true),
     Def("ADD_CR", "false", false, true), Def("IGN_GLOBAL", "false", false, true),
     Def("COMMS_VARS", "false", false, true), Def("REMOTE_CREATE", "false", true, true),
     Def("ON_CHANGE", "", true, true)] +
    [Def("ON_CONNECT", "", false, true), Def("PROMPT", prog + ">", false, true),
     Def("START_FILE", startFile, false, false)]
  }

  /** Name and scope of the symbol a value option of handleCommonOption sets and locks. */
  function OptionSymbol(ch: char): Option<(string, bool)> {
    match ch
    case 'c' => Some(("START_FILE", false))
    case 'd' => Some(("DATABASE", true))
    case 'u' => Some(("USER", false))
    case 'n' => Some(("HOSTNAME", false))
    case 'g' => Some(("GROUP", true))
    case _ => None
  }

  function OptionOps(ch: char, arg: string, logOpens: bool): seq<SymOp> {
    match OptionSymbol(ch)
    case Some((name, global)) => [Def(name, arg, true, global)]
    case None =>
      if ch == 'l' && logOpens then [Def("DEBUG", "true", true, true), Def("LOG_FILE", arg, true, false)]
      else []
  }

  function Unless(known: bool, op: SymOp): seq<SymOp> {
    if known then [] else [op]
  }

  function WhoOps(t: Table, user: Option<string>): seq<SymOp> {
    var u := if "USER" in t then Some(t["USER"].value) else user;
    var name := if u.Some? then u.value else "spread";
    (if "USER" !in t && user.Some? then [Def("USER", user.value, false, false)] else []) +
    Unless("GROUP" in t, Def("GROUP", "global", false, true)) +
    Unless("DATABASE" in t, Def("DATABASE", Truncate("/var/tmp/" + name + ".db"), true, false))
  }

  function WhereOps(t: Table, host: Option<string>, rcFile: string): seq<SymOp> {
    [Def("SERVER", "4803", false, true), Def("ALTSERVER", "localhost:4803", false, true)] +
    Unless("START_FILE" in t, Def("START_FILE", Truncate(rcFile), false, false)) +
    (if "HOSTNAME" !in t && host.Some? && StrTok(host.value, {'.'}).0.Some?
     then [Def("HOSTNAME", StrTok(host.value, {'.'}).0.value, true, false)] else [])
  }

  /** finishSymbolInitialization: only names that are still unknown, but for the two servers. */
  function FinishOps(t: Table, user: Option<string>, host: Option<string>, rcFile: string): seq<SymOp> {
    WhoOps(t, user) + WhereOps(t, host, rcFile)
  }

  function ConnectedOp(yes: bool): SymOp {
    Write("CONNECTED", if yes then "true" else "false", false, false, false)
  }

  function ServerOps(st: State): seq<SymOp> {
    [Def("CONNECTED_TO", HostPart(FirstServer(st)), false, false),
     Def("ME", MeName(st), true, false)]
  }

  function ConnectOps(st: State, w: World): seq<SymOp> {
    [ConnectedOp(false), ConnectedOp(Connects(st, w))] +
    (if TakenServer(st, w).Some? then ServerOps(st) else [])
  }

  function CommandOps(st: State, cmd: Command, w: World): seq<SymOp> {
    match cmd
    case SetCmd(name, value) => [Def(name, value, false, true)]
    case LockCmd(name) => [Lock(name)]
    case Save =>
      if SaveAllowed(st.syms) && "START_FILE" !in st.syms
      then [Def("START_FILE", "./start.rc", false, false)] else []
    case Connect => ConnectOps(st, w)
    case Start => [Lock("USER")]
    case _ => []
  }

  function MessageOps(message: string): seq<SymOp> {
    match ReceivedSet(message)
    case None => []
    case Some((name, value)) => [Write(name, value, false, false, true)]
  }

  function EventOps(st: State, e: Event): seq<SymOp> {
    match e
    case Init(prog, date, startFile) => InitOps(prog, date, startFile)
    case Opt(ch, arg, logOpens) => OptionOps(ch, arg, logOpens)
    case Finish(user, host, rcFile) => FinishOps(st.syms, user, host, rcFile)
    case Line(text, w) => CommandOps(st, ParseLine(text), w)
    case ConfigRead => if AutoConnects(st.syms) then [Lock("USER")] else []
    case SetupDatabase =>
      if "DATABASE" in st.syms then []
      else [Def("DATABASE", "/tmp/nb2spread.db", false, true), Lock("DATABASE")]
    case RxConnect(w) => ConnectOps(st, w)
    case RxLost => [Def("CONNECTED", "false", false, false)]
    case Received(message) => MessageOps(message)
  }

  predicate Flips(e: Event) {
    e.RxConnect? || (e.Line? && ParseLine(e.text) == Connect)
  }

  function Step(st: State, e: Event): State {
    State(ApplyAll(st.syms, EventOps(st, e)), st.flipFlop != Flips(e))
  }

  function Run(st: State, es: seq<Event>): State {
    if es == [] then st else Step(Run(st, es[..|es| - 1]), es[|es| - 1])
  }

  /** All calls of a run, in order. */
  function Log(st: State, es: seq<Event>): seq<SymOp> {
    if es == [] then [] else
      Log(st, es[..|es| - 1]) + EventOps(Run(st, es[..|es| - 1]), es[|es| - 1])
  }

  lemma {:induction false} RunIsLog(st: State, es: seq<Event>)
    ensures Run(st, es).syms == ApplyAll(st.syms, Log(st, es))
  {
    if es == [] {
    } else {
      var front := es[..|es| - 1];
      RunIsLog(st, front);
      ApplyAllAppend(st.syms, Log(st, front), EventOps(Run(st, front), es[|es| - 1]));
    }
  }

  // ----- the calls are those the daemon makes -----

  lemma {:induction false} ServerUnfolds(t: Table, st: State)
    ensures ApplyAll(t, ServerOps(st))
         == SetSym(SetSym(t, "CONNECTED_TO", HostPart(FirstServer(st)), false, false), "ME", MeName(st), true, false)
  {
    var a := Def("CONNECTED_TO", HostPart(FirstServer(st)), false, false);
    var b := Def("ME", MeName(st), true, false);
    ApplyOne(t, a);
    ApplySnoc(t, [a], b);
    assert [a] + [b] == ServerOps(st);
  }

  lemma {:induction false} ConnectIsOps(st: State, w: World)
    ensures ApplyAll(st.syms, ConnectOps(st, w)) == AfterConnect(st, w).syms
  {
    var yes := Connects(st, w);
    var two := [ConnectedOp(false), ConnectedOp(yes)];
    ApplyOne(st.syms, ConnectedOp(false));
    ApplySnoc(st.syms, [ConnectedOp(false)], ConnectedOp(yes));
    assert [ConnectedOp(false)] + [ConnectedOp(yes)] == two;
    if TakenServer(st, w).Some? {
      ApplyAllAppend(st.syms, two, ServerOps(st));
      ServerUnfolds(ApplyAll(st.syms, two), st);
    } else {
      assert ConnectOps(st, w) == two;
    }
  }

  lemma {:induction false} CommandIsOps(st: State, cmd: Command, w: World)
    ensures State(ApplyAll(st.syms, CommandOps(st, cmd, w)), st.flipFlop != (cmd == Connect))
         == AfterCommand(st, cmd, w)
  {
    if cmd == Connect {
      ConnectIsOps(st, w);
    } else {
      var ops := CommandOps(st, cmd, w);
      if ops != [] { ApplyOne(st.syms, ops[0]); }
    }
  }

  /** A step of a run is what the daemon's own functions say, the ones its methods are proved
      against: for a command line, a connect and a received message. */
  lemma {:induction false} LineStep(st: State, text: string, w: World)
    ensures Step(st, Line(text, w)) == AfterCommand(st, ParseLine(text), w)
  {
    CommandIsOps(st, ParseLine(text), w);
  }

  lemma {:induction false} ConnectStep(st: State, w: World)
    ensures Step(st, RxConnect(w)) == AfterConnect(st, w)
  {
    ConnectIsOps(st, w);
  }

  lemma {:induction false} MessageStep(st: State, message: string)
    ensures Step(st, Received(message)) == st.(syms := AfterMessage(st.syms, message))
    ensures var t := Step(st, Received(message)).syms;
            forall name, value :: ReceivedSet(message) == Some((name, value)) ==>
              name in t && t[name] == if Locked(st.syms, name) then st.syms[name] else Symbol(value, false, false)
  {
    if ReceivedSet(message).Some? {
      var (name, value) := ReceivedSet(message).value;
      ApplyOne(st.syms, Write(name, value, false, false, true));
    }
  }

  // ----- a config file is a run -----

  lemma {:induction false} RunCons(st: State, e: Event, es: seq<Event>)
    ensures Run(st, [e] + es) == Run(Step(st, e), es)
  {
    var all := [e] + es;
    if es == [] {
      assert all[..|all| - 1] == [];
    } else {
      assert all[..|all| - 1] == [e] + es[..|es| - 1];
      RunCons(st, e, es[..|es| - 1]);
    }
  }

  /** The events processConfigFile goes through: its lines up to an ^exit that stops, and the check of
      AUTOCONNECT. */
  function ConfigEvents(st: State, lines: seq<string>, w: nat -> World, k: nat): seq<Event>
    decreases |lines|
  {
    if lines == [] then [ConfigRead] else
      var next := AfterCommand(st, ParseLine(lines[0]), w(k));
      [Line(lines[0], w(k))] +
      (if Stops(st, ParseLine(lines[0])) then [ConfigRead] else ConfigEvents(next, lines[1..], w, k + 1))
  }

  lemma {:induction false} ConfigReadStep(st: State)
    ensures Run(st, [ConfigRead]) == if AutoConnects(st.syms) then st.(syms := LockSym(st.syms, "USER")) else st
  {
    RunCons(st, ConfigRead, []);
    assert [ConfigRead] + [] == [ConfigRead];
    if AutoConnects(st.syms) { ApplyOne(st.syms, Lock("USER")); }
  }

  lemma {:induction false} CommandsFirst(st: State, lines: seq<string>, w: nat -> World, k: nat)
    requires lines != []
    ensures var cmd := ParseLine(lines[0]);
            var next := AfterCommand(st, cmd, w(k));
            RunCommands(st, ParseLines(lines), w, k)
            == if Stops(st, cmd) then next else RunCommands(next, ParseLines(lines[1..]), w, k + 1)
  {
    assert ParseLines(lines)[0] == ParseLine(lines[0]) && ParseLines(lines)[1..] == ParseLines(lines[1..]);
  }

  lemma {:induction false} ConfigLines(st: State, lines: seq<string>, w: nat -> World, k: nat)
    ensures var end := RunCommands(st, ParseLines(lines), w, k);
            Run(st, ConfigEvents(st, lines, w, k)) == Run(end, [ConfigRead])
    decreases |lines|
  {
    if lines == [] {
    } else {
      var cmd := ParseLine(lines[0]);
      var next := AfterCommand(st, cmd, w(k));
      var rest := if Stops(st, cmd) then [ConfigRead] else ConfigEvents(next, lines[1..], w, k + 1);
      RunCons(st, Line(lines[0], w(k)), rest);
      LineStep(st, lines[0], w(k));
      CommandsFirst(st, lines, w, k);
      if !Stops(st, cmd) { ConfigLines(next, lines[1..], w, k + 1); }
    }
  }

  /** Reading a config file is a run of its lines. */
  lemma {:induction false} ConfigIsRun(st: State, text: string, w: nat -> World)
    ensures LoadConfig(st, text, w) == Run(st, ConfigEvents(st, FileLines(text), w, 0))
  {
    ConfigLines(st, FileLines(text), w, 0);
    ConfigReadStep(RunCommands(st, ParseLines(FileLines(text)), w, 0));
  }

  // ----- locks are permanent -----

  lemma {:induction false} LockedStays(t: Table, ops: seq<SymOp>, name: string)
    requires Locked(t, name)
    ensures name in ApplyAll(t, ops) && ApplyAll(t, ops)[name] == t[name]
  {
    if ops == [] {
    } else {
      LockedStays(t, ops[..|ops| - 1], name);
    }
  }

  /** Once a symbol is locked, no event changes its value, its lock or its scope. */
  lemma {:induction false} LockPermanent(st: State, es: seq<Event>, name: string)
    requires Locked(st.syms, name)
    ensures name in Run(st, es).syms && Run(st, es).syms[name] == st.syms[name]
  {
    RunIsLog(st, es);
    LockedStays(st.syms, Log(st, es), name);
  }

  /** What each option sets and locks, unless it is locked already. */
  function LockedSet(t: Table, name: string, value: string, global: bool): Table {
    if name in t && t[name].locked then t else t[name := Symbol(value, true, global)]
  }

  lemma {:induction false} OptionsSet(st: State, arg: string, logOpens: bool)
    ensures Step(st, Opt('c', arg, logOpens)).syms == LockedSet(st.syms, "START_FILE", arg, false)
    ensures Step(st, Opt('d', arg, logOpens)).syms == LockedSet(st.syms, "DATABASE", arg, true)
    ensures Step(st, Opt('u', arg, logOpens)).syms == LockedSet(st.syms, "USER", arg, false)
    ensures Step(st, Opt('n', arg, logOpens)).syms == LockedSet(st.syms, "HOSTNAME", arg, false)
    ensures Step(st, Opt('g', arg, logOpens)).syms == LockedSet(st.syms, "GROUP", arg, true)
  {
    ApplyOne(st.syms, Def("START_FILE", arg, true, false));
    ApplyOne(st.syms, Def("DATABASE", arg, true, true));
    ApplyOne(st.syms, Def("USER", arg, true, false));
    ApplyOne(st.syms, Def("HOSTNAME", arg, true, false));
    ApplyOne(st.syms, Def("GROUP", arg, true, true));
  }

  /** -l opens a log and turns DEBUG on for good. */
  lemma {:induction false} LogOptionSets(st: State, arg: string)
    ensures Step(st, Opt('l', arg, true)).syms
         == LockedSet(LockedSet(st.syms, "DEBUG", "true", true), "LOG_FILE", arg, false)
    ensures Step(st, Opt('l', arg, false)).syms == st.syms
  {
    var a, b := Def("DEBUG", "true", true, true), Def("LOG_FILE", arg, true, false);
    ApplyOne(st.syms, a);
    ApplySnoc(st.syms, [a], b);
    assert [a] + [b] == [a, b];
  }

  /** A lost connection is noted in CONNECTED; setupDatabase names a DATABASE if there is none. */
  lemma {:induction false} LostAndSetup(st: State)
    ensures Step(st, RxLost).syms
         == if Locked(st.syms, "CONNECTED") then st.syms else st.syms["CONNECTED" := Symbol("false", false, false)]
    ensures Step(st, SetupDatabase).syms
         == if "DATABASE" in st.syms then st.syms else st.syms["DATABASE" := Symbol("/tmp/nb2spread.db", true, true)]
  {
    var a, b := Def("DATABASE", "/tmp/nb2spread.db", false, true), Lock("DATABASE");
    ApplyOne(st.syms, Def("CONNECTED", "false", false, false));
    ApplyOne(st.syms, a);
    ApplySnoc(st.syms, [a], b);
    assert [a] + [b] == [a, b];
  }

  /** A command-line value beats whatever the config file or anything else says later. */
  lemma {:induction false} OptionWins(st: State, ch: char, arg: string, logOpens: bool, es: seq<Event>)
    requires OptionSymbol(ch).Some? && !Locked(st.syms, OptionSymbol(ch).value.0)
    ensures var (name, global) := OptionSymbol(ch).value;
            var t := Run(Step(st, Opt(ch, arg, logOpens)), es).syms;
            name in t && t[name] == Symbol(arg, true, global)
  {
    var (name, global) := OptionSymbol(ch).value;
    ApplyOne(st.syms, Def(name, arg, true, global));
    LockPermanent(Step(st, Opt(ch, arg, logOpens)), es, name);
  }

  /** A config file read at any later time cannot change it. */
  lemma {:induction false} OptionBeatsConfig(st: State, ch: char, arg: string, logOpens: bool, es: seq<Event>,
        text: string, w: nat -> World)
    requires OptionSymbol(ch).Some? && !Locked(st.syms, OptionSymbol(ch).value.0)
    ensures var (name, global) := OptionSymbol(ch).value;
            var t := LoadConfig(Run(Step(st, Opt(ch, arg, logOpens)), es), text, w).syms;
            name in t && t[name] == Symbol(arg, true, global)
  {
    var before := Run(Step(st, Opt(ch, arg, logOpens)), es);
    OptionWins(st, ch, arg, logOpens, es);
    ConfigIsRun(before, text, w);
    LockPermanent(before, ConfigEvents(before, FileLines(text), w, 0), OptionSymbol(ch).value.0);
  }

  lemma {:induction false} OtherNames(t: Table, ops: seq<SymOp>, name: string)
    requires forall i :: 0 <= i < |ops| ==> ops[i].name != name
    ensures name in ApplyAll(t, ops) <==> name in t
    ensures name in t ==> ApplyAll(t, ops)[name] == t[name]
  {
    if ops == [] {
    } else {
      OtherNames(t, ops[..|ops| - 1], name);
    }
  }

  /** The first connect that takes a server fixes ME for good. */
  lemma {:induction false} MeFixed(st: State, w: World, es: seq<Event>)
    requires TakenServer(st, w).Some? && !Locked(st.syms, "ME")
    ensures var t := Run(Step(st, RxConnect(w)), es).syms;
            "ME" in t && t["ME"] == Symbol(MeName(st), true, false)
  {
    var ops := ConnectOps(st, w);
    var before := ops[..3];
    assert ops == before + [Def("ME", MeName(st), true, false)];
    OtherNames(st.syms, before, "ME");
    ApplyAllAppend(st.syms, before, [Def("ME", MeName(st), true, false)]);
    ApplyOne(ApplyAll(st.syms, before), Def("ME", MeName(st), true, false));
    LockPermanent(Step(st, RxConnect(w)), es, "ME");
  }

  lemma {:induction false} NamesApart(prog: string, date: string, startFile: string)
    ensures var ops := InitOps(prog, date, startFile);
            |ops| == 24
            && forall i, j :: 0 <= j < 24 && i in {2, 4, 8, 14, 15, 23} && j != i ==> ops[j].name != ops[i].name
  {
    var ops := InitOps(prog, date, startFile);
    forall i, j | 0 <= j < 24 && i in {2, 4, 8, 14, 15, 23} && j != i ensures ops[j].name != ops[i].name {
      var a, b := ops[i].name, ops[j].name;
      assert |a| != |b| || a[0] != b[0] || a[5] != b[5];
    }
  }

  /** A list of calls leaves a name it writes once, to a table that lacks it, with that value. */
  lemma {:induction false} WrittenOnce(t: Table, ops: seq<SymOp>, i: nat)
    requires i < |ops| && ops[i].Write? && ops[i].name !in t
    requires forall j :: 0 <= j < |ops| && j != i ==> ops[j].name != ops[i].name
    ensures var after := ApplyAll(t, ops);
            ops[i].name in after && after[ops[i].name] == Symbol(ops[i].value, ops[i].locked, ops[i].global)
  {
    var op := ops[i];
    assert ops == ops[..i] + [op] + ops[i + 1..];
    OtherNames(t, ops[..i], op.name);
    ApplyAllAppend(t, ops[..i] + [op], ops[i + 1..]);
    ApplySnoc(t, ops[..i], op);
    OtherNames(Apply(ApplyAll(t, ops[..i]), op), ops[i + 1..], op.name);
  }

  lemma {:induction false} InitHolds(st: State, prog: string, date: string, startFile: string, i: nat, name: string,
        value: string)
    requires st.syms == map[] && i in {2, 4, 8, 14, 15, 23}
    requires InitOps(prog, date, startFile)[i].Write?
    requires InitOps(prog, date, startFile)[i].name == name && InitOps(prog, date, startFile)[i].value == value
    ensures Get(Step(st, Init(prog, date, startFile)).syms, name) == Some(value)
  {
    NamesApart(prog, date, startFile);
    WrittenOnce(map[], InitOps(prog, date, startFile), i);
  }

  /** The settings a daemon starts with: it does not exit or connect by itself. */
  lemma {:induction false} StartsWith(st: State, prog: string, date: string, startFile: string)
    requires st.syms == map[]
    ensures var t := Step(st, Init(prog, date, startFile)).syms;
            Get(t, "EXIT_COMMAND") == Some("false") && Get(t, "AUTOCONNECT") == Some("false")
  {
    InitHolds(st, prog, date, startFile, 2, "EXIT_COMMAND", "false");
    InitHolds(st, prog, date, startFile, 8, "AUTOCONNECT", "false");
  }

  /** It may save, to the file it is given. */
  lemma {:induction false} SavesWith(st: State, prog: string, date: string, startFile: string)
    requires st.syms == map[]
    ensures var t := Step(st, Init(prog, date, startFile)).syms;
            Get(t, "SAVE_ALLOWED") == Some("true") && Get(t, "START_FILE") == Some(startFile)
  {
    InitHolds(st, prog, date, startFile, 4, "SAVE_ALLOWED", "true");
    InitHolds(st, prog, date, startFile, 23, "START_FILE", startFile);
  }

  /** It does not purge, and rows go stale after ten minutes. */
  lemma {:induction false} PurgesWith(st: State, prog: string, date: string, startFile: string)
    requires st.syms == map[]
    ensures var t := Step(st, Init(prog, date, startFile)).syms;
            Get(t, "AUTOPURGE") == Some("false") && Get(t, "STALE_AFTER") == Some("600")
  {
    InitHolds(st, prog, date, startFile, 14, "AUTOPURGE", "false");
    InitHolds(st, prog, date, startFile, 15, "STALE_AFTER", "600");
  }

  lemma {:induction false} NoHookAbove(prog: string, date: string, startFile: string)
    ensures forall i :: 0 <= i < 20 ==> InitOps(prog, date, startFile)[i].name != "ON_CHANGE"
  {
    var ops := InitOps(prog, date, startFile);
    forall i | 0 <= i < 20 ensures ops[i].name != "ON_CHANGE" {
      assert |ops[i].name| != 9 || ops[i].name[3] != 'C';
    }
  }

  /** b begins with the calls that name the two servers, which no other call does. */
  predicate NamesServers(a: seq<SymOp>, b: seq<SymOp>) {
    && |b| >= 2 && b[0] == Def("SERVER", "4803", false, true) && b[1] == Def("ALTSERVER", "localhost:4803", false, true)
    && (forall j :: 0 <= j < |a| ==> a[j].name != "SERVER" && a[j].name != "ALTSERVER")
    && (forall j :: 2 <= j < |b| ==> b[j].name != "SERVER" && b[j].name != "ALTSERVER")
  }

  lemma {:induction false} ServersApart(t: Table, user: Option<string>, host: Option<string>, rcFile: string)
    ensures NamesServers(WhoOps(t, user), WhereOps(t, host, rcFile))
  {
  }

  lemma {:induction false} ServersWritten(t: Table, a: seq<SymOp>, b: seq<SymOp>)
    requires NamesServers(a, b) && "SERVER" !in t && "ALTSERVER" !in t
    ensures var after := ApplyAll(t, a + b);
            Get(after, "SERVER") == Some("4803") && Get(after, "ALTSERVER") == Some("localhost:4803")
  {
    assert forall j :: 0 <= j < |a + b| ==> (a + b)[j] == if j < |a| then a[j] else b[j - |a|];
    WrittenOnce(t, a + b, |a|);
    WrittenOnce(t, a + b, |a| + 1);
  }

  /** The servers it knows when nothing else names them. */
  lemma {:induction false} ConnectsWith(st: State, user: Option<string>, host: Option<string>, rcFile: string)
    requires "SERVER" !in st.syms && "ALTSERVER" !in st.syms
    ensures var t := Step(st, Finish(user, host, rcFile)).syms;
            Get(t, "SERVER") == Some("4803") && Get(t, "ALTSERVER") == Some("localhost:4803")
  {
    ServersApart(st.syms, user, host, rcFile);
    ServersWritten(st.syms, WhoOps(st.syms, user), WhereOps(st.syms, host, rcFile));
  }

  /** Started on an empty table, a daemon never hands a received change to a program. */
  lemma {:induction false} NoHookEver(flip: bool, prog: string, date: string, startFile: string, es: seq<Event>)
    ensures var st := Step(State(map[], flip), Init(prog, date, startFile));
            Get(Run(st, es).syms, "ON_CHANGE") == Some("")
  {
    var st := Step(State(map[], flip), Init(prog, date, startFile));
    var ops := InitOps(prog, date, startFile);
    var hook := Def("ON_CHANGE", "", true, true);
    assert ops[20] == hook && ops == ops[..20] + [hook] + ops[21..];
    assert forall i :: 0 <= i < 20 ==> ops[..20][i].name != "ON_CHANGE" by { NoHookAbove(prog, date, startFile); }
    OtherNames(map[], ops[..20], "ON_CHANGE");
    ApplyAllAppend(map[], ops[..20], [hook]);
    ApplyOne(ApplyAll(map[], ops[..20]), hook);
    ApplyAllAppend(map[], ops[..20] + [hook], ops[21..]);
    LockedStays(ApplyAll(map[], ops[..20] + [hook]), ops[21..], "ON_CHANGE");
    LockPermanent(st, es, "ON_CHANGE");
  }

  // ----- who wrote a GLOBAL symbol -----

  /** The last call that really wrote name, lock permitting. */
  function LastWrite(t: Table, ops: seq<SymOp>, name: string): Option<SymOp> {
    if ops == [] then None else
      var front, op := ops[..|ops| - 1], ops[|ops| - 1];
      if op.Write? && op.name == name && !Locked(ApplyAll(t, front), name) then Some(op)
      else LastWrite(t, front, name)
  }

  /** A table built from nothing holds for each name what its last write put there. */
  lemma {:induction false} LastWriteHolds(ops: seq<SymOp>, name: string)
    ensures name in ApplyAll(map[], ops) <==> LastWrite(map[], ops, name).Some?
    ensures name in ApplyAll(map[], ops) ==>
              var op := LastWrite(map[], ops, name).value;
              var sym := ApplyAll(map[], ops)[name];
              op in ops && op.Write? && op.value == sym.value && op.global == sym.global
  {
    if ops == [] {
    } else {
      LastWriteHolds(ops[..|ops| - 1], name);
    }
  }

  predicate RemoteIsLocal(ops: seq<SymOp>) {
    forall i :: 0 <= i < |ops| && ops[i].Write? && ops[i].remote ==> !ops[i].global
  }

  lemma {:induction false} CommandNotRemote(st: State, cmd: Command, w: World)
    ensures RemoteIsLocal(CommandOps(st, cmd, w))
  {
  }

  lemma {:induction false} FinishNotRemote(t: Table, user: Option<string>, host: Option<string>, rcFile: string)
    ensures RemoteIsLocal(FinishOps(t, user, host, rcFile))
  {
    assert RemoteIsLocal(WhoOps(t, user));
    assert RemoteIsLocal(WhereOps(t, host, rcFile));
  }

  lemma {:induction false} InitNotRemote(prog: string, date: string, startFile: string)
    ensures RemoteIsLocal(InitOps(prog, date, startFile))
  {
  }

  lemma {:induction false} EventRemoteIsLocal(st: State, e: Event)
    ensures RemoteIsLocal(EventOps(st, e))
  {
    match e
    case Init(prog, date, startFile) => InitNotRemote(prog, date, startFile);
    case Line(text, w) => CommandNotRemote(st, ParseLine(text), w);
    case Finish(user, host, rcFile) => FinishNotRemote(st.syms, user, host, rcFile);
    case _ =>
  }

  lemma {:induction false} LogRemoteIsLocal(st: State, es: seq<Event>)
    ensures RemoteIsLocal(Log(st, es))
  {
    if es == [] {
    } else {
      LogRemoteIsLocal(st, es[..|es| - 1]);
      EventRemoteIsLocal(Run(st, es[..|es| - 1]), es[|es| - 1]);
    }
  }

  /** A GLOBAL symbol was last written here, never by a received ^set. */
  lemma {:induction false} GlobalIsLocallyWritten(flip: bool, es: seq<Event>, name: string)
    ensures var st := State(map[], flip);
            var t := Run(st, es).syms;
            name in t && t[name].global ==>
              var last := LastWrite(map[], Log(st, es), name);
              last.Some? && last.value.Write? && !last.value.remote && last.value.value == t[name].value
  {
    var st := State(map[], flip);
    RunIsLog(st, es);
    LogRemoteIsLocal(st, es);
    LastWriteHolds(Log(st, es), name);
  }
}
