/** The symbol-table side of a running daemon, as functions: what each command line, config file,
    connect attempt and received message makes of the table. */
module DaemonSpec {
  import opened CString
  import opened Symbols
  import opened Commands
  import opened TextLines

  /** flipFlop is spreadConnect's static counter: the next server to try is the alternative one. */
  datatype State = State(syms: Table, flipFlop: bool)

  /** What the world answers during one command: whether the first and the second SP_connect
      succeed, whether the save file can be opened, and the date. */
  datatype World = World(firstUp: bool, secondUp: bool, canOpen: bool, date: string)

  // ----- spreadConnect -----

  /** SERVER, or the alternative one if it is its turn and it is set. */
  function Picked(flip: bool, main: Option<string>, alt: Option<string>): string {
    var mainOr := if main.Some? then main.value else "4803";
    Truncate(if flip && alt.Some? then alt.value else mainOr)
  }

  function FirstServer(st: State): string {
    Picked(st.flipFlop, Get(st.syms, "SERVER"), Get(st.syms, "ALTSERVER"))
  }

  function SecondServer(st: State): Option<string> {
    var alt := Get(st.syms, "ALTSERVER");
    if alt.Some? then alt else Get(st.syms, "SERVER")
  }

  predicate Connects(st: State, w: World) {
    w.firstUp || (SecondServer(st).Some? && w.secondUp)
  }

  /** The server the code takes as reached: SERVER, or the second one tried, if configured. */
  function TakenServer(st: State, w: World): Option<string> {
    if w.firstUp then Get(st.syms, "SERVER")
    else if Connects(st, w) then SecondServer(st) else None
  }

  function HostPart(s: string): string {
    var n := Span(s, {'@'});
    if n < |s| then s[n + 1..] else s
  }

  function MeName(st: State): string {
    var user := Get(st.syms, "USER");
    Truncate("#" + (if user.Some? then user.value else "") + "#" + HostPart(FirstServer(st)))
  }

  /** The symbols after one connect attempt: CONNECTED, and CONNECTED_TO and ME once a server is
      taken. */
  function Concluded(t: Table, connected: bool, server: bool, tst: string, me: string): Table {
    var t1 := SetSym(t, "CONNECTED", if connected then "true" else "false", false, false);
    if server then SetSym(SetSym(t1, "CONNECTED_TO", HostPart(tst), false, false), "ME", me, true, false)
    else t1
  }

  function AfterConnect(st: State, w: World): State {
    var t := SetSym(st.syms, "CONNECTED", "false", false, false);
    State(Concluded(t, Connects(st, w), TakenServer(st, w).Some?, FirstServer(st), MeName(st)), !st.flipFlop)
  }

  /** What else a connect does: how often it wipes the cache, the groups it joins and the lines it
      prints. */
  datatype Report = Report(connected: bool, wipes: nat, joins: seq<string>, said: seq<string>)

  function GroupsJoined(t: Table): seq<string> {
    ["global"] + (if "GROUP" in t && t["GROUP"].value != "global" then [t["GROUP"].value] else [])
  }

  function Greetings(t: Table): seq<string> {
    (if "ONJOIN" in t then [t["ONJOIN"].value] else []) +
    (if "ON_CONNECT" in t && t["ON_CONNECT"].value != "" then [t["ON_CONNECT"].value] else [])
  }

  function Reported(t: Table, connected: bool): Report {
    if connected then Report(true, 1, GroupsJoined(t), Greetings(t)) else Report(false, 2, [], [])
  }

  /** All of it read from the table as it was before. */
  function ConnectReport(st: State, w: World): Report {
    Reported(st.syms, Connects(st, w))
  }

  // ----- commands, config files, messages -----

  /** The symbols after a command other than ^connect. */
  function Executed(t: Table, cmd: Command): Table {
    match cmd
    case SetCmd(name, value) => SetSym(t, name, value, false, true)
    case LockCmd(name) => LockSym(t, name)
    case Save => AfterSave(t)
    case Start => LockSym(t, "USER")
    case _ => t
  }

  function AfterCommand(st: State, cmd: Command, w: World): State {
    if cmd == Connect then AfterConnect(st, w) else st.(syms := Executed(st.syms, cmd))
  }

  predicate Stops(st: State, cmd: Command) {
    cmd == Exit && Holds(st.syms, "EXIT_COMMAND", "true")
  }

  function ParseLines(lines: seq<string>): seq<Command> {
    ParseWith(ParseLine, lines)
  }

  /** processSpreadCommand on one after the other, until ^exit stops the loop; w(k) is what the
      world answers to the k-th. */
  function RunCommands(st: State, cmds: seq<Command>, w: nat -> World, k: nat): State
    decreases |cmds|
  {
    if cmds == [] then st else
      var next := AfterCommand(st, cmds[0], w(k));
      if Stops(st, cmds[0]) then next else RunCommands(next, cmds[1..], w, k + 1)
  }

  predicate AutoConnects(t: Table) { Holds(t, "AUTOCONNECT", "true") }

  /** processConfigFile on a readable file: the lines, then startSpreadRX if AUTOCONNECT says so. */
  function LoadConfig(st: State, text: string, w: nat -> World): State {
    var next := RunCommands(st, ParseLines(FileLines(text)), w, 0);
    if AutoConnects(next.syms) then next.(syms := LockSym(next.syms, "USER")) else next
  }

  const BLANKS: set<char> := {' ', '\n'}

  /** rxSet as spreadRX calls it: name and value of a received ^set, if the message is one. */
  function ReceivedSet(message: string): Option<(string, string)> {
    var (cmd, r0) := StrTok(Truncate(message), BLANKS);
    var (p1, r1) := StrTok(r0, BLANKS);
    var p2 := StrTok(r1, BLANKS).0;
    if message != "" && message[0] == '^' && cmd == Some("^set") && p1.Some? && p2.Some?
    then Some((p1.value, p2.value)) else None
  }

  /** The parameter of a received ^empty, if the message is one. */
  function ReceivedEmpty(message: string): Option<Option<string>> {
    var (cmd, r0) := StrTok(Truncate(message), BLANKS);
    if message != "" && message[0] == '^' && cmd == Some("^empty") then Some(StrTok(r0, BLANKS).0) else None
  }

  /** rxSet installs what it receives as LOCAL. */
  function AfterMessage(t: Table, message: string): Table {
    match ReceivedSet(message)
    case None => t
    case Some((name, value)) => SetSym(t, name, value, false, false)
  }
}
