/** The daemon as the program keeps it: one symbol table rewritten in place and the static flipFlop
    of spreadConnect. */
module Daemons {
  import opened CString
  import opened Symbols
  import opened Commands
  import opened DaemonSpec
  import opened SymbolTables

  const CMD_EXIT := 0
  const CMD_OK := 1
  const CMD_DISCONNECT := 2

  /** CMD_EXIT goes with clearing the caller's run flag. */
  function ReturnCode(st: State, cmd: Command): int {
    if Stops(st, cmd) then CMD_EXIT else if cmd == Disconnect then CMD_DISCONNECT else CMD_OK
  }

  /** The SP_connect calls: whether one succeeds, the server taken as reached, the cache wipes. */
  method Dial(main: Option<string>, alt: Option<string>, w: World)
    returns (connected: bool, server: Option<string>, wipes: nat)
    ensures var second := if alt.Some? then alt else main;
            && (connected <==> w.firstUp || (second.Some? && w.secondUp))
            && server == (if w.firstUp then main else if connected then second else None)
    ensures wipes == if connected then 1 else 2
  {
    var second := if alt == None then main else alt;
    connected, server, wipes := true, None, 1;
    if w.firstUp {
      server := main;
    } else {
      connected := second.Some? && w.secondUp;
      if connected { server := second; } else { wipes := wipes + 1; }
    }
  }

  /** Setting CONNECTED leaves the settings of a connect alone. */
  lemma {:induction false} ConnectedApart(t: Table, value: string)
    ensures var t1 := SetSym(t, "CONNECTED", value, false, false);
            Get(t1, "SERVER") == Get(t, "SERVER") && Get(t1, "ALTSERVER") == Get(t, "ALTSERVER")
            && Get(t1, "USER") == Get(t, "USER")
  {
  }

  /** What a connect writes leaves the symbols it reports on alone. */
  lemma {:induction false} ReportApart(st: State, w: World)
    ensures Reported(AfterConnect(st, w).syms, Connects(st, w)) == ConnectReport(st, w)
  {
    var t, u := st.syms, AfterConnect(st, w).syms;
    assert Get(u, "GROUP") == Get(t, "GROUP") && Get(u, "ONJOIN") == Get(t, "ONJOIN");
    assert Get(u, "ON_CONNECT") == Get(t, "ON_CONNECT");
  }

  lemma {:induction false} ParseFirst(text: string)
    requires text != ""
    ensures FileLines(text) == [Fgets(text).0] + FileLines(Fgets(text).1)
    ensures var cmds := ParseLines(FileLines(text));
            |cmds| > 0 && cmds[0] == ParseLine(Fgets(text).0) && cmds[1..] == ParseLines(FileLines(Fgets(text).1))
  {
  }

  lemma {:induction false} RunFirst(st: State, cmds: seq<Command>, w: nat -> World, k: nat)
    requires cmds != []
    ensures RunCommands(st, cmds, w, k)
         == var next := AfterCommand(st, cmds[0], w(k));
            if Stops(st, cmds[0]) then next else RunCommands(next, cmds[1..], w, k + 1)
  {
  }

  class Daemon {
    const table: SymbolTable
    const progName: string
    var flipFlop: bool

    ghost predicate Valid()
      reads this, table, table.Repr
    {
      table.Valid() && this !in table.Repr
    }

    ghost function Abs(): State
      reads this, table
    {
      State(table.model, flipFlop)
    }

    constructor (progName: string)
      ensures Valid() && fresh(this) && fresh(table.Repr)
      ensures Abs() == State(map[], false)
    {
      this.progName := progName;
      flipFlop := false;
      table := new SymbolTable();
    }

    /** flipFlop picks the server to try first. */
    method ChooseServer(main: Option<string>, alt: Option<string>) returns (tst: string)
      modifies this`flipFlop
      ensures flipFlop == !old(flipFlop)
      ensures tst == Picked(old(flipFlop), main, alt)
    {
      if !flipFlop {
        tst := Truncate(if main.Some? then main.value else "4803");
        flipFlop := true;
      } else {
        tst := Truncate(if alt.Some? then alt.value else if main.Some? then main.value else "4803");
        flipFlop := false;
      }
    }

    method Record(host: string, me: string)
      requires Valid()
      modifies table.Repr
      ensures Valid() && fresh(table.Repr - old(table.Repr))
      ensures table.model == SetSym(SetSym(old(table.model), "CONNECTED_TO", host, false, false), "ME", me, true, false)
    {
      table.SetSymbol("CONNECTED_TO", host, false, false);
      table.SetSymbol("ME", me, true, false);
    }

    /** The outcome: CONNECTED, and CONNECTED_TO and ME from the server tried first. */
    method Conclude(connected: bool, server: Option<string>, tst: string, me: string)
      requires Valid()
      modifies table.Repr
      ensures Valid() && fresh(table.Repr - old(table.Repr))
      ensures table.model == Concluded(old(table.model), connected, server.Some?, tst, me)
    {
      table.SetSymbol("CONNECTED", if connected then "true" else "false", false, false);
      if server.Some? {
        Record(HostPart(tst), me);
      }
    }

    /** The start of spreadConnect: CONNECTED is taken back, the settings are read. */
    method Prepare() returns (main: Option<string>, alt: Option<string>, user: Option<string>, tst: string)
      requires Valid()
      modifies this, table.Repr
      ensures Valid() && fresh(table.Repr - old(table.Repr))
      ensures table.model == SetSym(old(table.model), "CONNECTED", "false", false, false)
      ensures flipFlop == !old(flipFlop)
      ensures main == Get(old(table.model), "SERVER") && alt == Get(old(table.model), "ALTSERVER")
      ensures user == Get(old(table.model), "USER") && tst == Picked(old(flipFlop), main, alt)
    {
      ConnectedApart(table.model, "false");
      table.SetSymbol("CONNECTED", "false", false, false);
      main := table.GetSymbol("SERVER");
      alt := table.GetSymbol("ALTSERVER");
      tst := ChooseServer(main, alt);
      user := table.GetSymbol("USER");
    }

    /** The end of spreadConnect: the groups joined and the actions printed. */
    method Greet() returns (joins: seq<string>, said: seq<string>)
      requires Valid()
      ensures joins == GroupsJoined(table.model) && said == Greetings(table.model)
    {
      joins, said := ["global"], [];
      var group := table.GetSymbol("GROUP");
      if group.Some? && group.value != "global" { joins := joins + [group.value]; }
      var action := table.GetSymbol("ONJOIN");
      if action.Some? { said := said + [action.value]; }
      var hello := table.GetSymbol("ON_CONNECT");
      if hello.Some? && hello.value != "" { said := said + [hello.value]; }
    }

    /** spreadConnect. w.firstUp and w.secondUp answer the SP_connect calls it makes. */
    method SpreadConnect(w: World) returns (r: Report)
      requires Valid()
      modifies this, table.Repr
      ensures Valid() && fresh(table.Repr - old(table.Repr))
      ensures Abs() == AfterConnect(old(Abs()), w)
      ensures r == ConnectReport(old(Abs()), w)
    {
      ghost var st := Abs();
      var main, alt, user, tst := Prepare();
      var connected, server, wipes := Dial(main, alt, w);
      assert connected == Connects(st, w) && server == TakenServer(st, w);
      Conclude(connected, server, tst, Truncate("#" + (if user.Some? then user.value else "") + "#" + HostPart(tst)));
      ReportApart(st, w);
      var joins, said := [], [];
      if connected { joins, said := Greet(); }
      r := Report(connected, wipes, joins, said);
    }

    method CodeOf(cmd: Command) returns (code: int)
      requires Valid()
      ensures code == ReturnCode(Abs(), cmd)
    {
      code := CMD_OK;
      if cmd == Disconnect {
        code := CMD_DISCONNECT;
      } else if cmd == Exit {
        var exitCmd := table.GetSymbol("EXIT_COMMAND");
        if exitCmd == Some("true") { code := CMD_EXIT; }
      }
    }

    /** The commands that at most touch one symbol. */
    method ExecuteSymbol(cmd: Command)
      requires Valid() && !cmd.Save?
      modifies table.Repr
      ensures Valid() && fresh(table.Repr - old(table.Repr))
      ensures table.model == Executed(old(table.model), cmd)
    {
      if cmd.SetCmd? {
        table.SetSymbol(cmd.name, cmd.value, false, true);
      } else if cmd.LockCmd? {
        table.LockSymbol(cmd.name);
      } else if cmd.Start? {
        table.LockSymbol("USER");
      }
    }

    method ExecuteOther(cmd: Command) returns (code: int)
      requires Valid() && cmd != Save && cmd != Connect
      modifies table.Repr
      ensures Valid() && fresh(table.Repr - old(table.Repr))
      ensures table.model == Executed(old(table.model), cmd) && code == ReturnCode(old(Abs()), cmd)
    {
      ExecuteSymbol(cmd);
      code := CodeOf(cmd);
    }

    method Execute(cmd: Command, w: World)
      returns (code: int, file: Option<(string, string)>, ghost listing: seq<Entry>)
      requires Valid()
      modifies this, table.Repr
      ensures Valid() && fresh(table.Repr - old(table.Repr))
      ensures Abs() == AfterCommand(old(Abs()), cmd, w)
      ensures code == ReturnCode(old(Abs()), cmd)
      ensures file.Some? <==> cmd == Save && SaveAllowed(old(table.model)) && w.canOpen
      ensures file.Some? ==> Get(table.model, "START_FILE") == Some(file.value.0)
      ensures file.Some? ==>
        Lists(listing, table.model) && file.value.1 == Header(w.date, progName) + RenderAll(listing)
    {
      code, file, listing := CMD_OK, None, [];
      if cmd == Connect {
        var report := SpreadConnect(w);
      } else if cmd == Save {
        file, listing := table.SaveSymbols(w.date, progName, w.canOpen);
      } else {
        code := ExecuteOther(cmd);
      }
    }

    /** processSpreadCommand: the calls on the symbol table, the connect and the save file; what
        else the line asks for (messages, cache and terminal output) is the returned command. */
    method ProcessSpreadCommand(line: string, w: World)
      returns (cmd: Command, code: int, file: Option<(string, string)>, ghost listing: seq<Entry>)
      requires Valid()
      modifies this, table.Repr
      ensures Valid() && fresh(table.Repr - old(table.Repr))
      ensures cmd == ParseLine(line) && Abs() == AfterCommand(old(Abs()), cmd, w)
      ensures code == 0 <==> cmd == Exit && Get(old(table.model), "EXIT_COMMAND") == Some("true")
      ensures code == 2 <==> cmd == Disconnect
      ensures code == 0 || code == 1 || code == 2
      ensures file.Some? <==> cmd == Save && Get(old(table.model), "SAVE_ALLOWED") != Some("false") && w.canOpen
      ensures file.Some? ==> Get(table.model, "START_FILE") == Some(file.value.0)
      ensures file.Some? ==>
        Lists(listing, table.model) && file.value.1 == Header(w.date, progName) + RenderAll(listing)
    {
      cmd := ParseLine(line);
      code, file, listing := Execute(cmd, w);
    }

    /** One turn of processConfigFile's loop. */
    method ConfigLine(line: string, ghost cmds: seq<Command>, w: nat -> World, k: nat) returns (stop: bool)
      requires Valid() && cmds != [] && cmds[0] == ParseLine(line)
      modifies this, table.Repr
      ensures Valid() && fresh(table.Repr - old(table.Repr))
      ensures RunCommands(old(Abs()), cmds, w, k)
           == if stop then Abs() else RunCommands(Abs(), cmds[1..], w, k + 1)
    {
      RunFirst(Abs(), cmds, w, k);
      var parsed, code, file, listing := ProcessSpreadCommand(line, w(k));
      stop := code == CMD_EXIT;
    }

    method ReadCommands(text: string, w: nat -> World)
      requires Valid()
      modifies this, table.Repr
      ensures Valid() && fresh(table.Repr - old(table.Repr))
      ensures Abs() == RunCommands(old(Abs()), ParseLines(FileLines(text)), w, 0)
    {
      ghost var st := Abs();
      ghost var cmds := ParseLines(FileLines(text));
      ghost var rest := cmds;
      var left, k := text, 0;
      while left != ""
        invariant Valid() && fresh(table.Repr - old(table.Repr))
        invariant rest == ParseLines(FileLines(left))
        invariant RunCommands(st, cmds, w, 0) == RunCommands(Abs(), rest, w, k)
        decreases |left|
      {
        ParseFirst(left);
        var stop := ConfigLine(Fgets(left).0, rest, w, k);
        left, k, rest := Fgets(left).1, k + 1, rest[1..];
        if stop { break; }
      }
    }

    /** The AUTOCONNECT check: startSpreadRX locks USER. */
    method StartIfConfigured() returns (started: bool)
      requires Valid()
      modifies table.Repr
      ensures Valid() && fresh(table.Repr - old(table.Repr))
      ensures started == AutoConnects(old(table.model)) == AutoConnects(table.model)
      ensures table.model == if started then LockSym(old(table.model), "USER") else old(table.model)
    {
      var auto := table.GetSymbol("AUTOCONNECT");
      started := auto == Some("true");
      if started { table.LockSymbol("USER"); }
    }

    /** processConfigFile; file is the text, if there is a name and the file can be opened. started
        is whether the receive thread is started at the end. */
    method ProcessConfigFile(file: Option<string>, w: nat -> World) returns (code: int, started: bool)
      requires Valid()
      modifies this, table.Repr
      ensures Valid() && fresh(table.Repr - old(table.Repr))
      ensures code == if file.Some? then 0 else -1
      ensures Abs() == if file.Some? then LoadConfig(old(Abs()), file.value, w) else old(Abs())
      ensures started == (file.Some? && AutoConnects(table.model))
    {
      code, started := -1, false;
      if file.Some? {
        ReadCommands(file.value, w);
        started := StartIfConfigured();
        code := 0;
      }
    }

    /** rxSet for a received message; hook is the program the change would be handed to. */
    method RxSet(message: string) returns (hook: Option<string>)
      requires Valid()
      modifies this, table.Repr
      ensures Valid() && fresh(table.Repr - old(table.Repr))
      ensures Abs() == old(Abs()).(syms := AfterMessage(old(table.model), message))
      ensures hook == if ReceivedSet(message).None? || Get(table.model, "ON_CHANGE") == Some("") then None
                      else Get(table.model, "ON_CHANGE")
    {
      hook := None;
      match ReceivedSet(message) {
        case None =>
        case Some((name, value)) =>
          table.SetSymbol(name, value, false, false);
          var target := table.GetSymbol("ON_CHANGE");
          if target.Some? && target.value != "" { hook := target; }
      }
    }
  }
}
