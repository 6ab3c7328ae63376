/** What connects, command lines, config files and received messages do, in terms of the text and the
    symbols that go in. */
module DaemonFacts {
  import opened CString
  import opened Symbols
  import opened TextLines
  import opened Commands
  import opened DaemonSpec
  import opened Reconnect

  // ----- a connect -----

  /** The host is what follows the first @, or all of it. */
  lemma {:induction false} HostText(x: string, h: string)
    requires Avoids(x, {'@'})
    ensures HostPart(x + "@" + h) == h && HostPart(x) == x
  {
    var s := x + "@" + h;
    assert s[..|x|] == x && s[|x| + 1..] == h && x[..|x|] == x;
    SpanIs(s, {'@'}, |x|);
    SpanIs(x, {'@'}, |x|);
  }

  /** SERVER is dialled first and ALTSERVER second on every other attempt; in between ALTSERVER takes
      both turns. */
  lemma {:induction false} DialOrder(st: State, main: string, alt: string)
    requires Get(st.syms, "SERVER") == Some(main) && Get(st.syms, "ALTSERVER") == Some(alt)
    requires |main| < BUFFSIZE && |alt| < BUFFSIZE
    ensures FirstServer(st) == (if st.flipFlop then alt else main) && SecondServer(st) == Some(alt)
  {
  }

  lemma {:induction false} DialOrderAlone(st: State)
    requires "ALTSERVER" !in st.syms
    ensures "SERVER" !in st.syms ==> FirstServer(st) == "4803" && SecondServer(st) == None
    ensures "SERVER" in st.syms ==> SecondServer(st) == Some(st.syms["SERVER"].value)
    ensures "SERVER" in st.syms && |st.syms["SERVER"].value| < BUFFSIZE ==> FirstServer(st) == st.syms["SERVER"].value
  {
  }

  /** When it is ALTSERVER's turn, it answers first, whatever becomes of SERVER. */
  lemma {:induction false} AltFirst(st: State, net: Net, calls: nat)
    requires st.flipFlop && AltStays(st, net) && |st.syms["ALTSERVER"].value| < BUFFSIZE
    ensures Answers(st, net, calls).firstUp
  {
  }

  /** A connect succeeds exactly if the first server answers, or a second one is known and does. */
  lemma {:induction false} ConnectsIff(st: State, w: World)
    ensures Connects(st, w) <==> w.firstUp || (("ALTSERVER" in st.syms || "SERVER" in st.syms) && w.secondUp)
  {
  }

  /** What a connect writes when SERVER is known: CONNECTED, and on success the host of the server tried
      first and ME. Nothing that is locked, and nothing else. */
  lemma {:induction false} ConnectWrites(st: State, w: World, user: string, x: string, h: string)
    requires "SERVER" in st.syms && Get(st.syms, "USER") == Some(user)
    requires FirstServer(st) == x + "@" + h && Avoids(x, {'@'}) && |user| + |h| + 2 < BUFFSIZE
    ensures var t := AfterConnect(st, w).syms;
            var yes := if Connects(st, w) then "true" else "false";
            && (!Locked(st.syms, "CONNECTED") ==> "CONNECTED" in t && t["CONNECTED"] == Symbol(yes, false, false))
            && (Connects(st, w) && !Locked(st.syms, "CONNECTED_TO") ==>
                "CONNECTED_TO" in t && t["CONNECTED_TO"] == Symbol(h, false, false))
            && (Connects(st, w) && !Locked(st.syms, "ME") ==>
                "ME" in t && t["ME"] == Symbol("#" + user + "#" + h, true, false))
  {
    HostText(x, h);
  }

  lemma {:induction false} ConnectLeaves(st: State, w: World, name: string)
    ensures var t := AfterConnect(st, w).syms;
            Locked(st.syms, name) || name !in ["CONNECTED", "CONNECTED_TO", "ME"]
            || (name != "CONNECTED" && !Connects(st, w)) ==>
              Get(t, name) == Get(st.syms, name) && (name in t ==> t[name] == st.syms[name])
  {
  }

  /** The groups joined and the lines printed. */
  lemma {:induction false} ConnectGreets(st: State, w: World)
    requires Connects(st, w)
    ensures var r, t := ConnectReport(st, w), st.syms;
            && (r.joins == if "GROUP" !in t || t["GROUP"].value == "global" then ["global"]
                           else ["global", t["GROUP"].value])
            && ("ONJOIN" !in t && Get(t, "ON_CONNECT") == Some("hello") ==> r.said == ["hello"])
            && (Get(t, "ONJOIN") == Some("") && Get(t, "ON_CONNECT") == Some("") ==> r.said == [""])
            && (Get(t, "ONJOIN") == Some("a") && Get(t, "ON_CONNECT") == Some("b") ==> r.said == ["a", "b"])
            && ("ONJOIN" !in t && "ON_CONNECT" !in t ==> r.said == [])
  {
  }

  /** The cache is wiped before dialling, and once more when that fails; then nothing is joined. */
  lemma {:induction false} ConnectWipes(st: State, w: World)
    ensures var r := ConnectReport(st, w);
            && r.wipes == (if Connects(st, w) then 1 else 2) && r.connected == Connects(st, w)
            && (!Connects(st, w) ==> r.joins == [] && r.said == [])
  {
  }

  /** With SERVER unknown a first answer is not recorded; the second server's is. */
  lemma {:induction false} UnknownServer(st: State, w: World, alt: string)
    requires "SERVER" !in st.syms && Get(st.syms, "ALTSERVER") == Some(alt) && !Locked(st.syms, "CONNECTED_TO")
    ensures var t := AfterConnect(st, w).syms;
            && (w.firstUp ==> Get(t, "CONNECTED_TO") == Get(st.syms, "CONNECTED_TO"))
            && (w.firstUp ==> Get(t, "ME") == Get(st.syms, "ME"))
            && (!w.firstUp && w.secondUp ==> Get(t, "CONNECTED_TO") == Some(HostPart(FirstServer(st))))
  {
  }

  // ----- command lines -----

  /** ^set and ^lock, from the text of the line to the table. */
  lemma {:induction false} SetLineEffect(st: State, name: string, value: string, w: World)
    requires Word(name) && Word(value) && |name| + |value| + 6 < BUFFSIZE
    ensures var line := "^set" + " " + (name + " " + value) + "\n";
            AfterCommand(st, ParseLine(line), w).syms
            == if Locked(st.syms, name) then st.syms else st.syms[name := Symbol(value, false, true)]
  {
    TwoParameters("^set", name, value);
  }

  lemma {:induction false} LockLineEffect(st: State, name: string, w: World)
    requires Word(name) && |name| + 6 < BUFFSIZE
    ensures var line := "^lock" + " " + name + "\n";
            AfterCommand(st, ParseLine(line), w).syms
            == if name in st.syms then st.syms[name := st.syms[name].(locked := true)] else st.syms
  {
    OneParameter("^lock", name);
  }

  /** ^start locks USER. */
  lemma {:induction false} StartEffect(st: State, w: World)
    ensures AfterCommand(st, Start, w).syms
         == if "USER" in st.syms then st.syms["USER" := st.syms["USER"].(locked := true)] else st.syms
  {
  }

  /** ^save names a START_FILE where saving is allowed. */
  lemma {:induction false} SaveEffect(st: State, w: World)
    ensures AfterCommand(st, Save, w).syms
         == if "START_FILE" in st.syms || Get(st.syms, "SAVE_ALLOWED") == Some("false") then st.syms
            else st.syms["START_FILE" := Symbol("./start.rc", false, false)]
  {
  }

  /** No other command changes a symbol. */
  lemma {:induction false} OthersLeave(st: State, cmd: Command, w: World)
    requires !cmd.SetCmd? && !cmd.LockCmd? && !cmd.Save? && !cmd.Start? && !cmd.Connect?
    ensures AfterCommand(st, cmd, w) == st
  {
  }

  // ----- config files -----

  lemma {:induction false} LinesFirst(l: string, c: Command, rest: string)
    requires Unsplit(l) && ParseWith(ParseLine, [l + "\n"]) == [c]
    ensures ParseLines(FileLines(l + "\n" + rest)) == [c] + ParseLines(FileLines(rest))
  {
    LineApart(l, rest);
    ShortLine(l);
    assert l + "\n" + "" == l + "\n";
    ParseAppend(ParseLine, [l + "\n"], FileLines(rest));
  }

  lemma {:induction false} ExitParses()
    ensures ParseWith(ParseLine, ["^exit" + "\n"]) == [Exit]
  {
    BareLine("^exit");
  }

  lemma {:induction false} ExitFirst(rest: string)
    ensures ParseLines(FileLines("^exit" + "\n" + rest)) == [Exit] + ParseLines(FileLines(rest))
  {
    assert Avoids("^exit", {'\n'});
    ExitParses();
    LinesFirst("^exit", Exit, rest);
  }

  /** ^exit ends a config file exactly if EXIT_COMMAND is "true"; else it is passed over. */
  lemma {:induction false} ExitLine(st: State, rest: string, w: nat -> World, k: nat)
    ensures RunCommands(st, ParseLines(FileLines("^exit" + "\n" + rest)), w, k)
         == if Get(st.syms, "EXIT_COMMAND") == Some("true") then st
            else RunCommands(st, ParseLines(FileLines(rest)), w, k + 1)
  {
    var cmds := ParseLines(FileLines(rest));
    ExitFirst(rest);
    assert ([Exit] + cmds)[1..] == cmds;
  }

  /** At its end, AUTOCONNECT "true" starts the receive thread, which locks USER. */
  lemma {:induction false} AutoConnectEffect(st: State, w: nat -> World)
    ensures LoadConfig(st, "", w).syms
         == if Get(st.syms, "AUTOCONNECT") == Some("true") && "USER" in st.syms
            then st.syms["USER" := st.syms["USER"].(locked := true)] else st.syms
  {
    assert FileLines("") == [] && ParseLines([]) == [];
  }

  // ----- received messages -----

  predicate Token(w: string) { w != "" && Avoids(w, {' ', '\n'}) }

  predicate Apart(tail: string) { tail != "" ==> tail[0] == ' ' || tail[0] == '\n' }

  lemma {:induction false} BlankWord(w: string, tail: string)
    requires Token(w) && Apart(tail)
    ensures StrTok(w + tail, BLANKS) == (Some(w), if tail == "" then "" else tail[1..])
  {
    if tail == "" {
      assert w + tail == w;
      StrTokHead(w, ' ', "", BLANKS);
    } else {
      assert w + tail == w + [tail[0]] + tail[1..];
      StrTokHead(w, tail[0], tail[1..], BLANKS);
    }
  }

  lemma {:induction false} ReceivedTokens(cmd: string, name: string, rest: string)
    requires Token(cmd) && Token(name)
    requires Apart(rest)
    ensures StrTok(cmd + (" " + (name + rest)), BLANKS) == (Some(cmd), name + rest)
    ensures StrTok(name + rest, BLANKS) == (Some(name), if rest == "" then "" else rest[1..])
  {
    BlankWord(name, rest);
    BlankWord(cmd, " " + (name + rest));
    assert (" " + (name + rest))[1..] == name + rest;
  }

  lemma {:induction false} ReceivedWords(message: string, name: string, value: string, tail: string)
    requires Token(name) && Token(value)
    requires |message| < BUFFSIZE && Apart(tail)
    requires message == "^set" + (" " + (name + (" " + (value + tail))))
    ensures ReceivedSet(message) == Some((name, value))
  {
    ReceivedTokens("^set", name, " " + (value + tail));
    BlankWord(value, tail);
    assert (" " + (value + tail))[1..] == value + tail;
  }

  /** A received ^set sets its first word to its second, LOCAL, whatever follows. */
  lemma {:induction false} ReceivedSetEffect(t: Table, message: string, name: string, value: string, tail: string)
    requires Token(name) && Token(value)
    requires |message| < BUFFSIZE && Apart(tail)
    requires message == "^set" + (" " + (name + (" " + (value + tail))))
    ensures AfterMessage(t, message) == if Locked(t, name) then t else t[name := Symbol(value, false, false)]
  {
    ReceivedWords(message, name, value, tail);
  }

  /** A message that starts with any other word changes no symbol. */
  lemma {:induction false} OtherMessage(t: Table, word: string, tail: string)
    requires Token(word) && word != "^set" && Apart(tail)
    requires |word| + |tail| < BUFFSIZE
    ensures AfterMessage(t, word + tail) == t
  {
    BlankWord(word, tail);
  }

  /** So does one that does not start with a ^ right away, and neither empties the cache. */
  lemma {:induction false} NoCommand(t: Table, message: string)
    requires message == "" || message[0] != '^'
    ensures AfterMessage(t, message) == t && ReceivedEmpty(message) == None
  {
  }

  /** A received ^empty, without or with a parameter. */
  lemma {:induction false} ReceivedEmptyWords(which: string, tail: string)
    requires Token(which) && |which| + |tail| + 7 < BUFFSIZE
    requires Apart(tail)
    ensures ReceivedEmpty("^empty") == Some(None)
    ensures ReceivedEmpty("^empty" + (" " + (which + tail))) == Some(Some(which))
  {
    BlankWord("^empty", "");
    assert "^empty" + "" == "^empty";
    ReceivedTokens("^empty", which, tail);
  }
}
