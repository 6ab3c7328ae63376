/** The line parser of processSpreadCommand (commonToSpread.c) and the pointer scan that cuts the
    message text out of a ^multicast or ^send line. */
module Commands {
  import opened CString

  /** What a line asks for. Incomplete is a command whose parameters are missing: it does nothing. */
  datatype Command =
    | Blank
    | Comment
    | SetCmd(name: string, value: string)
    | LockCmd(name: string)
    | GetCmd(name: string)
    | Join(group: string)
    | Leave(group: string)
    | Dump(what: Option<string>)
    | Save
    | Connect
    | Disconnect
    | Exit
    | CacheAdd(node: string, group: string)
    | CacheDel(node: string, from: Option<string>)
    | CacheEmpty(which: Option<string>)
    | Connected(who: Option<string>)
    | Multicast(group: string, msg: string)
    | Send(group: string, msg: string)
    | Exec(shell: string)
    | Start
    | Help
    | Unknown(word: string)
    | Incomplete
    | Plain(text: string)

  const SP: set<char> := {' '}
  const EOL: set<char> := {'\r', '\n'}

  /** Text from the second word on, when s starts with its first word. */
  function SkipWord(s: string): string {
    SkipDelims(s[Span(s, SP)..], SP)
  }

  /** The pointer scan: past two words of the line, or the third token when nothing is left. */
  function MessageOf(safe: string, p2: string): string {
    var m := SkipWord(SkipWord(safe));
    if m == "" then p2 else m
  }

  function ParseCommand(cmd: string, p1: Option<string>, p2: Option<string>, safe: string): Command {
    if cmd == "^set" then
      if p1.Some? then SetCmd(p1.value, if p2.Some? then p2.value else "") else Incomplete
    else if cmd == "^lock" then if p1.Some? then LockCmd(p1.value) else Incomplete
    else if cmd == "^get" then if p1.Some? then GetCmd(p1.value) else Incomplete
    else if cmd == "^join" then if p1.Some? then Join(p1.value) else Incomplete
    else if cmd == "^leave" then if p1.Some? then Leave(p1.value) else Incomplete
    else if cmd == "^dump" then Dump(p1)
    else if cmd == "^save" then Save
    else if cmd == "^connect" then Connect
    else if cmd == "^disconnect" then Disconnect
    else if cmd == "^exit" then Exit
    else if cmd == "^add" then
      if p1.Some? && p2.Some? then CacheAdd(p1.value, p2.value) else Incomplete
    else if cmd == "^del" then if p1.Some? then CacheDel(p1.value, p2) else Incomplete
    else if cmd == "^empty" then CacheEmpty(p1)
    else if cmd == "^connected" then Connected(p1)
    else if cmd == "^multicast" then
      if p1.Some? && p2.Some? then Multicast(p1.value, MessageOf(safe, p2.value)) else Incomplete
    else if cmd == "^exec" then
      var rest := StrTok(safe, SP).1;
      if rest == "" then Incomplete else Exec(rest)
    else if cmd == "^start" then Start
    else if cmd == "^send" then
      if p1.Some? && p2.Some? then
        // sendBuf is BUFFSIZE + 2 characters
        var text := MessageOf(safe, p2.value) + "\n";
        Send(p1.value, if |text| <= BUFFSIZE + 1 then text else text[..BUFFSIZE + 1])
      else Incomplete
    else if cmd == "^help" then Help
    else Unknown(cmd)
  }

  function ParseLine(line: string): Command {
    match StrTok(line, EOL).0
    case None => Blank
    case Some(tmp) =>
      var safe := Truncate(tmp);
      var (cmd, r0) := StrTok(tmp, SP);
      if cmd == None then Blank
      else if cmd.value == "" then Blank
      else if cmd.value[0] == '#' then Comment
      else if cmd.value[0] == '^' then
        var (p1, r1) := StrTok(r0, SP);
        var p2 := StrTok(r1, SP).0;
        ParseCommand(cmd.value, p1, p2, safe)
      else Plain(safe)
  }

  /** The first of two pointer loops: to the end of a word. */
  method ScanText(safe: string, start: nat) returns (i: nat)
    requires start <= |safe|
    ensures start <= i <= |safe| && i - start == Span(safe[start..], SP)
  {
    i := start;
    while i < |safe| && safe[i] != ' '
      invariant start <= i <= |safe|
      invariant forall j :: start <= j < i ==> safe[j] != ' '
    {
      i := i + 1;
    }
    SpanIs(safe[start..], SP, i - start);
  }

  /** The second: past the spaces after it. */
  method ScanSpaces(safe: string, start: nat) returns (i: nat)
    requires start <= |safe|
    ensures i <= |safe| && safe[i..] == SkipDelims(safe[start..], SP)
  {
    i := start;
    while i < |safe| && safe[i] == ' '
      invariant start <= i <= |safe|
      invariant SkipDelims(safe[i..], SP) == SkipDelims(safe[start..], SP)
    {
      assert safe[i..][1..] == safe[i + 1..];
      i := i + 1;
    }
  }

  method ScanWord(safe: string, start: nat) returns (i: nat)
    requires start <= |safe|
    ensures i <= |safe| && safe[i..] == SkipWord(safe[start..])
  {
    i := ScanText(safe, start);
    assert safe[start..][i - start..] == safe[i..];
    i := ScanSpaces(safe, i);
  }

  /** The four pointer loops of ^multicast and ^send: twice those two. */
  method ScanMessage(safe: string, p2: string) returns (msg: string)
    ensures msg == MessageOf(safe, p2)
  {
    var i := ScanWord(safe, 0);
    i := ScanWord(safe, i);
    msg := if i == |safe| then p2 else safe[i..];
  }

  // ----- the scan and the tokenizer agree, unless the line starts with a space -----

  /** s without its first n words, counted as strtok counts them. */
  function DropTokens(s: string, n: nat): string
    decreases n
  {
    if n == 0 then SkipDelims(s, SP) else DropTokens(StrTok(s, SP).1, n - 1)
  }

  lemma {:induction false} SkipDelimsIdle(s: string, d: set<char>)
    ensures SkipDelims(SkipDelims(s, d), d) == SkipDelims(s, d)
  {
    if s == "" || s[0] !in d {
    } else {
      SkipDelimsIdle(s[1..], d);
    }
  }

  /** Past a leading word, the scan stands where strtok's next token starts. */
  lemma {:induction false} SkipWordIsStrTok(s: string)
    requires s != "" && s[0] != ' '
    ensures SkipWord(s) == SkipDelims(StrTok(s, SP).1, SP)
  {
    var n := Span(s, SP);
    SpanProps(s, SP);
    if n < |s| { assert s[n..][1..] == s[n + 1..]; }
  }

  lemma {:induction false} DropTokensSkip(s: string, n: nat)
    ensures DropTokens(SkipDelims(s, SP), n) == DropTokens(s, n)
  {
    SkipDelimsIdle(s, SP);
  }

  /** The scan skips two words of a line that starts with one, but only one word when the line
      starts with a space, since its first loop then stops at once. */
  lemma {:induction false} ScanSkips(s: string)
    requires DropTokens(s, 2) != ""
    ensures SkipWord(SkipWord(s)) == DropTokens(s, if s[0] == ' ' then 1 else 2)
    ensures |DropTokens(s, 1)| > |DropTokens(s, 2)|
  {
    var a := SkipDelims(s, SP);
    var b := DropTokens(s, 1);
    SkipDelimsHead(s, SP);
    SkipDelimsHead(StrTok(s, SP).1, SP);
    assert a != "";
    DropTokensSkip(s, 1);
    assert b == SkipDelims(StrTok(s, SP).1, SP);
    assert b == "" ==> StrTok(StrTok(s, SP).1, SP) == (None, "");
    SkipWordIsStrTok(b);
    SkipWordIsStrTok(a);
    DropTokensSkip(StrTok(s, SP).1, 1);
    assert SkipWord(b) == DropTokens(s, 2);
    assert |SkipWord(b)| < |b| by { SkipDelimsHead(b[Span(b, SP)..], SP); }
    if s[0] == ' ' { assert s[0..] == s; }
  }

  lemma {:induction false} DropTokensShort(s: string, n: nat)
    ensures |DropTokens(s, n)| <= |s|
    decreases n
  {
    if n == 0 { SkipDelimsHead(s, SP); } else { StrTokShape(s, SP); DropTokensShort(StrTok(s, SP).1, n - 1); }
  }

  lemma {:induction false} MessageOfLine(tmp: string, p2: string)
    requires |tmp| < BUFFSIZE && tmp != ""
    requires StrTok(StrTok(StrTok(tmp, SP).1, SP).1, SP).0 == Some(p2)
    ensures MessageOf(tmp, p2) == DropTokens(tmp, if tmp[0] == ' ' then 1 else 2)
    ensures p2 <= DropTokens(tmp, 2) && |MessageOf(tmp, p2) + "\n"| <= BUFFSIZE + 1
    ensures MessageOf(tmp, p2) == DropTokens(tmp, 2) <==> tmp[0] != ' '
  {
    var r1 := StrTok(StrTok(tmp, SP).1, SP).1;
    assert DropTokens(tmp, 2) == SkipDelims(r1, SP);
    StrTokShape(r1, SP);
    assert p2 <= SkipDelims(r1, SP);
    ScanSkips(tmp);
    DropTokensShort(tmp, 1);
    DropTokensShort(tmp, 2);
  }

  lemma {:induction false} ParseMessage(cmd: string, group: string, p2: string, safe: string)
    requires cmd == "^multicast" || cmd == "^send"
    requires |MessageOf(safe, p2) + "\n"| <= BUFFSIZE + 1
    ensures var msg := MessageOf(safe, p2);
            ParseCommand(cmd, Some(group), Some(p2), safe)
            == if cmd == "^send" then Send(group, msg + "\n") else Multicast(group, msg)
  {
    if cmd == "^send" {
      assert cmd[2] == 'e' && |cmd| == 5;
    } else {
      assert |cmd| == 10;
    }
  }

  lemma {:induction false} ParseWords(line: string, tmp: string, cmd: string)
    requires StrTok(line, EOL).0 == Some(tmp) && |tmp| < BUFFSIZE
    requires StrTok(tmp, SP).0 == Some(cmd) && cmd != "" && cmd[0] == '^'
    ensures var r0 := StrTok(tmp, SP).1;
            ParseLine(line) == ParseCommand(cmd, StrTok(r0, SP).0, StrTok(StrTok(r0, SP).1, SP).0, tmp)
  {
  }

  /** For every line a reader hands over (fgets leaves at most BUFFSIZE - 1 characters) that has a
      group and a message, the text sent is the line from its third token on, inner and trailing
      spaces kept, exactly when the line does not start with a space; otherwise the group's name is
      sent along. The fallback to the bare third token is never taken. */
  lemma {:induction false} MessageIsRestOfLine(line: string, tmp: string, cmd: string, group: string, p2: string)
    requires |line| < BUFFSIZE && StrTok(line, EOL).0 == Some(tmp)
    requires StrTok(tmp, SP).0 == Some(cmd)
    requires StrTok(StrTok(tmp, SP).1, SP).0 == Some(group)
    requires StrTok(StrTok(StrTok(tmp, SP).1, SP).1, SP).0 == Some(p2)
    requires cmd == "^multicast" || cmd == "^send"
    ensures var msg := if tmp[0] == ' ' then DropTokens(tmp, 1) else DropTokens(tmp, 2);
            && p2 <= DropTokens(tmp, 2)
            && ParseLine(line) == (if cmd == "^send" then Send(group, msg + "\n") else Multicast(group, msg))
            && (msg == DropTokens(tmp, 2) <==> tmp[0] != ' ')
  {
    StrTokShape(line, EOL);
    StrTokShape(tmp, SP);
    MessageOfLine(tmp, p2);
    ParseMessage(cmd, group, p2, tmp);
    assert ParseLine(line) == ParseCommand(cmd, Some(group), Some(p2), tmp) by {
      ParseWords(line, tmp, cmd);
    }
  }

  lemma {:induction false} StrTokSpace(s: string)
    ensures StrTok(" " + s, SP) == StrTok(s, SP)
  {
    assert (" " + s)[1..] == s;
  }

  lemma {:induction false} SendTokens(tmp: string)
    requires tmp == " " + ("^send" + " " + ("g" + " " + "m"))
    ensures StrTok(tmp, SP) == (Some("^send"), "g m") && StrTok("g m", SP) == (Some("g"), "m")
    ensures StrTok("m", SP) == (Some("m"), "") && DropTokens(tmp, 1) == "g m"
  {
    StrTokSpace("^send" + " " + ("g" + " " + "m"));
    StrTokHead("^send", ' ', "g" + " " + "m", SP);
    assert "g" + " " + "m" == "g m";
    StrTokHead("g", ' ', "m", SP);
    StrTokHead("m", ' ', "", SP);
    assert DropTokens(tmp, 1) == SkipDelims("g m", SP);
  }

  /** A line that starts with a space sends the group's name along. */
  lemma {:induction false} LeadingSpaceSendsGroup(line: string)
    requires line == " ^send g m\n"
    ensures ParseLine(line) == Send("g", "g m\n")
  {
    var tmp := " " + ("^send" + " " + ("g" + " " + "m"));
    assert line == tmp + "\n" + "";
    StrTokHead(tmp, '\n', "", EOL);
    SendTokens(tmp);
    MessageIsRestOfLine(line, tmp, "^send", "g", "m");
    assert "g m" + "\n" == "g m\n";
  }

  // ----- what a line asks for, from its words -----

  predicate Word(w: string) { w != "" && Avoids(w, {' ', '\r', '\n'}) }

  /** A line whose text holds no line end is parsed as that text. */
  lemma {:induction false} TextOf(tmp: string)
    requires tmp != "" && Avoids(tmp, {'\r', '\n'})
    ensures StrTok(tmp + "\n", EOL).0 == Some(tmp)
  {
    StrTokHead(tmp, '\n', "", EOL);
    assert tmp + "\n" + "" == tmp + "\n";
  }

  /** It does not matter how a line ends. */
  lemma {:induction false} EndsAlike(tmp: string)
    requires tmp != "" && Avoids(tmp, {'\r', '\n'})
    ensures ParseLine(tmp + "\r\n") == ParseLine(tmp + "\n") == ParseLine(tmp)
    ensures ParseLine("\n") == ParseLine("\r\n") == ParseLine("") == Blank
  {
    TextOf(tmp);
    StrTokHead(tmp, '\r', "\n", EOL);
    assert tmp + "\r" + "\n" == tmp + "\r\n";
    assert ("\r\n")[1..] == "\n" && ("\n")[1..] == "";
    assert StrTok("\n", EOL).0 == None && StrTok("\r\n", EOL).0 == None;
  }

  /** A line that is no command and no comment is sent as it is. */
  lemma {:induction false} PlainLine(tmp: string)
    requires tmp != "" && |tmp| <= 254 && Avoids(tmp, {'\r', '\n'})
    requires tmp[0] != ' ' && tmp[0] != '^' && tmp[0] != '#'
    ensures ParseLine(tmp + "\n") == Plain(tmp)
  {
    TextOf(tmp);
    assert SkipDelims(tmp, SP) == tmp;
    SpanProps(tmp, SP);
    assert Span(tmp, SP) > 0 && StrTok(tmp, SP).0 == Some(tmp[..Span(tmp, SP)]);
  }

  lemma {:induction false} OneWord(cmd: string)
    requires Word(cmd) && cmd[0] == '^' && |cmd| < BUFFSIZE
    ensures ParseLine(cmd + "\n") == ParseCommand(cmd, None, None, cmd)
  {
    TextOf(cmd);
    StrTokHead(cmd, ' ', "", SP);
    ParseWords(cmd + "\n", cmd, cmd);
  }

  lemma {:induction false} TwoWords(cmd: string, a: string)
    requires Word(cmd) && cmd[0] == '^' && Word(a) && |cmd| + 1 + |a| < BUFFSIZE
    ensures ParseLine(cmd + " " + a + "\n") == ParseCommand(cmd, Some(a), None, cmd + " " + a)
  {
    var tmp := cmd + " " + a;
    TextOf(tmp);
    StrTokHead(cmd, ' ', a, SP);
    StrTokHead(a, ' ', "", SP);
    ParseWords(tmp + "\n", tmp, cmd);
  }

  lemma {:induction false} ThreeWords(cmd: string, a: string, b: string)
    requires Word(cmd) && cmd[0] == '^' && Word(a) && Word(b) && |cmd| + 2 + |a| + |b| < BUFFSIZE
    ensures ParseLine(cmd + " " + (a + " " + b) + "\n")
         == ParseCommand(cmd, Some(a), Some(b), cmd + " " + (a + " " + b))
  {
    var tmp := cmd + " " + (a + " " + b);
    TextOf(tmp);
    StrTokHead(cmd, ' ', a + " " + b, SP);
    StrTokHead(a, ' ', b, SP);
    StrTokHead(b, ' ', "", SP);
    ParseWords(tmp + "\n", tmp, cmd);
  }

  lemma {:induction false} BareMeans(cmd: string, c: Command)
    requires c == ParseCommand(cmd, None, None, cmd)
    ensures (cmd == "^save" ==> c == Save) && (cmd == "^connect" ==> c == Connect)
    ensures (cmd == "^disconnect" ==> c == Disconnect) && (cmd == "^exit" ==> c == Exit)
    ensures (cmd == "^start" ==> c == Start) && (cmd == "^help" ==> c == Help)
  {
  }

  /** Command words on their own. */
  lemma {:induction false} BareLine(cmd: string)
    requires Word(cmd) && cmd[0] == '^' && |cmd| < BUFFSIZE
    ensures var c := ParseLine(cmd + "\n");
            && (cmd == "^save" ==> c == Save) && (cmd == "^connect" ==> c == Connect)
            && (cmd == "^disconnect" ==> c == Disconnect) && (cmd == "^exit" ==> c == Exit)
            && (cmd == "^start" ==> c == Start) && (cmd == "^help" ==> c == Help)
  {
    OneWord(cmd);
    BareMeans(cmd, ParseLine(cmd + "\n"));
  }

  lemma {:induction false} BareOptional(cmd: string)
    requires Word(cmd) && cmd[0] == '^' && |cmd| < BUFFSIZE
    ensures var c := ParseLine(cmd + "\n");
            && (cmd == "^dump" ==> c == Dump(None)) && (cmd == "^empty" ==> c == CacheEmpty(None))
            && (cmd == "^connected" ==> c == Connected(None))
  {
    OneWord(cmd);
  }

  /** The others do nothing without a parameter. */
  lemma {:induction false} BareIncomplete(cmd: string)
    requires Word(cmd) && cmd[0] == '^' && |cmd| < BUFFSIZE
    ensures var c := ParseLine(cmd + "\n");
            && (cmd == "^set" ==> c == Incomplete) && (cmd == "^lock" ==> c == Incomplete)
            && (cmd == "^get" ==> c == Incomplete) && (cmd == "^join" ==> c == Incomplete)
            && (cmd == "^leave" ==> c == Incomplete) && (cmd == "^add" ==> c == Incomplete)
            && (cmd == "^del" ==> c == Incomplete) && (cmd == "^multicast" ==> c == Incomplete)
            && (cmd == "^send" ==> c == Incomplete) && (cmd == "^exec" ==> c == Incomplete)
  {
    OneWord(cmd);
    StrTokHead(cmd, ' ', "", SP);
  }

  /** Any other word behind a ^ is reported as it is. */
  lemma {:induction false} UnknownLine(cmd: string)
    requires Word(cmd) && cmd[0] == '^' && |cmd| < BUFFSIZE
    requires cmd !in ["^set", "^lock", "^get", "^join", "^leave", "^dump", "^save", "^connect", "^disconnect", "^exit",
      "^add", "^del", "^empty", "^connected", "^multicast", "^exec", "^start", "^send", "^help"]
    ensures ParseLine(cmd + "\n") == Unknown(cmd)
  {
    OneWord(cmd);
  }

  /** With one parameter. */
  lemma {:induction false} OneParameter(cmd: string, a: string)
    requires Word(cmd) && cmd[0] == '^' && Word(a) && |cmd| + 1 + |a| < BUFFSIZE
    ensures var c := ParseLine(cmd + " " + a + "\n");
            && (cmd == "^set" ==> c == SetCmd(a, "")) && (cmd == "^lock" ==> c == LockCmd(a))
            && (cmd == "^get" ==> c == GetCmd(a)) && (cmd == "^join" ==> c == Join(a))
            && (cmd == "^leave" ==> c == Leave(a)) && (cmd == "^del" ==> c == CacheDel(a, None))
  {
    TwoWords(cmd, a);
  }

  lemma {:induction false} OptionalParameter(cmd: string, a: string)
    requires Word(cmd) && cmd[0] == '^' && Word(a) && |cmd| + 1 + |a| < BUFFSIZE
    ensures var c := ParseLine(cmd + " " + a + "\n");
            && (cmd == "^dump" ==> c == Dump(Some(a))) && (cmd == "^empty" ==> c == CacheEmpty(Some(a)))
            && (cmd == "^connected" ==> c == Connected(Some(a))) && (cmd == "^exec" ==> c == Exec(a))
  {
    TwoWords(cmd, a);
    StrTokHead(cmd, ' ', a, SP);
  }

  lemma {:induction false} NeedsTwo(cmd: string, a: string, safe: string, c: Command)
    requires c == ParseCommand(cmd, Some(a), None, safe)
    ensures (cmd == "^add" ==> c == Incomplete) && (cmd == "^multicast" ==> c == Incomplete)
    ensures cmd == "^send" ==> c == Incomplete
  {
  }

  lemma {:induction false} OneIncomplete(cmd: string, a: string)
    requires Word(cmd) && cmd[0] == '^' && Word(a) && |cmd| + 1 + |a| < BUFFSIZE
    ensures var c := ParseLine(cmd + " " + a + "\n");
            && (cmd == "^add" ==> c == Incomplete) && (cmd == "^multicast" ==> c == Incomplete)
            && (cmd == "^send" ==> c == Incomplete)
  {
    TwoWords(cmd, a);
    NeedsTwo(cmd, a, cmd + " " + a, ParseLine(cmd + " " + a + "\n"));
  }

  /** With two. */
  lemma {:induction false} TwoParameters(cmd: string, a: string, b: string)
    requires Word(cmd) && cmd[0] == '^' && Word(a) && Word(b) && |cmd| + 2 + |a| + |b| < BUFFSIZE
    ensures var c := ParseLine(cmd + " " + (a + " " + b) + "\n");
            && (cmd == "^set" ==> c == SetCmd(a, b)) && (cmd == "^add" ==> c == CacheAdd(a, b))
            && (cmd == "^del" ==> c == CacheDel(a, Some(b))) && (cmd == "^exec" ==> c == Exec(a + " " + b))
  {
    ThreeWords(cmd, a, b);
    StrTokHead(cmd, ' ', a + " " + b, SP);
  }
}
