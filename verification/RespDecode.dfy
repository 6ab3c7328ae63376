/** redisCmdInterp of connectToSpread.c: reads the lines of a SET request and rebuilds a command. */
module RespDecode {
  import opened CString
  import opened Resp

  /** NotThree and Rejected leave no command. Crash is strlen of a missing token. Overflow is a token
      of more than 31 characters copied over the end of its 32 character row: C does not define what
      follows, the code does not refuse it. */
  datatype Outcome = NotThree | Rejected | Crash | Overflow | Command(text: string)

  datatype Slot = Token(text: string) | Fail(why: Outcome)

  const MARKS: set<char> := {' ', '\r', '\n'}
  const SLOT_SIZE: nat := 32

  /** fromIn: at the end of input the buffer keeps what it held. */
  function FromIn(buff: string, input: string): (r: (string, string))
    ensures |r.1| <= |input|
  {
    if input == "" then (buff, "") else Fgets(input)
  }

  /** The check of one token line against the announced length. */
  function CheckToken(line: string, len: int): Slot {
    match StrTok(line, MARKS).0
    case None => Fail(Crash)
    case Some(tok) =>
      if |tok| != len then Fail(Rejected)
      else if |tok| >= SLOT_SIZE then Fail(Overflow)
      else Token(tok)
  }

  /** What strtok leaves in the buffer: everything up to the end of the token. */
  function AfterStrTok(line: string): string {
    var tok := StrTok(line, MARKS).0;
    if tok == None then line else line[..|line| - |SkipDelims(line, MARKS)|] + tok.value
  }

  /** One turn of the loop: a $ line and a token line. Also the buffer and input left. */
  function ReadSlot(buff: string, input: string): (r: (Slot, string, string)) {
    var (line, more) := FromIn(buff, input);
    if line == "" || line[0] != '$' then (Fail(Rejected), line, more) else
      var (text, rest) := FromIn(line, more);
      (CheckToken(text, Atoi(line[1..])), AfterStrTok(text), rest)
  }

  type Turn = (string, string) -> (Slot, string, string)

  /** n turns, and what they got; nothing if one fails. */
  function ReadSlots(turn: Turn, n: nat, got: seq<string>, buff: string, input: string)
    : (Outcome, seq<string>, string)
  {
    if n == 0 then (NotThree, got, input) else
      var (slot, now, rest) := turn(buff, input);
      match slot
      case Fail(why) => (why, [], rest)
      case Token(text) => ReadSlots(turn, n - 1, got + [text], now, rest)
  }

  function Rebuilt(why: Outcome, got: seq<string>): Outcome {
    if |got| == 3 then Command("^" + got[0] + " " + got[1] + " " + got[2] + "\n") else why
  }

  /** The outcome for the first line of a request, and the input left. */
  function Decode(first: string, buff: string, input: string): (Outcome, string)
    requires first != ""
  {
    if Atoi(first[1..]) != 3 then (NotThree, input) else
      var (why, got, rest) := ReadSlots(ReadSlot, Atoi(first[1..]), [], buff, input);
      (Rebuilt(why, got), rest)
  }

  method NextSlot(buff: string, input: string) returns (slot: Slot, now: string, rest: string)
    ensures (slot, now, rest) == ReadSlot(buff, input)
  {
    var (line, more) := FromIn(buff, input);
    if line == "" || line[0] != '$' { return Fail(Rejected), line, more; }
    var len := Atoi(line[1..]);
    var (text, left) := FromIn(line, more);
    slot, now, rest := CheckToken(text, len), AfterStrTok(text), left;
  }

  /** The loop of redisCmdInterp. */
  method ReadRequest(tokens: nat, junk: string, input: string)
    returns (why: Outcome, ptr: seq<string>, rest: string)
    ensures (why, ptr, rest) == ReadSlots(ReadSlot, tokens, [], junk, input)
  {
    rest, ptr, why := input, [], NotThree;
    var buff := junk;
    for i := 0 to tokens
      invariant ReadSlots(ReadSlot, tokens, [], junk, input) == ReadSlots(ReadSlot, tokens - i, ptr, buff, rest)
      invariant why == NotThree
    {
      var slot;
      slot, buff, rest := NextSlot(buff, rest);
      if slot.Fail? { return slot.why, [], rest; }
      ptr := ptr + [slot.text];
    }
  }

  method RedisCmdInterp(first: string, junk: string, input: string) returns (out: Outcome, rest: string)
    requires first != ""
    ensures (out, rest) == Decode(first, junk, input)
  {
    var tokens := Atoi(first[1..]);
    if tokens != 3 { return NotThree, input; }
    var why, ptr;
    why, ptr, rest := ReadRequest(tokens, junk, input);
    out := Rebuilt(why, ptr);
  }

  // ----- which tokens survive -----

  /** A key or value the decoder can hand on. */
  predicate Fits(x: string) {
    x != "" && |x| <= 31 && Avoids(x, {' ', '\r', '\n'})
  }

  /** One that is copied over the end of its row. */
  predicate Overruns(x: string) {
    x != "" && 32 <= |x| <= 254 && Avoids(x, {' ', '\r', '\n'})
  }

  const INT_MAX: nat := 0x7fff_ffff

  function Power(digits: nat): nat {
    if digits == 0 then 1 else 10 * Power(digits - 1)
  }

  lemma {:induction false} DecimalShort(n: nat, digits: nat)
    requires digits > 0 && n < Power(digits)
    ensures |Decimal(n)| <= digits
  {
    if n < 10 {
    } else {
      assert digits > 1;
      DecimalShort(n / 10, digits - 1);
    }
  }

  lemma {:induction false} LengthShort(n: nat)
    requires n <= INT_MAX
    ensures |Decimal(n)| <= 10
  {
    assert Power(3) == 1000;
    assert Power(6) == 1000000;
    assert Power(9) == 1000000000;
    DecimalShort(n, 10);
  }

  lemma {:induction false} SkipIsSuffix(s: string, d: set<char>)
    ensures |SkipDelims(s, d)| <= |s| && SkipDelims(s, d) == s[|s| - |SkipDelims(s, d)|..]
  {
    if s == "" || s[0] !in d {
    } else {
      SkipIsSuffix(s[1..], d);
    }
  }

  /** strtok's first token is as long as the text only if it is the text. */
  lemma {:induction false} WholeToken(x: string, eol: string)
    requires eol == "\n" || eol == "\r\n" || eol == "\r" || eol == ""
    ensures var tok := StrTok(x + eol, MARKS).0;
            (tok.Some? && |tok.value| == |x| <==> x != "" && Avoids(x, MARKS))
            && (tok.Some? ==> |tok.value| <= |x|)
            && (tok.Some? && |tok.value| == |x| ==> tok.value == x)
  {
    var s := x + eol;
    var a := SkipDelims(s, MARKS);
    SkipIsSuffix(s, MARKS);
    SkipDelimsHead(s, MARKS);
    var skipped := |s| - |a|;
    if a != "" {
      var n := Span(a, MARKS);
      SpanProps(a, MARKS);
      assert a == s[skipped..];
      assert eol != "" ==> s[|x|] in MARKS;
      if eol != "" && skipped <= |x| {
        assert a[|x| - skipped] == s[|x|];
        SpanAtMost(a, MARKS, |x| - skipped);
      }
      if n == |x| { assert a[..n] == x; }
    }
    if x != "" && Avoids(x, MARKS) {
      if eol == "" { assert s == x; StrTokHead(x, ' ', "", MARKS); }
      else { assert s == x + [eol[0]] + eol[1..]; StrTokHead(x, eol[0], eol[1..], MARKS); }
    }
  }

  lemma {:induction false} BulkSplits(x: string, cr: string, rest: string)
    ensures Bulk(x, cr + "\n") + rest == "$" + Decimal(|x|) + cr + "\n" + (x + (cr + "\n") + rest)
  {
  }

  /** fgets cuts the line after 254 characters. */
  lemma {:induction false} TextCut(x: string, eol: string, rest: string) returns (end: string)
    requires |x| < BUFFSIZE && Avoids(x, {'\n'}) && (eol == "\n" || eol == "\r\n")
    ensures Fgets(x + eol + rest).0 == x + end && (|x| < SLOT_SIZE ==> Fgets(x + eol + rest).1 == rest)
    ensures end == "\n" || end == "\r\n" || end == "\r" || end == ""
  {
    var s, n := x + eol + rest, |x| + |eol| - 1;
    assert forall i :: 0 <= i < n ==> s[..n][i] == if i < |x| then x[i] else eol[i - |x|];
    SpanIs(s, {'\n'}, n);
    var m := if n + 1 < BUFFSIZE - 1 then n + 1 else BUFFSIZE - 1;
    end := eol[..m - |x|];
    assert s[..m] == x + end;
    assert s[n + 1..] == rest;
  }

  /** The line of a text with a newline in it ends there. */
  lemma {:induction false} TextBroken(x: string, eol: string, rest: string) returns (p: nat)
    requires |x| < BUFFSIZE && !Avoids(x, {'\n'})
    ensures p < |x| && Fgets(x + eol + rest).0 == x[..p] + "\n"
  {
    p := Span(x, {'\n'});
    SpanProps(x, {'\n'});
    assert x[..|x|] == x;
    var s := x + eol + rest;
    assert s[..p] == x[..p] && s[p] == x[p];
    SpanIs(s, {'\n'}, p);
    assert s[..p + 1] == x[..p] + "\n";
  }

  /** The token of the line is the text exactly if the text is a word that fgets does not cut. */
  lemma {:induction false} TextToken(x: string, eol: string, rest: string)
    requires eol == "\n" || eol == "\r\n"
    ensures var tok := StrTok(Fgets(x + eol + rest).0, MARKS).0;
            && (tok.Some? && |tok.value| == |x| <==> x != "" && |x| < BUFFSIZE && Avoids(x, MARKS))
            && (tok.Some? && |tok.value| == |x| ==> tok.value == x)
  {
    if |x| >= BUFFSIZE {
      StrTokShape(Fgets(x + eol + rest).0, MARKS);
    } else if Avoids(x, {'\n'}) {
      var end := TextCut(x, eol, rest);
      WholeToken(x, end);
    } else {
      var p := TextBroken(x, eol, rest);
      WholeToken(x[..p], "\n");
    }
  }

  /** The token line of a bulk string. */
  lemma {:induction false} TextExact(x: string, eol: string, rest: string)
    requires eol == "\n" || eol == "\r\n"
    ensures var (text, left) := Fgets(x + eol + rest);
            && (CheckToken(text, |x|).Token? <==> Fits(x))
            && (CheckToken(text, |x|) == Fail(Overflow) <==> Overruns(x))
            && (CheckToken(text, |x|).Token? ==> CheckToken(text, |x|).text == x && left == rest)
            && (Fits(x) ==> AfterStrTok(text) == x)
  {
    TextToken(x, eol, rest);
    if Fits(x) {
      var end := TextCut(x, eol, rest);
      assert SkipDelims(x + end, MARKS) == x + end;
    }
  }

  /** A bulk string is read back exactly if it is a non-empty word that fits its row, and overruns the
      row exactly if it is a longer word of one line; the code refuses all others. A line end may be
      bare or with a carriage return. */
  lemma {:induction false} SlotExact(x: string, eol: string, rest: string, buff: string)
    requires |x| <= INT_MAX && (eol == "\n" || eol == "\r\n")
    ensures var (slot, now, left) := ReadSlot(buff, Bulk(x, eol) + rest);
            && (slot.Token? <==> Fits(x)) && (slot == Fail(Overflow) <==> Overruns(x))
            && (slot.Token? ==> slot.text == x && left == rest && now == x)
  {
    var cr := eol[..|eol| - 1];
    var head := "$" + Decimal(|x|) + cr;
    LengthShort(|x|);
    assert eol == cr + "\n";
    assert Bulk(x, eol) + rest == head + "\n" + (x + eol + rest) by { BulkSplits(x, cr, rest); }
    FgetsLine(head, x + eol + rest);
    assert (head + "\n")[1..] == Decimal(|x|) + eol;
    AtoiDecimal(|x|, eol);
    TextExact(x, eol, rest);
  }

  /** The interpreter on a stream: the first line, then the rest of the request. */
  function DecodeRequest(buff: string, stream: string): (Outcome, string)
    requires stream != ""
  {
    Decode(Fgets(stream).0, buff, Fgets(stream).1)
  }

  predicate AllFit(xs: seq<string>) {
    xs == [] || (Fits(xs[0]) && AllFit(xs[1..]))
  }

  predicate AllCounted(xs: seq<string>) {
    xs == [] || (|xs[0]| <= INT_MAX && AllCounted(xs[1..]))
  }

  /** The first that does not fit overruns its row. */
  predicate RunsOver(xs: seq<string>) {
    xs != [] && (Overruns(xs[0]) || (Fits(xs[0]) && RunsOver(xs[1..])))
  }

  /** A turn that does to every encoded text what ReadSlot does to a bulk string. */
  ghost predicate Exact(turn: Turn, encode: string -> string) {
    forall x, buff, more :: |x| <= INT_MAX ==>
      var (slot, now, left) := turn(buff, encode(x) + more);
      if Fits(x) then slot == Token(x) && now == x && left == more
      else slot.Fail? && !slot.why.Command? && (slot.why.Overflow? <==> Overruns(x))
  }

  function BareBulk(x: string): string { Bulk(x, "\n") }

  lemma {:induction false} SlotFailure(buff: string, input: string)
    ensures ReadSlot(buff, input).0.Fail? ==> !ReadSlot(buff, input).0.why.Command?
  {
  }

  lemma {:induction false} ReadSlotExact()
    ensures Exact(ReadSlot, BareBulk)
  {
    forall x, buff, more | |x| <= INT_MAX
      ensures var (slot, now, left) := ReadSlot(buff, BareBulk(x) + more);
              if Fits(x) then slot == Token(x) && now == x && left == more
              else slot.Fail? && !slot.why.Command? && (slot.why.Overflow? <==> Overruns(x))
    {
      SlotExact(x, "\n", more, buff);
      SlotFailure(buff, BareBulk(x) + more);
    }
  }

  /** Encoded texts one after the other, then the rest of the stream. */
  function Stream(encode: string -> string, xs: seq<string>, tail: string): string {
    if xs == [] then tail else encode(xs[0]) + Stream(encode, xs[1..], tail)
  }

  lemma {:induction false} BulksStream(xs: seq<string>, tail: string)
    ensures Stream(BareBulk, xs, tail) == Bulks(xs, "\n") + tail
  {
    if xs == [] {
    } else {
      BulksStream(xs[1..], tail);
      assert Bulk(xs[0], "\n") + (Bulks(xs[1..], "\n") + tail) == Bulk(xs[0], "\n") + Bulks(xs[1..], "\n") + tail;
    }
  }

  /** The texts are read back one by one, up to the first that does not fit. */
  lemma {:induction false} StreamRead(turn: Turn, encode: string -> string, xs: seq<string>, got: seq<string>,
        buff: string, tail: string)
    requires Exact(turn, encode) && AllCounted(xs)
    ensures var (why, all, rest) := ReadSlots(turn, |xs|, got, buff, Stream(encode, xs, tail));
            && (AllFit(xs) ==> all == got + xs && rest == tail)
            && (!AllFit(xs) ==> all == [] && !why.Command? && (why.Overflow? <==> RunsOver(xs)))
    decreases |xs|
  {
    if xs == [] {
      assert got + xs == got;
    } else {
      StreamRead(turn, encode, xs[1..], got + [xs[0]], xs[0], tail);
      assert got + [xs[0]] + xs[1..] == got + xs;
    }
  }

  lemma {:induction false} DecodeThree(first: string, buff: string, input: string)
    requires first != "" && Atoi(first[1..]) == 3
    ensures var (why, got, rest) := ReadSlots(ReadSlot, 3, [], buff, input);
            Decode(first, buff, input) == (Rebuilt(why, got), rest)
  {
  }

  lemma {:induction false} DecodeWords(first: string, xs: seq<string>, input: string, tail: string, buff: string)
    requires first != "" && Atoi(first[1..]) == 3 == |xs| && input == Bulks(xs, "\n") + tail
    requires AllCounted(xs)
    ensures AllFit(xs) ==>
      Decode(first, buff, input) == (Command("^" + xs[0] + " " + xs[1] + " " + xs[2] + "\n"), tail)
    ensures !AllFit(xs) ==> var out := Decode(first, buff, input).0;
              !out.Command? && (out.Overflow? <==> RunsOver(xs))
  {
    ReadSlotExact();
    BulksStream(xs, tail);
    StreamRead(ReadSlot, BareBulk, xs, [], buff, tail);
    assert [] + xs == xs;
    DecodeThree(first, buff, input);
  }

  lemma {:induction false} FitsCons(x: string, xs: seq<string>)
    ensures AllFit([x] + xs) <==> Fits(x) && AllFit(xs)
    ensures RunsOver([x] + xs) <==> Overruns(x) || (Fits(x) && RunsOver(xs))
    ensures AllCounted([x] + xs) <==> |x| <= INT_MAX && AllCounted(xs)
  {
    assert ([x] + xs)[1..] == xs;
  }

  lemma {:induction false} SetFits(k: string, v: string)
    ensures AllFit(["SET", k, v]) <==> Fits(k) && Fits(v)
    ensures RunsOver(["SET", k, v]) <==> Overruns(k) || (Fits(k) && Overruns(v))
    ensures |k| <= INT_MAX && |v| <= INT_MAX ==> AllCounted(["SET", k, v])
  {
    FitsCons(v, []);
    FitsCons(k, [v] + []);
    FitsCons("SET", [k] + ([v] + []));
    assert ["SET"] + ([k] + ([v] + [])) == ["SET", k, v];
    assert Fits("SET") && |"SET"| == 3;
  }

  /** The requests after their first line. */
  lemma {:induction false} SetBody(first: string, k: string, v: string, tail: string, buff: string)
    requires |k| <= INT_MAX && |v| <= INT_MAX && first != "" && Atoi(first[1..]) == 3
    ensures var (out, rest) := Decode(first, buff, Bulks(["SET", k, v], "\n") + tail);
            && (out.Command? <==> Fits(k) && Fits(v))
            && (out.Overflow? <==> Overruns(k) || (Fits(k) && Overruns(v)))
            && (out.Command? ==> out.text == "^SET " + k + " " + v + "\n" && rest == tail)
  {
    var xs := ["SET", k, v];
    SetFits(k, v);
    DecodeWords(first, xs, Bulks(xs, "\n") + tail, tail, buff);
    assert "^" + "SET" + " " == "^SET ";
  }

  /** The first line of a SET request, and what follows it. */
  lemma {:induction false} SetFirstLine(k: string, v: string, tail: string)
    ensures RedisSet(k, v) + tail != ""
    ensures Fgets(RedisSet(k, v) + tail) == ("*3\n", Bulks(["SET", k, v], "\n") + tail)
  {
    var body := Bulks(["SET", k, v], "\n") + tail;
    SetIsArray(k, v);
    assert RedisSet(k, v) + tail == "*3" + "\n" + body by { assert Decimal(3) == "3"; }
    FgetsLine("*3", body);
    assert "*3" + "\n" == "*3\n";
  }

  lemma {:induction false} FirstLine()
    ensures Atoi(("*3\n")[1..]) == 3 && "*3" + "\n" == "*3\n"
  {
    assert Decimal(3) == "3" && ("*3\n")[1..] == "3" + "\n";
    AtoiDecimal(3, "\n");
  }

  /** A SET request comes back as a ^SET line, consuming exactly its lines, if and only if key and
      value are non-empty words of at most 31 characters. It overruns a row exactly if the first that
      is not one is a longer word of one line; all others are refused. */
  lemma {:induction false} SetRoundTrip(k: string, v: string, tail: string, buff: string)
    requires |k| <= INT_MAX && |v| <= INT_MAX
    ensures RedisSet(k, v) + tail != ""
    ensures var (out, rest) := DecodeRequest(buff, RedisSet(k, v) + tail);
            && (out.Command? <==> Fits(k) && Fits(v))
            && (out.Overflow? <==> Overruns(k) || (Fits(k) && Overruns(v)))
            && (out.Command? ==> out.text == "^SET " + k + " " + v + "\n" && rest == tail)
  {
    SetFirstLine(k, v, tail);
    FirstLine();
    SetBody("*3\n", k, v, tail, buff);
  }

  /** What remoteSet writes for a Redis client reads back as the SENDER command, then the key's. */
  lemma {:induction false} RemoteSetRoundTrip(sender: string, k: string, v: string, buff: string)
    requires Fits(sender) && Fits(k) && Fits(v)
    ensures RedisSet(k, v) != ""
    ensures DecodeRequest(buff, RedisSender(sender) + RedisSet(k, v))
         == (Command("^SET " + "SENDER" + " " + sender + "\n"), RedisSet(k, v))
    ensures DecodeRequest(buff, RedisSet(k, v)) == (Command("^SET " + k + " " + v + "\n"), "")
  {
    SenderIsSet(sender);
    assert Fits("SENDER");
    SetRoundTrip("SENDER", sender, RedisSet(k, v), buff);
    assert RedisSet(k, v) + "" == RedisSet(k, v);
    SetRoundTrip(k, v, "", buff);
  }

  // ----- what is not a request -----

  /** A request that does not announce three parts is dropped unread. */
  lemma {:induction false} NotThreeParts(n: nat, buff: string, input: string)
    requires n != 3
    ensures Decode("*" + Decimal(n) + "\n", buff, input) == (NotThree, input)
  {
    var first := "*" + Decimal(n) + "\n";
    assert first[1..] == Decimal(n) + "\n";
    AtoiDecimal(n, "\n");
  }

  /** The first turn decides when it fails. */
  lemma {:induction false} FirstFails(turn: Turn, n: nat, buff: string, input: string, why: Outcome, now: string,
        rest: string)
    requires n > 0 && turn(buff, input) == (Fail(why), now, rest)
    ensures ReadSlots(turn, n, [], buff, input) == (why, [], rest)
  {
  }

  lemma {:induction false} DecodeFails(buff: string, input: string, rest: string)
    requires ReadSlot(buff, input).0 == Fail(Rejected) && ReadSlot(buff, input).2 == rest
    ensures Decode("*3\n", buff, input) == (Rejected, rest)
  {
    FirstLine();
    FirstFails(ReadSlot, 3, buff, input, Rejected, ReadSlot(buff, input).1, rest);
    DecodeThree("*3\n", buff, input);
  }

  /** Where a length line is due, a line that does not start with $ ends the request: it alone is
      consumed. */
  lemma {:induction false} NoLengthLine(l: string, buff: string, rest: string)
    requires Avoids(l, {'\n'}) && |l| < BUFFSIZE - 1 && (l == "" || l[0] != '$')
    ensures Decode("*3\n", buff, l + "\n" + rest) == (Rejected, rest)
  {
    FgetsLine(l, rest);
    DecodeFails(buff, l + "\n" + rest, rest);
  }

  lemma {:induction false} WrongSlot(n: nat, x: string, buff: string, rest: string)
    requires n <= INT_MAX && Fits(x) && n != |x|
    ensures var (slot, now, left) := ReadSlot(buff, "$" + Decimal(n) + "\n" + (x + "\n" + rest));
            slot == Fail(Rejected) && left == rest
  {
    var head, more := "$" + Decimal(n), x + "\n" + rest;
    LengthShort(n);
    FgetsLine(head, more);
    assert (head + "\n")[1..] == Decimal(n) + "\n";
    AtoiDecimal(n, "\n");
    FgetsLine(x, rest);
    StrTokHead(x, '\n', "", MARKS);
    assert x + "\n" + "" == x + "\n";
  }

  /** So does a word whose length is not the one announced. */
  lemma {:induction false} WrongLength(n: nat, x: string, buff: string, rest: string)
    requires n <= INT_MAX && Fits(x) && n != |x|
    ensures Decode("*3\n", buff, "$" + Decimal(n) + "\n" + (x + "\n" + rest)) == (Rejected, rest)
  {
    WrongSlot(n, x, buff, rest);
    DecodeFails(buff, "$" + Decimal(n) + "\n" + (x + "\n" + rest), rest);
  }

  // ----- the end of the input -----

  /** When the input is over, the buffer still holds the last token, which serves as both lines. It is
      taken if it is a $ and a number that is its own length. */
  predicate OwnLength(x: string) { x != "" && x[0] == '$' && Atoi(x[1..]) == |x| }

  lemma {:induction false} SlotAtEnd(x: string)
    requires Fits(x)
    ensures ReadSlot(x, "") == if OwnLength(x) then (Token(x), x, "") else (Fail(Rejected), x, "")
  {
    StrTokHead(x, ' ', "", MARKS);
    assert SkipDelims(x, MARKS) == x;
    assert x[..|x| - |x|] + x == x;
  }

  lemma {:induction false} TurnTaken(turn: Turn, n: nat, got: seq<string>, buff: string, input: string, x: string,
        rest: string)
    requires n > 0 && turn(buff, input) == (Token(x), x, rest)
    ensures ReadSlots(turn, n, got, buff, input) == ReadSlots(turn, n - 1, got + [x], x, rest)
  {
  }

  lemma {:induction false} TwoAndEnd(turn: Turn, encode: string -> string, a: string, k: string, buff: string)
    requires Exact(turn, encode) && Fits(a) && Fits(k)
    requires turn(k, "") == if OwnLength(k) then (Token(k), k, "") else (Fail(Rejected), k, "")
    ensures ReadSlots(turn, 3, [], buff, encode(a) + (encode(k) + ""))
         == if OwnLength(k) then (NotThree, [a, k, k], "") else (Rejected, [], "")
  {
    var more := encode(k) + "";
    assert [] + [a] == [a] && [a] + [k] == [a, k] && [a, k] + [k] == [a, k, k];
    TurnTaken(turn, 3, [], buff, encode(a) + more, a, more);
    TurnTaken(turn, 2, [a], a, more, k, "");
    if OwnLength(k) {
      TurnTaken(turn, 1, [a, k], k, "", k, "");
    }
  }

  /** A request cut off after its key is a command all the same exactly if the key is such a word. */
  lemma {:induction false} CutAfterKey(k: string, buff: string)
    requires Fits(k)
    ensures Decode("*3\n", buff, Bulk("SET", "\n") + Bulk(k, "\n"))
         == (if OwnLength(k) then Command("^" + "SET" + " " + k + " " + k + "\n") else Rejected, "")
  {
    assert Fits("SET");
    FirstLine();
    ReadSlotExact();
    SlotAtEnd(k);
    TwoAndEnd(ReadSlot, BareBulk, "SET", k, buff);
    assert Bulk(k, "\n") + "" == Bulk(k, "\n");
    DecodeThree("*3\n", buff, Bulk("SET", "\n") + Bulk(k, "\n"));
  }
}
