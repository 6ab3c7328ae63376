/** The Redis requests that connectToSpread.c writes: which of them the Redis serialization protocol
    knows, and that a stream of them splits in one way only. */
module Resp {
  import opened CString

  /** A bulk string of the Redis serialization protocol, with a chosen line end: $%d and %s. */
  function Bulk(x: string, eol: string): string {
    "$" + Decimal(|x|) + eol + x + eol
  }

  // ----- encoders -----

  function RedisSender(sender: string): string {
    "*3\n$3\nSET\n$6\nSENDER\n" + Bulk(sender, "\n")
  }

  function RedisSet(k: string, v: string): string {
    "*3\n$3\nSET\n" + Bulk(k, "\n") + Bulk(v, "\n")
  }

  function RedisHset(k: string, v: string): string {
    "*4\r\n$4\r\nHSET\r\n" + Bulk(k, "\r\n") + "$5\r\nVALUE\r\n" + Bulk(v, "\r\n")
  }

  function RedisGet(k: string): string {
    "*2\n$3\nGET\n" + Bulk(k, "\n")
  }

  function RedisSub(k: string): string {
    "*2\n$3\nSUBSCRIBE\n" + Bulk(k, "\n")
  }

  // ----- the same as arrays of bulk strings -----

  function Bulks(xs: seq<string>, eol: string): string {
    if xs == [] then "" else Bulk(xs[0], eol) + Bulks(xs[1..], eol)
  }

  function RespArray(xs: seq<string>, eol: string): string {
    "*" + Decimal(|xs|) + eol + Bulks(xs, eol)
  }

  lemma {:induction false} BulksCons(x: string, xs: seq<string>, eol: string)
    ensures Bulks([x] + xs, eol) == Bulk(x, eol) + Bulks(xs, eol)
  {
    assert ([x] + xs)[1..] == xs;
  }

  lemma {:induction false} BulksOne(x: string, eol: string)
    ensures Bulks([x], eol) == Bulk(x, eol)
  {
    BulksCons(x, [], eol);
    assert [x] + [] == [x];
  }

  lemma {:induction false} Regroup(h: string, x: string, a: string, b: string)
    ensures h + (x + (a + b)) == (h + x) + a + b
  {
  }

  lemma {:induction false} SetBulk()
    ensures Bulk("SET", "\n") == "$3\nSET\n" && "*" + Decimal(3) + "\n" == "*3\n"
    ensures "*3\n" + "$3\nSET\n" == "*3\n$3\nSET\n"
  {
    assert Decimal(3) == "3";
  }

  /** SET, GET and SENDER requests are arrays of bulk strings but for the line end: the protocol ends
      its lines with a carriage return and a newline, as only HSET does. */
  lemma {:induction false} SetIsArray(k: string, v: string)
    ensures RedisSet(k, v) == RespArray(["SET", k, v], "\n")
  {
    BulksOne(v, "\n");
    BulksCons(k, [v], "\n");
    BulksCons("SET", [k] + [v], "\n");
    assert ["SET"] + ([k] + [v]) == ["SET", k, v];
    var a, b, set3 := Bulk(k, "\n"), Bulk(v, "\n"), Bulk("SET", "\n");
    SetBulk();
    Regroup("*3\n", set3, a, b);
  }

  lemma {:induction false} SenderIsSet(sender: string)
    ensures RedisSender(sender) == RedisSet("SENDER", sender)
  {
    assert Decimal(6) == "6";
    assert Bulk("SENDER", "\n") == "$6\nSENDER\n";
    assert "*3\n$3\nSET\n" + "$6\nSENDER\n" == "*3\n$3\nSET\n$6\nSENDER\n";
  }

  lemma {:induction false} GetIsArray(k: string)
    ensures RedisGet(k) == RespArray(["GET", k], "\n")
  {
    BulksOne(k, "\n");
    BulksCons("GET", [k], "\n");
    assert ["GET"] + [k] == ["GET", k];
    assert Decimal(2) == "2" && Decimal(3) == "3";
    assert Bulk("GET", "\n") == "$3\nGET\n";
    Regroup("*2\n", "$3\nGET\n", Bulk(k, "\n"), "");
    assert "*2\n" + "$3\nGET\n" == "*2\n$3\nGET\n";
  }

  lemma {:induction false} HsetBulks()
    ensures Bulk("HSET", "\r\n") == "$4\r\nHSET\r\n" && Bulk("VALUE", "\r\n") == "$5\r\nVALUE\r\n"
    ensures "*" + Decimal(4) + "\r\n" == "*4\r\n"
    ensures "*4\r\n" + "$4\r\nHSET\r\n" == "*4\r\n$4\r\nHSET\r\n"
  {
    assert Decimal(4) == "4" && Decimal(5) == "5";
  }

  lemma {:induction false} HsetIsArray(k: string, v: string)
    ensures RedisHset(k, v) == RespArray(["HSET", k, "VALUE", v], "\r\n")
  {
    var e := "\r\n";
    BulksOne(v, e);
    BulksCons("VALUE", [v], e);
    BulksCons(k, ["VALUE"] + [v], e);
    BulksCons("HSET", [k] + (["VALUE"] + [v]), e);
    assert ["HSET"] + ([k] + (["VALUE"] + [v])) == ["HSET", k, "VALUE", v];
    HsetBulks();
    Regroup("*4\r\n", "$4\r\nHSET\r\n", Bulk(k, e), "$5\r\nVALUE\r\n" + Bulk(v, e));
  }

  // ----- a stream of requests splits in one way -----

  datatype Frame =
    | SetFrame(key: string, value: string)
    | HsetFrame(key: string, value: string)
    | GetFrame(key: string)
    | SubFrame(key: string)

  /** A SENDER request is the SetFrame of the key SENDER. */
  function Encode(f: Frame): string {
    match f
    case SetFrame(k, v) => RedisSet(k, v)
    case HsetFrame(k, v) => RedisHset(k, v)
    case GetFrame(k) => RedisGet(k)
    case SubFrame(k) => RedisSub(k)
  }

  function EncodeAll(fs: seq<Frame>): string {
    if fs == [] then "" else Encode(fs[0]) + EncodeAll(fs[1..])
  }

  /** A line end, or what no number runs into. */
  predicate LineEnd(eol: string) { eol == "\n" || eol == "\r\n" }

  lemma {:induction false} LengthCancels(m: nat, n: nat, eol: string, p: string, q: string)
    requires LineEnd(eol) && Decimal(m) + eol + p == Decimal(n) + eol + q
    ensures m == n && p == q
  {
    var a, b := Decimal(m), Decimal(n);
    var s := a + eol + p;
    assert s[..|a|] == a && s[|a|] == eol[0] && s[|a| + |eol|..] == p;
    assert s == b + eol + q && s[..|b|] == b && s[|b|] == eol[0] && s[|b| + |eol|..] == q;
    assert Avoids(a, {eol[0]}) && Avoids(b, {eol[0]});
    SpanIs(s, {eol[0]}, |a|);
    SpanIs(s, {eol[0]}, |b|);
    DecimalRead(m);
    DecimalRead(n);
  }

  lemma {:induction false} TextCancels(x: string, y: string, eol: string, p: string, q: string)
    requires |x| == |y| && x + eol + p == y + eol + q
    ensures x == y && p == q
  {
    var s := x + eol + p;
    assert s[..|x|] == x && s[|x| + |eol|..] == p;
    assert s == y + eol + q && s[..|y|] == y && s[|y| + |eol|..] == q;
  }

  lemma {:induction false} Tail(c: char, p: string, q: string)
    requires [c] + p == [c] + q
    ensures p == q
  {
    assert ([c] + p)[1..] == p && ([c] + q)[1..] == q;
  }

  lemma {:induction false} BulkParts(x: string, eol: string, p: string)
    ensures Bulk(x, eol) + p == "$" + (Decimal(|x|) + eol + (x + eol + p))
  {
  }

  lemma {:induction false} BulkCancels(x: string, y: string, eol: string, p: string, q: string)
    requires LineEnd(eol) && Bulk(x, eol) + p == Bulk(y, eol) + q
    ensures x == y && p == q
  {
    BulkParts(x, eol, p);
    BulkParts(y, eol, q);
    Tail('$', Decimal(|x|) + eol + (x + eol + p), Decimal(|y|) + eol + (y + eol + q));
    LengthCancels(|x|, |y|, eol, x + eol + p, y + eol + q);
    TextCancels(x, y, eol, p, q);
  }

  /** An encoding is its fixed head, its key and the rest: a fixed text and a value. */
  function Head(f: Frame): string {
    match f
    case SetFrame(_, _) => "*3\n$3\nSET\n"
    case HsetFrame(_, _) => "*4\r\n$4\r\nHSET\r\n"
    case GetFrame(_) => "*2\n$3\nGET\n"
    case SubFrame(_) => "*2\n$3\nSUBSCRIBE\n"
  }

  function Eol(f: Frame): string { if f.HsetFrame? then "\r\n" else "\n" }

  function Rest(f: Frame, p: string): string {
    match f
    case SetFrame(_, v) => Bulk(v, "\n") + p
    case HsetFrame(_, v) => "$5\r\nVALUE\r\n" + (Bulk(v, "\r\n") + p)
    case _ => p
  }

  lemma {:induction false} Regroup4(h: string, a: string, m: string, b: string, p: string)
    ensures (h + a + m + b) + p == h + (a + (m + (b + p)))
  {
  }

  lemma {:induction false} EncodeParts(f: Frame, p: string)
    ensures Encode(f) + p == Head(f) + (Bulk(f.key, Eol(f)) + Rest(f, p))
  {
    var a, m := Bulk(f.key, Eol(f)), if f.HsetFrame? then "$5\r\nVALUE\r\n" else "";
    var b := if f.SetFrame? || f.HsetFrame? then Bulk(f.value, Eol(f)) else "";
    Regroup4(Head(f), a, m, b, p);
    assert "" + p == p && "" + (b + p) == b + p;
    assert Head(f) + a + "" == Head(f) + a;
  }

  lemma {:induction false} HeadCancels(f: Frame, g: Frame, p: string, q: string)
    requires Head(f) + p == Head(g) + q
    ensures p == q && f.SetFrame? == g.SetFrame? && f.GetFrame? == g.GetFrame? && f.HsetFrame? == g.HsetFrame?
  {
    var s := Head(f) + p;
    assert s[1] == Head(f)[1] && s[7] == Head(f)[7];
    assert s[1] == Head(g)[1] && s[7] == Head(g)[7];
    assert s[|Head(f)|..] == p && s[|Head(g)|..] == q;
  }

  lemma {:induction false} RestCancels(f: Frame, g: Frame, p: string, q: string)
    requires f.SetFrame? == g.SetFrame? && f.GetFrame? == g.GetFrame? && f.HsetFrame? == g.HsetFrame?
    requires f.key == g.key && Rest(f, p) == Rest(g, q)
    ensures f == g && p == q
  {
    if f.SetFrame? {
      BulkCancels(f.value, g.value, "\n", p, q);
    } else if f.HsetFrame? {
      var m := "$5\r\nVALUE\r\n";
      assert (m + (Bulk(f.value, "\r\n") + p))[|m|..] == Bulk(f.value, "\r\n") + p;
      assert (m + (Bulk(g.value, "\r\n") + q))[|m|..] == Bulk(g.value, "\r\n") + q;
      BulkCancels(f.value, g.value, "\r\n", p, q);
    }
  }

  /** No encoding is a proper prefix of another, nor two the same: whatever follows, the first
      request of a stream is fixed. */
  lemma {:induction false} PrefixFree(f: Frame, g: Frame, p: string, q: string)
    requires Encode(f) + p == Encode(g) + q
    ensures f == g && p == q
  {
    EncodeParts(f, p);
    EncodeParts(g, q);
    HeadCancels(f, g, Bulk(f.key, Eol(f)) + Rest(f, p), Bulk(g.key, Eol(g)) + Rest(g, q));
    BulkCancels(f.key, g.key, Eol(f), Rest(f, p), Rest(g, q));
    RestCancels(f, g, p, q);
  }

  lemma {:induction false} SomethingWritten(f: Frame, p: string)
    ensures Encode(f) + p != ""
  {
    EncodeParts(f, p);
  }

  /** A concatenation of requests, of any keys and values, splits in one way only. */
  lemma {:induction false} UniqueDecoding(fs: seq<Frame>, gs: seq<Frame>)
    requires EncodeAll(fs) == EncodeAll(gs)
    ensures fs == gs
  {
    if fs != [] && gs != [] {
      PrefixFree(fs[0], gs[0], EncodeAll(fs[1..]), EncodeAll(gs[1..]));
      UniqueDecoding(fs[1..], gs[1..]);
      assert fs == [fs[0]] + fs[1..] && gs == [gs[0]] + gs[1..];
    } else if fs != [] {
      SomethingWritten(fs[0], EncodeAll(fs[1..]));
    } else if gs != [] {
      SomethingWritten(gs[0], EncodeAll(gs[1..]));
    }
  }

  // ----- what is not well-formed -----

  lemma {:induction false} ArrayParts(xs: seq<string>, eol: string)
    ensures RespArray(xs, eol) == "*" + (Decimal(|xs|) + eol + Bulks(xs, eol))
  {
  }

  lemma {:induction false} BulksParts(xs: seq<string>, eol: string)
    requires xs != []
    ensures Bulks(xs, eol) == "$" + (Decimal(|xs[0]|) + eol + (xs[0] + eol + Bulks(xs[1..], eol)))
  {
  }

  lemma {:induction false} ThreeLetters(x: string, p: string, q: string)
    requires |x| == 3
    ensures "SUBSCRIBE\n" + p != x + "\n" + q
  {
    assert ("SUBSCRIBE\n" + p)[3] == 'S' && (x + "\n" + q)[3] == '\n';
  }

  lemma {:induction false} SubParts(k: string)
    ensures RedisSub(k) == "*" + (Decimal(2) + "\n" + ("$" + (Decimal(3) + "\n" + ("SUBSCRIBE\n" + Bulk(k, "\n")))))
  {
    assert Decimal(2) == "2" && Decimal(3) == "3";
    assert "*2\n$3\nSUBSCRIBE\n" == "*" + "2" + "\n" + "$" + "3" + "\n" + "SUBSCRIBE\n";
  }

  /** A subscribe request is no array of bulk strings, whatever its elements: its length field says 3
      before a word of nine letters. */
  lemma {:induction false} SubIsNotArray(k: string, xs: seq<string>)
    ensures RedisSub(k) != RespArray(xs, "\n")
  {
    if RedisSub(k) == RespArray(xs, "\n") {
      var word := "SUBSCRIBE\n" + Bulk(k, "\n");
      SubParts(k);
      ArrayParts(xs, "\n");
      Tail('*', Decimal(2) + "\n" + ("$" + (Decimal(3) + "\n" + word)), Decimal(|xs|) + "\n" + Bulks(xs, "\n"));
      LengthCancels(2, |xs|, "\n", "$" + (Decimal(3) + "\n" + word), Bulks(xs, "\n"));
      var first := xs[0] + "\n" + Bulks(xs[1..], "\n");
      BulksParts(xs, "\n");
      Tail('$', Decimal(3) + "\n" + word, Decimal(|xs[0]|) + "\n" + first);
      LengthCancels(3, |xs[0]|, "\n", word, first);
      ThreeLetters(xs[0], Bulk(k, "\n"), Bulks(xs[1..], "\n"));
    }
  }

  /** The third character of a request with bare newlines, and of each array. */
  lemma {:induction false} BareThird(f: Frame)
    requires !f.HsetFrame?
    ensures |Encode(f)| > 2 && Encode(f)[2] == '\n'
  {
    EncodeParts(f, "");
    assert Encode(f) + "" == Encode(f) && Head(f)[2] == '\n';
  }

  lemma {:induction false} ArrayThird(xs: seq<string>)
    ensures |RespArray(xs, "\r\n")| > 2 && RespArray(xs, "\r\n")[2] != '\n'
  {
    var n := Decimal(|xs|);
    var all := RespArray(xs, "\r\n");
    assert all == "*" + n + ("\r\n" + Bulks(xs, "\r\n"));
    assert all[2] == if |n| > 1 then n[1] else '\r';
  }

  /** A request is some array of the protocol, whose lines end in a carriage return and a newline,
      exactly if it is an HSET request. */
  lemma {:induction false} WellFormedIff(f: Frame)
    ensures (exists xs :: Encode(f) == RespArray(xs, "\r\n")) <==> f.HsetFrame?
  {
    if f.HsetFrame? {
      HsetIsArray(f.key, f.value);
    } else {
      BareThird(f);
      forall xs ensures Encode(f) != RespArray(xs, "\r\n") { ArrayThird(xs); }
    }
  }
}
