/** The C library's string routines as the daemons use them, on NUL-free strings. */
module CString {

  datatype Option<+T> = None | Some(value: T)

  const BUFFSIZE: nat := 255

  /** No character of x is in d. */
  predicate Avoids(x: string, d: set<char>) {
    forall i :: 0 <= i < |x| ==> x[i] !in d
  }

  /** The part of s after its leading delimiters. */
  function SkipDelims(s: string, d: set<char>): (r: string)
    ensures |r| <= |s|
  {
    if s != "" && s[0] in d then SkipDelims(s[1..], d) else s
  }

  /** Length of the longest prefix of s without a delimiter. */
  function Span(s: string, d: set<char>): (n: nat)
    ensures n <= |s|
  {
    if s == "" || s[0] in d then 0 else 1 + Span(s[1..], d)
  }

  lemma {:induction false} SpanProps(s: string, d: set<char>)
    ensures Avoids(s[..Span(s, d)], d)
    ensures Span(s, d) < |s| ==> s[Span(s, d)] in d
  {
    if s == "" || s[0] in d {
    } else {
      SpanProps(s[1..], d);
      assert s[..Span(s, d)] == [s[0]] + s[1..][..Span(s[1..], d)];
    }
  }

  /** strtok: the next token and what a further strtok(NULL, ...) continues from. */
  function StrTok(s: string, d: set<char>): (r: (Option<string>, string))
  {
    var a := SkipDelims(s, d);
    if a == "" then (None, "") else
      var n := Span(a, d);
      (Some(a[..n]), if n < |a| then a[n + 1..] else "")
  }

  lemma {:induction false} SpanIs(s: string, d: set<char>, n: nat)
    requires n <= |s| && Avoids(s[..n], d)
    requires n < |s| ==> s[n] in d
    ensures Span(s, d) == n
  {
    if n == 0 {
    } else {
      assert s[..n][0] == s[0];
      assert s[1..][..n - 1] == s[..n][1..];
      SpanIs(s[1..], d, n - 1);
    }
  }

  lemma {:induction false} SpanAtMost(s: string, d: set<char>, j: nat)
    requires j < |s| && s[j] in d
    ensures Span(s, d) <= j
  {
    if j == 0 || s[0] in d {
    } else {
      SpanAtMost(s[1..], d, j - 1);
    }
  }

  /** A token followed by a delimiter, or by nothing, is what strtok returns. */
  lemma {:induction false} StrTokHead(x: string, e: char, y: string, d: set<char>)
    requires x != "" && Avoids(x, d) && e in d
    ensures StrTok(x, d) == (Some(x), "")
    ensures StrTok(x + [e] + y, d) == (Some(x), y)
  {
    var s := x + [e] + y;
    assert x[..|x|] == x && s[..|x|] == x && s[|x| + 1..] == y;
    SpanIs(x, d, |x|);
    SpanIs(s, d, |x|);
    assert s[0] == x[0];
  }

  /** strtok never returns an empty token or one that holds a delimiter. */
  lemma {:induction false} SkipDelimsHead(s: string, d: set<char>)
    ensures |SkipDelims(s, d)| <= |s|
    ensures SkipDelims(s, d) != "" ==> SkipDelims(s, d)[0] !in d
  {
    if s == "" || s[0] !in d {
    } else {
      SkipDelimsHead(s[1..], d);
    }
  }

  lemma {:induction false} StrTokShape(s: string, d: set<char>)
    ensures StrTok(s, d).0.Some? ==> StrTok(s, d).0.value != "" && Avoids(StrTok(s, d).0.value, d)
    ensures StrTok(s, d).0.Some? ==> |StrTok(s, d).0.value| <= |s|
    ensures |StrTok(s, d).1| <= |s|
  {
    SkipDelimsHead(s, d);
    SpanProps(SkipDelims(s, d), d);
  }

  /** fgets(buffer, BUFFSIZE, fp): the next line with its newline, cut at BUFFSIZE - 1 characters. */
  function Fgets(s: string): (r: (string, string))
    ensures s == r.0 + r.1 && |r.0| <= 254
    ensures s != "" ==> r.0 != ""
  {
    var n := Span(s, {'\n'});
    var k := if n < |s| then n + 1 else n;
    var m := if k < BUFFSIZE - 1 then k else BUFFSIZE - 1;
    (s[..m], s[m..])
  }

  lemma {:induction false} FgetsLine(line: string, rest: string)
    requires Avoids(line, {'\n'}) && |line| < BUFFSIZE - 1
    ensures Fgets(line + "\n" + rest) == (line + "\n", rest)
  {
    var s := line + "\n" + rest;
    assert s[..|line|] == line;
    SpanIs(s, {'\n'}, |line|);
    assert s[..|line| + 1] == line + "\n" && s[|line| + 1..] == rest;
  }

  /** The lines fgets cuts a file into. */
  function FileLines(text: string): seq<string>
    decreases |text|
  {
    if text == "" then [] else [Fgets(text).0] + FileLines(Fgets(text).1)
  }

  /** strncpy into a buffer of BUFFSIZE, then terminated. */
  function Truncate(s: string): (r: string)
    ensures |s| < BUFFSIZE ==> r == s
    ensures |r| <= 254 && r <= s
    ensures |s| > 254 ==> |r| == 254
  {
    if |s| < BUFFSIZE then s else s[..BUFFSIZE - 1]
  }

  predicate IsDigit(c: char) { '0' <= c <= '9' }

  function Digit(n: nat): char
    requires n < 10
  {
    ("0123456789")[n]
  }

  function DigitValue(c: char): (n: nat)
    requires IsDigit(c)
    ensures n < 10 && Digit(n) == c
  {
    c as int - '0' as int
  }

  /** printf's %d on a natural number. */
  function Decimal(n: nat): (s: string)
    ensures s != "" && forall i :: 0 <= i < |s| ==> IsDigit(s[i])
  {
    if n < 10 then [Digit(n)] else Decimal(n / 10) + [Digit(n % 10)]
  }

  /** Value of a run of digits read left to right, continuing from acc. */
  function ReadDigits(s: string, acc: nat): nat {
    if s != "" && IsDigit(s[0]) then ReadDigits(s[1..], 10 * acc + DigitValue(s[0])) else acc
  }

  predicate IsSpace(c: char) { c == ' ' || '\t' <= c <= '\r' }

  function SkipSpaces(s: string): string {
    if s != "" && IsSpace(s[0]) then SkipSpaces(s[1..]) else s
  }

  /** atoi, on values within the range of int. */
  function Atoi(s: string): int {
    var a := SkipSpaces(s);
    if a != "" && a[0] == '-' then 0 - ReadDigits(a[1..], 0)
    else if a != "" && a[0] == '+' then ReadDigits(a[1..], 0)
    else ReadDigits(a, 0)
  }

  lemma {:induction false} ReadDigitsAppend(s: string, t: string, acc: nat)
    requires forall i :: 0 <= i < |s| ==> IsDigit(s[i])
    ensures ReadDigits(s + t, acc) == ReadDigits(t, ReadDigits(s, acc))
  {
    if s == "" {
      assert s + t == t;
    } else {
      assert (s + t)[1..] == s[1..] + t;
      ReadDigitsAppend(s[1..], t, 10 * acc + DigitValue(s[0]));
    }
  }

  lemma {:induction false} DecimalRead(n: nat)
    ensures ReadDigits(Decimal(n), 0) == n
  {
    if n < 10 {
    } else {
      DecimalRead(n / 10);
      ReadDigitsAppend(Decimal(n / 10), [Digit(n % 10)], 0);
      assert ReadDigits([Digit(n % 10)], n / 10) == 10 * (n / 10) + n % 10;
    }
  }

  /** atoi reads back what %d printed, whatever non-digit follows. */
  lemma {:induction false} AtoiDecimal(n: nat, rest: string)
    requires rest != "" ==> !IsDigit(rest[0])
    ensures Atoi(Decimal(n) + rest) == n
  {
    DecimalRead(n);
    ReadDigitsAppend(Decimal(n), rest, 0);
    assert IsDigit(Decimal(n)[0]);
    assert (Decimal(n) + rest)[0] == Decimal(n)[0];
  }
}
