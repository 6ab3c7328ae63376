/** processFormat of connectToSpread.c: a template with $K and $V expanded into a fixed buffer. */
module Template {
  import opened CString

  /** $K becomes the key, $V the value; any other $ is dropped. */
  function Expand(fmt: string, key: string, value: string): string {
    if fmt == "" then ""
    else if fmt[0] != '$' then [fmt[0]] + Expand(fmt[1..], key, value)
    else if |fmt| > 1 && fmt[1] == 'K' then key + Expand(fmt[2..], key, value)
    else if |fmt| > 1 && fmt[1] == 'V' then value + Expand(fmt[2..], key, value)
    else Expand(fmt[1..], key, value)
  }

  /** The buffer holds s, then only zeros. */
  ghost predicate Filled(res: array<char>, s: string)
    reads res
  {
    |s| <= res.Length && res[..|s|] == s && forall k :: |s| <= k < res.Length ==> res[k] == '\0'
  }

  /** sprintf(&res[j], "%s", text): the text and a terminating zero. */
  method Sprintf(res: array<char>, j: nat, text: string)
    requires j + |text| < res.Length
    modifies res
    ensures res[..] == old(res[..j]) + text + ['\0'] + old(res[j + |text| + 1..])
  {
    var i := 0;
    while i < |text|
      invariant 0 <= i <= |text|
      invariant res[j..j + i] == text[..i]
      invariant forall k :: 0 <= k < j || j + i <= k < res.Length ==> res[k] == old(res[k])
    {
      res[j + i] := text[i];
      i := i + 1;
    }
    res[j + i] := '\0';
  }

  method PutChar(res: array<char>, j: nat, c: char, ghost done: string)
    requires Filled(res, done) && j == |done| < res.Length
    modifies res
    ensures Filled(res, done + [c])
  {
    res[j] := c;
  }

  /** Appending a text to a filled buffer keeps it filled. */
  method Put(res: array<char>, j: nat, text: string, ghost done: string)
    requires Filled(res, done) && j == |done| && j + |text| < res.Length
    modifies res
    ensures Filled(res, done + text)
  {
    Sprintf(res, j, text);
  }

  /** What the rest of a template brings next: a text, and how far it moves on. */
  function Piece(rest: string, key: string, value: string): (string, nat)
    requires rest != ""
  {
    if rest[0] != '$' then ([rest[0]], 1)
    else if |rest| > 1 && rest[1] == 'K' then (key, 2)
    else if |rest| > 1 && rest[1] == 'V' then (value, 2)
    else ("", 1)
  }

  lemma {:induction false} NextPiece(rest: string, key: string, value: string)
    requires rest != ""
    ensures var (text, n) := Piece(rest, key, value);
            n <= |rest| && Expand(rest, key, value) == text + Expand(rest[n..], key, value)
  {
    if rest[0] == '$' && Piece(rest, key, value).1 == 1 {
      assert "" + Expand(rest[1..], key, value) == Expand(rest, key, value);
    }
  }

  /** The branches of the loop's body: rest is fmt from i on. */
  method PutPiece(res: array<char>, j: nat, i: nat, fmt: string, key: string, value: string,
        ghost rest: string, ghost done: string) returns (j': nat, i': nat)
    requires i < |fmt| && rest == fmt[i..]
    requires Filled(res, done) && j == |done| && j + |Piece(rest, key, value).0| < res.Length
    modifies res
    ensures Filled(res, done + Piece(rest, key, value).0)
    ensures j' == j + |Piece(rest, key, value).0| && i' == i + Piece(rest, key, value).1
  {
    assert rest[0] == fmt[i] && (|rest| > 1 ==> rest[1] == fmt[i + 1]);
    j', i' := j, i;
    if fmt[i] != '$' {
      PutChar(res, j, fmt[i], done);
      j' := j + 1;
    } else if i + 1 < |fmt| && (fmt[i + 1] == 'K' || fmt[i + 1] == 'V') {
      var text := if fmt[i + 1] == 'K' then key else value;
      Put(res, j, text, done);
      j' := j + |text|;
      i' := i + 1;
    } else {
      assert done + "" == done;
    }
    i' := i' + 1;
  }

  /** One turn of the loop on the way to all. */
  method FillStep(res: array<char>, j: nat, i: nat, fmt: string, key: string, value: string,
        ghost all: string, ghost done: string) returns (j': nat, i': nat, ghost now: string)
    requires i < |fmt| && j == |done| && Filled(res, done)
    requires |all| < res.Length && all == done + Expand(fmt[i..], key, value)
    modifies res
    ensures i < i' <= |fmt| && j' == |now| && Filled(res, now)
    ensures all == now + Expand(fmt[i'..], key, value)
  {
    ghost var rest := fmt[i..];
    ghost var (text, n) := Piece(rest, key, value);
    NextPiece(rest, key, value);
    assert rest[n..] == fmt[i + n..];
    now := done + text;
    j', i' := PutPiece(res, j, i, fmt, key, value, rest, done);
  }

  method FillBuffer(res: array<char>, key: string, value: string, fmt: string) returns (j: nat)
    requires |Expand(fmt, key, value)| < res.Length && Filled(res, "")
    modifies res
    ensures j == |Expand(fmt, key, value)| && Filled(res, Expand(fmt, key, value))
  {
    ghost var all, done := Expand(fmt, key, value), "";
    var i := 0;
    j := 0;
    while i < |fmt|
      invariant 0 <= i <= |fmt| && j == |done| && Filled(res, done)
      invariant all == done + Expand(fmt[i..], key, value)
    {
      j, i, done := FillStep(res, j, i, fmt, key, value, all, done);
    }
  }

  /** addCr is the ADD_CR setting. The result must fit with its newline and terminator. */
  method ProcessFormat(res: array<char>, key: string, value: string, fmt: string, addCr: bool)
    requires res.Length == BUFFSIZE
    requires |Expand(fmt, key, value)| + (if addCr then 1 else 0) < BUFFSIZE
    modifies res
    ensures Filled(res, Expand(fmt, key, value) + (if addCr then "\n" else ""))
  {
    forall k | 0 <= k < res.Length { res[k] := '\0'; }
    var j := FillBuffer(res, key, value, fmt);
    if addCr {
      Put(res, j, "\n", Expand(fmt, key, value));
    }
  }

  // ----- length by counting -----

  function Dollars(fmt: string): nat {
    if fmt == "" then 0 else (if fmt[0] == '$' then 1 else 0) + Dollars(fmt[1..])
  }

  /** Places where a $ is directly followed by c. */
  function Marks(fmt: string, c: char): nat {
    if |fmt| < 2 then 0 else (if fmt[0] == '$' && fmt[1] == c then 1 else 0) + Marks(fmt[1..], c)
  }

  /** n for each such place. */
  function Brought(fmt: string, c: char, n: nat): nat {
    if |fmt| < 2 then 0 else (if fmt[0] == '$' && fmt[1] == c then n else 0) + Brought(fmt[1..], c, n)
  }

  lemma {:induction false} BroughtIsProduct(fmt: string, c: char, n: nat)
    ensures Brought(fmt, c, n) == Marks(fmt, c) * n
  {
    if |fmt| < 2 {
    } else {
      BroughtIsProduct(fmt[1..], c, n);
    }
  }

  lemma {:induction false} SkipLetter(fmt: string, c: char, n: nat)
    requires |fmt| > 1 && fmt[1] != '$'
    ensures Brought(fmt, c, n) == (if fmt[0] == '$' && fmt[1] == c then n else 0) + Brought(fmt[2..], c, n)
    ensures Marks(fmt, c) == (if fmt[0] == '$' && fmt[1] == c then 1 else 0) + Marks(fmt[2..], c)
  {
    assert fmt[1..][1..] == fmt[2..];
  }

  lemma {:induction false} ExpandCount(fmt: string, key: string, value: string)
    ensures |Expand(fmt, key, value)| + Dollars(fmt) + Marks(fmt, 'K') + Marks(fmt, 'V')
         == |fmt| + Brought(fmt, 'K', |key|) + Brought(fmt, 'V', |value|)
  {
    if fmt == "" {
    } else {
      if fmt[0] == '$' && |fmt| > 1 && (fmt[1] == 'K' || fmt[1] == 'V') {
        assert fmt[1..][1..] == fmt[2..];
        assert Dollars(fmt) == 1 + Dollars(fmt[2..]);
        SkipLetter(fmt, 'K', |key|);
        SkipLetter(fmt, 'V', |value|);
        ExpandCount(fmt[2..], key, value);
      } else {
        ExpandCount(fmt[1..], key, value);
      }
    }
  }

  /** The exact length: every $ and every marker letter goes, every marker brings its text. */
  lemma {:induction false} ExpandLength(fmt: string, key: string, value: string)
    ensures |Expand(fmt, key, value)|
         == |fmt| - Dollars(fmt) - Marks(fmt, 'K') - Marks(fmt, 'V')
            + Marks(fmt, 'K') * |key| + Marks(fmt, 'V') * |value|
  {
    ExpandCount(fmt, key, value);
    BroughtIsProduct(fmt, 'K', |key|);
    BroughtIsProduct(fmt, 'V', |value|);
  }

  // ----- concatenation -----

  predicate EndsInDollar(s: string) { s != "" && s[|s| - 1] == '$' }

  /** Cutting the template between a $ and its letter, unless the letter stands for itself. */
  predicate CutsMarker(l: string, r: string, key: string, value: string) {
    EndsInDollar(l) && r != "" && ((r[0] == 'K' && key != "K") || (r[0] == 'V' && value != "V"))
  }

  lemma {:induction false} Cancel(p: string, a: string, b: string, c: string)
    ensures p + a == (p + b) + c <==> a == b + c
  {
    assert (p + b) + c == p + (b + c);
    assert (p + a)[|p|..] == a && (p + (b + c))[|p|..] == b + c;
  }

  lemma {:induction false} CancelRight(a: string, b: string, p: string)
    ensures a + p == b + p <==> a == b
  {
    if a + p == b + p {
      assert |a| == |b| && (a + p)[..|a|] == a && (b + p)[..|b|] == b;
    }
  }

  lemma {:induction false} LastDollar(l: string, r: string, key: string, value: string)
    requires l == "$"
    ensures Expand(l + r, key, value) == Expand(l, key, value) + Expand(r, key, value)
            <==> !CutsMarker(l, r, key, value)
  {
    assert Expand(l, key, value) == "" && (l + r)[1..] == r;
    if r != "" && (r[0] == 'K' || r[0] == 'V') {
      var text := if r[0] == 'K' then key else value;
      var rest := Expand(r[1..], key, value);
      assert (l + r)[2..] == r[1..];
      assert Expand(l + r, key, value) == text + rest && Expand(r, key, value) == [r[0]] + rest;
      CancelRight(text, [r[0]], rest);
    }
  }

  /** A template expands piece by piece exactly when it is not cut inside a marker. */
  lemma {:induction false} ExpandConcatIff(l: string, r: string, key: string, value: string)
    ensures Expand(l + r, key, value) == Expand(l, key, value) + Expand(r, key, value)
            <==> !CutsMarker(l, r, key, value)
    decreases |l|
  {
    var whole := l + r;
    if l == "" {
      assert whole == r;
    } else if l[0] != '$' {
      assert whole[1..] == l[1..] + r;
      ExpandConcatIff(l[1..], r, key, value);
      Cancel([l[0]], Expand(l[1..] + r, key, value), Expand(l[1..], key, value), Expand(r, key, value));
    } else if |l| > 1 && (l[1] == 'K' || l[1] == 'V') {
      assert whole[2..] == l[2..] + r;
      ExpandConcatIff(l[2..], r, key, value);
      Cancel(if l[1] == 'K' then key else value,
             Expand(l[2..] + r, key, value), Expand(l[2..], key, value), Expand(r, key, value));
    } else if |l| > 1 {
      assert whole[1..] == l[1..] + r;
      ExpandConcatIff(l[1..], r, key, value);
    } else {
      LastDollar(l, r, key, value);
    }
  }

  // ----- what is copied, dropped and replaced -----

  /** Text without a $ stands for itself. */
  lemma {:induction false} ExpandPlain(fmt: string, key: string, value: string)
    requires forall i :: 0 <= i < |fmt| ==> fmt[i] != '$'
    ensures Expand(fmt, key, value) == fmt
  {
    if fmt == "" {
    } else {
      ExpandPlain(fmt[1..], key, value);
    }
  }

  /** A marker brings its text, any other $ nothing; together with ExpandPlain and ExpandConcatIff this
      is the expansion of every template. */
  lemma {:induction false} ExpandMarkers(key: string, value: string)
    ensures Expand("$K", key, value) == key && Expand("$V", key, value) == value && Expand("$", key, value) == ""
  {
    assert ("$K")[2..] == "" && ("$V")[2..] == "" && ("$")[1..] == "";
  }
}
