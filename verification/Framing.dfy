/** enqueue_output of interactive_controller.py: bytes read one at a time, queued in chunks that end
    at a newline or at the prompt. */
module Framing {

  type Byte = b: int | 0 <= b < 256

  type Bytes = seq<Byte>

  const NEWLINE: Byte := 10

  /** b'toSpread>' */
  const PROMPT: Bytes := [116, 111, 83, 112, 114, 101, 97, 100, 62]

  predicate EndsWith(s: Bytes, p: Bytes) {
    |p| <= |s| && s[|s| - |p|..] == p
  }

  /** A buffer is queued as soon as its last byte is a newline or completes the prompt. */
  predicate Ends(s: Bytes) {
    s != [] && (s[|s| - 1] == NEWLINE || EndsWith(s, PROMPT))
  }

  function Concat(chunks: seq<Bytes>): Bytes {
    if chunks == [] then [] else Concat(chunks[..|chunks| - 1]) + chunks[|chunks| - 1]
  }

  /** A chunk ends where it first can. */
  ghost predicate EndsFirst(c: Bytes) {
    Ends(c) && forall n :: 0 < n < |c| ==> !Ends(c[..n])
  }

  /** What may be left over at the end of the stream: no place to end in it. */
  ghost predicate Leftover(c: Bytes) {
    c != [] && forall n :: 0 < n <= |c| ==> !Ends(c[..n])
  }

  /** Every chunk ends at the first newline or prompt end within it, the last one may be a
      leftover. */
  ghost predicate Canonical(chunks: seq<Bytes>) {
    forall i :: 0 <= i < |chunks| ==>
      EndsFirst(chunks[i]) || (i == |chunks| - 1 && Leftover(chunks[i]))
  }

  /** The number of bytes handled before a stop is seen; the byte just read then is dropped. */
  function Handled(stopped: seq<bool>): nat {
    if stopped == [] || stopped[0] then 0 else 1 + Handled(stopped[1..])
  }

  lemma {:induction false} OneMore(buffer: Bytes, b: Byte)
    requires buffer == [] || Leftover(buffer)
    ensures if Ends(buffer + [b]) then EndsFirst(buffer + [b]) else Leftover(buffer + [b])
  {
    var more := buffer + [b];
    assert forall n :: 0 < n < |more| ==> more[..n] == buffer[..n];
    assert more[..|more|] == more;
  }

  function Put(queue: seq<Bytes>, chunk: Bytes): (r: seq<Bytes>)
    ensures Concat(r) == Concat(queue) + chunk && r == queue + [chunk]
  {
    assert (queue + [chunk])[..|queue|] == queue;
    queue + [chunk]
  }

  /** One byte: appended to the buffer, which is queued when it ends. */
  method Accept(queue: seq<Bytes>, buffer: Bytes, b: Byte) returns (q: seq<Bytes>, rest: Bytes)
    requires forall k :: 0 <= k < |queue| ==> EndsFirst(queue[k])
    requires buffer == [] || Leftover(buffer)
    ensures Concat(q) + rest == Concat(queue) + buffer + [b]
    ensures forall k :: 0 <= k < |q| ==> EndsFirst(q[k])
    ensures rest == [] || Leftover(rest)
  {
    OneMore(buffer, b);
    q, rest := queue, buffer + [b];
    if b == NEWLINE {
      q, rest := Put(q, rest), [];
    } else if EndsWith(rest, PROMPT) {
      q, rest := Put(q, rest), [];
    }
  }

  lemma {:induction false} HandledAtMost(stopped: seq<bool>)
    ensures Handled(stopped) <= |stopped|
  {
    if stopped == [] || stopped[0] {
    } else {
      HandledAtMost(stopped[1..]);
    }
  }

  /** stopped[k] is whether stop_event is set when byte k has been read. */
  method EnqueueOutput(stream: Bytes, stopped: seq<bool>) returns (queue: seq<Bytes>)
    requires |stopped| == |stream|
    ensures Handled(stopped) <= |stream|
    ensures Concat(queue) == stream[..Handled(stopped)] && Canonical(queue)
  {
    queue := [];
    var buffer: Bytes := [];
    var i := 0;
    while i < |stream|
      invariant 0 <= i <= |stream| && Handled(stopped) == i + Handled(stopped[i..])
      invariant Concat(queue) + buffer == stream[..i]
      invariant forall k :: 0 <= k < |queue| ==> EndsFirst(queue[k])
      invariant buffer == [] || Leftover(buffer)
    {
      if stopped[i] { break; }
      assert stopped[i..][1..] == stopped[i + 1..];
      assert stream[..i + 1] == stream[..i] + [stream[i]];
      queue, buffer := Accept(queue, buffer, stream[i]);
      i := i + 1;
    }
    HandledAtMost(stopped);
    if buffer != [] {
      queue := Put(queue, buffer);
    }
  }

  /** Not stopped, nothing is lost. */
  lemma {:induction false} HandledAll(stopped: seq<bool>)
    ensures Handled(stopped) == |stopped| <==> forall k :: 0 <= k < |stopped| ==> !stopped[k]
  {
    HandledAtMost(stopped);
    if stopped != [] {
      HandledAll(stopped[1..]);
      HandledAtMost(stopped[1..]);
      assert forall k :: 0 < k < |stopped| ==> stopped[k] == stopped[1..][k - 1];
    }
  }

  // ----- there is only one such chunking -----

  lemma {:induction false} ConcatFront(chunks: seq<Bytes>)
    requires chunks != []
    ensures Concat(chunks) == chunks[0] + Concat(chunks[1..])
  {
    if |chunks| == 1 {
    } else {
      var front, rest, last := chunks[..|chunks| - 1], chunks[1..], chunks[|chunks| - 1];
      ConcatFront(front);
      assert front[1..] == rest[..|rest| - 1] && rest[|rest| - 1] == last && front[0] == chunks[0];
      assert Concat(chunks) == (chunks[0] + Concat(front[1..])) + last;
      assert Concat(rest) == Concat(front[1..]) + last;
    }
  }

  lemma {:induction false} NotShorter(a: seq<Bytes>, b: seq<Bytes>)
    requires Canonical(a) && Canonical(b) && Concat(a) == Concat(b) && a != [] && b != []
    ensures |a[0]| >= |b[0]|
  {
    ConcatFront(a);
    ConcatFront(b);
    var n, s := |a[0]|, Concat(a);
    assert s[..n] == a[0] == a[0][..n];
    assert forall m :: 0 <= m <= |b[0]| ==> b[0][..m] == s[..m];
    assert !Ends(a[0]) ==> |a| == 1 && a[1..] == [];
  }

  /** The first chunk is fixed by the bytes: a longer one would hold an earlier end. */
  lemma {:induction false} SameFirst(a: seq<Bytes>, b: seq<Bytes>)
    requires Canonical(a) && Canonical(b) && Concat(a) == Concat(b) && a != [] && b != []
    ensures a[0] == b[0]
  {
    ConcatFront(a);
    ConcatFront(b);
    var s := Concat(a);
    assert a[0] == s[..|a[0]|] && b[0] == s[..|b[0]|];
    if |a[0]| < |b[0]| {
      NotShorter(a, b);
    } else if |b[0]| < |a[0]| {
      NotShorter(b, a);
    }
  }

  /** Two canonical chunkings of the same bytes are the same. */
  lemma {:induction false} OnlyChunking(a: seq<Bytes>, b: seq<Bytes>)
    requires Canonical(a) && Canonical(b) && Concat(a) == Concat(b)
    ensures a == b
  {
    if a != [] { ConcatFront(a); }
    if b != [] { ConcatFront(b); }
    if a != [] && b != [] {
      SameFirst(a, b);
      var s := Concat(a);
      assert s[|a[0]|..] == Concat(a[1..]) && s[|b[0]|..] == Concat(b[1..]);
      assert Canonical(a[1..]) && Canonical(b[1..]);
      OnlyChunking(a[1..], b[1..]);
      assert a == [a[0]] + a[1..] && b == [b[0]] + b[1..];
    }
  }

  // ----- where a chunk ends, in characters -----

  function Ascii(s: string): Bytes
    requires forall i :: 0 <= i < |s| ==> s[i] < 128 as char
  {
    seq(|s|, i requires 0 <= i < |s| => s[i] as int)
  }

  lemma {:induction false} EndsIff(s: Bytes)
    ensures Ends(s) <==> exists before :: s == before + Ascii("\n") || s == before + Ascii("toSpread>")
  {
    var newline, prompt := Ascii("\n"), Ascii("toSpread>");
    assert newline == [NEWLINE] && prompt == PROMPT;
    if Ends(s) {
      if s[|s| - 1] == NEWLINE {
        assert s == s[..|s| - 1] + newline;
      } else {
        assert s == s[..|s| - |PROMPT|] + prompt;
      }
    }
  }
}
