/** The lines of a save file: what a reader of lines gets out of what the printer wrote. */
module TextLines {
  import opened CString
  import opened Symbols

  /** The lines of an entry, without their newlines. */
  function EntryLines(e: Entry): seq<string> {
    if !e.sym.global then [] else [SetLine(e)] + (if e.sym.locked then [LockLine(e)] else [])
  }

  function AllLines(es: seq<Entry>): seq<string> {
    if es == [] then [] else EntryLines(es[0]) + AllLines(es[1..])
  }

  lemma {:induction false} LinesAppend(a: seq<string>, b: seq<string>)
    ensures Lines(a + b) == Lines(a) + Lines(b)
  {
    if a == [] {
      assert a + b == b;
    } else {
      assert (a + b)[1..] == a[1..] + b;
      LinesAppend(a[1..], b);
      assert a[0] + "\n" + (Lines(a[1..]) + Lines(b)) == a[0] + "\n" + Lines(a[1..]) + Lines(b);
    }
  }

  lemma {:induction false} LinesCons(l: string, ls: seq<string>)
    ensures Lines([l] + ls) == l + "\n" + Lines(ls)
  {
    assert ([l] + ls)[1..] == ls;
  }

  lemma {:induction false} LinesOfSeven(ls: seq<string>)
    requires |ls| == 7
    ensures Lines(ls) == ls[0] + "\n" + (ls[1] + "\n" + (ls[2] + "\n" + (ls[3] + "\n" + (ls[4] + "\n"
              + (ls[5] + "\n" + (ls[6] + "\n" + ""))))))
  {
    LinesCons(ls[6], []);
    LinesCons(ls[5], [ls[6]] + []);
    LinesCons(ls[4], ls[5..]);
    LinesCons(ls[3], ls[4..]);
    LinesCons(ls[2], ls[3..]);
    LinesCons(ls[1], ls[2..]);
    LinesCons(ls[0], ls[1..]);
    assert ls[5..] == [ls[5]] + ([ls[6]] + []) && ls[4..] == [ls[4]] + ls[5..] && ls[3..] == [ls[3]] + ls[4..];
    assert ls[2..] == [ls[2]] + ls[3..] && ls[1..] == [ls[1]] + ls[2..] && ls == [ls[0]] + ls[1..];
  }

  lemma {:induction false} RenderIsLines(es: seq<Entry>)
    ensures RenderAll(es) == Lines(AllLines(es))
  {
    if es == [] {
    } else {
      RenderIsLines(es[1..]);
      LinesAppend(EntryLines(es[0]), AllLines(es[1..]));
    }
  }

  predicate OnOneLine(l: string) { Avoids(l, {'\n'}) }

  /** A line whose newline still fits into fgets' buffer. */
  predicate Unsplit(l: string) { OnOneLine(l) && |l| < BUFFSIZE - 1 }

  predicate CommentLine(l: string) { l != "" && l[0] == '#' && Unsplit(l) }

  /** What fgets makes of written lines: each on its own, in pieces when it is too long. */
  function Pieces(ls: seq<string>): seq<string> {
    if ls == [] then [] else FileLines(ls[0] + "\n") + Pieces(ls[1..])
  }

  lemma {:induction false} PiecesAppend(a: seq<string>, b: seq<string>)
    ensures Pieces(a + b) == Pieces(a) + Pieces(b)
  {
    if a == [] {
      assert a + b == b;
    } else {
      assert (a + b)[1..] == a[1..] + b;
      PiecesAppend(a[1..], b);
    }
  }

  lemma {:induction false} ShortLine(l: string)
    requires Unsplit(l)
    ensures FileLines(l + "\n") == [l + "\n"]
  {
    FgetsLine(l, "");
    assert l + "\n" + "" == l + "\n";
  }

  /** fgets fills its buffer before it meets the newline. */
  lemma {:induction false} FgetsFull(l: string, rest: string)
    requires OnOneLine(l) && |l| >= 254
    ensures Fgets(l + "\n" + rest) == (l[..254], l[254..] + "\n" + rest)
  {
    var s := l + "\n" + rest;
    assert s[..|l|] == l && s[|l|] == '\n';
    SpanIs(s, {'\n'}, |l|);
    assert s[..BUFFSIZE - 1] == l[..BUFFSIZE - 1];
    assert s[BUFFSIZE - 1..] == l[BUFFSIZE - 1..] + "\n" + rest;
  }

  lemma {:induction false} FirstPiece(l: string, rest: string)
    requires OnOneLine(l)
    ensures FileLines(l + "\n" + rest)
         == if |l| < BUFFSIZE - 1 then [l + "\n"] + FileLines(rest)
            else [l[..BUFFSIZE - 1]] + FileLines(l[BUFFSIZE - 1..] + "\n" + rest)
  {
    if |l| < BUFFSIZE - 1 { FgetsLine(l, rest); } else { FgetsFull(l, rest); }
  }

  lemma {:induction false} LongLine(l: string)
    requires OnOneLine(l) && BUFFSIZE - 1 <= |l| <= BUFFSIZE
    ensures FileLines(l + "\n") == [l[..BUFFSIZE - 1], l[BUFFSIZE - 1..] + "\n"]
  {
    var head, more := l[..BUFFSIZE - 1], l[BUFFSIZE - 1..];
    FirstPiece(l, "");
    assert l + "\n" + "" == l + "\n" && more + "\n" + "" == more + "\n";
    ShortLine(more);
    assert [head] + [more + "\n"] == [head, more + "\n"];
  }

  lemma {:induction false} Regroup<T>(a: seq<T>, b: seq<T>, c: seq<T>)
    ensures a + (b + c) == (a + b) + c
  {
  }

  /** A newline ends what fgets joins, however long the line. */
  lemma {:induction false} LineApart(l: string, rest: string)
    requires OnOneLine(l)
    ensures FileLines(l + "\n" + rest) == FileLines(l + "\n" + "") + FileLines(rest)
    decreases |l|
  {
    FirstPiece(l, rest);
    FirstPiece(l, "");
    if |l| < BUFFSIZE - 1 {
      assert [l + "\n"] + FileLines("") == [l + "\n"];
    } else {
      LineApart(l[BUFFSIZE - 1..], rest);
      Regroup([l[..BUFFSIZE - 1]], FileLines(l[BUFFSIZE - 1..] + "\n" + ""), FileLines(rest));
    }
  }

  /** Lines are read back as they were written. */
  lemma {:induction false} ReadLines(ls: seq<string>)
    requires forall i :: 0 <= i < |ls| ==> OnOneLine(ls[i])
    ensures FileLines(Lines(ls)) == Pieces(ls)
  {
    if ls == [] {
    } else {
      LineApart(ls[0], Lines(ls[1..]));
      assert ls[0] + "\n" + "" == ls[0] + "\n";
      ReadLines(ls[1..]);
    }
  }

  /** The comment lines both save files share. */
  lemma {:induction false} FixedComments(date: string)
    requires Avoids(date, {'\n'}) && |date| < 200
    ensures CommentLine("#") && CommentLine("# Save Date:" + date)
    ensures CommentLine("# Comments MUST be at the start of a line.")
    ensures CommentLine("# Any comments added will be lost.")
  {
    assert Avoids("# Save Date:", {'\n'});
  }

  // ----- reading a save file with any line parser -----

  function ParseWith<C>(parse: string -> C, ls: seq<string>): seq<C> {
    seq(|ls|, i requires 0 <= i < |ls| => parse(ls[i]))
  }

  function Gather<C>(cmds: Entry -> seq<C>, es: seq<Entry>): seq<C> {
    if es == [] then [] else cmds(es[0]) + Gather(cmds, es[1..])
  }

  function Repeat<C>(c: C, n: nat): seq<C> { seq(n, _ => c) }

  lemma {:induction false} ParseAppend<C>(parse: string -> C, a: seq<string>, b: seq<string>)
    ensures ParseWith(parse, a + b) == ParseWith(parse, a) + ParseWith(parse, b)
  {
  }

  /** What a line stands for when it parses to c and the rest of it, if it is split, to idle. */
  function ReadAs<C>(l: string, c: C, idle: C): seq<C> {
    if |l| < BUFFSIZE - 1 then [c] else [c, idle]
  }

  lemma {:induction false} ShortReads<C>(parse: string -> C, l: string, c: C, idle: C)
    requires Unsplit(l) && ParseWith(parse, [l + "\n"]) == [c]
    ensures ParseWith(parse, FileLines(l + "\n")) == ReadAs(l, c, idle)
  {
    ShortLine(l);
  }

  lemma {:induction false} LongReads<C>(parse: string -> C, l: string, head: string, rest: string, c: C, idle: C)
    requires OnOneLine(l) && BUFFSIZE - 1 <= |l| <= BUFFSIZE
    requires head == l[..BUFFSIZE - 1] && rest == l[BUFFSIZE - 1..] + "\n"
    requires ParseWith(parse, [head]) == [c] && ParseWith(parse, [rest]) == [idle]
    ensures ParseWith(parse, FileLines(l + "\n")) == ReadAs(l, c, idle)
  {
    LongLine(l);
    ParseAppend(parse, [head], [rest]);
    assert [head] + [rest] == [head, rest] && [c] + [idle] == [c, idle];
  }

  /** The commands of an entry are those its lines stand for. */
  function EntryReading<C>(e: Entry, sets: seq<C>, locks: seq<C>): seq<C> {
    if !e.sym.global then [] else sets + (if e.sym.locked then locks else [])
  }

  lemma {:induction false} PiecesOne(l: string)
    ensures Pieces([l]) == FileLines(l + "\n")
  {
    assert [l][1..] == [];
  }

  lemma {:induction false} ParseEntry<C>(parse: string -> C, e: Entry, sets: seq<C>, locks: seq<C>)
    requires e.sym.global ==> ParseWith(parse, FileLines(SetLine(e) + "\n")) == sets
    requires e.sym.global && e.sym.locked ==> ParseWith(parse, FileLines(LockLine(e) + "\n")) == locks
    ensures ParseWith(parse, Pieces(EntryLines(e))) == EntryReading(e, sets, locks)
  {
    if e.sym.global {
      var a, b := FileLines(SetLine(e) + "\n"), FileLines(LockLine(e) + "\n");
      PiecesOne(SetLine(e));
      if e.sym.locked {
        PiecesOne(LockLine(e));
        PiecesAppend([SetLine(e)], [LockLine(e)]);
        ParseAppend(parse, a, b);
      } else {
        assert EntryLines(e) == [SetLine(e)];
      }
    }
  }

  lemma {:induction false} ParseComments<C>(parse: string -> C, skip: C, ls: seq<string>)
    requires forall i :: 0 <= i < |ls| ==> CommentLine(ls[i]) && parse(ls[i] + "\n") == skip
    ensures ParseWith(parse, Pieces(ls)) == Repeat(skip, |ls|)
  {
    if ls == [] {
    } else {
      ShortLine(ls[0]);
      ParseComments(parse, skip, ls[1..]);
      ParseAppend(parse, [ls[0] + "\n"], Pieces(ls[1..]));
    }
  }

  lemma {:induction false} ParseEntries<C>(parse: string -> C, cmds: Entry -> seq<C>, es: seq<Entry>)
    requires forall i :: 0 <= i < |es| ==> ParseWith(parse, Pieces(EntryLines(es[i]))) == cmds(es[i])
    ensures ParseWith(parse, Pieces(AllLines(es))) == Gather(cmds, es)
  {
    if es == [] {
    } else {
      ParseEntries(parse, cmds, es[1..]);
      PiecesAppend(EntryLines(es[0]), AllLines(es[1..]));
      ParseAppend(parse, Pieces(EntryLines(es[0])), Pieces(AllLines(es[1..])));
    }
  }

  predicate EntryOnLines(e: Entry) {
    e.sym.global ==> OnOneLine(SetLine(e)) && OnOneLine(LockLine(e))
  }

  lemma {:induction false} AllOnLines(es: seq<Entry>)
    requires forall i :: 0 <= i < |es| ==> EntryOnLines(es[i])
    ensures forall i :: 0 <= i < |AllLines(es)| ==> OnOneLine(AllLines(es)[i])
  {
    if es == [] {
    } else {
      AllOnLines(es[1..]);
    }
  }

  /** What a loader reads out of comment lines followed by a rendered table. */
  lemma {:induction false} SavedReads<C>(parse: string -> C, cmds: Entry -> seq<C>, skip: C, ls: seq<string>,
        es: seq<Entry>)
    requires forall i :: 0 <= i < |ls| ==> CommentLine(ls[i]) && parse(ls[i] + "\n") == skip
    requires forall i :: 0 <= i < |es| ==> EntryOnLines(es[i])
    requires forall i :: 0 <= i < |es| ==> ParseWith(parse, Pieces(EntryLines(es[i]))) == cmds(es[i])
    ensures ParseWith(parse, FileLines(Lines(ls) + RenderAll(es))) == Repeat(skip, |ls|) + Gather(cmds, es)
  {
    RenderIsLines(es);
    LinesAppend(ls, AllLines(es));
    AllOnLines(es);
    ReadLines(ls + AllLines(es));
    PiecesAppend(ls, AllLines(es));
    ParseAppend(parse, Pieces(ls), Pieces(AllLines(es)));
    ParseComments(parse, skip, ls);
    ParseEntries(parse, cmds, es);
  }
}
