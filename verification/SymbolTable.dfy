/** The chained hash table of commonToSpread.c: 31 buckets of linked nodes, rewritten in place. */
module SymbolTables {
  import opened CString
  import opened Symbols

  /** A node's name and link are written when it is put in its bucket and never after. */
  class Node {
    const name: string
    const next: Node?
    var def: string
    var locked: bool
    var global: bool

    constructor (name: string, next: Node?)
      ensures this.name == name && this.next == next
    {
      this.name, this.next := name, next;
      def, locked, global := "", false, false;
    }

    function Sym(): Symbol
      reads this
    {
      Symbol(def, locked, global)
    }
  }

  method RenderNode(np: Node) returns (lines: string)
    ensures lines == RenderEntry(Entry(np.name, np.Sym()))
  {
    lines := "";
    if np.global {
      lines := "^set " + np.name + " " + np.def + "\n";
      if np.locked {
        lines := lines + ("^lock " + np.name + "\n");
      }
    }
  }

  /** The links from head run through c and end; the nodes of c hash to bucket b and differ in
      name, so a chain is acyclic and chains are disjoint. node says which node carries a name. */
  ghost predicate ChainOk(head: Node?, c: seq<Node>, b: nat, node: map<string, Node>) {
    if c == [] then head == null else
      && head == c[0] && Hash(c[0].name) == b
      && c[0].name in node && node[c[0].name] == c[0]
      && (forall j :: 0 < j < |c| ==> c[j].name != c[0].name)
      && ChainOk(c[0].next, c[1..], b, node)
  }

  ghost predicate Has(c: seq<Node>, np: Node) {
    c != [] && (c[0] == np || Has(c[1..], np))
  }

  /** Bucket b: its chain is sound and holds the node of every name that hashes to it. */
  ghost predicate BucketOk(head: Node?, c: seq<Node>, b: nat, node: map<string, Node>) {
    && ChainOk(head, c, b, node)
    && forall k :: k in node && Hash(k) == b ==> Has(c, node[k])
  }

  /** The first n buckets are sound. */
  ghost predicate Shape(heads: seq<Node?>, chains: seq<seq<Node>>, node: map<string, Node>, n: nat)
    requires n <= |heads| == |chains|
  {
    n > 0 ==> BucketOk(heads[n - 1], chains[n - 1], n - 1, node) && Shape(heads, chains, node, n - 1)
  }

  lemma {:induction false} ShapeAt(heads: seq<Node?>, chains: seq<seq<Node>>, node: map<string, Node>, n: nat, b: nat)
    requires b < n <= |heads| == |chains| && Shape(heads, chains, node, n)
    ensures BucketOk(heads[b], chains[b], b, node)
  {
    if b == n - 1 {
    } else {
      ShapeAt(heads, chains, node, n - 1, b);
    }
  }

  lemma {:induction false} ChainMember(head: Node?, c: seq<Node>, b: nat, node: map<string, Node>, i: nat)
    requires ChainOk(head, c, b, node) && i < |c|
    ensures Hash(c[i].name) == b && c[i].name in node && node[c[i].name] == c[i]
    ensures forall j :: i < j < |c| ==> c[j].name != c[i].name
  {
    if i == 0 {
    } else {
      ChainMember(c[0].next, c[1..], b, node, i - 1);
      assert forall j :: i < j < |c| ==> c[j] == c[1..][j - 1];
    }
  }

  lemma {:induction false} ChainFrame(head: Node?, c: seq<Node>, b: nat, node: map<string, Node>, np: Node)
    requires ChainOk(head, c, b, node) && np.name !in node
    ensures ChainOk(head, c, b, node[np.name := np])
    ensures forall j :: 0 <= j < |c| ==> c[j].name != np.name
  {
    if c == [] {
    } else {
      ChainFrame(c[0].next, c[1..], b, node, np);
      assert forall j :: 0 < j < |c| ==> c[j] == c[1..][j - 1];
    }
  }

  lemma {:induction false} ShapeEmpty(heads: seq<Node?>, chains: seq<seq<Node>>, n: nat)
    requires n <= |heads| == |chains|
    requires forall b :: 0 <= b < n ==> heads[b] == null && chains[b] == []
    ensures Shape(heads, chains, map[], n)
  {
    if n == 0 {
    } else {
      ShapeEmpty(heads, chains, n - 1);
    }
  }

  /** Linking the node of a new name in at the head of its bucket keeps the shape. */
  lemma {:induction false} ShapePrepend(heads: seq<Node?>, chains: seq<seq<Node>>, node: map<string, Node>,
        n: nat, np: Node)
    requires n <= |heads| == |chains| == TABLE_SIZE && Shape(heads, chains, node, n)
    requires np.name !in node && np.next == heads[Hash(np.name)]
    ensures var h := Hash(np.name);
            Shape(heads[h := np], chains[h := [np] + chains[h]], node[np.name := np], n)
  {
    if n == 0 {
    } else {
      ShapePrepend(heads, chains, node, n - 1, np);
      var b := n - 1;
      ChainFrame(heads[b], chains[b], b, node, np);
      assert ([np] + chains[b])[1..] == chains[b];
    }
  }

  // ----- the symbols in the order saveSymbols meets them -----

  ghost function NodeEntry(n: Node, t: Table): Entry {
    Entry(n.name, if n.name in t then t[n.name] else Symbol("", false, false))
  }

  ghost function ChainEntries(c: seq<Node>, t: Table): seq<Entry> {
    seq(|c|, i requires 0 <= i < |c| => NodeEntry(c[i], t))
  }

  ghost function TableEntries(chains: seq<seq<Node>>, t: Table, n: nat): seq<Entry>
    requires n <= |chains|
  {
    if n == 0 then [] else TableEntries(chains, t, n - 1) + ChainEntries(chains[n - 1], t)
  }

  lemma {:induction false} HasIndex(c: seq<Node>, np: Node) returns (i: nat)
    requires Has(c, np)
    ensures i < |c| && c[i] == np
  {
    if c[0] == np { i := 0; } else { i := HasIndex(c[1..], np); i := i + 1; }
  }

  ghost predicate Mentions(es: seq<Entry>, k: string) {
    exists i :: 0 <= i < |es| && es[i].name == k
  }

  /** es lists once each symbol of t that hashes into lo..hi. */
  ghost predicate ListsRange(es: seq<Entry>, t: Table, lo: nat, hi: nat) {
    && (forall i :: 0 <= i < |es| ==>
          es[i].name in t && t[es[i].name] == es[i].sym && lo <= Hash(es[i].name) < hi)
    && (forall i, j :: 0 <= i < j < |es| ==> es[i].name != es[j].name)
    && (forall k :: k in t && lo <= Hash(k) < hi ==> Mentions(es, k))
  }

  lemma {:induction false} MentionsJoin(es: seq<Entry>, fs: seq<Entry>, k: string)
    requires Mentions(es, k) || Mentions(fs, k)
    ensures Mentions(es + fs, k)
  {
    if Mentions(es, k) {
      var i :| 0 <= i < |es| && es[i].name == k;
      assert (es + fs)[i].name == k;
    } else {
      var i :| 0 <= i < |fs| && fs[i].name == k;
      assert (es + fs)[|es| + i].name == k;
    }
  }

  lemma {:induction false} ListsJoin(es: seq<Entry>, fs: seq<Entry>, t: Table, lo: nat, mid: nat, hi: nat)
    requires lo <= mid <= hi && ListsRange(es, t, lo, mid) && ListsRange(fs, t, mid, hi)
    ensures ListsRange(es + fs, t, lo, hi)
  {
    forall k | k in t && lo <= Hash(k) < hi ensures Mentions(es + fs, k) {
      MentionsJoin(es, fs, k);
    }
  }

  lemma {:induction false} ListsChain(head: Node?, c: seq<Node>, b: nat, node: map<string, Node>, t: Table)
    requires BucketOk(head, c, b, node) && node.Keys == t.Keys
    requires forall k :: k in node ==> node[k].name == k
    ensures ListsRange(ChainEntries(c, t), t, b, b + 1)
  {
    var es := ChainEntries(c, t);
    forall i | 0 <= i < |es|
      ensures es[i].name in t && t[es[i].name] == es[i].sym && Hash(es[i].name) == b
      ensures forall j :: i < j < |es| ==> es[i].name != es[j].name
    {
      ChainMember(head, c, b, node, i);
    }
    forall k | k in t && b <= Hash(k) < b + 1 ensures Mentions(es, k) {
      var i := HasIndex(c, node[k]);
      assert es[i].name == k;
    }
  }

  /** The first n buckets list each symbol that hashes below n exactly once. */
  lemma {:induction false} ListsTable(heads: seq<Node?>, chains: seq<seq<Node>>, node: map<string, Node>,
        t: Table, n: nat)
    requires n <= |heads| == |chains| && Shape(heads, chains, node, n) && node.Keys == t.Keys
    requires forall k :: k in node ==> node[k].name == k
    ensures ListsRange(TableEntries(chains, t, n), t, 0, n)
  {
    if n == 0 {
    } else {
      ListsTable(heads, chains, node, t, n - 1);
      ListsChain(heads[n - 1], chains[n - 1], n - 1, node, t);
      ListsJoin(TableEntries(chains, t, n - 1), ChainEntries(chains[n - 1], t), t, 0, n - 1, n);
    }
  }

  // ----- where char is signed -----

  /** The sum when a byte above 127 counts as negative. */
  function SignedSum(s: string): int {
    if s == "" then 0 else
      var c := s[|s| - 1] as int;
      SignedSum(s[..|s| - 1]) + (if c < 128 then c else c - 256)
  }

  /** C's remainder takes the sign of the sum. */
  function SignedIndex(s: string): int {
    var sum := SignedSum(s);
    if sum >= 0 then sum % TABLE_SIZE else -((-sum) % TABLE_SIZE)
  }

  lemma {:induction false} SevenBitSum(s: string)
    requires forall i :: 0 <= i < |s| ==> s[i] as int < 128
    ensures SignedSum(s) == CharSum(s)
  {
    if s == "" {
    } else {
      SevenBitSum(s[..|s| - 1]);
    }
  }

  /** The index is inside the table exactly if the sum is not negative or a multiple of 31; for names
      of 7-bit characters it is the bucket of Hash. */
  lemma {:induction false} SignedIndexIff(s: string)
    ensures 0 <= SignedIndex(s) < 31 <==> SignedSum(s) >= 0 || SignedSum(s) % 31 == 0
    ensures (forall i :: 0 <= i < |s| ==> s[i] as int < 128) ==> SignedIndex(s) == Hash(s)
  {
    if forall i :: 0 <= i < |s| ==> s[i] as int < 128 { SevenBitSum(s); }
  }

  method HashOf(s: string) returns (h: nat)
    ensures h == Hash(s)
    ensures (forall i :: 0 <= i < |s| ==> s[i] as int < 128) ==> h == SignedIndex(s)
  {
    SignedIndexIff(s);
    var sum: nat := 0;
    for i := 0 to |s|
      invariant sum == CharSum(s[..i])
    {
      assert s[..i + 1][..i] == s[..i];
      sum := sum + s[i] as nat;
    }
    assert s[..|s|] == s;
    h := sum % TABLE_SIZE;
  }

  class SymbolTable {
    const buckets: array<Node?>
    ghost var heads: seq<Node?>
    ghost var chains: seq<seq<Node>>
    ghost var node: map<string, Node>
    ghost var model: Table
    ghost var Repr: set<object>

    /** The nodes of the table hold exactly the symbols of model. */
    ghost predicate Valid()
      reads this, Repr
      ensures Valid() ==> this in Repr
    {
      && this in Repr && buckets in Repr && buckets.Length == TABLE_SIZE
      && buckets[..] == heads && |chains| == |heads| && Shape(heads, chains, node, |heads|)
      && node.Keys == model.Keys
      && (forall k {:trigger node[k]} :: k in node ==>
            node[k] in Repr && node[k].name == k && model[k] == node[k].Sym())
    }

    constructor ()
      ensures Valid() && fresh(Repr) && model == map[]
    {
      buckets := new Node?[TABLE_SIZE](_ => null);
      heads, chains := seq(TABLE_SIZE, _ => null), seq(TABLE_SIZE, _ => []);
      node, model := map[], map[];
      new;
      Repr := {this, buckets};
      ShapeEmpty(heads, chains, |heads|);
    }

    /** No node occurs at two places of the table. */
    lemma {:induction false} NodesDistinct(b: nat, i: nat, c: nat, j: nat)
      requires Valid()
      requires b < TABLE_SIZE && c < TABLE_SIZE && i < |chains[b]| && j < |chains[c]|
      ensures chains[b][i] == chains[c][j] <==> b == c && i == j
    {
      ShapeAt(heads, chains, node, |heads|, b);
      ShapeAt(heads, chains, node, |heads|, c);
      ChainMember(heads[b], chains[b], b, node, i);
      ChainMember(heads[c], chains[c], c, node, j);
    }

    method Lookup(s: string) returns (np: Node?)
      requires Valid()
      ensures np == null <==> s !in model
      ensures np != null ==> np in Repr && np.name == s && model[s] == np.Sym() && node[s] == np
    {
      var h := HashOf(s);
      ShapeAt(heads, chains, node, |heads|, h);
      ghost var c := chains[h];
      ghost var i := 0;
      np := buckets[h];
      while np != null
        invariant 0 <= i <= |c| && ChainOk(np, c[i..], h, node)
        invariant s in node ==> Has(c[i..], node[s])
        decreases |c| - i
      {
        if np.name == s { return; }
        assert c[i..][1..] == c[i + 1..];
        np, i := np.next, i + 1;
      }
    }

    method GetSymbol(name: string) returns (r: Option<string>)
      requires Valid()
      ensures r == Get(model, name)
    {
      var np := Lookup(name);
      r := if np == null then None else Some(np.def);
    }

    /** A new node at the head of the bucket of an unknown name. */
    method Prepend(name: string) returns (np: Node)
      requires Valid() && name !in model
      modifies Repr
      ensures Valid() && fresh(Repr - old(Repr))
      ensures np in Repr && np.name == name && node == old(node)[name := np]
      ensures model == old(model)[name := np.Sym()]
    {
      var h := HashOf(name);
      np := new Node(name, buckets[h]);
      ShapePrepend(heads, chains, node, |heads|, np);
      buckets[h] := np;
      heads, chains := heads[h := np], chains[h := [np] + chains[h]];
      node := node[name := np];
      model := model[name := np.Sym()];
      Repr := Repr + {np};
    }

    /** Overwrites the fields of a node of the table. */
    method Rewrite(np: Node, value: string, locked: bool, global: bool)
      requires Valid() && np.name in node && node[np.name] == np
      modifies Repr
      ensures Valid() && Repr == old(Repr)
      ensures model == old(model)[np.name := Symbol(value, locked, global)]
    {
      np.def, np.locked, np.global := value, locked, global;
      model := model[np.name := np.Sym()];
    }

    /** Replaces the symbol whatever its lock, or adds it. */
    method Install(name: string, value: string, locked: bool, global: bool)
      requires Valid()
      modifies Repr
      ensures Valid() && fresh(Repr - old(Repr))
      ensures model == old(model)[name := Symbol(value, locked, global)]
    {
      var np := Lookup(name);
      if np == null {
        np := Prepend(name);
      }
      Rewrite(np, value, locked, global);
    }

    method LockSymbol(name: string)
      requires Valid()
      modifies Repr
      ensures Valid() && Repr == old(Repr)
      ensures model == LockSym(old(model), name)
    {
      var np := Lookup(name);
      if np != null {
        np.locked := true;
        model := model[name := np.Sym()];
      }
    }

    method SetSymbol(name: string, value: string, locked: bool, global: bool)
      requires Valid()
      modifies Repr
      ensures Valid() && fresh(Repr - old(Repr))
      ensures model == SetSym(old(model), name, value, locked, global)
    {
      var np := Lookup(name);
      if np == null {
        Install(name, value, locked, global);
      } else {
        if !np.locked {
          Install(name, value, locked, global);
        }
      }
    }

    /** The lines of one bucket, in chain order. */
    method RenderBucket(b: nat) returns (text: string)
      requires Valid() && b < TABLE_SIZE
      ensures text == RenderAll(ChainEntries(chains[b], model))
    {
      ShapeAt(heads, chains, node, |heads|, b);
      text := "";
      ghost var c := chains[b];
      ghost var es := ChainEntries(c, model);
      ghost var i := 0;
      var np := buckets[b];
      while np != null
        invariant 0 <= i <= |c| && ChainOk(np, c[i..], b, node)
        invariant text == RenderAll(es[..i])
        decreases |c| - i
      {
        ChainMember(np, c[i..], b, node, 0);
        var line := RenderNode(np);
        assert es[i] == Entry(np.name, np.Sym());
        RenderMore(es, i);
        assert c[i..][1..] == c[i + 1..];
        text := text + line;
        np, i := np.next, i + 1;
      }
      assert es[..i] == es;
    }

    /** The body of the save file: one or two lines for each GLOBAL symbol, bucket by bucket. */
    method RenderTable() returns (text: string, ghost listing: seq<Entry>)
      requires Valid()
      ensures Lists(listing, model) && text == RenderAll(listing)
    {
      text, listing := "", [];
      for b := 0 to TABLE_SIZE
        invariant listing == TableEntries(chains, model, b) && text == RenderAll(listing)
      {
        var lines := RenderBucket(b);
        RenderAppend(listing, ChainEntries(chains[b], model));
        text, listing := text + lines, listing + ChainEntries(chains[b], model);
      }
      ListsTable(heads, chains, node, model, TABLE_SIZE);
      assert forall k :: k in model ==> Mentions(listing, k);
    }

    /** saveSymbols. canOpen is whether the file can be opened for writing. */
    method SaveSymbols(date: string, prog: string, canOpen: bool)
      returns (file: Option<(string, string)>, ghost listing: seq<Entry>)
      requires Valid()
      modifies Repr
      ensures Valid() && fresh(Repr - old(Repr))
      ensures model == AfterSave(old(model))
      ensures file.Some? <==> Get(old(model), "SAVE_ALLOWED") != Some("false") && canOpen
      ensures file.Some? ==> Lists(listing, model) && "START_FILE" in model
      ensures file.Some? ==>
        file.value == (model["START_FILE"].value, Header(date, prog) + RenderAll(listing))
    {
      file, listing := None, [];
      var save := GetSymbol("SAVE_ALLOWED");
      if save == Some("false") { return; }
      var fileName := GetSymbol("START_FILE");
      if fileName == None {
        SetSymbol("START_FILE", "./start.rc", false, false);
        fileName := GetSymbol("START_FILE");
      }
      if !canOpen { return; }
      var text;
      text, listing := RenderTable();
      file := Some((fileName.value, Header(date, prog) + text));
    }
  }
}
