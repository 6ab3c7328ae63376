/** The nodes table of commonToSpread.c as a list of rows without a key constraint, the SQL
    statements run on it, and the map from (name, group) it stands for. */
module NodeRows {
  import opened CString

  datatype NState = UNKNOWN | CONNECTED | LEAVE | DISCONNECTED

  datatype Key = Key(name: string, group: string)

  /** stale is None while the column is NULL. */
  datatype Cell = Cell(state: NState, touched: int, stale: Option<int>, flag: bool)

  datatype Row = Row(key: Key, cell: Cell)

  /** A member a JOIN lists, with the times cacheAdd and cacheSetConnected read for it. */
  datatype Arrival = Arrival(name: string, added: int, marked: int)

  type Rows = seq<Row>
  type Nodes = map<Key, Cell>

  datatype Stmt =
    | Insert(key: Key, state: NState, now: int)
    | SetState(key: Key, state: NState, now: int)
    | SetConnected(key: Key, state: NState, now: int, staleAfter: int)
    | SetLeave(key: Key)
    | DisconnectAll
    | Touch(name: string, now: int)
    | FlagName(name: string)
    | UnknownUnflagged(group: string)
    | ClearFlags
    | DeleteName(name: string)
    | DeleteKey(key: Key)
    | DeleteDisconnectedBut(me: string)
    | DeleteNotConnected
    | DeleteStale(now: int)
    | DeleteDisconnected

  /** The where clause of the delete statements, negated. stale < now is not true of NULL. */
  predicate Keeps(s: Stmt, k: Key, c: Cell) {
    match s
    case DeleteName(name) => k.name != name
    case DeleteKey(key) => k != key
    case DeleteDisconnectedBut(me) => !(c.state == DISCONNECTED && k.name != me)
    case DeleteNotConnected => c.state == CONNECTED
    case DeleteStale(now) => !(c.state != CONNECTED && c.stale.Some? && c.stale.value < now)
    case DeleteDisconnected => c.state != DISCONNECTED
    case _ => true
  }

  /** What the update statements make of a row. */
  function Updated(s: Stmt, k: Key, c: Cell): Cell {
    match s
    case SetState(key, state, now) => if k == key then c.(state := state, touched := now) else c
    case SetConnected(key, state, now, staleAfter) =>
      if k == key then c.(state := state, touched := now, stale := Some(now + staleAfter)) else c
    case SetLeave(key) => if k == key then c.(state := LEAVE) else c
    case DisconnectAll => c.(state := DISCONNECTED)
    case Touch(name, now) => if k.name == name then c.(touched := now) else c
    case FlagName(name) => if k.name == name then c.(flag := true) else c
    case UnknownUnflagged(group) =>
      if !c.flag && k.group == group then c.(state := UNKNOWN) else c
    case ClearFlags => c.(flag := false)
    case _ => c
  }

  function NewCell(s: Stmt): Cell
    requires s.Insert?
  {
    Cell(s.state, s.now, None, false)
  }

  /** Row by row: deletes what keep rejects, updates the rest. */
  function Sweep(rows: Rows, keep: (Key, Cell) -> bool, upd: (Key, Cell) -> Cell): Rows {
    if rows == [] then [] else
      var last := rows[|rows| - 1];
      Sweep(rows[..|rows| - 1], keep, upd) +
      (if keep(last.key, last.cell) then [Row(last.key, upd(last.key, last.cell))] else [])
  }

  /** One statement. */
  function Apply(rows: Rows, s: Stmt): Rows {
    if s.Insert? then rows + [Row(s.key, NewCell(s))]
    else Sweep(rows, (k, c) => Keeps(s, k, c), (k, c) => Updated(s, k, c))
  }

  /** spreadLeave's select: the rows me is CONNECTED in, of one group or of all but global. */
  predicate Leaves(k: Key, c: Cell, me: string, group: Option<string>) {
    k.name == me && c.state == CONNECTED
    && (if group.Some? then k.group == group.value else k.group != "global")
  }

  function Selected(rows: Rows, me: string, group: Option<string>): seq<Key> {
    if rows == [] then [] else
      var last := rows[|rows| - 1];
      Selected(rows[..|rows| - 1], me, group) + (if Leaves(last.key, last.cell, me, group) then [last.key] else [])
  }

  function Names(members: seq<Arrival>): seq<string> {
    seq(|members|, i requires 0 <= i < |members| => members[i].name)
  }

  // ----- the map -----

  function Keys(rows: Rows): set<Key> {
    if rows == [] then {} else Keys(rows[..|rows| - 1]) + {rows[|rows| - 1].key}
  }

  /** No two rows for the same (name, group). */
  predicate Unique(rows: Rows) {
    rows == [] || (Unique(rows[..|rows| - 1]) && rows[|rows| - 1].key !in Keys(rows[..|rows| - 1]))
  }

  function Abs(rows: Rows): Nodes {
    if rows == [] then map[] else
      var last := rows[|rows| - 1];
      Abs(rows[..|rows| - 1])[last.key := last.cell]
  }

  function MapSweep(m: Nodes, keep: (Key, Cell) -> bool, upd: (Key, Cell) -> Cell): Nodes {
    map k | k in m && keep(k, m[k]) :: upd(k, m[k])
  }

  function MapApply(m: Nodes, s: Stmt): Nodes {
    if s.Insert? then m[s.key := NewCell(s)]
    else MapSweep(m, (k, c) => Keeps(s, k, c), (k, c) => Updated(s, k, c))
  }

  function Count(rows: Rows, k: Key): (n: nat) {
    if rows == [] then 0 else
      Count(rows[..|rows| - 1], k) + (if rows[|rows| - 1].key == k then 1 else 0)
  }

  lemma {:induction false} AbsKeys(rows: Rows)
    ensures Abs(rows).Keys == Keys(rows)
  {
    if rows == [] {
    } else {
      AbsKeys(rows[..|rows| - 1]);
    }
  }

  lemma {:induction false} KeysAt(rows: Rows, i: nat)
    requires i < |rows|
    ensures rows[i].key in Keys(rows)
  {
    if i == |rows| - 1 {
    } else {
      KeysAt(rows[..|rows| - 1], i);
    }
  }

  lemma {:induction false} CountIsAbs(rows: Rows, k: Key)
    ensures Count(rows, k) == 0 <==> k !in Abs(rows)
  {
    if rows == [] {
    } else {
      CountIsAbs(rows[..|rows| - 1], k);
    }
  }

  /** Uniqueness is what it says, and then the map holds every row. */
  lemma {:induction false} UniqueAt(rows: Rows, i: nat, j: nat)
    requires Unique(rows) && i < j < |rows|
    ensures rows[i].key != rows[j].key
  {
    if j == |rows| - 1 { KeysAt(rows[..j], i); } else { UniqueAt(rows[..|rows| - 1], i, j); }
  }

  lemma {:induction false} AbsAt(rows: Rows, i: nat)
    requires Unique(rows) && i < |rows|
    ensures rows[i].key in Abs(rows) && Abs(rows)[rows[i].key] == rows[i].cell
  {
    if i == |rows| - 1 {
    } else {
      AbsAt(rows[..|rows| - 1], i);
      UniqueAt(rows, i, |rows| - 1);
    }
  }

  lemma {:induction false} AppendRow(rows: Rows, r: Row)
    ensures Keys(rows + [r]) == Keys(rows) + {r.key}
    ensures Unique(rows + [r]) <==> Unique(rows) && r.key !in Keys(rows)
    ensures Abs(rows + [r]) == Abs(rows)[r.key := r.cell]
  {
    assert (rows + [r])[..|rows|] == rows;
  }

  /** And it holds nothing else. */
  lemma {:induction false} RowOf(rows: Rows, k: Key) returns (i: nat)
    requires k in Abs(rows)
    ensures i < |rows| && rows[i] == Row(k, Abs(rows)[k])
  {
    var last := rows[|rows| - 1];
    if last.key == k { i := |rows| - 1; } else { i := RowOf(rows[..|rows| - 1], k); }
  }

  lemma {:induction false} SweepKeys(rows: Rows, keep: (Key, Cell) -> bool, upd: (Key, Cell) -> Cell)
    ensures Keys(Sweep(rows, keep, upd)) <= Keys(rows)
  {
    if rows == [] {
    } else {
      var front, last := rows[..|rows| - 1], rows[|rows| - 1];
      SweepKeys(front, keep, upd);
      AppendRow(Sweep(front, keep, upd), Row(last.key, upd(last.key, last.cell)));
      assert Sweep(front, keep, upd) + [] == Sweep(front, keep, upd);
    }
  }

  lemma {:induction false} MapSweepAdd(m: Nodes, k: Key, c: Cell, keep: (Key, Cell) -> bool, upd: (Key, Cell) -> Cell)
    requires k !in m
    ensures MapSweep(m[k := c], keep, upd)
         == if keep(k, c) then MapSweep(m, keep, upd)[k := upd(k, c)] else MapSweep(m, keep, upd)
  {
  }

  /** Updates and deletes keep uniqueness and act on the map key by key. */
  lemma {:induction false} SweepRefines(rows: Rows, keep: (Key, Cell) -> bool, upd: (Key, Cell) -> Cell)
    requires Unique(rows)
    ensures Unique(Sweep(rows, keep, upd))
    ensures Abs(Sweep(rows, keep, upd)) == MapSweep(Abs(rows), keep, upd)
  {
    if rows == [] {
    } else {
      var front, last := rows[..|rows| - 1], rows[|rows| - 1];
      SweepRefines(front, keep, upd);
      SweepKeys(front, keep, upd);
      AbsKeys(front);
      var swept := Sweep(front, keep, upd);
      AppendRow(swept, Row(last.key, upd(last.key, last.cell)));
      assert swept + [] == swept;
      MapSweepAdd(Abs(front), last.key, last.cell, keep, upd);
    }
  }

  /** Every statement acts on the map, and only the insert of a known key breaks uniqueness. */
  lemma {:induction false} ApplyRefines(rows: Rows, s: Stmt)
    requires Unique(rows)
    ensures Unique(Apply(rows, s)) <==> !(s.Insert? && s.key in Abs(rows))
    ensures Abs(Apply(rows, s)) == MapApply(Abs(rows), s)
  {
    AbsKeys(rows);
    if s.Insert? { AppendRow(rows, Row(s.key, NewCell(s))); }
    else { SweepRefines(rows, (k, c) => Keeps(s, k, c), (k, c) => Updated(s, k, c)); }
  }

  /** Row by row, duplicates or not: what a sweep leaves is what it made of the rows it kept. */
  lemma {:induction false} SweepRows(rows: Rows, keep: (Key, Cell) -> bool, upd: (Key, Cell) -> Cell, r: Row)
    ensures r in Sweep(rows, keep, upd)
            <==> exists q :: q in rows && keep(q.key, q.cell) && r == Row(q.key, upd(q.key, q.cell))
  {
    if rows == [] {
    } else {
      var front, last := rows[..|rows| - 1], rows[|rows| - 1];
      SweepRows(front, keep, upd, r);
      assert rows == front + [last];
      assert forall q :: q in rows <==> q in front || q == last;
    }
  }

  lemma {:induction false} ApplyRows(rows: Rows, s: Stmt, r: Row)
    requires !s.Insert?
    ensures r in Apply(rows, s)
            <==> exists q :: q in rows && Keeps(s, q.key, q.cell) && r == Row(q.key, Updated(s, q.key, q.cell))
  {
    var keep, upd := (k, c) => Keeps(s, k, c), (k, c) => Updated(s, k, c);
    SweepRows(rows, keep, upd, r);
    assert forall q: Row :: keep(q.key, q.cell) == Keeps(s, q.key, q.cell);
    assert forall q: Row :: upd(q.key, q.cell) == Updated(s, q.key, q.cell);
  }

  /** The statements that neither insert nor delete leave every row in its place. */
  predicate InPlace(s: Stmt) {
    s.SetState? || s.SetConnected? || s.SetLeave? || s.DisconnectAll? || s.Touch? || s.FlagName?
    || s.UnknownUnflagged? || s.ClearFlags?
  }

  function UpdatedRows(rows: Rows, s: Stmt): Rows {
    seq(|rows|, i requires 0 <= i < |rows| => Row(rows[i].key, Updated(s, rows[i].key, rows[i].cell)))
  }

  lemma {:induction false} SweepInPlace(rows: Rows, s: Stmt, keep: (Key, Cell) -> bool, upd: (Key, Cell) -> Cell)
    requires forall k, c :: keep(k, c) && upd(k, c) == Updated(s, k, c)
    ensures Sweep(rows, keep, upd) == UpdatedRows(rows, s)
  {
    if rows == [] {
    } else {
      var front, last := rows[..|rows| - 1], rows[|rows| - 1];
      SweepInPlace(front, s, keep, upd);
      assert UpdatedRows(rows, s) == UpdatedRows(front, s) + [Row(last.key, Updated(s, last.key, last.cell))];
    }
  }

  lemma {:induction false} ApplyInPlace(rows: Rows, s: Stmt)
    requires InPlace(s)
    ensures Apply(rows, s) == UpdatedRows(rows, s)
  {
    SweepInPlace(rows, s, (k, c) => Keeps(s, k, c), (k, c) => Updated(s, k, c));
  }

  /** The select finds exactly the keys of the map that leave. */
  lemma {:induction false} SelectedIsAbs(rows: Rows, me: string, group: Option<string>, k: Key)
    requires Unique(rows)
    ensures k in Selected(rows, me, group) <==> k in Abs(rows) && Leaves(k, Abs(rows)[k], me, group)
  {
    if rows == [] {
    } else {
      var front := rows[..|rows| - 1];
      SelectedIsAbs(front, me, group, k);
      AbsKeys(front);
    }
  }
}
