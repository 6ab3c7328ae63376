/** The cache functions of commonToSpread.c over the row table, and what each message and command
    does to the map the rows stand for. */
module NodeCaches {
  import opened CString
  import opened NodeRows

  /** A call of emptyCache. */
  datatype EmptyCall = EmptyCall(which: Option<string>, me: Option<string>, now: int)

  datatype CacheEvent =
    | RegularMsg(empty: Option<EmptyCall>, purge: Option<int>)
    | JoinMsg(group: string, members: seq<Arrival>, staleAfter: int)
    | LeaveMsg(name: string, group: string, now: int, staleAfter: int)
    | DisconnectMsg(name: string, group: string, now: int, staleAfter: int)
    | NetworkMsg(group: string, sets: seq<seq<string>>)
    | AddCmd(name: string, group: string, now: int)
    | DelCmd(name: string, from: Option<string>)
    | EmptyCmd(which: Option<string>, me: Option<string>, now: int)
    | LeaveCmd(me: Option<string>, only: Option<string>)
    | Purge(now: int)
    | Reset

  // ----- the effect of each event on the map -----

  function Added(m: Nodes, k: Key, state: NState, now: int): Nodes {
    m[k := if k in m then m[k].(state := state, touched := now) else Cell(state, now, None, false)]
  }

  function Marked(m: Nodes, k: Key, state: NState, now: int, staleAfter: int): Nodes {
    if k in m then m[k := Cell(state, now, Some(now + staleAfter), m[k].flag)] else m
  }

  predicate Listed(members: seq<Arrival>, name: string) {
    exists a :: a in members && a.name == name
  }

  /** When a listed name was marked last. */
  function MarkedAt(members: seq<Arrival>, name: string): int {
    if members == [] then 0 else
      var last := members[|members| - 1];
      if last.name == name then last.marked else MarkedAt(members[..|members| - 1], name)
  }

  /** The listed members become CONNECTED in the group, known before or not; nothing else moves. */
  function Joined(m: Nodes, group: string, members: seq<Arrival>, staleAfter: int): Nodes {
    map k | k in m.Keys + (set a | a in members :: Key(a.name, group)) ::
      if k.group == group && Listed(members, k.name)
      then var at := MarkedAt(members, k.name);
           Cell(CONNECTED, at, Some(at + staleAfter), k in m && m[k].flag)
      else m[k]
  }

  /** name is missing from some view-synchrony set. */
  predicate Lost(name: string, sets: seq<seq<string>>) {
    exists i :: 0 <= i < |sets| && name !in sets[i]
  }

  /** A row of the group keeps its state exactly if every set has its name. */
  function Split(m: Nodes, group: string, sets: seq<seq<string>>): Nodes {
    map k | k in m ::
      if k.group == group && Lost(k.name, sets) then m[k].(state := UNKNOWN) else m[k]
  }

  /** What ^empty removes: nothing that is CONNECTED, whatever its argument. */
  predicate Discards(k: Key, c: Cell, which: Option<string>, me: Option<string>, now: int) {
    match which
    case None => c.state == DISCONNECTED && k.name != (if me.Some? then me.value else "")
    case Some(w) =>
      if w == "all" then c.state != CONNECTED
      else if w == "stale" then c.state != CONNECTED && c.stale.Some? && c.stale.value < now
      else c.state == DISCONNECTED
  }

  function Emptied(m: Nodes, which: Option<string>, me: Option<string>, now: int): Nodes {
    map k | k in m && !Discards(k, m[k], which, me, now) :: m[k]
  }

  function Departed(m: Nodes, me: string, group: Option<string>): Nodes {
    map k | k in m :: if Leaves(k, m[k], me, group) then m[k].(state := LEAVE) else m[k]
  }

  function MapStep(m: Nodes, e: CacheEvent): Nodes {
    match e
    case RegularMsg(empty, purge) =>
      var m1 := if empty.Some? then Emptied(m, empty.value.which, empty.value.me, empty.value.now) else m;
      if purge.Some? then Emptied(m1, Some("stale"), None, purge.value) else m1
    case JoinMsg(group, members, staleAfter) => Joined(m, group, members, staleAfter)
    case LeaveMsg(name, group, now, staleAfter) => Marked(m, Key(name, group), LEAVE, now, staleAfter)
    case DisconnectMsg(name, group, now, staleAfter) =>
      Marked(m, Key(name, group), DISCONNECTED, now, staleAfter)
    case NetworkMsg(group, sets) => Split(m, group, sets)
    case AddCmd(name, group, now) => Added(m, Key(name, group), UNKNOWN, now)
    case DelCmd(name, from) =>
      map k | k in m && !(k.name == name && (from == None || k.group == from.value)) :: m[k]
    case EmptyCmd(which, me, now) => Emptied(m, which, me, now)
    case LeaveCmd(me, only) => Departed(m, if me.Some? then me.value else "", only)
    case Purge(now) => Emptied(m, Some("stale"), None, now)
    case Reset => map k | k in m :: m[k].(state := DISCONNECTED)
  }

  function MapRun(m: Nodes, es: seq<CacheEvent>): Nodes {
    if es == [] then m else MapStep(MapRun(m, es[..|es| - 1]), es[|es| - 1])
  }

  /** No flag is set, as between two messages. */
  ghost predicate Clear(m: Nodes) {
    forall k :: k in m ==> !m[k].flag
  }

  function ConnectedGroups(m: Nodes, name: string): set<string> {
    set k | k in m && k.name == name && m[k].state == CONNECTED :: k.group
  }

  // ----- one more member, one more set -----

  /** Where Joined is defined and what it holds, key by key. */
  predicate JoinedKey(all: Nodes, m: Nodes, group: string, members: seq<Arrival>, sa: int, k: Key) {
    var at := MarkedAt(members, k.name);
    && (k in all <==> k in m || (k.group == group && Listed(members, k.name)))
    && (k in all ==> all[k] == if k.group == group && Listed(members, k.name)
                               then Cell(CONNECTED, at, Some(at + sa), k in m && m[k].flag) else m[k])
  }

  lemma {:induction false} JoinedAt(m: Nodes, group: string, members: seq<Arrival>, sa: int, k: Key)
    ensures JoinedKey(Joined(m, group, members, sa), m, group, members, sa, k)
  {
    assert k == Key(k.name, k.group);
  }

  lemma {:induction false} ListedMore(ms: seq<Arrival>, a: Arrival, name: string)
    ensures Listed(ms + [a], name) <==> Listed(ms, name) || a.name == name
    ensures MarkedAt(ms + [a], name) == if a.name == name then a.marked else MarkedAt(ms, name)
  {
    assert (ms + [a])[..|ms|] == ms;
    assert forall b :: b in ms + [a] <==> b in ms || b == a;
  }

  /** One more member: looked up, added if it is unknown, and marked. */
  function JoinOne(m: Nodes, group: string, a: Arrival, sa: int): Nodes {
    var k := Key(a.name, group);
    Marked(if k in m then m else Added(m, k, CONNECTED, a.added), k, CONNECTED, a.marked, sa)
  }

  lemma {:induction false} JoinOneAt(m: Nodes, group: string, a: Arrival, sa: int, one: Nodes, k: Key)
    requires one == JoinOne(m, group, a, sa)
    ensures k in one <==> k in m || (k.group == group && k.name == a.name)
    ensures k in one ==> one[k] == if k.group == group && k.name == a.name
                                   then Cell(CONNECTED, a.marked, Some(a.marked + sa), k in m && m[k].flag) else m[k]
  {
    assert k == Key(k.name, k.group);
  }

  lemma {:induction false} JoinedMoreAt(m: Nodes, group: string, ms: seq<Arrival>, a: Arrival, sa: int,
        before: Nodes, more: Nodes, one: Nodes, k: Key)
    requires JoinedKey(before, m, group, ms, sa, k) && JoinedKey(more, m, group, ms + [a], sa, k)
    requires one == JoinOne(before, group, a, sa)
    ensures (k in more <==> k in one) && (k in more ==> more[k] == one[k])
  {
    JoinOneAt(before, group, a, sa, one, k);
    ListedMore(ms, a, k.name);
  }

  lemma {:induction false} JoinedNone(m: Nodes, group: string, sa: int)
    ensures Joined(m, group, [], sa) == m
  {
  }

  lemma {:induction false} JoinedMore(m: Nodes, group: string, ms: seq<Arrival>, a: Arrival, sa: int)
    ensures Joined(m, group, ms + [a], sa) == JoinOne(Joined(m, group, ms, sa), group, a, sa)
  {
    var before, more := Joined(m, group, ms, sa), Joined(m, group, ms + [a], sa);
    var one := JoinOne(before, group, a, sa);
    forall k ensures k in more <==> k in one ensures k in more ==> more[k] == one[k] {
      JoinedAt(m, group, ms + [a], sa, k);
      JoinedAt(m, group, ms, sa, k);
      JoinedMoreAt(m, group, ms, a, sa, before, more, one, k);
    }
  }

  function LeftOut(m: Nodes, keys: seq<Key>): Nodes {
    map k | k in m :: if k in keys then m[k].(state := LEAVE) else m[k]
  }

  /** The map while one set is processed: some names flagged. */
  function Flagged(m: Nodes, names: seq<string>): Nodes {
    map k | k in m :: m[k].(flag := m[k].flag || k.name in names)
  }

  function Forgotten(m: Nodes, group: string): Nodes {
    map k | k in m :: if !m[k].flag && k.group == group then m[k].(state := UNKNOWN, flag := false)
                      else m[k].(flag := false)
  }

  lemma {:induction false} ForgetIsApply(m: Nodes, group: string)
    ensures MapApply(MapApply(m, UnknownUnflagged(group)), ClearFlags) == Forgotten(m, group)
  {
  }

  lemma {:induction false} LostMore(name: string, sets: seq<seq<string>>, names: seq<string>)
    ensures Lost(name, sets + [names]) <==> Lost(name, sets) || name !in names
  {
    var more := sets + [names];
    assert more[|sets|] == names;
    assert forall i :: 0 <= i < |sets| ==> more[i] == sets[i];
  }

  lemma {:induction false} SplitMore(m: Nodes, group: string, sets: seq<seq<string>>, names: seq<string>)
    requires Clear(m)
    ensures Clear(Split(m, group, sets))
    ensures Split(m, group, sets + [names]) == Forgotten(Flagged(Split(m, group, sets), names), group)
  {
    var more := sets + [names];
    forall k | k in m ensures Lost(k.name, more) <==> Lost(k.name, sets) || k.name !in names {
      LostMore(k.name, sets, names);
    }
  }

  /** Two disjoint sets, as a partition reports them, leave no member of the group known. */
  lemma {:induction false} DisjointSetsForgetAll(m: Nodes, group: string, sets: seq<seq<string>>, i: nat, j: nat)
    requires i < |sets| && j < |sets|
    requires forall n :: n in sets[i] ==> n !in sets[j]
    ensures forall k :: k in Split(m, group, sets) && k.group == group ==> Split(m, group, sets)[k].state == UNKNOWN
  {
    forall k | k in m && k.group == group ensures Lost(k.name, sets) {
      assert k.name !in sets[i] || k.name !in sets[j];
    }
  }

  /** The delete statement emptyCache builds. */
  function EmptyStmt(which: Option<string>, me: Option<string>, now: int): Stmt {
    match which
    case None => DeleteDisconnectedBut(if me.Some? then me.value else "")
    case Some(w) =>
      if w == "all" then DeleteNotConnected
      else if w == "stale" then DeleteStale(now)
      else DeleteDisconnected
  }

  /** Leaving a group, or all of them but global, concerns the daemon's own CONNECTED rows alone. */
  lemma {:induction false} LeaveExactly(m: Nodes, me: string, group: string, k: Key)
    requires k in m
    ensures var one, all := MapStep(m, LeaveCmd(Some(me), Some(group))), MapStep(m, LeaveCmd(Some(me), None));
            && k in one && k in all
            && (m[k].state == CONNECTED && k == Key(me, group) ==> one[k] == m[k].(state := LEAVE))
            && (!(m[k].state == CONNECTED && k == Key(me, group)) ==> one[k] == m[k])
            && (m[k].state == CONNECTED && k.name == me && k.group != "global" ==> all[k] == m[k].(state := LEAVE))
            && (!(m[k].state == CONNECTED && k.name == me && k.group != "global") ==> all[k] == m[k])
  {
  }

  lemma {:induction false} EmptyRefines(m: Nodes, which: Option<string>, me: Option<string>, now: int)
    ensures MapApply(m, EmptyStmt(which, me, now)) == Emptied(m, which, me, now)
  {
    forall k | k in m
      ensures Keeps(EmptyStmt(which, me, now), k, m[k]) <==> !Discards(k, m[k], which, me, now) {}
  }

  // ----- view-synchrony sets, row by row -----

  predicate NoFlags(rows: Rows) {
    forall i :: 0 <= i < |rows| ==> !rows[i].cell.flag
  }

  function FlaggedRows(rows: Rows, names: seq<string>): Rows {
    seq(|rows|, i requires 0 <= i < |rows| =>
      Row(rows[i].key, rows[i].cell.(flag := rows[i].cell.flag || rows[i].key.name in names)))
  }

  /** Every row stays in its place; one of the group keeps its state exactly if every set has its
      name. */
  function SplitRows(rows: Rows, group: string, sets: seq<seq<string>>): Rows {
    seq(|rows|, i requires 0 <= i < |rows| =>
      Row(rows[i].key, if rows[i].key.group == group && Lost(rows[i].key.name, sets)
                       then rows[i].cell.(state := UNKNOWN) else rows[i].cell))
  }

  lemma {:induction false} FlagMore(rows: Rows, names: seq<string>, name: string)
    ensures UpdatedRows(FlaggedRows(rows, names), FlagName(name)) == FlaggedRows(rows, names + [name])
  {
  }

  lemma {:induction false} ForgetRows(rows: Rows, group: string, names: seq<string>)
    requires NoFlags(rows)
    ensures UpdatedRows(UpdatedRows(FlaggedRows(rows, names), UnknownUnflagged(group)), ClearFlags)
         == SplitRows(rows, group, [names])
  {
    forall i | 0 <= i < |rows| ensures Lost(rows[i].key.name, [names]) <==> rows[i].key.name !in names {
      assert [names][0] == names;
    }
  }

  lemma {:induction false} SplitRowsMore(rows: Rows, group: string, sets: seq<seq<string>>, names: seq<string>)
    ensures SplitRows(SplitRows(rows, group, sets), group, [names]) == SplitRows(rows, group, sets + [names])
    ensures NoFlags(rows) ==> NoFlags(SplitRows(rows, group, sets + [names]))
  {
    forall i | 0 <= i < |rows|
      ensures var n := rows[i].key.name; Lost(n, sets + [names]) <==> Lost(n, sets) || Lost(n, [names])
    {
      LostMore(rows[i].key.name, sets, names);
      LostMore(rows[i].key.name, [], names);
      assert [] + [names] == [names];
    }
  }

  lemma {:induction false} SplitAdd(m: Nodes, k: Key, c: Cell, group: string, sets: seq<seq<string>>)
    ensures Split(m[k := c], group, sets)
         == Split(m, group, sets)[k := if k.group == group && Lost(k.name, sets) then c.(state := UNKNOWN) else c]
  {
  }

  /** On the map of a table without duplicates it is Split. */
  lemma {:induction false} SplitRowsAbs(rows: Rows, group: string, sets: seq<seq<string>>)
    ensures Keys(SplitRows(rows, group, sets)) == Keys(rows)
    ensures Unique(rows) ==> Unique(SplitRows(rows, group, sets))
    ensures Abs(SplitRows(rows, group, sets)) == Split(Abs(rows), group, sets)
  {
    if rows == [] {
    } else {
      var front, last := rows[..|rows| - 1], rows[|rows| - 1];
      var split := SplitRows(rows, group, sets);
      SplitRowsAbs(front, group, sets);
      assert split[..|split| - 1] == SplitRows(front, group, sets);
      SplitAdd(Abs(front), last.key, last.cell, group, sets);
    }
  }

  lemma {:induction false} ClearRows(rows: Rows)
    requires Unique(rows)
    ensures Clear(Abs(rows)) <==> NoFlags(rows)
  {
    forall i | 0 <= i < |rows| ensures rows[i].key in Abs(rows) && Abs(rows)[rows[i].key] == rows[i].cell {
      AbsAt(rows, i);
    }
    forall k | k in Abs(rows) ensures exists i :: 0 <= i < |rows| && rows[i] == Row(k, Abs(rows)[k]) {
      var i := RowOf(rows, k);
    }
  }

  // ----- the functions -----

  lemma {:induction false} GroupsMore(m: Nodes, key: Key, cell: Cell, name: string)
    requires key !in m
    ensures key.group !in ConnectedGroups(m, name) || key.name != name
    ensures ConnectedGroups(m[key := cell], name) == ConnectedGroups(m, name)
            + (if key.name == name && cell.state == CONNECTED then {key.group} else {})
  {
    forall g ensures g in ConnectedGroups(m[key := cell], name)
      <==> Key(name, g) in m[key := cell] && m[key := cell][Key(name, g)].state == CONNECTED {}
    forall g ensures g in ConnectedGroups(m, name)
      <==> Key(name, g) in m && m[Key(name, g)].state == CONNECTED {}
  }

  lemma {:induction false} ConnectedMore(rows: Rows, r: Row, name: string)
    requires Unique(rows + [r])
    ensures |ConnectedGroups(Abs(rows + [r]), name)| == |ConnectedGroups(Abs(rows), name)|
            + (if r.key.name == name && r.cell.state == CONNECTED then 1 else 0)
  {
    AppendRow(rows, r);
    AbsKeys(rows);
    GroupsMore(Abs(rows), r.key, r.cell, name);
  }

  lemma {:induction false} UniquePrefix(rows: Rows, n: nat)
    requires Unique(rows) && n <= |rows|
    ensures Unique(rows[..n])
    decreases |rows|
  {
    if n < |rows| {
      var front := rows[..|rows| - 1];
      UniquePrefix(front, n);
      assert front[..n] == rows[..n];
    } else {
      assert rows[..n] == rows;
    }
  }

  class NodeCache {
    var rows: Rows

    constructor ()
      ensures rows == []
    {
      rows := [];
    }

    method Exec(s: Stmt)
      requires Unique(rows) && !(s.Insert? && s.key in Abs(rows))
      modifies this
      ensures Unique(rows) && Abs(rows) == MapApply(old(Abs(rows)), s)
    {
      ApplyRefines(rows, s);
      rows := Apply(rows, s);
    }

    method CacheAdd(n: string, g: string, state: NState, now: int)
      requires Unique(rows)
      modifies this
      ensures Unique(rows) && Abs(rows) == Added(old(Abs(rows)), Key(n, g), state, now)
    {
      var cnt := Count(rows, Key(n, g));
      CountIsAbs(rows, Key(n, g));
      if cnt == 0 {
        Exec(Insert(Key(n, g), state, now));
      } else {
        Exec(SetState(Key(n, g), state, now));
      }
    }

    method CacheSetConnected(n: string, g: string, state: NState, now: int, staleAfter: int)
      requires Unique(rows)
      modifies this
      ensures Unique(rows) && Abs(rows) == Marked(old(Abs(rows)), Key(n, g), state, now, staleAfter)
    {
      Exec(SetConnected(Key(n, g), state, now, staleAfter));
    }

    method CacheRemove(n: string, g: Option<string>)
      requires Unique(rows)
      modifies this
      ensures Unique(rows) && Abs(rows) == MapStep(old(Abs(rows)), DelCmd(n, g))
    {
      match g {
        case None => Exec(DeleteName(n));
        case Some(group) => Exec(DeleteKey(Key(n, group)));
      }
    }

    method EmptyCache(which: Option<string>, me: Option<string>, now: int)
      requires Unique(rows)
      modifies this
      ensures Unique(rows) && Abs(rows) == Emptied(old(Abs(rows)), which, me, now)
    {
      EmptyRefines(Abs(rows), which, me, now);
      Exec(EmptyStmt(which, me, now));
    }

    method CacheClean(now: int)
      requires Unique(rows)
      modifies this
      ensures Unique(rows) && Abs(rows) == MapStep(old(Abs(rows)), Purge(now))
    {
      Exec(DeleteStale(now));
    }

    method DisconnectCache()
      requires Unique(rows)
      modifies this
      ensures Unique(rows) && Abs(rows) == MapStep(old(Abs(rows)), Reset)
    {
      Exec(DisconnectAll);
    }

    method LookupCacheGroup(n: string, g: string) returns (cnt: nat)
      ensures cnt > 0 <==> Key(n, g) in Abs(rows)
    {
      cnt := Count(rows, Key(n, g));
      CountIsAbs(rows, Key(n, g));
    }

    method CacheTouch(name: string, now: int)
      requires Unique(rows)
      modifies this
      ensures Unique(rows)
      ensures Abs(rows) == map k | k in old(Abs(rows)) ::
        if k.name == name then old(Abs(rows))[k].(touched := now) else old(Abs(rows))[k]
    {
      Exec(Touch(name, now));
    }

    method MarkLeft(keys: seq<Key>)
      requires Unique(rows)
      modifies this
      ensures Unique(rows) && Abs(rows) == LeftOut(old(Abs(rows)), keys)
    {
      ghost var m := Abs(rows);
      for i := 0 to |keys|
        invariant Unique(rows) && Abs(rows) == LeftOut(m, keys[..i])
      {
        assert keys[..i + 1] == keys[..i] + [keys[i]];
        Exec(SetLeave(keys[i]));
      }
      assert keys[..|keys|] == keys;
    }

    /** spreadLeave: select the groups me is CONNECTED in, then leave each. */
    method SpreadLeave(me: Option<string>, only: Option<string>) returns (left: seq<Key>)
      requires Unique(rows)
      modifies this
      ensures Unique(rows) && Abs(rows) == MapStep(old(Abs(rows)), LeaveCmd(me, only))
      ensures forall k :: k in left <==>
        k in old(Abs(rows)) && Leaves(k, old(Abs(rows))[k], if me.Some? then me.value else "", only)
    {
      ghost var m := Abs(rows);
      var name := if me.Some? then me.value else "";
      left := Selected(rows, name, only);
      forall k ensures k in left <==> k in m && Leaves(k, m[k], name, only) {
        SelectedIsAbs(rows, name, only, k);
      }
      MarkLeft(left);
      assert Abs(rows) == Departed(m, name, only);
    }

    /** isConnected: the number of groups the name is CONNECTED in. */
    method IsConnected(name: string) returns (cnt: nat)
      requires Unique(rows)
      ensures cnt == |ConnectedGroups(Abs(rows), name)|
    {
      cnt := 0;
      for i := 0 to |rows|
        invariant Unique(rows[..i]) && cnt == |ConnectedGroups(Abs(rows[..i]), name)|
      {
        assert rows[..i + 1] == rows[..i] + [rows[i]];
        UniquePrefix(rows, i + 1);
        ConnectedMore(rows[..i], rows[i], name);
        if rows[i].key.name == name && rows[i].cell.state == CONNECTED {
          cnt := cnt + 1;
        }
      }
      assert rows[..|rows|] == rows;
    }

    method JoinMember(group: string, a: Arrival, staleAfter: int)
      requires Unique(rows)
      modifies this
      ensures Unique(rows) && Abs(rows) == JoinOne(old(Abs(rows)), group, a, staleAfter)
    {
      var cnt := LookupCacheGroup(a.name, group);
      if cnt == 0 {
        CacheAdd(a.name, group, CONNECTED, a.added);
      }
      CacheSetConnected(a.name, group, CONNECTED, a.marked, staleAfter);
    }

    /** The JOIN branch of spreadRX. */
    method JoinMessage(group: string, members: seq<Arrival>, staleAfter: int)
      requires Unique(rows)
      modifies this
      ensures Unique(rows) && Abs(rows) == Joined(old(Abs(rows)), group, members, staleAfter)
    {
      ghost var m := Abs(rows);
      JoinedNone(m, group, staleAfter);
      for i := 0 to |members|
        invariant Unique(rows) && Abs(rows) == Joined(m, group, members[..i], staleAfter)
      {
        JoinedMore(m, group, members[..i], members[i], staleAfter);
        assert members[..i + 1] == members[..i] + [members[i]];
        JoinMember(group, members[i], staleAfter);
      }
      assert members[..|members|] == members;
    }

    /** One statement that leaves every row in its place, duplicates or not. */
    method Update(s: Stmt)
      requires InPlace(s)
      modifies this
      ensures rows == UpdatedRows(old(rows), s)
    {
      ApplyInPlace(rows, s);
      rows := Apply(rows, s);
    }

    method FlagMembers(names: seq<string>)
      modifies this
      ensures rows == FlaggedRows(old(rows), names)
    {
      ghost var found := rows;
      for j := 0 to |names|
        invariant rows == FlaggedRows(found, names[..j])
      {
        assert names[..j + 1] == names[..j] + [names[j]];
        FlagMore(found, names[..j], names[j]);
        Update(FlagName(names[j]));
      }
      assert names[..|names|] == names;
    }

    /** One set, from rows without flags: they are without flags again. */
    method OneSet(group: string, names: seq<string>)
      requires NoFlags(rows)
      modifies this
      ensures rows == SplitRows(old(rows), group, [names])
    {
      ForgetRows(rows, group, names);
      FlagMembers(names);
      Update(UnknownUnflagged(group));
      Update(ClearFlags);
    }

    /** The network branch of spreadRX: flag each set's members, forget the unflagged rows of the
        group, clear the flags. Row by row: whatever duplicates there are. */
    method NetworkMessage(group: string, sets: seq<seq<string>>)
      requires NoFlags(rows)
      modifies this
      ensures rows == SplitRows(old(rows), group, sets) && NoFlags(rows)
      ensures Unique(old(rows)) ==> Unique(rows) && Abs(rows) == Split(old(Abs(rows)), group, sets)
    {
      ghost var found := rows;
      SplitRowsAbs(found, group, sets);
      for i := 0 to |sets|
        invariant rows == SplitRows(found, group, sets[..i]) && NoFlags(rows)
      {
        SplitRowsMore(found, group, sets[..i], sets[i]);
        assert sets[..i + 1] == sets[..i] + [sets[i]];
        OneSet(group, sets[i]);
      }
      assert sets[..|sets|] == sets;
    }

    method Handle(e: CacheEvent)
      requires Unique(rows) && Clear(Abs(rows))
      modifies this
      ensures Unique(rows) && Clear(Abs(rows)) && Abs(rows) == MapStep(old(Abs(rows)), e)
    {
      match e {
        case RegularMsg(empty, purge) =>
          if empty.Some? { EmptyCache(empty.value.which, empty.value.me, empty.value.now); }
          if purge.Some? { CacheClean(purge.value); }
        case JoinMsg(group, members, staleAfter) => JoinMessage(group, members, staleAfter);
        case LeaveMsg(name, group, now, staleAfter) => CacheSetConnected(name, group, LEAVE, now, staleAfter);
        case DisconnectMsg(name, group, now, staleAfter) =>
          CacheSetConnected(name, group, DISCONNECTED, now, staleAfter);
        case NetworkMsg(group, sets) =>
          ClearRows(rows);
          NetworkMessage(group, sets);
        case AddCmd(name, group, now) => CacheAdd(name, group, UNKNOWN, now);
        case DelCmd(name, from) => CacheRemove(name, from);
        case EmptyCmd(which, me, now) => EmptyCache(which, me, now);
        case LeaveCmd(me, only) =>
          var groups := SpreadLeave(me, only);
        case Purge(now) => CacheClean(now);
        case Reset => DisconnectCache();
      }
    }

    /** Any sequence of messages and commands: the rows are the fold of the events over a map. */
    method HandleAll(es: seq<CacheEvent>)
      requires Unique(rows) && Clear(Abs(rows))
      modifies this
      ensures Unique(rows) && Clear(Abs(rows)) && Abs(rows) == MapRun(old(Abs(rows)), es)
    {
      ghost var m := Abs(rows);
      for i := 0 to |es|
        invariant Unique(rows) && Clear(Abs(rows)) && Abs(rows) == MapRun(m, es[..i])
      {
        assert es[..i + 1][..i] == es[..i];
        Handle(es[i]);
      }
      assert es[..|es|] == es;
    }
  }
}
