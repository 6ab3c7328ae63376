/** One thread of the interleaved model running on its own does what the cache functions do: its
    program for a message or a command has the effect of that event on the map. */
module OneThread {
  import opened CString
  import opened NodeRows
  import Caches = NodeCaches
  import opened Session

  /** s leads to mid, where thread i is about to take its next block and nobody holds the lock. */
  predicate AtWork(s: System, acts: seq<Action>, mid: System, i: nat) {
    Play(s, acts) == Some(mid) && mid.lock == None && i < |mid.threads| && mid.threads[i].phase == Idle
  }

  /** mid once thread i has done some of its program. */
  function Worked(mid: System, i: nat, rows: Rows, log: seq<Stmt>, todo: seq<Block>): System
    requires i < |mid.threads|
  {
    mid.(rows := rows, log := log, threads := mid.threads[i := Thread(Idle, todo)])
  }

  lemma {:induction false} PlayMore(s: System, acts: seq<Action>, a: Action)
    requires Play(s, acts).Some? && Enabled(Play(s, acts).value, a)
    ensures Play(s, acts + [a]) == Some(Step(Play(s, acts).value, a))
  {
    assert (acts + [a])[..|acts|] == acts;
  }

  lemma {:induction false} RunOnce(s: System, acts: seq<Action>, mid: System, i: nat) returns (more: seq<Action>)
    requires Play(s, acts) == Some(mid) && CanRun(mid, i)
    ensures Play(s, more) == Some(RunThread(mid, i))
  {
    more := acts + [Run(i)];
    PlayMore(s, acts, Run(i));
  }

  // ----- single blocks -----

  lemma {:induction false} LockedAlone(s: System, acts: seq<Action>, mid: System, i: nat) returns (more: seq<Action>)
    requires AtWork(s, acts, mid, i) && mid.threads[i].todo != [] && mid.threads[i].todo[0].Locked?
    ensures var todo := mid.threads[i].todo;
            Play(s, more) == Some(Worked(mid, i, Apply(mid.rows, todo[0].s), mid.log + [todo[0].s], todo[1..]))
  {
    more := RunOnce(s, acts, mid, i);
    var t1 := RunThread(mid, i);
    more := RunOnce(s, more, t1, i);
    var t2 := RunThread(t1, i);
    more := RunOnce(s, more, t2, i);
    assert RunThread(t2, i).threads == mid.threads[i := Thread(Idle, mid.threads[i].todo[1..])];
  }

  lemma {:induction false} BareAlone(s: System, acts: seq<Action>, mid: System, i: nat) returns (more: seq<Action>)
    requires AtWork(s, acts, mid, i) && mid.threads[i].todo != [] && mid.threads[i].todo[0].Bare?
    ensures var todo := mid.threads[i].todo;
            Play(s, more) == Some(Worked(mid, i, Apply(mid.rows, todo[0].s), mid.log + [todo[0].s], todo[1..]))
  {
    more := RunOnce(s, acts, mid, i);
  }

  /** The statement cacheAdd runs when nothing comes between. */
  function AddStmt(rows: Rows, key: Key, state: NState, now: int): Stmt {
    if Count(rows, key) == 0 then Insert(key, state, now) else SetState(key, state, now)
  }

  lemma {:induction false} AddAlone(s: System, acts: seq<Action>, mid: System, i: nat) returns (more: seq<Action>)
    requires AtWork(s, acts, mid, i) && mid.threads[i].todo != [] && mid.threads[i].todo[0].Add?
    ensures var todo := mid.threads[i].todo;
            var stmt := AddStmt(mid.rows, todo[0].key, todo[0].state, todo[0].now);
            Play(s, more) == Some(Worked(mid, i, Apply(mid.rows, stmt), mid.log + [stmt], todo[1..]))
  {
    more := RunOnce(s, acts, mid, i);
    var t1 := RunThread(mid, i);
    more := RunOnce(s, more, t1, i);
    var t2 := RunThread(t1, i);
    more := RunOnce(s, more, t2, i);
    var t3 := RunThread(t2, i);
    more := RunOnce(s, more, t3, i);
    assert RunThread(t3, i).threads == mid.threads[i := Thread(Idle, mid.threads[i].todo[1..])];
  }

  // ----- a whole program on the map -----

  function AddIfNew(m: Nodes, key: Key, now: int): Nodes {
    if key in m then m else Caches.Added(m, key, CONNECTED, now)
  }

  /** What a block does to the map when its thread runs alone. */
  function MapBlock(m: Nodes, b: Block): Nodes {
    match b
    case Add(key, state, now) => Caches.Added(m, key, state, now)
    case Locked(s) => MapApply(m, s)
    case Bare(s) => MapApply(m, s)
    case AddIfAbsent(key, now) => AddIfNew(m, key, now)
    case LeaveRows(me, group) => Caches.Departed(m, me, group)
  }

  function MapBlocks(m: Nodes, todo: seq<Block>): Nodes
    decreases |todo|
  {
    if todo == [] then m else MapBlocks(MapBlock(m, todo[0]), todo[1..])
  }

  lemma {:induction false} AddRefines(rows: Rows, key: Key, state: NState, now: int)
    requires Unique(rows)
    ensures var after := Apply(rows, AddStmt(rows, key, state, now));
            Unique(after) && Abs(after) == Caches.Added(Abs(rows), key, state, now)
  {
    CountIsAbs(rows, key);
    ApplyRefines(rows, AddStmt(rows, key, state, now));
  }

  lemma {:induction false} LeaveFirst(rows: Rows, keys: seq<Key>)
    requires Unique(rows) && keys != []
    ensures var after := Apply(rows, SetLeave(keys[0]));
            Unique(after) && Caches.LeftOut(Abs(after), keys[1..]) == Caches.LeftOut(Abs(rows), keys)
  {
    ApplyRefines(rows, SetLeave(keys[0]));
  }

  lemma {:induction false} FirstLeave(keys: seq<Key>, rest: seq<Block>)
    requires keys != []
    ensures var todo := LeaveBlocks(keys) + rest;
            todo[0] == Bare(SetLeave(keys[0])) && todo[1..] == LeaveBlocks(keys[1..]) + rest
  {
  }

  /** The blocks of plain updates, as spreadLeave's loop makes them. */
  lemma {:induction false} LeavesAlone(s: System, acts: seq<Action>, mid: System, i: nat, keys: seq<Key>,
        rest: seq<Block>) returns (more: seq<Action>, now: System)
    requires AtWork(s, acts, mid, i) && Unique(mid.rows) && mid.threads[i].todo == LeaveBlocks(keys) + rest
    ensures Play(s, more) == Some(now) && now == Worked(mid, i, now.rows, now.log, rest)
    ensures Unique(now.rows) && Abs(now.rows) == Caches.LeftOut(Abs(mid.rows), keys)
    decreases |keys|
  {
    if keys == [] {
      more, now := acts, mid;
      assert LeaveBlocks(keys) + rest == rest && mid.threads == mid.threads[i := Thread(Idle, rest)];
    } else {
      var todo := mid.threads[i].todo;
      FirstLeave(keys, rest);
      more := BareAlone(s, acts, mid, i);
      LeaveFirst(mid.rows, keys);
      var next := Worked(mid, i, Apply(mid.rows, SetLeave(keys[0])), mid.log + [SetLeave(keys[0])], todo[1..]);
      more, now := LeavesAlone(s, more, next, i, keys[1..], rest);
    }
  }

  lemma {:induction false} SelectAlone(s: System, acts: seq<Action>, mid: System, i: nat)
    returns (more: seq<Action>, now: System)
    requires AtWork(s, acts, mid, i) && Unique(mid.rows)
    requires mid.threads[i].todo != [] && mid.threads[i].todo[0].LeaveRows?
    ensures Play(s, more) == Some(now) && now == Worked(mid, i, now.rows, now.log, mid.threads[i].todo[1..])
    ensures Unique(now.rows) && Abs(now.rows) == MapBlock(Abs(mid.rows), mid.threads[i].todo[0])
  {
    var b, rest := mid.threads[i].todo[0], mid.threads[i].todo[1..];
    var keys := Selected(mid.rows, b.me, b.group);
    var m := Abs(mid.rows);
    more := RunOnce(s, acts, mid, i);
    more, now := LeavesAlone(s, more, RunThread(mid, i), i, keys, rest);
    forall k ensures k in keys <==> k in m && Leaves(k, m[k], b.me, b.group) {
      SelectedIsAbs(mid.rows, b.me, b.group, k);
    }
    assert Caches.LeftOut(m, keys) == Caches.Departed(m, b.me, b.group);
  }

  lemma {:induction false} LookAlone(s: System, acts: seq<Action>, mid: System, i: nat)
    returns (more: seq<Action>, now: System)
    requires AtWork(s, acts, mid, i) && Unique(mid.rows)
    requires mid.threads[i].todo != [] && mid.threads[i].todo[0].AddIfAbsent?
    ensures Play(s, more) == Some(now) && now == Worked(mid, i, now.rows, now.log, mid.threads[i].todo[1..])
    ensures Unique(now.rows) && Abs(now.rows) == MapBlock(Abs(mid.rows), mid.threads[i].todo[0])
  {
    var b, rest := mid.threads[i].todo[0], mid.threads[i].todo[1..];
    CountIsAbs(mid.rows, b.key);
    more := RunOnce(s, acts, mid, i);
    now := RunThread(mid, i);
    if Count(mid.rows, b.key) == 0 {
      assert now.threads[i].todo == [Add(b.key, CONNECTED, b.now)] + rest;
      AddRefines(mid.rows, b.key, CONNECTED, b.now);
      more := AddAlone(s, more, now, i);
      now := Play(s, more).value;
    } else {
      assert [] + rest == rest;
    }
  }

  lemma {:induction false} BlockAlone(s: System, acts: seq<Action>, mid: System, i: nat)
    returns (more: seq<Action>, now: System)
    requires AtWork(s, acts, mid, i) && Unique(mid.rows) && mid.threads[i].todo != []
    ensures Play(s, more) == Some(now) && now == Worked(mid, i, now.rows, now.log, mid.threads[i].todo[1..])
    ensures Unique(now.rows) && Abs(now.rows) == MapBlock(Abs(mid.rows), mid.threads[i].todo[0])
  {
    match mid.threads[i].todo[0]
    case Add(key, state, at) =>
      AddRefines(mid.rows, key, state, at);
      more := AddAlone(s, acts, mid, i);
      now := Play(s, more).value;
    case Locked(stmt) =>
      ApplyRefines(mid.rows, stmt);
      more := LockedAlone(s, acts, mid, i);
      now := Play(s, more).value;
    case Bare(stmt) =>
      ApplyRefines(mid.rows, stmt);
      more := BareAlone(s, acts, mid, i);
      now := Play(s, more).value;
    case AddIfAbsent(_, _) => more, now := LookAlone(s, acts, mid, i);
    case LeaveRows(_, _) => more, now := SelectAlone(s, acts, mid, i);
  }

  lemma {:induction false} ProgramAlone(s: System, acts: seq<Action>, mid: System, i: nat)
    returns (more: seq<Action>, now: System)
    requires AtWork(s, acts, mid, i) && Unique(mid.rows)
    ensures Play(s, more) == Some(now) && now == Worked(mid, i, now.rows, now.log, [])
    ensures Unique(now.rows) && Abs(now.rows) == MapBlocks(Abs(mid.rows), mid.threads[i].todo)
    decreases |mid.threads[i].todo|
  {
    if mid.threads[i].todo == [] {
      more, now := acts, mid;
      assert mid.threads == mid.threads[i := Thread(Idle, [])];
    } else {
      more, now := BlockAlone(s, acts, mid, i);
      more, now := ProgramAlone(s, more, now, i);
    }
  }

  // ----- the programs of the events -----

  function EmptyStmtOf(empty: Option<Caches.EmptyCall>): Option<Sweeping> {
    if empty == None then None
    else Some(Caches.EmptyStmt(empty.value.which, empty.value.me, empty.value.now))
  }

  /** The program a thread runs for an event of the cache, with DEBUG off. */
  function Program(e: Caches.CacheEvent): seq<Block> {
    match e
    case RegularMsg(empty, purge) => MessageProgram(Regular("", [], EmptyStmtOf(empty), purge))
    case JoinMsg(group, members, staleAfter) => MessageProgram(JoinMsg(group, members, staleAfter))
    case LeaveMsg(name, group, now, staleAfter) => MessageProgram(LeaveMsg(group, [], name, now, staleAfter))
    case DisconnectMsg(name, group, now, staleAfter) =>
      MessageProgram(DisconnectMsg(group, [], name, now, staleAfter))
    case NetworkMsg(group, sets) => MessageProgram(NetworkMsg(group, [], sets))
    case AddCmd(name, group, now) => CommandProgram(AddNode(name, group, now))
    case DelCmd(name, from) => CommandProgram(DelNode(name, from))
    case EmptyCmd(which, me, now) => CommandProgram(Empty(Caches.EmptyStmt(which, me, now)))
    case LeaveCmd(me, only) => CommandProgram(LeaveGroup(if me.Some? then me.value else "", only))
    case Purge(now) => MessageProgram(Regular("", [], None, Some(now)))
    case Reset => CommandProgram(Shutdown)
  }

  lemma {:induction false} BlocksAppend(m: Nodes, a: seq<Block>, b: seq<Block>)
    ensures MapBlocks(m, a + b) == MapBlocks(MapBlocks(m, a), b)
    decreases |a|
  {
    if a == [] {
      assert a + b == b;
    } else {
      assert (a + b)[1..] == a[1..] + b;
      BlocksAppend(MapBlock(m, a[0]), a[1..], b);
    }
  }

  lemma {:induction false} BlocksOne(m: Nodes, b: Block)
    ensures MapBlocks(m, [b]) == MapBlock(m, b)
  {
    assert [b][1..] == [];
  }

  lemma {:induction false} BlocksTwo(m: Nodes, a: Block, b: Block)
    ensures MapBlocks(m, [a, b]) == MapBlock(MapBlock(m, a), b)
  {
    BlocksAppend(m, [a], [b]);
    BlocksOne(m, a);
    BlocksOne(MapBlock(m, a), b);
    assert [a] + [b] == [a, b];
  }

  lemma {:induction false} MarkIsApply(m: Nodes, k: Key, state: NState, now: int, sa: int)
    ensures MapApply(m, SetConnected(k, state, now, sa)) == Caches.Marked(m, k, state, now, sa)
  {
  }

  lemma {:induction false} ListedFirst(members: seq<Arrival>, name: string)
    requires members != []
    ensures var a, rest := members[0], members[1..];
            && (Caches.Listed(members, name) <==> a.name == name || Caches.Listed(rest, name))
            && (Caches.Listed(rest, name) ==> Caches.MarkedAt(members, name) == Caches.MarkedAt(rest, name))
            && (!Caches.Listed(rest, name) && a.name == name ==> Caches.MarkedAt(members, name) == a.marked)
  {
    if |members| == 1 {
    } else {
      var front, last := members[..|members| - 1], members[|members| - 1];
      ListedFirst(front, name);
      assert front + [last] == members && front[1..] + [last] == members[1..];
      Caches.ListedMore(front, last, name);
      Caches.ListedMore(front[1..], last, name);
    }
  }

  lemma {:induction false} JoinedFirstAt(m: Nodes, group: string, members: seq<Arrival>, sa: int,
        one: Nodes, rest: Nodes, all: Nodes, k: Key)
    requires members != [] && one == Caches.JoinOne(m, group, members[0], sa)
    requires Caches.JoinedKey(rest, one, group, members[1..], sa, k) && Caches.JoinedKey(all, m, group, members, sa, k)
    ensures (k in rest <==> k in all) && (k in all ==> rest[k] == all[k])
  {
    Caches.JoinOneAt(m, group, members[0], sa, one, k);
    ListedFirst(members, k.name);
  }

  lemma {:induction false} JoinedFirst(m: Nodes, group: string, members: seq<Arrival>, sa: int)
    requires members != []
    ensures Caches.Joined(Caches.JoinOne(m, group, members[0], sa), group, members[1..], sa)
         == Caches.Joined(m, group, members, sa)
  {
    var one := Caches.JoinOne(m, group, members[0], sa);
    var all, rest := Caches.Joined(m, group, members, sa), Caches.Joined(one, group, members[1..], sa);
    forall k ensures k in rest <==> k in all ensures k in all ==> rest[k] == all[k] {
      Caches.JoinedAt(m, group, members, sa, k);
      Caches.JoinedAt(one, group, members[1..], sa, k);
      JoinedFirstAt(m, group, members, sa, one, rest, all, k);
    }
  }

  lemma {:induction false} JoinIsJoined(m: Nodes, group: string, members: seq<Arrival>, sa: int)
    ensures MapBlocks(m, JoinProgram(group, members, sa)) == Caches.Joined(m, group, members, sa)
    decreases |members|
  {
    if members == [] {
      Caches.JoinedNone(m, group, sa);
    } else {
      var a := members[0];
      var k := Key(a.name, group);
      var look, mark := AddIfAbsent(k, a.added), Locked(SetConnected(k, CONNECTED, a.marked, sa));
      BlocksAppend(m, [look, mark], JoinProgram(group, members[1..], sa));
      BlocksTwo(m, look, mark);
      MarkIsApply(AddIfNew(m, k, a.added), k, CONNECTED, a.marked, sa);
      JoinIsJoined(Caches.JoinOne(m, group, a, sa), group, members[1..], sa);
      JoinedFirst(m, group, members, sa);
    }
  }

  lemma {:induction false} FlagsAreFlagged(m: Nodes, names: seq<string>)
    ensures MapBlocks(m, FlagProgram(names)) == Caches.Flagged(m, names)
    decreases |names|
  {
    if names == [] {
    } else {
      var next := MapApply(m, FlagName(names[0]));
      assert FlagProgram(names)[0] == Locked(FlagName(names[0]));
      assert FlagProgram(names)[1..] == FlagProgram(names[1..]);
      FlagsAreFlagged(next, names[1..]);
      assert Caches.Flagged(next, names[1..]) == Caches.Flagged(m, names);
    }
  }

  lemma {:induction false} LostFirst(name: string, sets: seq<seq<string>>)
    requires sets != []
    ensures Caches.Lost(name, sets) <==> name !in sets[0] || Caches.Lost(name, sets[1..])
  {
    assert forall i :: 0 <= i < |sets[1..]| ==> sets[1..][i] == sets[i + 1];
    if Caches.Lost(name, sets) && name in sets[0] {
      var i :| 0 <= i < |sets| && name !in sets[i];
      assert name !in sets[1..][i - 1];
    }
  }

  lemma {:induction false} SplitFirst(m: Nodes, group: string, sets: seq<seq<string>>)
    requires Caches.Clear(m) && sets != []
    ensures var next := Caches.Forgotten(Caches.Flagged(m, sets[0]), group);
            Caches.Clear(next) && Caches.Split(next, group, sets[1..]) == Caches.Split(m, group, sets)
  {
    forall k | k in m
      ensures Caches.Lost(k.name, sets) <==> k.name !in sets[0] || Caches.Lost(k.name, sets[1..])
    {
      LostFirst(k.name, sets);
    }
  }

  lemma {:induction false} NetworkIsSplit(m: Nodes, group: string, sets: seq<seq<string>>)
    requires Caches.Clear(m)
    ensures MapBlocks(m, NetworkProgram(group, sets)) == Caches.Split(m, group, sets)
    decreases |sets|
  {
    if sets == [] {
    } else {
      var flags, a, b := FlagProgram(sets[0]), Locked(UnknownUnflagged(group)), Locked(ClearFlags);
      var flagged := Caches.Flagged(m, sets[0]);
      BlocksAppend(m, flags + [a, b], NetworkProgram(group, sets[1..]));
      BlocksAppend(m, flags, [a, b]);
      FlagsAreFlagged(m, sets[0]);
      BlocksTwo(flagged, a, b);
      Caches.ForgetIsApply(flagged, group);
      SplitFirst(m, group, sets);
      NetworkIsSplit(Caches.Forgotten(flagged, group), group, sets[1..]);
    }
  }

  /** A regular message: its ^empty, then the purge. */
  lemma {:induction false} RegularIsStep(m: Nodes, sender: string, targets: seq<string>,
        empty: Option<Caches.EmptyCall>, purge: Option<int>)
    ensures MapBlocks(m, MessageProgram(Regular(sender, targets, EmptyStmtOf(empty), purge)))
         == Caches.MapStep(m, Caches.RegularMsg(empty, purge))
  {
    var a := if empty.Some? then [Locked(EmptyStmtOf(empty).value)] else [];
    var b := if purge.Some? then [Locked(DeleteStale(purge.value))] else [];
    var m1 := MapBlocks(m, a);
    BlocksAppend(m, a, b);
    if empty.Some? {
      BlocksOne(m, a[0]);
      Caches.EmptyRefines(m, empty.value.which, empty.value.me, empty.value.now);
    }
    if purge.Some? {
      BlocksOne(m1, b[0]);
      Caches.EmptyRefines(m1, Some("stale"), None, purge.value);
    }
  }

  lemma {:induction false} SingleIsStep(m: Nodes, e: Caches.CacheEvent)
    requires !e.JoinMsg? && !e.NetworkMsg? && !e.RegularMsg?
    ensures MapBlocks(m, Program(e)) == Caches.MapStep(m, e)
  {
    BlocksOne(m, Program(e)[0]);
    match e
    case LeaveMsg(name, group, now, sa) => MarkIsApply(m, Key(name, group), LEAVE, now, sa);
    case DisconnectMsg(name, group, now, sa) => MarkIsApply(m, Key(name, group), DISCONNECTED, now, sa);
    case EmptyCmd(which, me, now) => Caches.EmptyRefines(m, which, me, now);
    case Purge(now) => Caches.EmptyRefines(m, Some("stale"), None, now);
    case _ =>
  }

  lemma {:induction false} ProgramIsStep(m: Nodes, e: Caches.CacheEvent)
    requires Caches.Clear(m)
    ensures MapBlocks(m, Program(e)) == Caches.MapStep(m, e)
  {
    match e
    case RegularMsg(empty, purge) => RegularIsStep(m, "", [], empty, purge);
    case JoinMsg(group, members, sa) => JoinIsJoined(m, group, members, sa);
    case NetworkMsg(group, sets) => NetworkIsSplit(m, group, sets);
    case _ => SingleIsStep(m, e);
  }

  /** A thread that runs alone takes the rows through exactly the step of the cache functions. */
  lemma {:induction false} EventAlone(s: System, acts: seq<Action>, mid: System, i: nat, e: Caches.CacheEvent)
    returns (more: seq<Action>, now: System)
    requires AtWork(s, acts, mid, i) && mid.threads[i].todo == Program(e)
    requires Unique(mid.rows) && Caches.Clear(Abs(mid.rows))
    ensures Play(s, more) == Some(now) && now == Worked(mid, i, now.rows, now.log, [])
    ensures Unique(now.rows) && Abs(now.rows) == Caches.MapStep(Abs(mid.rows), e)
  {
    more, now := ProgramAlone(s, acts, mid, i);
    ProgramIsStep(Abs(mid.rows), e);
  }

  // ----- connect attempts -----

  /** After a failed dial the receive thread wipes the cache twice before it can dial again, once for
      the failure and once at the start of the next attempt; after a lost session, once. */
  lemma {:induction false} WipesBeforeDial(s: System, acts: seq<Action>, mid: System, lost: bool)
    returns (more: seq<Action>, now: System)
    requires Play(s, acts) == Some(mid) && mid.lock == None && Enabled(mid, if lost then Lose else Dial(false))
    ensures Play(s, more) == Some(now) && Enabled(now, Dial(true))
    ensures now.log == mid.log + if lost then [DisconnectAll] else [DisconnectAll, DisconnectAll]
  {
    var a := if lost then Lose else Dial(false);
    PlayMore(s, acts, a);
    more, now := acts + [a], Step(mid, a);
    var log := now.log;
    if !lost {
      more := LockedAlone(s, more, now, 0);
      now := Play(s, more).value;
      assert now.threads[0].todo == [Wipe()];
    }
    more := LockedAlone(s, more, now, 0);
    assert now.threads[0].todo[1..] == [];
    now := Play(s, more).value;
    assert log + [DisconnectAll] + [DisconnectAll] == log + [DisconnectAll, DisconnectAll];
  }

  /** Until then it cannot: a dial needs the thread at rest. */
  lemma {:induction false} NoDialBeforeWipes(s: System, lost: bool)
    requires Enabled(s, if lost then Lose else Dial(false))
    ensures var now := Step(s, if lost then Lose else Dial(false));
            !Enabled(now, Dial(true)) && !Enabled(now, Dial(false)) && now.rx == Connecting
  {
  }
}
