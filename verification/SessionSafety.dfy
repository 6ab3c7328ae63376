/** While spreadRX receives, a CONNECTED row is there because of this session's messages. */
module SessionSafety {
  import opened NodeRows
  import opened Session

  /** m is a JOIN that lists the name in the group. */
  predicate Joins(m: Message, k: Key) {
    m.JoinMsg? && m.group == k.group && k.name in Names(m.members)
  }

  /** What a message stands for: its joins and, with DEBUG on, its targets under its sender. */
  predicate Puts(m: Message, k: Key, debug: bool) {
    Joins(m, k) ||
    (debug && match m
              case Regular(sender, targets, _, _) => k.group == sender && k.name in targets
              case OtherMsg(sender, targets) => k.group == sender && k.name in targets
              case JoinMsg(_, _, _) => false
              case _ => k.group == m.group && k.name in m.listed)
  }

  predicate Ends(m: Message, k: Key) {
    (m.LeaveMsg? || m.DisconnectMsg?) && m.group == k.group && m.name == k.name
  }

  /** Some message of the session puts k and no later LEAVE or DISCONNECT ends it. */
  ghost predicate Justified(hist: seq<Message>, k: Key, debug: bool) {
    exists i :: 0 <= i < |hist| && Puts(hist[i], k, debug) && forall j :: i < j < |hist| ==> !Ends(hist[j], k)
  }

  lemma {:induction false} JustifiedMore(hist: seq<Message>, m: Message, k: Key, debug: bool)
    ensures Justified(hist + [m], k, debug) <==> Puts(m, k, debug) || (Justified(hist, k, debug) && !Ends(m, k))
  {
    var more := hist + [m];
    assert more[|hist|] == m;
    if Justified(hist, k, debug) && !Ends(m, k) {
      var i :| 0 <= i < |hist| && Puts(hist[i], k, debug) && forall j :: i < j < |hist| ==> !Ends(hist[j], k);
      assert Puts(more[i], k, debug);
    }
    if Justified(more, k, debug) && !Puts(m, k, debug) {
      var i :| 0 <= i < |more| && Puts(more[i], k, debug) && forall j :: i < j < |more| ==> !Ends(more[j], k);
      assert Puts(hist[i], k, debug);
      assert forall j :: i < j < |hist| ==> hist[j] == more[j];
      assert !Ends(more[|hist|], k);
    }
  }

  // ----- what a thread can still do to a row -----

  /** The statement can make k CONNECTED. */
  predicate Marks(s: Stmt, k: Key) {
    (s.SetConnected? || s.SetState? || s.Insert?) && s.key == k && s.state == CONNECTED
  }

  predicate BlockMarks(b: Block, k: Key) {
    match b
    case Add(key, state, _) => key == k && state == CONNECTED
    case Locked(s) => Marks(s, k)
    case Bare(s) => Marks(s, k)
    case AddIfAbsent(key, _) => key == k
    case LeaveRows(_, _) => false
  }

  predicate PhaseMarks(p: Phase, k: Key) {
    match p
    case Counting(key, state, _) => key == k && state == CONNECTED
    case Writing(key, state, _, _) => key == k && state == CONNECTED
    case Running(s) => Marks(s, k)
    case _ => false
  }

  predicate TodoMarks(todo: seq<Block>, k: Key) {
    todo != [] && (BlockMarks(todo[0], k) || TodoMarks(todo[1..], k))
  }

  predicate ThreadMarks(t: Thread, k: Key) {
    PhaseMarks(t.phase, k) || TodoMarks(t.todo, k)
  }

  /** The statement takes k out of CONNECTED for good: its own end, or a wipe of all. */
  predicate Clears(s: Stmt, k: Key) {
    s == DisconnectAll || (s.SetConnected? && s.key == k && s.state != CONNECTED)
  }

  predicate TodoClears(todo: seq<Block>, k: Key) {
    todo != [] && (((todo[0].Locked? || todo[0].Bare?) && Clears(todo[0].s, k)) || TodoClears(todo[1..], k))
  }

  predicate ThreadClears(t: Thread, k: Key) {
    (t.phase.Running? && Clears(t.phase.s, k)) || TodoClears(t.todo, k)
  }

  /** Some row of k is CONNECTED. */
  ghost predicate Connected(rows: Rows, k: Key) {
    exists r :: r in rows && r.key == k && r.cell.state == CONNECTED
  }

  lemma {:induction false} TodoAppend(a: seq<Block>, b: seq<Block>, k: Key)
    ensures TodoMarks(a + b, k) <==> TodoMarks(a, k) || TodoMarks(b, k)
    ensures TodoClears(a + b, k) <==> TodoClears(a, k) || TodoClears(b, k)
  {
    if a == [] {
      assert a + b == b;
    } else {
      assert (a + b)[1..] == a[1..] + b;
      TodoAppend(a[1..], b, k);
    }
  }

  lemma {:induction false} TodoOne(b: Block, k: Key)
    ensures TodoMarks([b], k) <==> BlockMarks(b, k)
    ensures TodoClears([b], k) <==> (b.Locked? || b.Bare?) && Clears(b.s, k)
  {
    assert [b][1..] == [];
  }

  lemma {:induction false} TodoTwo(a: Block, b: Block, k: Key)
    ensures TodoMarks([a, b], k) <==> BlockMarks(a, k) || BlockMarks(b, k)
    ensures TodoClears([a, b], k) <==> TodoClears([a], k) || TodoClears([b], k)
  {
    TodoAppend([a], [b], k);
    TodoOne(a, k);
    TodoOne(b, k);
    assert [a] + [b] == [a, b];
  }

  lemma {:induction false} UpdatedConnected(s: Stmt, k: Key, c: Cell)
    requires !s.Insert? && Updated(s, k, c).state == CONNECTED
    ensures (c.state == CONNECTED || Marks(s, k)) && !Clears(s, k)
  {
  }

  lemma {:induction false} ApplyConnected(rows: Rows, s: Stmt, k: Key)
    requires Connected(Apply(rows, s), k)
    ensures Connected(rows, k) || Marks(s, k)
    ensures !Clears(s, k)
  {
    var r :| r in Apply(rows, s) && r.key == k && r.cell.state == CONNECTED;
    if !s.Insert? {
      ApplyRows(rows, s, r);
      var q :| q in rows && Keeps(s, q.key, q.cell) && r == Row(q.key, Updated(s, q.key, q.cell));
      UpdatedConnected(s, k, q.cell);
    }
  }

  lemma {:induction false} LeaveBlocksQuiet(keys: seq<Key>, k: Key)
    ensures !TodoMarks(LeaveBlocks(keys), k) && !TodoClears(LeaveBlocks(keys), k)
  {
    if keys == [] {
    } else {
      assert LeaveBlocks(keys)[1..] == LeaveBlocks(keys[1..]);
      LeaveBlocksQuiet(keys[1..], k);
    }
  }

  /** One step of thread i: a row gets CONNECTED only if the thread could mark it, the thread's
      marks only shrink, and a pending clear is either still pending or has been done. */
  lemma {:induction false} RunEffect(s: System, i: nat, k: Key)
    requires CanRun(s, i)
    ensures var t, now := s.threads[i], RunThread(s, i);
            && (ThreadMarks(now.threads[i], k) ==> ThreadMarks(t, k))
            && (Connected(now.rows, k) ==> Connected(s.rows, k) || ThreadMarks(t, k))
            && (ThreadClears(t, k) && Connected(now.rows, k) ==> ThreadClears(now.threads[i], k))
  {
    var t := s.threads[i];
    var now := RunThread(s, i);
    match t.phase
    case Counting(_, _, _) =>
    case Writing(key, state, at, cnt) =>
      if Connected(now.rows, k) {
        ApplyConnected(s.rows, if cnt == 0 then Insert(key, state, at) else SetState(key, state, at), k);
      }
    case Running(stmt) => if Connected(now.rows, k) { ApplyConnected(s.rows, stmt, k); }
    case Releasing =>
    case Idle =>
      if t.todo != [] {
        var rest := t.todo[1..];
        match t.todo[0]
        case Add(_, _, _) =>
        case Locked(_) =>
        case Bare(stmt) => if Connected(now.rows, k) { ApplyConnected(s.rows, stmt, k); }
        case AddIfAbsent(key, at) =>
          TodoAppend([Add(key, CONNECTED, at)], rest, k);
          assert [] + rest == rest;
        case LeaveRows(me, group) =>
          LeaveBlocksQuiet(Selected(s.rows, me, group), k);
          TodoAppend(LeaveBlocks(Selected(s.rows, me, group)), rest, k);
      }
  }

  // ----- the invariant -----

  /** k is justified by the session that is running. */
  ghost predicate Backed(s: System, k: Key) {
    s.rx != Connecting && Justified(s.hist, k, s.debug)
  }

  /** Command threads mark nothing; the receive thread marks, and leaves CONNECTED, only what the
      session justifies or what it is about to clear. */
  ghost predicate Safe(s: System) {
    && |s.threads| > 0
    && (s.rx == Receiving ==> Resting(s, 0))
    && (forall i, k :: 0 < i < |s.threads| ==> !ThreadMarks(s.threads[i], k))
    && (forall k :: ThreadMarks(s.threads[0], k) ==> Backed(s, k))
    && (forall k :: Connected(s.rows, k) ==> ThreadClears(s.threads[0], k) || Backed(s, k))
  }

  lemma {:induction false} RunSafe(s: System, i: nat)
    requires Safe(s) && CanRun(s, i)
    ensures Safe(RunThread(s, i))
  {
    var now := RunThread(s, i);
    forall k
      ensures ThreadMarks(now.threads[i], k) ==> ThreadMarks(s.threads[i], k)
      ensures Connected(now.rows, k) ==> Connected(s.rows, k) || ThreadMarks(s.threads[i], k)
      ensures ThreadClears(s.threads[i], k) && Connected(now.rows, k) ==> ThreadClears(now.threads[i], k)
    {
      RunEffect(s, i, k);
    }
    assert forall j :: 0 <= j < |s.threads| && j != i ==> now.threads[j] == s.threads[j];
    assert forall k :: Backed(s, k) ==> Backed(now, k);
  }

  lemma {:induction false} CommandQuiet(c: Command, k: Key)
    ensures !TodoMarks(CommandProgram(c), k)
  {
    if CommandProgram(c) != [] { TodoOne(CommandProgram(c)[0], k); }
  }

  lemma {:induction false} JoinProgramMarks(group: string, members: seq<Arrival>, sa: int, k: Key)
    ensures TodoMarks(JoinProgram(group, members, sa), k) <==> k.group == group && k.name in Names(members)
  {
    if members == [] {
    } else {
      var a := members[0];
      var key := Key(a.name, group);
      var two := [AddIfAbsent(key, a.added), Locked(SetConnected(key, CONNECTED, a.marked, sa))];
      JoinProgramMarks(group, members[1..], sa, k);
      TodoAppend(two, JoinProgram(group, members[1..], sa), k);
      TodoTwo(two[0], two[1], k);
      assert Names(members)[0] == a.name && Names(members)[1..] == Names(members[1..]);
    }
  }

  lemma {:induction false} DebugAddsMark(targets: seq<string>, sender: string, k: Key)
    ensures TodoMarks(DebugAdds(targets, sender), k) <==> k.group == sender && k.name in targets
  {
    if targets == [] {
    } else {
      assert DebugAdds(targets, sender)[0] == Add(Key(targets[0], sender), CONNECTED, 0);
      assert DebugAdds(targets, sender)[1..] == DebugAdds(targets[1..], sender);
      DebugAddsMark(targets[1..], sender, k);
    }
  }

  lemma {:induction false} FlagQuiet(names: seq<string>, k: Key)
    ensures !TodoMarks(FlagProgram(names), k)
  {
    if names == [] {
    } else {
      assert FlagProgram(names)[1..] == FlagProgram(names[1..]);
      FlagQuiet(names[1..], k);
    }
  }

  lemma {:induction false} NetworkQuiet(group: string, sets: seq<seq<string>>, k: Key)
    ensures !TodoMarks(NetworkProgram(group, sets), k)
  {
    if sets == [] {
    } else {
      var two := [Locked(UnknownUnflagged(group)), Locked(ClearFlags)];
      NetworkQuiet(group, sets[1..], k);
      FlagQuiet(sets[0], k);
      TodoAppend(FlagProgram(sets[0]), two, k);
      TodoAppend(FlagProgram(sets[0]) + two, NetworkProgram(group, sets[1..]), k);
      TodoTwo(two[0], two[1], k);
    }
  }

  /** A message's program marks only what the message itself lists as joined, and clears what the
      message ends. */
  lemma {:induction false} MessageEffect(m: Message, k: Key)
    ensures TodoMarks(MessageProgram(m), k) <==> Joins(m, k)
    ensures Ends(m, k) ==> TodoClears(MessageProgram(m), k)
  {
    match m
    case Regular(_, _, empty, purge) =>
      var a := if empty.Some? && IsDelete(empty.value) then [Locked(empty.value)] else [];
      var b := if purge.Some? then [Locked(DeleteStale(purge.value))] else [];
      TodoAppend(a, b, k);
      if a != [] { TodoOne(a[0], k); }
      if b != [] { TodoOne(b[0], k); }
    case JoinMsg(group, members, sa) => JoinProgramMarks(group, members, sa, k);
    case NetworkMsg(group, _, sets) => NetworkQuiet(group, sets, k);
    case LeaveMsg(_, _, _, _, _) => TodoOne(MessageProgram(m)[0], k);
    case DisconnectMsg(_, _, _, _, _) => TodoOne(MessageProgram(m)[0], k);
    case OtherMsg(_, _) =>
  }

  /** With the additions of DEBUG in front. */
  lemma {:induction false} ReceivedEffect(m: Message, k: Key, debug: bool)
    ensures TodoMarks(ReceivedProgram(m, debug), k) <==> Puts(m, k, debug)
    ensures Ends(m, k) ==> TodoClears(ReceivedProgram(m, debug), k)
  {
    var adds := if debug then DebugAdds(Targets(m), Sender(m)) else [];
    MessageEffect(m, k);
    TodoAppend(adds, MessageProgram(m), k);
    DebugAddsMark(Targets(m), Sender(m), k);
  }

  lemma {:induction false} ReceiveSafe(s: System, m: Message)
    requires Safe(s) && Enabled(s, Receive(m))
    ensures Safe(Step(s, Receive(m)))
  {
    var now := Step(s, Receive(m));
    forall k
      ensures ThreadMarks(now.threads[0], k) ==> Backed(now, k)
      ensures Connected(now.rows, k) ==> ThreadClears(now.threads[0], k) || Backed(now, k)
    {
      ReceivedEffect(m, k, s.debug);
      JustifiedMore(s.hist, m, k, s.debug);
    }
  }

  lemma {:induction false} WipeClears(k: Key)
    ensures !TodoMarks([Wipe()], k) && TodoClears([Wipe()], k)
    ensures !TodoMarks([Wipe(), Wipe()], k) && TodoClears([Wipe(), Wipe()], k)
    ensures !TodoMarks([Bare(DisconnectAll), Wipe()], k) && TodoClears([Bare(DisconnectAll), Wipe()], k)
  {
    TodoOne(Wipe(), k);
    TodoTwo(Wipe(), Wipe(), k);
    TodoTwo(Bare(DisconnectAll), Wipe(), k);
  }

  lemma {:induction false} StepSafe(s: System, a: Action)
    requires Safe(s) && Enabled(s, a)
    ensures Safe(Step(s, a))
  {
    match a
    case Run(i) => RunSafe(s, i);
    case Issue(i, c) =>
      forall k ensures !TodoMarks(CommandProgram(c), k) { CommandQuiet(c, k); }
    case Receive(m) => ReceiveSafe(s, m);
    case Dial(ok) =>
      forall k ensures !TodoMarks([Wipe(), Wipe()], k) && TodoClears([Wipe(), Wipe()], k) { WipeClears(k); }
    case Lose =>
      forall k ensures !TodoMarks([Wipe()], k) && TodoClears([Wipe()], k) { WipeClears(k); }
  }

  lemma {:induction false} RunsSafe(s: System, acts: seq<Action>)
    requires Start(s) && Play(s, acts).Some?
    ensures Safe(Play(s, acts).value) && Play(s, acts).value.debug == s.debug
  {
    if acts == [] {
      forall k
        ensures !TodoMarks([Wipe()], k) && TodoClears([Wipe()], k)
        ensures !TodoMarks([Bare(DisconnectAll), Wipe()], k) && TodoClears([Bare(DisconnectAll), Wipe()], k)
      {
        WipeClears(k);
      }
    } else {
      RunsSafe(s, acts[..|acts| - 1]);
      StepSafe(Play(s, acts[..|acts| - 1]).value, acts[|acts| - 1]);
    }
  }

  /** Whenever spreadRX waits for a message, whatever the command threads do and whatever the table
      was found with: every CONNECTED row was put by a message of the current session and not ended
      since. Without DEBUG that is a JOIN; with it, a target under its sender will do. */
  lemma {:induction false} SessionExplained(s: System, acts: seq<Action>)
    requires Start(s) && Play(s, acts).Some? && Play(s, acts).value.rx == Receiving
    ensures var now := Play(s, acts).value;
            forall r :: r in now.rows && r.cell.state == CONNECTED ==> Justified(now.hist, r.key, s.debug)
  {
    var now := Play(s, acts).value;
    RunsSafe(s, acts);
    forall r | r in now.rows && r.cell.state == CONNECTED ensures Justified(now.hist, r.key, s.debug) {
      assert Connected(now.rows, r.key);
    }
  }

  /** With DEBUG off, every CONNECTED row was listed by a JOIN and not ended since. */
  lemma {:induction false} SessionSafe(s: System, acts: seq<Action>)
    requires Start(s) && !s.debug && Play(s, acts).Some? && Play(s, acts).value.rx == Receiving
    ensures var now := Play(s, acts).value;
            forall r :: r in now.rows && r.cell.state == CONNECTED ==>
              exists i :: 0 <= i < |now.hist| && Joins(now.hist[i], r.key)
                          && forall j :: i < j < |now.hist| ==> !Ends(now.hist[j], r.key)
  {
    var now := Play(s, acts).value;
    SessionExplained(s, acts);
    forall r | r in now.rows && r.cell.state == CONNECTED
      ensures exists i :: 0 <= i < |now.hist| && Joins(now.hist[i], r.key)
                          && forall j :: i < j < |now.hist| ==> !Ends(now.hist[j], r.key)
    {
      var i :| 0 <= i < |now.hist| && Puts(now.hist[i], r.key, false)
               && forall j :: i < j < |now.hist| ==> !Ends(now.hist[j], r.key);
      assert Joins(now.hist[i], r.key);
    }
  }

  /** When a connect succeeds no row is CONNECTED: no mark outlives a reconnect. */
  lemma {:induction false} ReconnectStartsClean(s: System, acts: seq<Action>)
    requires Start(s) && Play(s, acts).Some?
    requires Enabled(Play(s, acts).value, Dial(true))
    ensures var now := Step(Play(s, acts).value, Dial(true));
            forall r :: r in now.rows ==> r.cell.state != CONNECTED
  {
    var before := Play(s, acts).value;
    RunsSafe(s, acts);
    forall r | r in before.rows ensures r.cell.state != CONNECTED {
      assert !Connected(before.rows, r.key);
    }
  }
}
