/** The receive thread and any number of command threads of one process working on the nodes table.
    A step is one SQL statement, one taking or freeing of cacheLock, or one event of the network;
    threads interleave freely. */
module Session {
  import opened CString
  import opened NodeRows

  /** A statement that is not an insert. */
  type Sweeping = s: Stmt | !s.Insert? witness ClearFlags

  /** A piece of a thread's program.
      Add is cacheAdd: count, then insert or update, under the lock.
      Locked is a single statement under the lock, Bare one without it.
      AddIfAbsent is the JOIN handler's unlocked lookup, which leads to a cacheAdd or nothing.
      LeaveRows is spreadLeave's unlocked select, which leads to one bare update per row found. */
  datatype Block =
    | Add(key: Key, state: NState, now: int)
    | Locked(s: Sweeping)
    | Bare(s: Sweeping)
    | AddIfAbsent(key: Key, now: int)
    | LeaveRows(me: string, group: Option<string>)

  datatype Phase =
    | Idle
    | Counting(key: Key, state: NState, now: int)
    | Writing(key: Key, state: NState, now: int, cnt: nat)
    | Running(s: Sweeping)
    | Releasing

  datatype Thread = Thread(phase: Phase, todo: seq<Block>)

  datatype Message =
    | Regular(sender: string, targets: seq<string>, empty: Option<Sweeping>, purge: Option<int>)
    | JoinMsg(group: string, members: seq<Arrival>, staleAfter: int)
    | LeaveMsg(group: string, listed: seq<string>, name: string, now: int, staleAfter: int)
    | DisconnectMsg(group: string, listed: seq<string>, name: string, now: int, staleAfter: int)
    | NetworkMsg(group: string, listed: seq<string>, sets: seq<seq<string>>)
    | OtherMsg(sender: string, targets: seq<string>)

  datatype Rx = Connecting | Receiving | Handling

  /** Thread 0 is the receive thread. hist is the messages of the current session, log every
      statement run so far. */
  datatype System = System(rows: Rows, lock: Option<nat>, threads: seq<Thread>, rx: Rx,
                           hist: seq<Message>, log: seq<Stmt>, debug: bool)

  datatype Command =
    | AddNode(name: string, group: string, now: int)
    | DelNode(name: string, from: Option<string>)
    | Empty(s: Sweeping)
    | LeaveGroup(me: string, only: Option<string>)
    | Shutdown

  datatype Action =
    | Run(i: nat)
    | Issue(i: nat, c: Command)
    | Dial(ok: bool)
    | Receive(msg: Message)
    | Lose

  // ----- programs -----

  function Wipe(): Block { Locked(DisconnectAll) }

  predicate IsDelete(s: Stmt) {
    s.DeleteName? || s.DeleteKey? || s.DeleteDisconnectedBut? || s.DeleteNotConnected?
    || s.DeleteStale? || s.DeleteDisconnected?
  }

  function CommandProgram(c: Command): seq<Block> {
    match c
    case AddNode(name, group, now) => [Add(Key(name, group), UNKNOWN, now)]
    case DelNode(name, from) =>
      [Locked(if from.Some? then DeleteKey(Key(name, from.value)) else DeleteName(name))]
    case Empty(s) => if IsDelete(s) then [Locked(s)] else []
    case LeaveGroup(me, group) => [LeaveRows(me, group)]
    case Shutdown => [Bare(DisconnectAll)]
  }

  function Sender(m: Message): string {
    if m.Regular? || m.OtherMsg? then m.sender else m.group
  }

  function Targets(m: Message): seq<string> {
    if m.Regular? || m.OtherMsg? then m.targets else if m.JoinMsg? then Names(m.members) else m.listed
  }

  /** With DEBUG on, every message adds its targets under its sender as CONNECTED. */
  function DebugAdds(targets: seq<string>, sender: string): seq<Block> {
    seq(|targets|, i requires 0 <= i < |targets| => Add(Key(targets[i], sender), CONNECTED, 0))
  }

  function JoinProgram(group: string, members: seq<Arrival>, staleAfter: int): seq<Block> {
    if members == [] then [] else
      var a := members[0];
      var k := Key(a.name, group);
      [AddIfAbsent(k, a.added), Locked(SetConnected(k, CONNECTED, a.marked, staleAfter))]
      + JoinProgram(group, members[1..], staleAfter)
  }

  function FlagProgram(names: seq<string>): seq<Block> {
    seq(|names|, i requires 0 <= i < |names| => Locked(FlagName(names[i])))
  }

  function NetworkProgram(group: string, sets: seq<seq<string>>): seq<Block> {
    if sets == [] then [] else
      FlagProgram(sets[0]) + [Locked(UnknownUnflagged(group)), Locked(ClearFlags)]
      + NetworkProgram(group, sets[1..])
  }

  function MessageProgram(m: Message): seq<Block> {
    match m
    case Regular(_, _, empty, purge) =>
      (if empty.Some? && IsDelete(empty.value) then [Locked(empty.value)] else []) +
      (if purge.Some? then [Locked(DeleteStale(purge.value))] else [])
    case JoinMsg(group, members, staleAfter) => JoinProgram(group, members, staleAfter)
    case LeaveMsg(group, _, name, now, staleAfter) =>
      [Locked(SetConnected(Key(name, group), LEAVE, now, staleAfter))]
    case DisconnectMsg(group, _, name, now, staleAfter) =>
      [Locked(SetConnected(Key(name, group), DISCONNECTED, now, staleAfter))]
    case NetworkMsg(group, _, sets) => NetworkProgram(group, sets)
    case OtherMsg(_, _) => []
  }

  function ReceivedProgram(m: Message, debug: bool): seq<Block> {
    (if debug then DebugAdds(Targets(m), Sender(m)) else []) + MessageProgram(m)
  }

  function LeaveBlocks(keys: seq<Key>): seq<Block> {
    seq(|keys|, i requires 0 <= i < |keys| => Bare(SetLeave(keys[i])))
  }

  // ----- steps -----

  function SetThread(s: System, i: nat, t: Thread): System
    requires i < |s.threads|
  {
    s.(threads := s.threads[i := t])
  }

  function Exec(s: System, stmt: Stmt): System {
    s.(rows := Apply(s.rows, stmt), log := s.log + [stmt])
  }

  predicate CanRun(s: System, i: nat) {
    i < |s.threads| &&
    var t := s.threads[i];
    if t.phase != Idle then true
    else if t.todo == [] then i == 0 && s.rx == Handling
    else t.todo[0].Add? || t.todo[0].Locked? ==> s.lock == None
  }

  function RunThread(s: System, i: nat): System
    requires CanRun(s, i)
  {
    var t := s.threads[i];
    match t.phase
    case Counting(key, state, now) =>
      SetThread(s, i, t.(phase := Writing(key, state, now, Count(s.rows, key))))
    case Writing(key, state, now, cnt) =>
      SetThread(Exec(s, if cnt == 0 then Insert(key, state, now) else SetState(key, state, now)), i,
                t.(phase := Releasing))
    case Running(stmt) => SetThread(Exec(s, stmt), i, t.(phase := Releasing))
    case Releasing => SetThread(s, i, t.(phase := Idle)).(lock := None)
    case Idle =>
      if t.todo == [] then s.(rx := Receiving) else
        var rest := t.todo[1..];
        match t.todo[0]
        case Add(key, state, now) => SetThread(s, i, Thread(Counting(key, state, now), rest)).(lock := Some(i))
        case Locked(stmt) => SetThread(s, i, Thread(Running(stmt), rest)).(lock := Some(i))
        case Bare(stmt) => SetThread(Exec(s, stmt), i, t.(todo := rest))
        case AddIfAbsent(key, now) =>
          SetThread(s, i, t.(todo := (if Count(s.rows, key) == 0 then [Add(key, CONNECTED, now)] else []) + rest))
        case LeaveRows(me, group) => SetThread(s, i, t.(todo := LeaveBlocks(Selected(s.rows, me, group)) + rest))
  }

  predicate Resting(s: System, i: nat) {
    i < |s.threads| && s.threads[i] == Thread(Idle, [])
  }

  predicate Enabled(s: System, a: Action) {
    match a
    case Run(i) => CanRun(s, i)
    case Issue(i, _) => i > 0 && Resting(s, i)
    case Dial(_) => s.rx == Connecting && Resting(s, 0)
    case Receive(_) => s.rx == Receiving && Resting(s, 0)
    case Lose => s.rx == Receiving && Resting(s, 0)
  }

  function Step(s: System, a: Action): System
    requires Enabled(s, a)
  {
    match a
    case Run(i) => RunThread(s, i)
    case Issue(i, c) => SetThread(s, i, Thread(Idle, CommandProgram(c)))
    case Dial(ok) =>
      if ok then s.(rx := Receiving, hist := [])
      else SetThread(s, 0, Thread(Idle, [Wipe(), Wipe()]))
    case Receive(m) =>
      SetThread(s, 0, Thread(Idle, ReceivedProgram(m, s.debug))).(rx := Handling, hist := s.hist + [m])
    case Lose => SetThread(s, 0, Thread(Idle, [Wipe()])).(rx := Connecting)
  }

  /** The table as found, the receive thread about to set it up and connect. */
  predicate Start(s: System) {
    && |s.threads| > 0 && s.lock == None && s.rx == Connecting && s.hist == [] && s.log == []
    && (s.threads[0] == Thread(Idle, [Wipe()]) || s.threads[0] == Thread(Idle, [Bare(DisconnectAll), Wipe()]))
    && (forall i :: 0 < i < |s.threads| ==> s.threads[i] == Thread(Idle, []))
  }

  /** The state a sequence of actions leads to, if each is enabled where it is taken. */
  function Play(s: System, acts: seq<Action>): Option<System> {
    if acts == [] then Some(s) else
      var mid := Play(s, acts[..|acts| - 1]);
      if mid.Some? && Enabled(mid.value, acts[|acts| - 1])
      then Some(Step(mid.value, acts[|acts| - 1])) else None
  }

  // ----- no two rows for one (name, group) -----

  predicate Holds(p: Phase) { p != Idle }

  /** Whoever is past Idle owns the lock, and a count of zero stays right until it is used. */
  ghost predicate Exclusive(s: System) {
    && (forall i :: 0 <= i < |s.threads| ==> (Holds(s.threads[i].phase) <==> s.lock == Some(i)))
    && (forall i :: 0 <= i < |s.threads| && s.threads[i].phase.Writing? && s.threads[i].phase.cnt == 0 ==>
          s.threads[i].phase.key !in Abs(s.rows))
  }

  ghost predicate Sound(s: System) {
    Unique(s.rows) && Exclusive(s)
  }

  /** A statement that is not an insert adds no key. */
  lemma {:induction false} SweepAddsNothing(rows: Rows, stmt: Sweeping)
    ensures Abs(Apply(rows, stmt)).Keys <= Abs(rows).Keys
    ensures Unique(rows) ==> Unique(Apply(rows, stmt))
  {
    AbsKeys(rows);
    AbsKeys(Apply(rows, stmt));
    SweepKeys(rows, (k, c) => Keeps(stmt, k, c), (k, c) => Updated(stmt, k, c));
    if Unique(rows) { ApplyRefines(rows, stmt); }
  }

  /** Also in a table that was found with duplicates. */
  lemma {:induction false} RunExclusive(s: System, i: nat)
    requires Exclusive(s) && CanRun(s, i)
    ensures Exclusive(RunThread(s, i))
  {
    var t := s.threads[i];
    match t.phase
    case Counting(key, state, now) => CountIsAbs(s.rows, key);
    case Writing(key, state, now, cnt) => if cnt != 0 { SweepAddsNothing(s.rows, SetState(key, state, now)); }
    case Running(stmt) => SweepAddsNothing(s.rows, stmt);
    case Releasing =>
    case Idle =>
      if t.todo != [] && t.todo[0].Bare? { SweepAddsNothing(s.rows, t.todo[0].s); }
  }

  lemma {:induction false} RunUnique(s: System, i: nat)
    requires Sound(s) && CanRun(s, i)
    ensures Unique(RunThread(s, i).rows)
  {
    var t := s.threads[i];
    match t.phase
    case Counting(_, _, _) =>
    case Writing(key, state, now, cnt) =>
      if cnt == 0 {
        ApplyRefines(s.rows, Insert(key, state, now));
      } else {
        SweepAddsNothing(s.rows, SetState(key, state, now));
      }
    case Running(stmt) => SweepAddsNothing(s.rows, stmt);
    case Releasing =>
    case Idle =>
      if t.todo != [] && t.todo[0].Bare? { SweepAddsNothing(s.rows, t.todo[0].s); }
  }

  lemma {:induction false} StepExclusive(s: System, a: Action)
    requires Exclusive(s) && Enabled(s, a)
    ensures Exclusive(Step(s, a))
  {
    if a.Run? { RunExclusive(s, a.i); }
  }

  /** Under every interleaving, from any table: one thread at a time, and no insert of a known key. */
  lemma {:induction false} AlwaysExclusive(s: System, acts: seq<Action>)
    requires Start(s) && Play(s, acts).Some?
    ensures Exclusive(Play(s, acts).value)
  {
    if acts == [] {
    } else {
      var front, last := acts[..|acts| - 1], acts[|acts| - 1];
      AlwaysExclusive(s, front);
      StepExclusive(Play(s, front).value, last);
    }
  }

  lemma {:induction false} StepSound(s: System, a: Action)
    requires Sound(s) && Enabled(s, a)
    ensures Sound(Step(s, a))
  {
    StepExclusive(s, a);
    if a.Run? { RunUnique(s, a.i); }
  }

  /** Under every interleaving, from a table without duplicates none ever arises. */
  lemma {:induction false} NeverDuplicated(s: System, acts: seq<Action>)
    requires Start(s) && Unique(s.rows) && Play(s, acts).Some?
    ensures Sound(Play(s, acts).value)
  {
    if acts == [] {
    } else {
      var front, last := acts[..|acts| - 1], acts[|acts| - 1];
      NeverDuplicated(s, front);
      StepSound(Play(s, front).value, last);
    }
  }

  /** cacheAdd when its two statements may fail: a failed count reads as zero. */
  function AddRows(rows: Rows, key: Key, state: NState, now: int, countOk: bool, writeOk: bool): Rows {
    var cnt := if countOk then Count(rows, key) else 0;
    if !writeOk then rows
    else Apply(rows, if cnt == 0 then Insert(key, state, now) else SetState(key, state, now))
  }

  /** It duplicates a row exactly when the count of a known row fails and the insert then works. */
  lemma {:induction false} FailedCountDuplicates(rows: Rows, key: Key, state: NState, now: int,
        countOk: bool, writeOk: bool)
    requires Unique(rows)
    ensures Unique(AddRows(rows, key, state, now, countOk, writeOk))
            <==> countOk || !writeOk || key !in Abs(rows)
  {
    CountIsAbs(rows, key);
    ApplyRefines(rows, Insert(key, state, now));
    ApplyRefines(rows, SetState(key, state, now));
  }
}
