/** Session safety holds of every run if and only if DEBUG is off. */
module DebugMode {
  import opened CString
  import opened NodeRows
  import opened Session
  import opened SessionSafety
  import opened OneThread

  lemma {:induction false} CountHas(rows: Rows, k: Key)
    requires Count(rows, k) > 0
    ensures exists r :: r in rows && r.key == k
  {
    var last := rows[|rows| - 1];
    if last.key == k {
      assert last in rows;
    } else {
      CountHas(rows[..|rows| - 1], k);
    }
  }

  /** cacheAdd connects some row of the key, in any table. */
  lemma {:induction false} AddConnects(rows: Rows, k: Key, now: int)
    ensures Connected(Apply(rows, AddStmt(rows, k, CONNECTED, now)), k)
  {
    var s := AddStmt(rows, k, CONNECTED, now);
    if s.Insert? {
      assert Row(k, NewCell(s)) in Apply(rows, s);
    } else {
      CountHas(rows, k);
      var q :| q in rows && q.key == k;
      var r := Row(k, Updated(s, k, q.cell));
      ApplyRows(rows, s, r);
      assert r in Apply(rows, s);
    }
  }

  /** The statements before the first connect, run without interruption. */
  lemma {:induction false} ReadyToDial(s: System) returns (acts: seq<Action>, now: System)
    requires Start(s)
    ensures Play(s, acts) == Some(now) && now == Worked(s, 0, now.rows, now.log, [])
  {
    acts, now := [], s;
    if now.threads[0].todo[0].Bare? {
      acts := BareAlone(s, acts, now, 0);
      now := Play(s, acts).value;
      assert now.threads[0].todo == [Wipe()];
    }
    acts := LockedAlone(s, acts, now, 0);
    assert now.threads[0].todo[1..] == [];
    now := Play(s, acts).value;
    assert now.threads == s.threads[0 := Thread(Idle, [])];
  }

  /** With DEBUG on, from every start and in any table: a regular message makes a row CONNECTED that
      no JOIN stands for, and the receive thread then waits for the next message. */
  lemma {:induction false} DebugBreaksSession(s: System) returns (acts: seq<Action>, k: Key)
    requires Start(s) && s.debug
    ensures Play(s, acts).Some?
    ensures var now := Play(s, acts).value;
            now.rx == Receiving && Connected(now.rows, k) && !Justified(now.hist, k, false)
  {
    var msg := Regular("sender", ["group"], None, None);
    k := Key("group", "sender");
    var now;
    acts, now := ReadyToDial(s);
    PlayMore(s, acts, Dial(true));
    acts := acts + [Dial(true)];
    now := Step(now, Dial(true));
    PlayMore(s, acts, Receive(msg));
    acts := acts + [Receive(msg)];
    now := Step(now, Receive(msg));
    assert now.threads[0].todo == [Add(k, CONNECTED, 0)] && now.hist == [msg];
    AddConnects(now.rows, k, 0);
    acts := AddAlone(s, acts, now, 0);
    now := Play(s, acts).value;
    acts := RunOnce(s, acts, now, 0);
  }

  /** Every CONNECTED row is justified by a JOIN whenever the run ends with the receive thread
      waiting. */
  ghost predicate SafeRun(s: System, acts: seq<Action>) {
    Play(s, acts).Some? && Play(s, acts).value.rx == Receiving ==>
      forall k :: Connected(Play(s, acts).value.rows, k) ==> Justified(Play(s, acts).value.hist, k, false)
  }

  lemma {:induction false} SafeIffDebugOff(s: System)
    requires Start(s)
    ensures (forall acts :: SafeRun(s, acts)) <==> !s.debug
  {
    if s.debug {
      var acts, k := DebugBreaksSession(s);
      assert !SafeRun(s, acts);
    } else {
      forall acts ensures SafeRun(s, acts) {
        if Play(s, acts).Some? { RunsSafe(s, acts); }
      }
    }
  }
}
