/** What the purge of stale rows removes, in terms of the history of the table. */
module Purge {
  import opened CString
  import opened NodeRows
  import opened Session

  function Replay(rows: Rows, log: seq<Stmt>): Rows {
    if log == [] then rows else Apply(Replay(rows, log[..|log| - 1]), log[|log| - 1])
  }

  lemma {:induction false} ReplayMore(rows: Rows, log: seq<Stmt>, s: Stmt)
    ensures Replay(rows, log + [s]) == Apply(Replay(rows, log), s)
  {
    assert (log + [s])[..|log|] == log;
  }

  /** Every insert of the log met a table without its key. */
  predicate InsertsNew(rows: Rows, log: seq<Stmt>) {
    log == [] ||
    var front, s := log[..|log| - 1], log[|log| - 1];
    InsertsNew(rows, front) && (s.Insert? ==> s.key !in Keys(Replay(rows, front)))
  }

  lemma {:induction false} StepLogs(s: System, a: Action)
    requires Exclusive(s) && Enabled(s, a)
    ensures var now := Step(s, a);
            (now.log == s.log && now.rows == s.rows)
            || (|now.log| > 0 && now.log == s.log + [now.log[|now.log| - 1]]
                && now.rows == Apply(s.rows, now.log[|now.log| - 1])
                && (now.log[|now.log| - 1].Insert? ==> now.log[|now.log| - 1].key !in Keys(s.rows)))
  {
    AbsKeys(s.rows);
  }

  lemma {:induction false} StepExplains(rows: Rows, s: System, a: Action)
    requires Exclusive(s) && Enabled(s, a) && s.rows == Replay(rows, s.log) && InsertsNew(rows, s.log)
    ensures Step(s, a).rows == Replay(rows, Step(s, a).log) && InsertsNew(rows, Step(s, a).log)
  {
    var now := Step(s, a);
    StepLogs(s, a);
    if now.log != s.log || now.rows != s.rows {
      assert now.log[..|now.log| - 1] == s.log;
      ReplayMore(rows, s.log, now.log[|now.log| - 1]);
    }
  }

  /** The rows are always what the statements of the log made of the table as found. */
  lemma {:induction false} LogExplainsRows(s: System, acts: seq<Action>)
    requires Start(s) && Play(s, acts).Some?
    ensures var now := Play(s, acts).value;
            now.rows == Replay(s.rows, now.log) && InsertsNew(s.rows, now.log)
  {
    if acts == [] {
    } else {
      var front := acts[..|acts| - 1];
      LogExplainsRows(s, front);
      AlwaysExclusive(s, front);
      StepExplains(s.rows, Play(s, front).value, acts[|acts| - 1]);
    }
  }

  // ----- when a row was last set -----

  /** Where the statements leave a stale time of k that was base before them: set by the last
      cacheSetConnected since the row was inserted, NULL if there was none. */
  function DueFrom(base: Option<int>, log: seq<Stmt>, k: Key): Option<int> {
    if log == [] then base else
      var s := log[|log| - 1];
      if s.SetConnected? && s.key == k then Some(s.now + s.staleAfter)
      else if s.Insert? && s.key == k then None
      else DueFrom(base, log[..|log| - 1], k)
  }

  predicate Inserted(log: seq<Stmt>, k: Key) {
    exists s :: s in log && s.Insert? && s.key == k
  }

  /** The stale time of a row of k as found; NULL counts once the log has inserted k. */
  ghost predicate FoundWith(rows: Rows, log: seq<Stmt>, k: Key, base: Option<int>) {
    (exists q :: q in rows && q.key == k && q.cell.stale == base) || (base == None && Inserted(log, k))
  }

  lemma {:induction false} InsertedMore(log: seq<Stmt>, k: Key)
    requires log != []
    ensures Inserted(log, k) <==> Inserted(log[..|log| - 1], k) || (log[|log| - 1].Insert? && log[|log| - 1].key == k)
  {
    assert log == log[..|log| - 1] + [log[|log| - 1]];
  }

  /** The row r comes from, before a statement. */
  lemma {:induction false} Before(rows: Rows, s: Stmt, r: Row) returns (q: Row)
    requires r in Apply(rows, s) && !(s.Insert? && r == Row(s.key, NewCell(s)))
    ensures q in rows && q.key == r.key
    ensures r.cell.stale == if s.SetConnected? && s.key == r.key then Some(s.now + s.staleAfter) else q.cell.stale
  {
    if s.Insert? {
      q := r;
    } else {
      ApplyRows(rows, s, r);
      q :| q in rows && Keeps(s, q.key, q.cell) && r == Row(q.key, Updated(s, q.key, q.cell));
    }
  }

  lemma {:induction false} RowKey(rows: Rows, r: Row)
    requires r in rows
    ensures r.key in Keys(rows)
  {
    var i :| 0 <= i < |rows| && rows[i] == r;
    KeysAt(rows, i);
  }

  lemma {:induction false} StaleIsHistory(rows: Rows, log: seq<Stmt>, r: Row) returns (base: Option<int>)
    requires InsertsNew(rows, log) && r in Replay(rows, log)
    ensures FoundWith(rows, log, r.key, base) && r.cell.stale == DueFrom(base, log, r.key)
  {
    if log == [] {
      base := r.cell.stale;
    } else {
      var front, s := log[..|log| - 1], log[|log| - 1];
      InsertedMore(log, r.key);
      if s.Insert? && r == Row(s.key, NewCell(s)) {
        base := None;
      } else {
        var q := Before(Replay(rows, front), s, r);
        RowKey(Replay(rows, front), q);
        base := StaleIsHistory(rows, front, q);
      }
    }
  }

  /** A purge keeps a row or not, whatever other rows there are. */
  lemma {:induction false} PurgeRow(rows: Rows, now: int, r: Row)
    requires r in rows
    ensures r !in Apply(rows, DeleteStale(now))
            <==> r.cell.state != CONNECTED && r.cell.stale.Some? && r.cell.stale.value < now
  {
    ApplyRows(rows, DeleteStale(now), r);
  }

  /** In every run, from any table, duplicates included, and under every interleaving: the purge at
      time now removes a row exactly if it is not CONNECTED and the time it was due is past. */
  lemma {:induction false} PurgeExactly(s: System, acts: seq<Action>, now: int, r: Row) returns (base: Option<int>)
    requires Start(s) && Play(s, acts).Some? && r in Play(s, acts).value.rows
    ensures var st := Play(s, acts).value;
            var due := DueFrom(base, st.log, r.key);
            && FoundWith(s.rows, st.log, r.key, base)
            && (r !in Apply(st.rows, DeleteStale(now))
                <==> r.cell.state != CONNECTED && due.Some? && due.value < now)
  {
    var st := Play(s, acts).value;
    LogExplainsRows(s, acts);
    base := StaleIsHistory(s.rows, st.log, r);
    PurgeRow(st.rows, now, r);
  }

  // ----- a table without duplicates -----

  lemma {:induction false} InsertForgetsBase(a: Option<int>, b: Option<int>, log: seq<Stmt>, k: Key)
    requires Inserted(log, k)
    ensures DueFrom(a, log, k) == DueFrom(b, log, k)
  {
    if log == [] {
    } else {
      InsertedMore(log, k);
      var s := log[|log| - 1];
      if !(s.Insert? && s.key == k) { InsertForgetsBase(a, b, log[..|log| - 1], k); }
    }
  }

  /** The one stale time k was found with. */
  function FoundStale(rows: Rows, k: Key): Option<int> {
    if k in Abs(rows) then Abs(rows)[k].stale else None
  }

  lemma {:induction false} FoundBase(rows: Rows, log: seq<Stmt>, k: Key, base: Option<int>)
    requires Unique(rows) && FoundWith(rows, log, k, base)
    ensures DueFrom(base, log, k) == DueFrom(FoundStale(rows, k), log, k)
  {
    if Inserted(log, k) {
      InsertForgetsBase(base, FoundStale(rows, k), log, k);
    } else {
      var q :| q in rows && q.key == k && q.cell.stale == base;
      var i :| 0 <= i < |rows| && rows[i] == q;
      AbsAt(rows, i);
    }
  }

  /** There the base is known: k goes exactly if it is not CONNECTED and was due before now. */
  lemma {:induction false} KeyPurgeExactly(s: System, acts: seq<Action>, now: int, k: Key)
    requires Start(s) && Unique(s.rows) && Play(s, acts).Some?
    requires k in Abs(Play(s, acts).value.rows)
    ensures var st := Play(s, acts).value;
            var due := DueFrom(FoundStale(s.rows, k), st.log, k);
            k !in Abs(Apply(st.rows, DeleteStale(now)))
            <==> Abs(st.rows)[k].state != CONNECTED && due.Some? && due.value < now
  {
    var st := Play(s, acts).value;
    var i := RowOf(st.rows, k);
    LogExplainsRows(s, acts);
    var base := StaleIsHistory(s.rows, st.log, st.rows[i]);
    FoundBase(s.rows, st.log, k, base);
    NeverDuplicated(s, acts);
    ApplyRefines(st.rows, DeleteStale(now));
  }

  // ----- a table nobody has set before, and one STALE_AFTER -----

  /** Time of the last cacheSetConnected for k since its row was inserted. */
  function LastSet(log: seq<Stmt>, k: Key): Option<int> {
    if log == [] then None else
      var s := log[|log| - 1];
      if s.SetConnected? && s.key == k then Some(s.now)
      else if s.Insert? && s.key == k then None
      else LastSet(log[..|log| - 1], k)
  }

  predicate StaleAfterIs(log: seq<Stmt>, staleAfter: int) {
    forall i :: 0 <= i < |log| && log[i].SetConnected? ==> log[i].staleAfter == staleAfter
  }

  predicate NeverSet(rows: Rows) {
    forall r :: r in rows ==> r.cell.stale == None
  }

  lemma {:induction false} DueIsLastSet(log: seq<Stmt>, staleAfter: int, k: Key)
    requires StaleAfterIs(log, staleAfter)
    ensures DueFrom(None, log, k)
         == if LastSet(log, k).Some? then Some(LastSet(log, k).value + staleAfter) else None
  {
    if log == [] {
    } else {
      DueIsLastSet(log[..|log| - 1], staleAfter, k);
    }
  }

  /** There, a row goes exactly if it is not CONNECTED and its last cacheSetConnected is more than
      STALE_AFTER seconds past; one never set since its insert stays. */
  lemma {:induction false} FreshPurgeExactly(s: System, acts: seq<Action>, staleAfter: int, now: int, r: Row)
    requires Start(s) && NeverSet(s.rows) && Play(s, acts).Some? && r in Play(s, acts).value.rows
    requires StaleAfterIs(Play(s, acts).value.log, staleAfter)
    ensures var st := Play(s, acts).value;
            var at := LastSet(st.log, r.key);
            r !in Apply(st.rows, DeleteStale(now))
            <==> r.cell.state != CONNECTED && at.Some? && at.value + staleAfter < now
  {
    var base := PurgeExactly(s, acts, now, r);
    DueIsLastSet(Play(s, acts).value.log, staleAfter, r.key);
  }
}
