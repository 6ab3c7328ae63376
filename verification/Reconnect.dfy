/** The connect loop of spreadRX: how often spreadConnect is called before a server answers, and
    which server CONNECTED_TO then names. */
module Reconnect {
  import opened CString
  import opened Symbols
  import opened DaemonSpec
  import opened Daemons

  /** net(k, s) is whether the k-th SP_connect of the loop succeeds when it dials s. */
  type Net = (nat, string) -> bool

  /** The name dialled for SERVER. */
  function MainServer(t: Table): string {
    var main := Get(t, "SERVER");
    Truncate(if main.Some? then main.value else "4803")
  }

  function Answers(st: State, net: Net, calls: nat): World {
    var second := SecondServer(st);
    World(net(2 * calls, FirstServer(st)), second.Some? && net(2 * calls + 1, second.value), false, "")
  }

  ghost predicate Stays(net: Net, server: string) {
    forall k: nat :: net(k, server)
  }

  ghost predicate AltStays(st: State, net: Net) {
    "ALTSERVER" in st.syms && Stays(net, st.syms["ALTSERVER"].value)
  }

  /** The state after a number of connect attempts. */
  function AfterCalls(st: State, net: Net, calls: nat): State {
    if calls == 0 then st else
      var before := AfterCalls(st, net, calls - 1);
      AfterConnect(before, Answers(before, net, calls - 1))
  }

  lemma {:induction false} ServersKept(st: State, w: World)
    ensures Get(AfterConnect(st, w).syms, "SERVER") == Get(st.syms, "SERVER")
    ensures Get(AfterConnect(st, w).syms, "ALTSERVER") == Get(st.syms, "ALTSERVER")
    ensures AfterConnect(st, w).flipFlop == !st.flipFlop
  {
  }

  /** One attempt connects if ALTSERVER answers, or if flipFlop picks SERVER and SERVER answers. */
  lemma {:induction false} OneAttempt(st: State, net: Net, calls: nat)
    ensures AltStays(st, net) ==> Connects(st, Answers(st, net, calls))
    ensures Stays(net, MainServer(st.syms)) && !st.flipFlop ==> Connects(st, Answers(st, net, calls))
  {
  }

  /** Whether attempt number i of the loop connects. */
  predicate Succeeds(st: State, net: Net, i: nat) {
    Connects(AfterCalls(st, net, i), Answers(AfterCalls(st, net, i), net, i))
  }

  /** While SERVER or a set ALTSERVER answers, one of the first two attempts succeeds; the first
      one if ALTSERVER answers or if flipFlop picks SERVER. */
  lemma {:induction false} TwoAttempts(st: State, net: Net)
    requires Stays(net, MainServer(st.syms)) || AltStays(st, net)
    ensures Succeeds(st, net, 0) || Succeeds(st, net, 1)
    ensures AltStays(st, net) || !st.flipFlop ==> Succeeds(st, net, 0)
  {
    OneAttempt(st, net, 0);
    ServersKept(st, Answers(st, net, 0));
    OneAttempt(AfterCalls(st, net, 1), net, 1);
  }

  /** What the network answers to the next attempt. */
  method Dial(d: Daemon, net: Net, calls: nat) returns (w: World)
    requires d.Valid()
    ensures w == Answers(d.Abs(), net, calls)
  {
    var main := d.table.GetSymbol("SERVER");
    var alt := d.table.GetSymbol("ALTSERVER");
    var first := Picked(d.flipFlop, main, alt);
    var second := if alt.Some? then alt else main;
    w := World(net(2 * calls, first), second.Some? && net(2 * calls + 1, second.value), false, "");
  }

  method Attempt(d: Daemon, net: Net, calls: nat, ghost st: State) returns (connected: bool)
    requires d.Valid() && d.Abs() == AfterCalls(st, net, calls)
    modifies d, d.table.Repr
    ensures d.Valid() && fresh(d.table.Repr - old(d.table.Repr))
    ensures d.Abs() == AfterCalls(st, net, calls + 1)
    ensures connected == Succeeds(st, net, calls)
  {
    var w := Dial(d, net, calls);
    var report := d.SpreadConnect(w);
    connected := report.connected;
  }

  /** do connected = spreadConnect() while not connected: at most two calls from either flipFlop
      while SERVER answers, one while ALTSERVER does. */
  method ConnectLoop(d: Daemon, net: Net) returns (calls: nat)
    requires d.Valid()
    requires Stays(net, MainServer(d.table.model)) || AltStays(d.Abs(), net)
    modifies d, d.table.Repr
    ensures d.Valid() && fresh(d.table.Repr - old(d.table.Repr))
    ensures 1 <= calls <= 2 && d.Abs() == AfterCalls(old(d.Abs()), net, calls)
    ensures Succeeds(old(d.Abs()), net, calls - 1)
    ensures AltStays(old(d.Abs()), net) || !old(d.flipFlop) ==> calls == 1
  {
    ghost var st := d.Abs();
    ghost var s0, s1 := Succeeds(st, net, 0), Succeeds(st, net, 1);
    TwoAttempts(st, net);
    calls := 0;
    var connected := false;
    while !connected
      invariant d.Valid() && fresh(d.table.Repr - old(d.table.Repr))
      invariant d.Abs() == AfterCalls(st, net, calls) && calls <= 2
      invariant connected == ((calls == 1 && s0) || (calls == 2 && s1))
      invariant calls == 2 ==> !s0
      decreases 2 - calls
    {
      connected := Attempt(d, net, calls, st);
      calls := calls + 1;
    }
  }

  /** The server a successful attempt really talks to. */
  function Reached(st: State, w: World): string
    requires Connects(st, w)
  {
    if w.firstUp then FirstServer(st) else SecondServer(st).value
  }

  /** A connect writes the host of the server tried first to CONNECTED_TO, even when the fallback
      answered, and writes nothing when the symbol is locked or SERVER is unknown: the name is right
      exactly when the first try succeeded or both hosts are the same, and, if nothing is written,
      when it was right before. */
  lemma {:induction false} ConnectedToIff(st: State, w: World)
    requires Connects(st, w)
    ensures Get(AfterConnect(st, w).syms, "CONNECTED_TO") == Some(HostPart(Reached(st, w)))
            <==> if Locked(st.syms, "CONNECTED_TO") || TakenServer(st, w).None?
                 then Get(st.syms, "CONNECTED_TO") == Some(HostPart(Reached(st, w)))
                 else w.firstUp || HostPart(SecondServer(st).value) == HostPart(FirstServer(st))
  {
    if !Locked(st.syms, "CONNECTED_TO") && TakenServer(st, w).Some? {
      assert Get(AfterConnect(st, w).syms, "CONNECTED_TO") == Some(HostPart(FirstServer(st)));
    } else {
      assert Get(AfterConnect(st, w).syms, "CONNECTED_TO") == Get(st.syms, "CONNECTED_TO");
    }
  }
}
