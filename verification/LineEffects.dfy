/** From the text of a command line, or of a received message, to the nodes table. */
module LineEffects {
  import opened CString
  import Cmd = Commands
  import opened DaemonSpec
  import opened DaemonFacts
  import opened NodeRows
  import opened NodeCaches
  import Session
  import OneThread

  /** What a command asks of the cache; me is the symbol ME. */
  function CacheEventOf(c: Cmd.Command, me: Option<string>, now: int): Option<CacheEvent> {
    match c
    case CacheAdd(node, group) => Some(AddCmd(node, group, now))
    case CacheDel(node, from) => Some(DelCmd(node, from))
    case CacheEmpty(which) => Some(EmptyCmd(which, me, now))
    case Leave(group) => Some(LeaveCmd(me, Some(group)))
    case _ => None
  }

  function OnCache(m: Nodes, c: Cmd.Command, me: Option<string>, now: int): Nodes {
    match CacheEventOf(c, me, now)
    case None => m
    case Some(e) => MapStep(m, e)
  }

  /** The cache calls of processSpreadCommand. */
  method ExecuteOnCache(cache: NodeCache, c: Cmd.Command, me: Option<string>, now: int)
    requires Unique(cache.rows)
    modifies cache
    ensures Unique(cache.rows) && Abs(cache.rows) == OnCache(old(Abs(cache.rows)), c, me, now)
  {
    match c {
      case CacheAdd(node, group) => cache.CacheAdd(node, group, UNKNOWN, now);
      case CacheDel(node, from) => cache.CacheRemove(node, from);
      case CacheEmpty(which) => cache.EmptyCache(which, me, now);
      case Leave(group) =>
        var left := cache.SpreadLeave(me, Some(group));
      case _ =>
    }
  }

  /** ^add makes the node known in the group, as UNKNOWN. */
  lemma {:induction false} AddEffect(m: Nodes, node: string, group: string, me: Option<string>, now: int)
    ensures var k := Key(node, group);
            OnCache(m, Cmd.CacheAdd(node, group), me, now)
            == m[k := if k in m then m[k].(state := UNKNOWN, touched := now) else Cell(UNKNOWN, now, None, false)]
  {
  }

  /** ^del removes the node from the group, or from all. */
  lemma {:induction false} DelEffect(m: Nodes, node: string, group: string, me: Option<string>, now: int)
    ensures OnCache(m, Cmd.CacheDel(node, Some(group)), me, now) == m - {Key(node, group)}
    ensures OnCache(m, Cmd.CacheDel(node, None), me, now) == map k | k in m && k.name != node :: m[k]
  {
  }

  /** ^leave takes the daemon's own CONNECTED row of the group to LEAVE, and no other row anywhere. */
  lemma {:induction false} LeaveEffect(m: Nodes, group: string, me: string, now: int, k: Key)
    requires k in m
    ensures var after := OnCache(m, Cmd.Leave(group), Some(me), now);
            k in after && after[k] == if k == Key(me, group) && m[k].state == CONNECTED
                                      then m[k].(state := LEAVE) else m[k]
  {
    LeaveExactly(m, me, group, k);
  }

  /** ^empty removes, by its parameter: what is DISCONNECTED but the daemon's own rows, all that is not
      CONNECTED, what of that is stale, or all that is DISCONNECTED. */
  lemma {:induction false} EmptyEffect(m: Nodes, word: string, me: string, now: int)
    ensures OnCache(m, Cmd.CacheEmpty(None), Some(me), now)
         == map k | k in m && !(m[k].state == DISCONNECTED && k.name != me) :: m[k]
    ensures OnCache(m, Cmd.CacheEmpty(Some("all")), Some(me), now) == map k | k in m && m[k].state == CONNECTED :: m[k]
    ensures OnCache(m, Cmd.CacheEmpty(Some("stale")), Some(me), now)
         == map k | k in m && (m[k].state == CONNECTED || m[k].stale == None || m[k].stale.value >= now) :: m[k]
    ensures word != "all" && word != "stale" ==>
      OnCache(m, Cmd.CacheEmpty(Some(word)), Some(me), now) == map k | k in m && m[k].state != DISCONNECTED :: m[k]
  {
  }

  // ----- received -----

  /** A regular message as the receive thread handles it. */
  function RegularOf(sender: string, targets: seq<string>, text: string, me: Option<string>, now: int,
    purge: Option<int>): Session.Message
  {
    var empty := ReceivedEmpty(text);
    Session.Regular(sender, targets,
      OneThread.EmptyStmtOf(if empty.Some? then Some(EmptyCall(empty.value, me, now)) else None), purge)
  }

  /** A peer's "^empty all" removes all that is not CONNECTED, from every table and by every sender. */
  lemma {:induction false} ReceivedEmptyAll(m: Nodes, sender: string, targets: seq<string>, me: Option<string>,
        now: int)
    ensures OneThread.MapBlocks(m, Session.MessageProgram(
              RegularOf(sender, targets, "^empty" + (" " + ("all" + "")), me, now, None)))
         == map k | k in m && m[k].state == CONNECTED :: m[k]
  {
    ReceivedEmptyWords("all", "");
    OneThread.RegularIsStep(m, sender, targets, Some(EmptyCall(Some("all"), me, now)), None);
  }

  /** Another message empties nothing; with AUTOPURGE it removes what is stale. */
  lemma {:induction false} ReceivedOther(m: Nodes, sender: string, targets: seq<string>, word: string, tail: string,
        me: Option<string>, now: int, purge: Option<int>)
    requires Token(word) && word != "^empty" && Apart(tail)
    requires |word| + |tail| < BUFFSIZE
    ensures OneThread.MapBlocks(m, Session.MessageProgram(RegularOf(sender, targets, word + tail, me, now, purge)))
         == map k | k in m && !(purge.Some? && m[k].state != CONNECTED && m[k].stale.Some?
                                && m[k].stale.value < purge.value) :: m[k]
  {
    BlankWord(word, tail);
    OneThread.RegularIsStep(m, sender, targets, None, purge);
  }
}
