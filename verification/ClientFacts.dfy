/** The older client in terms of the text it reads: case, mode, client flags, and the Redis requests it
    executes. */
module ClientFacts {
  import opened CString
  import opened Symbols
  import opened HashDialect
  import opened HashLoad
  import Resp
  import Decoder = RespDecode

  // ----- case and mode -----

  /** Letters lose their case, everything else stays. */
  lemma {:induction false} LowerText(a: string, b: string)
    ensures Lower("ABCDEFGHIJKLMNOPQRSTUVWXYZ") == "abcdefghijklmnopqrstuvwxyz"
    ensures (forall i :: 0 <= i < |a| ==> !('A' <= a[i] <= 'Z')) ==> Lower(a) == a
    ensures Lower(a + b) == Lower(a) + Lower(b)
  {
  }

  /** Lines have an effect in local mode alone: where MODE is not set or says so, in any case. */
  lemma {:induction false} ModeDecides(st: State, key: string, value: string)
    ensures "MODE" !in st.syms ==> Exec(st, Set(Some(key), Some(value))) == Ok(AfterSet(st, key, value))
    ensures Get(st.syms, "MODE") == Some("local") || Get(st.syms, "MODE") == Some("Local") ==>
              Exec(st, Set(Some(key), Some(value))) == Ok(AfterSet(st, key, value))
    ensures Get(st.syms, "MODE") == Some("remote") ==> Exec(st, Set(Some(key), Some(value))) == Ok(st)
  {
    assert Lower("local") == "local" && Lower("Local") == "local" && Lower("remote") == "remote";
  }

  /** A missing value is a null pointer unless the symbol is locked and not CLIENT; a missing name is. */
  lemma {:induction false} MissingValueIff(st: State, key: string)
    requires "MODE" !in st.syms
    ensures Exec(st, Set(Some(key), None)) == Crash
            <==> !(key in st.syms && st.syms[key].locked && key != "CLIENT")
    ensures Exec(st, Set(Some(key), None)) == Crash || Exec(st, Set(Some(key), None)) == Ok(st)
    ensures Exec(st, Set(None, None)) == Crash && Exec(st, Lock(None)) == Crash
  {
  }

  // ----- ^set -----

  /** The table after a ^set, CLIENT apart: a locked value and a known scope stay. */
  lemma {:induction false} SetEffect(st: State, key: string, value: string)
    requires key != "CLIENT"
    ensures AfterSet(st, key, value).flags == st.flags
    ensures AfterSet(st, key, value).syms
         == if key !in st.syms then st.syms[key := Symbol(value, false, true)]
            else if st.syms[key].locked then st.syms
            else st.syms[key := st.syms[key].(value := value)]
  {
  }

  /** CLIENT sets exactly one of raw, redis and format by its name, cmd on top and for good, and falls
      back to raw when that leaves none. */
  lemma {:induction false} ClientEffect(st: State, value: string)
    ensures var f := AfterSet(st, "CLIENT", value).flags;
            var none := value != "raw" && value != "redis" && value != "format" && value != "cmd" && !st.flags.cmd;
            && (f.redis <==> value == "redis") && (f.format <==> value == "format")
            && (f.cmd <==> value == "cmd" || st.flags.cmd) && (f.raw <==> value == "raw" || none)
            && (none ==> Get(AfterSet(st, "CLIENT", value).syms, "CLIENT") == Some("raw"))
            && (!none && !Locked(st.syms, "CLIENT") ==>
                  Get(AfterSet(st, "CLIENT", value).syms, "CLIENT") == Some(value))
            && (!none && Locked(st.syms, "CLIENT") ==> AfterSet(st, "CLIENT", value).syms == st.syms)
  {
  }

  /** saveSymbols leaves SAVE_ALLOWED and, where it may save, START_FILE known. */
  lemma {:induction false} SaveDefaults(t: Table)
    ensures var after := HashDialect.AfterSave(t);
            && ("SAVE_ALLOWED" !in t ==> Get(after, "SAVE_ALLOWED") == Some("true") && !after["SAVE_ALLOWED"].global)
            && (Get(t, "SAVE_ALLOWED") == Some("false") ==> after == t)
            && (Get(t, "SAVE_ALLOWED") != Some("false") && "START_FILE" !in t ==>
                  "START_FILE" in after && after["START_FILE"] == Symbol("./start.rc", false, false))
            && (forall k :: k in t ==> k in after && after[k] == t[k])
            && (forall k :: k in after ==> k in t || k == "SAVE_ALLOWED" || k == "START_FILE")
  {
  }

  // ----- a Redis request, from its bytes to the table -----

  lemma {:induction false} SetText(k: string, v: string)
    requires Decoder.Fits(k) && Decoder.Fits(v)
    ensures ParseHash("^SET " + k + " " + v + "\n") == Set(Some(k), Some(v))
  {
    var line := "^SET " + k + " " + v + "\n";
    assert line == "^SET" + " " + (k + " " + (v + "\n"));
    StrTokHead("^SET", ' ', k + " " + (v + "\n"), WORD);
    StrTokHead(k, ' ', v + "\n", {' '});
    StrTokHead(v, '\n', "", {'\n'});
    assert v + "\n" + "" == v + "\n";
    assert Lower("^SET") == "^set";
  }

  /** In local mode a SET request that can be read sets its key to its value, and the stream goes on
      after it. */
  lemma {:induction false} RequestExecutes(st: State, k: string, v: string, tail: string, buff: string)
    requires Decoder.Fits(k) && Decoder.Fits(v) && LocalMode(st.syms)
    ensures Resp.RedisSet(k, v) + tail != ""
    ensures var (out, rest) := Decoder.DecodeRequest(buff, Resp.RedisSet(k, v) + tail);
            out.Command? && rest == tail && Exec(st, ParseHash(out.text)) == Ok(AfterSet(st, k, v))
  {
    Decoder.SetRoundTrip(k, v, tail, buff);
    SetText(k, v);
  }

  /** A ^set or ^lock without any name is a null pointer. */
  lemma {:induction false} BareWord(cmd: string)
    requires cmd == "^set" || cmd == "^lock"
    ensures ParseHash(cmd + "\n") == if cmd == "^set" then Set(None, None) else Lock(None)
  {
    StrTokHead(cmd, '\n', "", WORD);
    assert cmd + "\n" + "" == cmd + "\n";
    LowerText(cmd, "");
  }
}
