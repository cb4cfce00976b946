/** One run that shows what the router does not guarantee when steps interleave. */
module RouterRaces {
  import opened Wire
  import opened Registry
  import opened Router
  import opened RouterInvariants

  function Demo(tag: byte): Option<Frame> {
    if tag == 1 then Some(Frame(Envelope(5, KindRegister, "r1", "a", "router", 0), [1]))
    else if tag == 2 then Some(Frame(Envelope(5, KindRegister, "r2", "x", "router", 0), [2]))
    else if tag == 3 then Some(Frame(Envelope(5, KindCall, "m", "a", "x", 0), []))
    else if tag == 4 then Some(Frame(Envelope(5, KindDisconnect, "d", "x", "router", 0), []))
    else if tag == 5 then Some(Frame(Envelope(5, KindRegister, "r3", "x", "router", 0), [3]))
    else if tag == 6 then Some(Frame(Envelope(5, KindRegister, "r4", "y", "router", 0), [4]))
    else if tag == 7 then Some(Frame(Envelope(5, KindResponse, "p", "x", "y", 0), []))
    else None
  }

  /** One-byte frames: `a` registers as a caller, `x` first as a service and later as a caller, `y` as a service. */
  const CODEC := Codec(
    raw => if |raw| == 1 then Demo(raw[0]) else None,
    body => if body == [1] then Some(RegisterBody("a", Caller))
            else if body == [2] then Some(RegisterBody("x", Service))
            else if body == [3] then Some(RegisterBody("x", Caller))
            else if body == [4] then Some(RegisterBody("y", Service))
            else None,
    body => None)

  const A := RegisterBody("a", Caller)
  const OLD_X := RegisterBody("x", Service)
  const NEW_X := RegisterBody("x", Caller)
  const Y := RegisterBody("y", Service)
  const RESPONSE := Envelope(5, KindResponse, "p", "x", "y", 0)
  const CALL := Envelope(5, KindCall, "m", "a", "x", 0)
  const IDLE := Conn(AwaitRegister, [], None, false)

  // ----- runs, one step at a time

  lemma Then(run: seq<Action>, s: State, a: Action) returns (longer: seq<Action>)
    requires Exec(CODEC, run) == Some(s)
    ensures Exec(CODEC, longer) == Step(CODEC, s, a)
  {
    longer := run + [a];
    assert longer[..|longer| - 1] == run;
  }

  lemma Takes(run: seq<Action>, s: State, id: ConnId, tag: byte) returns (longer: seq<Action>, t: State)
    requires Exec(CODEC, run) == Some(s) && id < |s.conns|
    requires s.conns[id].pc.AwaitRegister? || (s.conns[id].pc.Looping? && s.conns[id].registered.Some?)
    ensures Exec(CODEC, longer) == Some(t)
    ensures var conn := s.conns[id];
            var next := if conn.pc.AwaitRegister? then TakeFirst(CODEC, conn, Binary([tag]), 0)
                        else TakeNext(CODEC, conn, Binary([tag]), 0);
            t == State(s.conns[id := next], s.peers, s.log)
  {
    longer := Then(run, s, Receive(id, Binary([tag]), 0));
    t := Exec(CODEC, longer).value;
  }

  lemma Moves(run: seq<Action>, s: State, id: ConnId) returns (longer: seq<Action>, t: State)
    requires Exec(CODEC, run) == Some(s) && id < |s.conns|
    requires Advance(s.peers, id, s.conns[id], 0).Some?
    ensures Exec(CODEC, longer) == Some(t)
    ensures var (conn, peers) := Advance(s.peers, id, s.conns[id], 0).value;
            t == State(s.conns[id := conn], peers, s.log)
  {
    longer := Then(run, s, Proceed(id, true, 0));
    t := Exec(CODEC, longer).value;
  }

  lemma Writes(run: seq<Action>, s: State, id: ConnId) returns (longer: seq<Action>, t: State)
    requires Exec(CODEC, run) == Some(s) && id < |s.conns|
    requires s.conns[id].pc.Sending? || s.conns[id].pc.Forwarding?
    ensures Exec(CODEC, longer) == Some(t)
    ensures var conn := s.conns[id];
            && (conn.pc.Sending? ==>
                  t == State(s.conns[id := conn.(pc := Resume(conn.pc.after))], s.peers,
                             s.log + [Write(id, id, LastIndex(conn), Made(conn.pc.reply, conn.pc.body), None)]))
            && (conn.pc.Forwarding? ==>
                  t == State(s.conns[id := conn.(pc := Looping)], s.peers,
                             s.log + [Write(conn.pc.target, id, LastIndex(conn), Raw(conn.pc.raw), conn.pc.seen)]))
  {
    longer := Then(run, s, Proceed(id, true, 0));
    t := Exec(CODEC, longer).value;
  }

  // ----- the run

  lemma ThreeConnect() returns (run: seq<Action>, s: State)
    ensures Exec(CODEC, run) == Some(s)
    ensures |s.conns| == 3 && s.conns[0] == s.conns[1] == s.conns[2] == IDLE
    ensures s.peers == map[] && s.log == []
  {
    run := Then([], INIT, Accept);
    s := Exec(CODEC, run).value;
    run := Then(run, s, Accept);
    s := Exec(CODEC, run).value;
    run := Then(run, s, Accept);
    s := Exec(CODEC, run).value;
  }

  lemma CallerRegisters() returns (run: seq<Action>, s: State)
    ensures Exec(CODEC, run) == Some(s)
    ensures |s.conns| == 3 && s.conns[1] == s.conns[2] == IDLE
    ensures s.conns[0].pc == Looping && s.conns[0].registered == Some(A)
    ensures "x" !in s.peers && "y" !in s.peers
    ensures |s.log| == 1 && s.log[0].sink == 0
  {
    run, s := ThreeConnect();
    run, s := Takes(run, s, 0, 1);
    assert s.conns[0].pc == Inserting("r1", A);
    run, s := Moves(run, s, 0);
    run, s := Writes(run, s, 0);
  }

  lemma ServiceRegisters() returns (run: seq<Action>, s: State)
    ensures Exec(CODEC, run) == Some(s)
    ensures |s.conns| == 3 && s.conns[2] == IDLE
    ensures s.conns[0].pc == Looping && s.conns[0].registered == Some(A)
    ensures s.conns[1].pc == Looping && s.conns[1].registered == Some(OLD_X)
    ensures "x" in s.peers && s.peers["x"] == PeerRecord("x", Service, 1, true, 0) && "y" !in s.peers
    ensures |s.log| == 2 && s.log[0].sink == 0 && s.log[1].sink == 1
  {
    run, s := CallerRegisters();
    run, s := Takes(run, s, 1, 2);
    assert s.conns[1].pc == Inserting("r2", OLD_X);
    run, s := Moves(run, s, 1);
    run, s := Writes(run, s, 1);
  }

  /** The connection of `a` has read that `x` is a service. */
  lemma ClassIsRead() returns (run: seq<Action>, s: State)
    ensures Exec(CODEC, run) == Some(s)
    ensures |s.conns| == 3 && s.conns[2] == IDLE
    ensures s.conns[0].pc == ExistsCheck(CALL, [3], Some(1)) && s.conns[0].registered == Some(A)
    ensures s.conns[1].pc == Looping && s.conns[1].registered == Some(OLD_X)
    ensures "x" in s.peers
    ensures |s.log| == 2 && s.log[0].sink == 0 && s.log[1].sink == 1
  {
    run, s := ServiceRegisters();
    run, s := Takes(run, s, 0, 3);
    assert s.conns[0].pc == ClassLookup(CALL, [3]);
    run, s := Moves(run, s, 0);
  }

  /** The service gives up `x`, but its ack is not written yet. */
  lemma ServiceLeaves() returns (run: seq<Action>, s: State)
    ensures Exec(CODEC, run) == Some(s)
    ensures |s.conns| == 3 && s.conns[2] == IDLE
    ensures s.conns[0].pc == ExistsCheck(CALL, [3], Some(1)) && s.conns[0].registered == Some(A)
    ensures s.conns[1].pc.Sending? && s.conns[1].pc.after == Finish && s.conns[1].registered == Some(OLD_X)
    ensures "x" !in s.peers
    ensures |s.log| == 2 && s.log[0].sink == 0 && s.log[1].sink == 1
  {
    run, s := ClassIsRead();
    run, s := Takes(run, s, 1, 4);
    assert s.conns[1].pc == DisconnectRemove(Envelope(5, KindDisconnect, "d", "x", "router", 0));
    run, s := Moves(run, s, 1);
  }

  /** A caller takes `x`; its ack is not written yet either. */
  lemma IdChangesHands() returns (run: seq<Action>, s: State)
    ensures Exec(CODEC, run) == Some(s)
    ensures |s.conns| == 3
    ensures s.conns[0].pc == ExistsCheck(CALL, [3], Some(1)) && s.conns[0].registered == Some(A)
    ensures s.conns[1].pc.Sending? && s.conns[1].pc.after == Finish && s.conns[1].registered == Some(OLD_X)
    ensures s.conns[2].pc.Sending? && s.conns[2].pc.after == KeepLooping && s.conns[2].registered == Some(NEW_X)
    ensures "x" in s.peers && s.peers["x"] == PeerRecord("x", Caller, 2, true, 0)
    ensures |s.log| == 2 && s.log[0].sink == 0 && s.log[1].sink == 1
  {
    run, s := ServiceLeaves();
    run, s := Takes(run, s, 2, 5);
    assert s.conns[2].pc == Inserting("r3", NEW_X);
    run, s := Moves(run, s, 2);
  }

  /**
    * A forwarded call reaches a caller's sink although its target's class was checked,
    * and it is the first frame there: the register ack has not been written yet.
    */
  lemma ClassRuleIsLost() returns (run: seq<Action>, s: State)
    ensures Exec(CODEC, run) == Some(s)
    ensures |s.log| == 3 && s.log[2].payload == Raw([3]) && s.log[2].sink == 2
    ensures CODEC.decodeFrame([3]).value.envelope.kind.KindCall? && OfClass(s.conns, 2, Caller)
    ensures s.log[0].sink != 2 && s.log[1].sink != 2
    ensures |s.conns| == 3
    ensures s.conns[1].pc.Sending? && s.conns[1].pc.after == Finish && s.conns[1].registered == Some(OLD_X)
    ensures s.conns[2].pc.Sending? && s.conns[2].pc.after == KeepLooping && s.conns[2].registered == Some(NEW_X)
  {
    run, s := IdChangesHands();
    run, s := Moves(run, s, 0);
    run, s := Moves(run, s, 0);
    assert s.conns[0].pc == Forwarding(CALL, [3], Some(1), 2);
    run, s := Writes(run, s, 0);
  }

  lemma OldHolderAcks() returns (run: seq<Action>, s: State)
    ensures Exec(CODEC, run) == Some(s)
    ensures |s.conns| == 3 && s.conns[2].pc.Sending? && s.conns[2].pc.after == KeepLooping
    ensures s.conns[2].registered == Some(NEW_X)
    ensures s.conns[1].pc == Cleanup && s.conns[1].registered == Some(OLD_X)
  {
    run, s := ClassRuleIsLost();
    run, s := Writes(run, s, 1);
  }

  /** The old holder has written its ack and cleaned up by id. */
  lemma OldHolderCleansUp() returns (run: seq<Action>, s: State)
    ensures Exec(CODEC, run) == Some(s)
    ensures |s.conns| == 3 && s.conns[2].pc.Sending? && s.conns[2].pc.after == KeepLooping
    ensures s.conns[2].registered == Some(NEW_X)
    ensures "x" !in s.peers
  {
    run, s := OldHolderAcks();
    run, s := Moves(run, s, 1);
  }

  /** The old holder's final cleanup removed the new holder's record, and the new holder goes on looping. */
  lemma CleanupEvictsNewHolder() returns (run: seq<Action>, s: State)
    ensures Exec(CODEC, run) == Some(s)
    ensures |s.conns| == 3 && s.conns[2].pc.Looping? && s.conns[2].registered == Some(NEW_X)
    ensures "x" !in s.peers
  {
    run, s := OldHolderCleansUp();
    run, s := Writes(run, s, 2);
  }

  // ----- a response between services

  lemma SecondServiceRegisters() returns (run: seq<Action>, s: State)
    ensures Exec(CODEC, run) == Some(s)
    ensures |s.conns| == 3 && |s.log| == 3
    ensures s.conns[1].pc == Looping && s.conns[1].registered == Some(OLD_X)
    ensures s.conns[2].registered == Some(Y) && SenderOf(s.peers, "y") == Some(2)
  {
    run, s := ServiceRegisters();
    run, s := Takes(run, s, 2, 6);
    assert s.conns[2].pc == Inserting("r4", Y);
    run, s := Moves(run, s, 2);
    run, s := Writes(run, s, 2);
  }

  /** A response is forwarded to a service's sink: its source is checked, its target is not. */
  lemma ResponseReachesService() returns (run: seq<Action>, s: State)
    ensures Exec(CODEC, run) == Some(s)
    ensures |s.log| == 4 && s.log[3].payload == Raw([7]) && s.log[3].sink == 2
    ensures CODEC.decodeFrame([7]).value.envelope.kind.KindResponse? && OfClass(s.conns, 2, Service)
  {
    run, s := SecondServiceRegisters();
    run, s := Takes(run, s, 1, 7);
    assert s.conns[1].pc == ExistsCheck(RESPONSE, [7], None);
    run, s := Moves(run, s, 1);
    run, s := Moves(run, s, 1);
    run, s := Writes(run, s, 1);
  }
}
