/** How long a connection keeps its registration, and what reaches its sink before its register ack. */
module RouterLifetimes {
  import opened Wire
  import opened Registry
  import opened Router
  import opened RouterInvariants
  import opened RouterHistory

  // ----- a registration and its end

  predicate Evicts(s: State, a: Action, id: string) {
    && a.Proceed? && a.conn < |s.conns|
    && s.conns[a.conn].pc.Evicting? && s.conns[a.conn].pc.env.to == id
  }

  /** In this state this action removes the record of `id`, whoever holds it. */
  predicate Removes(s: State, a: Action, id: string) {
    || Evicts(s, a, id)
    || (&& a.Proceed? && a.conn < |s.conns|
        && var conn := s.conns[a.conn];
           || (conn.pc.Cleanup? && conn.registered.Some? && conn.registered.value.peerId == id)
           || (conn.pc.DisconnectRemove? && conn.pc.env.from == id))
  }

  /** A holder loses its record exactly to a cleanup, a disconnect or an eviction under its id. */
  lemma LosesRecordExactly(codec: Codec, s: State, a: Action, id: string, c: ConnId)
    requires Step(codec, s, a).Some? && SenderOf(s.peers, id) == Some(c)
    ensures SenderOf(Step(codec, s, a).value.peers, id) != Some(c) <==> Removes(s, a, id)
  {
  }

  lemma GainsRecord(codec: Codec, s: State, a: Action, id: string, c: ConnId)
    requires Step(codec, s, a).Some? && SenderOf(s.peers, id) != Some(c)
    requires SenderOf(Step(codec, s, a).value.peers, id) == Some(c)
    ensures c < |s.conns| && s.conns[c].pc.Inserting?
  {
  }

  lemma RegisteringInserts(codec: Codec, s: State, a: Action, id: string, c: ConnId)
    requires Step(codec, s, a).Some? && !Registered(s.conns, c, id)
    requires Registered(Step(codec, s, a).value.conns, c, id)
    ensures SenderOf(Step(codec, s, a).value.peers, id) == Some(c)
  {
  }

  /** None of the first j steps removed the id after c had registered it. */
  ghost predicate Undisturbed(codec: Codec, run: seq<Action>, j: nat, c: ConnId, id: string)
    requires j <= |run|
  {
    forall i :: 0 <= i < j && Registered(StateAt(codec, run, i).conns, c, id) ==>
      !Removes(StateAt(codec, run, i), run[i], id)
  }

  /** While c is registered one step decides: it had the record and the step does not remove it. */
  lemma HoldStep(codec: Codec, s: State, a: Action, c: ConnId, id: string)
    requires Step(codec, s, a).Some? && Registered(s.conns, c, id) && ConnOk(codec, s.conns, s.conns[c])
    ensures SenderOf(Step(codec, s, a).value.peers, id) == Some(c)
       <==> SenderOf(s.peers, id) == Some(c) && !Removes(s, a, id)
  {
    if SenderOf(s.peers, id) == Some(c) {
      LosesRecordExactly(codec, s, a, id, c);
    } else if SenderOf(Step(codec, s, a).value.peers, id) == Some(c) {
      GainsRecord(codec, s, a, id, c);
    }
  }

  lemma HoldsNext(codec: Codec, run: seq<Action>, j: nat, c: ConnId, id: string)
    requires Exec(codec, run).Some? && j < |run| && Registered(StateAt(codec, run, j).conns, c, id)
    ensures SenderOf(StateAt(codec, run, j + 1).peers, id) == Some(c)
       <==> SenderOf(StateAt(codec, run, j).peers, id) == Some(c) && !Removes(StateAt(codec, run, j), run[j], id)
  {
    ConnAt(codec, run, j, j, c);
    Along(codec, run, j);
    HoldStep(codec, StateAt(codec, run, j), run[j], c, id);
  }

  lemma InsertedNext(codec: Codec, run: seq<Action>, j: nat, c: ConnId, id: string)
    requires Exec(codec, run).Some? && j < |run| && !Registered(StateAt(codec, run, j).conns, c, id)
    requires Registered(StateAt(codec, run, j + 1).conns, c, id)
    ensures SenderOf(StateAt(codec, run, j + 1).peers, id) == Some(c)
  {
    Along(codec, run, j);
    RegisteringInserts(codec, StateAt(codec, run, j), run[j], id, c);
  }

  lemma NotRegisteredEarlier(codec: Codec, run: seq<Action>, i: nat, j: nat, c: ConnId, id: string)
    requires Exec(codec, run).Some? && i <= j <= |run| && !Registered(StateAt(codec, run, j).conns, c, id)
    ensures !Registered(StateAt(codec, run, i).conns, c, id)
  {
    if c < |StateAt(codec, run, i).conns| {
      ConnAt(codec, run, i, j, c);
    }
  }

  lemma UndisturbedGrows(codec: Codec, run: seq<Action>, j: nat, c: ConnId, id: string)
    requires j < |run| && Registered(StateAt(codec, run, j).conns, c, id)
    ensures Undisturbed(codec, run, j + 1, c, id)
       <==> Undisturbed(codec, run, j, c, id) && !Removes(StateAt(codec, run, j), run[j], id)
  {
  }

  lemma UndisturbedSoFar(codec: Codec, run: seq<Action>, j: nat, c: ConnId, id: string)
    requires Exec(codec, run).Some? && j < |run| && !Registered(StateAt(codec, run, j).conns, c, id)
    ensures Undisturbed(codec, run, j + 1, c, id)
  {
    forall i | 0 <= i < j + 1
      ensures !Registered(StateAt(codec, run, i).conns, c, id)
    {
      NotRegisteredEarlier(codec, run, i, j, c, id);
    }
  }

  lemma {:induction false} HoldsUpTo(codec: Codec, run: seq<Action>, j: nat, c: ConnId, id: string)
    requires Exec(codec, run).Some? && j <= |run| && Registered(StateAt(codec, run, j).conns, c, id)
    ensures SenderOf(StateAt(codec, run, j).peers, id) == Some(c) <==> Undisturbed(codec, run, j, c, id)
    decreases j
  {
    AtStart(codec, run);
    if Registered(StateAt(codec, run, j - 1).conns, c, id) {
      HoldsUpTo(codec, run, j - 1, c, id);
      HoldsNext(codec, run, j - 1, c, id);
      UndisturbedGrows(codec, run, j - 1, c, id);
    } else {
      InsertedNext(codec, run, j - 1, c, id);
      UndisturbedSoFar(codec, run, j - 1, c, id);
    }
  }

  /** A connection that registered an id holds its record exactly while no step has removed that id since. */
  lemma HoldsExactly(codec: Codec, run: seq<Action>, c: ConnId, id: string)
    requires Exec(codec, run).Some? && Registered(Exec(codec, run).value.conns, c, id)
    ensures SenderOf(Exec(codec, run).value.peers, id) == Some(c) <==> Undisturbed(codec, run, |run|, c, id)
  {
    Along(codec, run, |run|);
    HoldsUpTo(codec, run, |run|, c, id);
  }

  /** No other connection of the run registered this id. */
  ghost predicate SoleRegistrant(conns: seq<Conn>, c: ConnId, id: string) {
    forall d :: 0 <= d < |conns| && d != c ==> !Registered(conns, d, id)
  }

  /** A removal that is no eviction is a connection giving up the id it registered. */
  lemma RemoverGivesUp(codec: Codec, s: State, a: Action, id: string)
    requires Removes(s, a, id) && !Evicts(s, a, id) && ConnOk(codec, s.conns, s.conns[a.conn])
    ensures Registered(s.conns, a.conn, id) && Leaving(s.conns[a.conn].pc)
  {
  }

  lemma GivenUpForGood(codec: Codec, run: seq<Action>, i: nat, d: ConnId, id: string)
    requires Exec(codec, run).Some? && i <= |run|
    requires Registered(StateAt(codec, run, i).conns, d, id) && Leaving(StateAt(codec, run, i).conns[d].pc)
    ensures Registered(Exec(codec, run).value.conns, d, id) && Leaving(Exec(codec, run).value.conns[d].pc)
  {
    ConnAt(codec, run, i, |run|, d);
    Along(codec, run, |run|);
  }

  /** Where nobody else used its id, only an eviction takes a looping connection's record. */
  lemma OnlyEvictions(codec: Codec, run: seq<Action>, c: ConnId, id: string, i: nat)
    requires Exec(codec, run).Some? && Registered(Exec(codec, run).value.conns, c, id)
    requires Exec(codec, run).value.conns[c].pc.Looping? && SoleRegistrant(Exec(codec, run).value.conns, c, id)
    requires i < |run| && Removes(StateAt(codec, run, i), run[i], id)
    ensures Evicts(StateAt(codec, run, i), run[i], id)
  {
    var s := StateAt(codec, run, i);
    if !Evicts(s, run[i], id) {
      ConnAt(codec, run, i, |run|, run[i].conn);
      RemoverGivesUp(codec, s, run[i], id);
      GivenUpForGood(codec, run, i, run[i].conn, id);
    }
  }

  /**
    * A looping connection whose id nobody else registered is still registered exactly when no
    * forward to it failed and evicted it. `RouterRaces.CleanupEvictsNewHolder` shares its id.
    */
  lemma LoopingHoldsExactly(codec: Codec, run: seq<Action>, c: ConnId, id: string)
    requires Exec(codec, run).Some? && Registered(Exec(codec, run).value.conns, c, id)
    requires Exec(codec, run).value.conns[c].pc.Looping? && SoleRegistrant(Exec(codec, run).value.conns, c, id)
    ensures SenderOf(Exec(codec, run).value.peers, id) == Some(c)
       <==> forall i :: 0 <= i < |run| && Registered(StateAt(codec, run, i).conns, c, id) ==>
              !Evicts(StateAt(codec, run, i), run[i], id)
  {
    HoldsExactly(codec, run, c, id);
    forall i | 0 <= i < |run| && Removes(StateAt(codec, run, i), run[i], id)
      ensures Evicts(StateAt(codec, run, i), run[i], id)
    {
      OnlyEvictions(codec, run, c, id, i);
    }
  }

  // ----- the register ack and what comes before it

  predicate AckPayload(payload: Payload, id: string) {
    && payload.Made? && payload.body == AckBody(true)
    && payload.env.kind.KindResponse? && payload.env.from == ROUTER_PEER_ID && payload.env.to == id
  }

  /** Until a registered connection takes a second message it can only be writing its ack, or be past it. */
  predicate AckConn(conn: Conn) {
    conn.registered.Some? ==>
      && conn.intake != []
      && (|conn.intake| == 1 ==>
            || conn.pc.Looping? || conn.pc.Cleanup? || conn.pc.Done?
            || (conn.pc.Sending? && AckPayload(Made(conn.pc.reply, conn.pc.body), conn.registered.value.peerId)))
  }

  lemma AckTake(codec: Codec, conn: Conn, message: Message, now: Timestamp)
    requires AckConn(conn) && (conn.pc.AwaitRegister? || conn.pc.Looping?)
    requires conn.pc.AwaitRegister? <==> conn.registered.None?
    ensures AckConn(if conn.pc.AwaitRegister? then TakeFirst(codec, conn, message, now)
                    else TakeNext(codec, conn, message, now))
  {
  }

  lemma AckAdvance(codec: Codec, s: State, id: ConnId, now: Timestamp)
    requires id < |s.conns| && ConnOk(codec, s.conns, s.conns[id]) && AckConn(s.conns[id])
    requires Advance(s.peers, id, s.conns[id], now).Some?
    ensures AckConn(Advance(s.peers, id, s.conns[id], now).value.0)
  {
  }

  lemma AckStep(codec: Codec, s: State, a: Action, c: ConnId)
    requires Inv(codec, s) && Step(codec, s, a).Some? && c < |Step(codec, s, a).value.conns|
    requires c < |s.conns| ==> AckConn(s.conns[c])
    ensures AckConn(Step(codec, s, a).value.conns[c])
  {
    if c < |s.conns| {
      assert ConnOk(codec, s.conns, s.conns[c]);
      if a.Receive? && a.conn == c {
        AckTake(codec, s.conns[c], a.message, a.now);
      } else if a.Proceed? && a.conn == c && Advance(s.peers, c, s.conns[c], a.now).Some? {
        AckAdvance(codec, s, c, a.now);
      }
    }
  }

  lemma {:induction false} AckAlong(codec: Codec, run: seq<Action>, j: nat, c: ConnId)
    requires Exec(codec, run).Some? && j <= |run| && c < |StateAt(codec, run, j).conns|
    ensures AckConn(StateAt(codec, run, j).conns[c])
    decreases j
  {
    AtStart(codec, run);
    Along(codec, run, j - 1);
    var s := StateAt(codec, run, j - 1);
    if c < |s.conns| {
      AckAlong(codec, run, j - 1, c);
    }
    AckStep(codec, s, run[j - 1], c);
  }

  /** Log position k holds the ack to the registration of c. */
  predicate IsAck(s: State, k: nat, c: ConnId, id: string) {
    && k < |s.log| && s.log[k].src == c && s.log[k].index == 0
    && s.log[k].sink == c && AckPayload(s.log[k].payload, id)
  }

  /** What answers the first message of a connection that registered is its ack. */
  lemma FirstAnswerIsAck(codec: Codec, run: seq<Action>, k: nat, c: ConnId, id: string)
    requires Exec(codec, run).Some? && Registered(Exec(codec, run).value.conns, c, id)
    requires Causes(Exec(codec, run).value.log, k, c, 0)
    ensures IsAck(Exec(codec, run).value, k, c, id)
  {
    Along(codec, run, |run|);
    var i := WrittenAt(codec, run, |run|, k);
    Along(codec, run, i);
    AckAlong(codec, run, i, c);
    RunLasts(codec, run, i, |run|);
    var s, t := StateAt(codec, run, i), StateAt(codec, run, |run|);
    assert ConnOk(codec, s.conns, s.conns[c]) && ConnLasts(s.conns[c], t.conns[c]);
  }

  /**
    * On a registered connection's sink every forwarded frame is addressed to its id, and the first
    * frame the router made itself is the register ack.
    */
  lemma AckIsFirstMade(codec: Codec, run: seq<Action>, k: nat, c: ConnId, id: string) returns (k0: nat)
    requires Exec(codec, run).Some? && Registered(Exec(codec, run).value.conns, c, id)
    requires k < |Exec(codec, run).value.log| && Exec(codec, run).value.log[k].sink == c
    ensures var s := Exec(codec, run).value;
            match s.log[k].payload
            case Raw(bytes) => codec.decodeFrame(bytes).Some? && codec.decodeFrame(bytes).value.envelope.to == id
            case Made(_, _) => k0 <= k && IsAck(s, k0, c, id)
  {
    Along(codec, run, |run|);
    var t := StateAt(codec, run, |run|);
    var w := t.log[k];
    assert WriteOk(codec, t.conns, w);
    k0 := k;
    if w.payload.Made? {
      if w.index > 0 {
        k0 := FirstAnswerBefore(codec, run, k);
      }
      FirstAnswerIsAck(codec, run, k0, c, id);
    }
  }

  /** A connection's first message was answered before any later one. */
  lemma FirstAnswerBefore(codec: Codec, run: seq<Action>, k: nat) returns (k0: nat)
    requires Exec(codec, run).Some?
    requires k < |Exec(codec, run).value.log| && Exec(codec, run).value.log[k].index > 0
    ensures k0 < k && Causes(Exec(codec, run).value.log, k0, Exec(codec, run).value.log[k].src, 0)
  {
    Along(codec, run, |run|);
    var w := Exec(codec, run).value.log[k];
    var i := WrittenAt(codec, run, |run|, k);
    Along(codec, run, i);
    var s := StateAt(codec, run, i);
    assert ConnOk(codec, s.conns, s.conns[w.src]);
    assert HasCaused(s.log, w.src, 0);
    k0 :| Causes(s.log, k0, w.src, 0);
  }

  /** Whatever is on the sink before the ack is a forwarded frame addressed to the connection's id. */
  lemma BeforeTheAck(codec: Codec, run: seq<Action>, k: nat, ack: nat, c: ConnId, id: string)
    requires Exec(codec, run).Some? && Registered(Exec(codec, run).value.conns, c, id)
    requires IsAck(Exec(codec, run).value, ack, c, id) && k < ack && Exec(codec, run).value.log[k].sink == c
    ensures var w := Exec(codec, run).value.log[k];
            && w.payload.Raw? && codec.decodeFrame(w.payload.bytes).Some?
            && codec.decodeFrame(w.payload.bytes).value.envelope.to == id
  {
    Along(codec, run, |run|);
    var k0 := AckIsFirstMade(codec, run, k, c, id);
  }

  /** Step i of the run registers c. */
  predicate RegistersAt(codec: Codec, run: seq<Action>, i: nat, c: ConnId, id: string) {
    && i < |run|
    && !Registered(StateAt(codec, run, i).conns, c, id) && Registered(StateAt(codec, run, i + 1).conns, c, id)
  }

  /** Step a of the run writes the first answer of c. */
  predicate AcksAt(codec: Codec, run: seq<Action>, a: nat, c: ConnId, id: string) {
    && a < |run| && run[a].Proceed? && run[a].ok && run[a].conn == c
    && var s := StateAt(codec, run, a);
       Registered(s.conns, c, id) && s.conns[c].pc.Sending? && |s.conns[c].intake| == 1
  }

  /** In this state this action forwards a frame to the sink of c. */
  predicate ForwardsTo(s: State, a: Action, c: ConnId) {
    && a.Proceed? && a.ok && a.conn < |s.conns|
    && s.conns[a.conn].pc.Forwarding? && s.conns[a.conn].pc.target == c
  }

  ghost predicate FirstOnSink(log: seq<Write>, k: nat, c: ConnId) {
    forall j :: 0 <= j < k && j < |log| ==> log[j].sink != c
  }

  ghost predicate NoForwardBetween(codec: Codec, run: seq<Action>, i: nat, a: nat, c: ConnId) {
    forall j :: i < j < a && j < |run| ==> !ForwardsTo(StateAt(codec, run, j), run[j], c)
  }

  /** A step that forwards leaves its frame in the log for good. */
  lemma ForwardIsLogged(codec: Codec, run: seq<Action>, j: nat, a: nat, c: ConnId)
    requires Exec(codec, run).Some? && j < a <= |run| && ForwardsTo(StateAt(codec, run, j), run[j], c)
    ensures |StateAt(codec, run, j).log| < |StateAt(codec, run, a).log|
    ensures StateAt(codec, run, a).log[|StateAt(codec, run, j).log|].sink == c
  {
    Along(codec, run, j);
    RunLasts(codec, run, j + 1, a);
    var s, t := StateAt(codec, run, j), StateAt(codec, run, j + 1);
    assert t.log[|s.log|].sink == c;
    assert StateAt(codec, run, a).log[|s.log|] == t.log[|s.log|];
  }

  lemma TargetIsRegistered(codec: Codec, run: seq<Action>, j: nat, c: ConnId)
    requires Exec(codec, run).Some? && j < |run| && ForwardsTo(StateAt(codec, run, j), run[j], c)
    ensures c < |StateAt(codec, run, j).conns| && StateAt(codec, run, j).conns[c].registered.Some?
  {
    ConnAt(codec, run, j, j, run[j].conn);
  }

  /** Nobody forwards to a connection before it has registered. */
  lemma ForwardsComeAfter(codec: Codec, run: seq<Action>, i: nat, j: nat, c: ConnId, id: string)
    requires Exec(codec, run).Some? && RegistersAt(codec, run, i, c, id)
    requires j < |run| && ForwardsTo(StateAt(codec, run, j), run[j], c)
    ensures i < j
  {
    TargetIsRegistered(codec, run, j, c);
    if j <= i {
      ConnAt(codec, run, j, i, c);
      ConnAt(codec, run, i, i + 1, c);
    }
  }

  /** The ack is the first frame on its sink exactly when nothing was forwarded there between the insert and the ack. */
  lemma AckIsFirstExactly(codec: Codec, run: seq<Action>, i: nat, a: nat, c: ConnId, id: string)
    requires Exec(codec, run).Some? && RegistersAt(codec, run, i, c, id) && AcksAt(codec, run, a, c, id)
    ensures var k := |StateAt(codec, run, a).log|;
            && IsAck(Exec(codec, run).value, k, c, id)
            && (FirstOnSink(Exec(codec, run).value.log, k, c) <==> NoForwardBetween(codec, run, i, a, c))
  {
    var s, t := StateAt(codec, run, a), Exec(codec, run).value;
    AckIsLogged(codec, run, a, c, id);
    Along(codec, run, |run|);
    RunLasts(codec, run, a, |run|);
    if !FirstOnSink(t.log, |s.log|, c) {
      var k :| 0 <= k < |s.log| && t.log[k].sink == c;
      BeforeTheAck(codec, run, k, |s.log|, c, id);
      var j := WrittenAt(codec, run, a, k);
      assert s.log[k] == t.log[k];
      assert ForwardsTo(StateAt(codec, run, j), run[j], c);
      ForwardsComeAfter(codec, run, i, j, c, id);
    }
    if j :| i < j < a && j < |run| && ForwardsTo(StateAt(codec, run, j), run[j], c) {
      ForwardIsLogged(codec, run, j, a, c);
      assert t.log[|StateAt(codec, run, j).log|].sink == c;
    }
  }

  lemma AckIsLogged(codec: Codec, run: seq<Action>, a: nat, c: ConnId, id: string)
    requires Exec(codec, run).Some? && AcksAt(codec, run, a, c, id)
    ensures IsAck(Exec(codec, run).value, |StateAt(codec, run, a).log|, c, id)
    ensures Registered(Exec(codec, run).value.conns, c, id)
  {
    var s := StateAt(codec, run, a);
    ConnAt(codec, run, a, |run|, c);
    StepIsLogged(codec, run, a);
    assert run[..|run|] == run;
    FirstAnswerIsAck(codec, run, |s.log|, c, id);
  }

  lemma SendIsLogged(codec: Codec, s: State, a: Action, t: State)
    requires a.Proceed? && a.ok && a.conn < |s.conns| && s.conns[a.conn].pc.Sending? && Step(codec, s, a) == Some(t)
    ensures Causes(t.log, |s.log|, a.conn, LastIndex(s.conns[a.conn]))
  {
  }

  lemma LogLasts(codec: Codec, run: seq<Action>, j: nat)
    requires Exec(codec, run).Some? && j <= |run|
    ensures StateAt(codec, run, j).log <= Exec(codec, run).value.log
  {
    RunLasts(codec, run, j, |run|);
    Along(codec, run, |run|);
  }

  lemma StepAt(codec: Codec, run: seq<Action>, j: nat)
    requires Exec(codec, run).Some? && j < |run|
    ensures Step(codec, StateAt(codec, run, j), run[j]) == Some(StateAt(codec, run, j + 1))
  {
    Along(codec, run, j);
  }

  /** A frame written by step a of a connection stays in the log at that position. */
  lemma StepIsLogged(codec: Codec, run: seq<Action>, a: nat)
    requires Exec(codec, run).Some? && a < |run| && run[a].Proceed? && run[a].ok
    requires run[a].conn < |StateAt(codec, run, a).conns| && StateAt(codec, run, a).conns[run[a].conn].pc.Sending?
    ensures var s, conn := StateAt(codec, run, a), StateAt(codec, run, a).conns[run[a].conn];
            Causes(Exec(codec, run).value.log, |s.log|, run[a].conn, LastIndex(conn))
  {
    StepAt(codec, run, a);
    SendIsLogged(codec, StateAt(codec, run, a), run[a], StateAt(codec, run, a + 1));
    LogLasts(codec, run, a + 1);
  }
}
