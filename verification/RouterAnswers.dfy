/** Which answer the router itself gives to each message, why it refuses to forward one, and which messages are fatal. */
module RouterAnswers {
  import opened Wire
  import opened Registry
  import opened Router
  import opened RouterInvariants
  import opened RouterHistory

  // ----- what the answer to a message must be

  /** An error with this code. */
  predicate Refuses(pc: Pc, code: string) {
    && pc.Sending? && pc.body == ErrorBody(code)
    && pc.reply.kind.KindError? && pc.reply.to == "router" && pc.reply.v == 5
  }

  predicate Accepts(pc: Pc, kind: Kind, to: string) {
    pc.Sending? && pc.body == AckBody(true) && pc.reply.kind == kind && pc.reply.to == to && pc.reply.v == 5
  }

  /** The first message decides whether the connection gets in. */
  predicate FirstAnswer(codec: Codec, peers: Peers, frame: Frame, pc: Pc) {
    if !frame.envelope.kind.KindRegister? then Refuses(pc, "register.required") && pc.after.Finish?
    else
      && codec.unpackRegister(frame.body).Some?
      && var register := codec.unpackRegister(frame.body).value;
         && frame.envelope.to == "router" && frame.envelope.from == register.peerId
         && if register.peerId in peers then Refuses(pc, "duplicate_peer_id") && pc.after.Finish?
            else Accepts(pc, KindResponse, register.peerId) && pc.after.KeepLooping?
  }

  /** The answer to a query tells what the table holds now. */
  predicate TellsPresence(peers: Peers, query: QueryBody, body: RouterBody) {
    && body.PresenceBody? && body.peerId == query.peerId
    && (body.found <==> query.peerId in peers)
    && body.peerClass == ClassOf(peers, query.peerId)
    && (body.connected <==> query.peerId in peers && (query.PeerGet? ==> peers[query.peerId].connected))
  }

  /**
    * Why a frame from the right class was not forwarded: its target is not there, or a send to it failed;
    * or a call's target is a caller, an error's a service. Nothing else is refused.
    */
  predicate NotForwarded(peers: Peers, env: Envelope, pc: Pc, sendFailed: bool) {
    && pc.Sending? && pc.after.KeepLooping?
    && (|| (Refuses(pc, "peer_not_found") && (sendFailed || env.to !in peers))
        || (Refuses(pc, "invalid_target_class") && env.kind.KindCall? && ClassOf(peers, env.to) == Some(Caller))
        || (Refuses(pc, "invalid_target_class") && env.kind.KindError? && ClassOf(peers, env.to) == Some(Service)))
  }

  /** The answer to a frame of a registered connection whose source id is right. */
  predicate LaterAnswer(codec: Codec, peers: Peers, own: RegisterBody, frame: Frame, pc: Pc, sendFailed: bool) {
    var env := frame.envelope;
    pc.Sending? &&
    match env.kind
    case KindQuery =>
      && codec.unpackQuery(frame.body).Some? && TellsPresence(peers, codec.unpackQuery(frame.body).value, pc.body)
      && pc.reply.kind.KindResponse? && pc.reply.to == own.peerId && pc.reply.v == env.v && pc.reply.ts == env.ts
      && pc.after.KeepLooping?
    case KindCall =>
      if own.peerClass.Service? then Refuses(pc, "invalid_source_class") && pc.after.KeepLooping?
      else NotForwarded(peers, env, pc, sendFailed)
    case KindResponse =>
      if own.peerClass.Caller? then Refuses(pc, "invalid_source_class") && pc.after.KeepLooping?
      else NotForwarded(peers, env, pc, sendFailed)
    case KindError =>
      if own.peerClass.Caller? then Refuses(pc, "invalid_source_class") && pc.after.KeepLooping?
      else NotForwarded(peers, env, pc, sendFailed)
    case KindHeartbeat =>
      || NotForwarded(peers, env, pc, sendFailed)
      || (Accepts(pc, KindHeartbeat, own.peerId) && pc.reply.ts == env.ts && env.to !in peers && pc.after.KeepLooping?)
    case KindDisconnect => Accepts(pc, KindResponse, own.peerId) && pc.reply.ts == env.ts && pc.after.Finish?
    case _ => Refuses(pc, "unsupported_kind") && pc.after.KeepLooping?
  }

  /** In this state this is the answer that this message of the connection must get. */
  predicate Justified(codec: Codec, peers: Peers, registered: Option<RegisterBody>, message: Message, pc: Pc, sendFailed: bool) {
    match message
    case Binary(raw) =>
      && codec.decodeFrame(raw).Some?
      && var frame := codec.decodeFrame(raw).value;
         if registered.None? then FirstAnswer(codec, peers, frame, pc)
         else if frame.envelope.from != registered.value.peerId then Refuses(pc, "invalid_source") && pc.after.KeepLooping?
         else LaterAnswer(codec, peers, registered.value, frame, pc, sendFailed)
    case _ => registered.Some? && message.Text? && Refuses(pc, "non_binary_message") && pc.after.Finish?
  }

  function LastMessage(conn: Conn): Message
    requires conn.intake != []
  {
    conn.intake[|conn.intake| - 1]
  }

  // ----- every step that turns to an answer turns to the right one

  lemma TakeAnswers(codec: Codec, peers: Peers, conn: Conn, message: Message, now: Timestamp)
    requires conn.pc.AwaitRegister? || conn.pc.Looping?
    requires conn.pc.AwaitRegister? <==> conn.registered.None?
    ensures var next := if conn.pc.AwaitRegister? then TakeFirst(codec, conn, message, now)
                        else TakeNext(codec, conn, message, now);
            next.pc.Sending? ==>
              next.intake != [] && LastMessage(next) == message
              && Justified(codec, peers, conn.registered, message, next.pc, false)
  {
  }

  lemma RoutingAnswers(codec: Codec, peers: Peers, id: ConnId, conn: Conn, conns: seq<Conn>, now: Timestamp)
    requires PcOk(codec, conns, conn)
    requires conn.pc.ClassLookup? || conn.pc.ExistsCheck? || conn.pc.SenderLookup? || conn.pc.Evicting?
    ensures var next := Advance(peers, id, conn, now).value.0;
            next.pc.Sending? ==>
              Justified(codec, peers, conn.registered, LastMessage(conn), next.pc, conn.pc.Evicting?)
  {
  }

  lemma OwnAnswers(codec: Codec, peers: Peers, id: ConnId, conn: Conn, conns: seq<Conn>, now: Timestamp)
    requires PcOk(codec, conns, conn)
    requires conn.pc.Inserting? || conn.pc.QueryLookup? || conn.pc.HeartbeatMark? || conn.pc.HeartbeatCheck?
          || conn.pc.DisconnectRemove?
    ensures var next := Advance(peers, id, conn, now).value.0;
            next.pc.Sending? ==> Justified(codec, peers, conn.registered, LastMessage(conn), next.pc, false)
  {
  }

  /** The connection has just turned from something else to this answer. */
  predicate Turns(codec: Codec, s: State, t: State, c: ConnId) {
    && c < |s.conns| && c < |t.conns| && t.conns[c].intake != []
    && Justified(codec, s.peers, s.conns[c].registered, LastMessage(t.conns[c]), t.conns[c].pc, s.conns[c].pc.Evicting?)
  }

  lemma AnswerBegins(codec: Codec, s: State, a: Action, c: ConnId)
    requires Inv(codec, s) && Step(codec, s, a).Some?
    requires c < |Step(codec, s, a).value.conns| && Step(codec, s, a).value.conns[c].pc.Sending?
    ensures (c < |s.conns| && s.conns[c] == Step(codec, s, a).value.conns[c]) || Turns(codec, s, Step(codec, s, a).value, c)
  {
    if c < |s.conns| {
      assert ConnOk(codec, s.conns, s.conns[c]);
      var conn := s.conns[c];
      if a.Receive? && a.conn == c {
        TakeAnswers(codec, s.peers, conn, a.message, a.now);
      } else if a.Proceed? && a.conn == c && !conn.pc.Sending? && !conn.pc.Forwarding? {
        AdvanceAnswers(codec, s.peers, c, conn, s.conns, a.now);
      }
    }
  }

  lemma AdvanceAnswers(codec: Codec, peers: Peers, id: ConnId, conn: Conn, conns: seq<Conn>, now: Timestamp)
    requires PcOk(codec, conns, conn) && Advance(peers, id, conn, now).Some?
    ensures var next := Advance(peers, id, conn, now).value.0;
            && next.intake == conn.intake
            && (next.pc.Sending? ==>
                  conn.intake != []
                  && Justified(codec, peers, conn.registered, LastMessage(conn), next.pc, conn.pc.Evicting?))
  {
    if conn.pc.ClassLookup? || conn.pc.ExistsCheck? || conn.pc.SenderLookup? || conn.pc.Evicting? {
      RoutingAnswers(codec, peers, id, conn, conns, now);
    } else if !conn.pc.Cleanup? {
      OwnAnswers(codec, peers, id, conn, conns, now);
    }
  }

  /** The step at which a connection turned to the answer it is writing. */
  lemma {:induction false} AnswerBegan(codec: Codec, run: seq<Action>, j: nat, c: ConnId) returns (i: nat)
    requires Exec(codec, run).Some? && j <= |run|
    requires c < |StateAt(codec, run, j).conns| && StateAt(codec, run, j).conns[c].pc.Sending?
    ensures i < j && Turns(codec, StateAt(codec, run, i), StateAt(codec, run, i + 1), c)
    ensures StateAt(codec, run, i + 1).conns[c] == StateAt(codec, run, j).conns[c]
    decreases j
  {
    AtStart(codec, run);
    Along(codec, run, j - 1);
    var s, t := StateAt(codec, run, j - 1), StateAt(codec, run, j);
    AnswerBegins(codec, s, run[j - 1], c);
    if c < |s.conns| && s.conns[c] == t.conns[c] {
      i := AnswerBegan(codec, run, j - 1, c);
    } else {
      i := j - 1;
    }
  }

  /** Step f of the run was a failed send of the connection's last message so far. */
  predicate SendFailedAt(codec: Codec, run: seq<Action>, f: nat, conn: Conn, c: ConnId) {
    && f < |run| && run[f].Proceed? && run[f].conn == c && !run[f].ok
    && var s := StateAt(codec, run, f);
       c < |s.conns| && s.conns[c].pc.Forwarding? && s.conns[c].intake == conn.intake
  }

  lemma EvictionBegins(codec: Codec, s: State, a: Action, c: ConnId)
    requires Step(codec, s, a).Some?
    requires c < |Step(codec, s, a).value.conns| && Step(codec, s, a).value.conns[c].pc.Evicting?
    ensures var conn := Step(codec, s, a).value.conns[c];
            && c < |s.conns|
            && (s.conns[c] == conn
                || (a.Proceed? && a.conn == c && !a.ok && s.conns[c].pc.Forwarding? && s.conns[c].intake == conn.intake))
  {
  }

  lemma {:induction false} EvictionBegan(codec: Codec, run: seq<Action>, j: nat, c: ConnId) returns (f: nat)
    requires Exec(codec, run).Some? && j <= |run|
    requires c < |StateAt(codec, run, j).conns| && StateAt(codec, run, j).conns[c].pc.Evicting?
    ensures f < j && SendFailedAt(codec, run, f, StateAt(codec, run, j).conns[c], c)
    decreases j
  {
    AtStart(codec, run);
    Along(codec, run, j - 1);
    var s, t := StateAt(codec, run, j - 1), StateAt(codec, run, j);
    EvictionBegins(codec, s, run[j - 1], c);
    if s.conns[c] == t.conns[c] {
      f := EvictionBegan(codec, run, j - 1, c);
    } else {
      f := j - 1;
    }
  }

  // ----- over whole runs

  /** At step i the source of this frame turned to it, as the answer to its message number w.index. */
  predicate AnsweredAt(codec: Codec, run: seq<Action>, i: nat, w: Write) {
    && i < |run| && w.payload.Made?
    && Turns(codec, StateAt(codec, run, i), StateAt(codec, run, i + 1), w.src)
    && var conn := StateAt(codec, run, i + 1).conns[w.src];
       conn.pc.Sending? && w.payload == Made(conn.pc.reply, conn.pc.body) && w.index == LastIndex(conn)
  }

  /**
    * The right answer: every frame the router made is, at some step of the run, exactly what the message
    * it answers had to get in the state of that step. Where it says that a target was not found
    * although it was registered, an earlier step of the same message was a send to it that failed.
    */
  lemma AnswersAreJustified(codec: Codec, run: seq<Action>, k: nat) returns (i: nat, f: nat)
    requires Exec(codec, run).Some?
    requires k < |Exec(codec, run).value.log| && Exec(codec, run).value.log[k].payload.Made?
    ensures var w := Exec(codec, run).value.log[k];
            && AnsweredAt(codec, run, i, w)
            && (StateAt(codec, run, i).conns[w.src].pc.Evicting? ==>
                  f < i && SendFailedAt(codec, run, f, StateAt(codec, run, i).conns[w.src], w.src))
  {
    Along(codec, run, |run|);
    var w := Exec(codec, run).value.log[k];
    var j := WrittenAt(codec, run, |run|, k);
    i := AnswerBegan(codec, run, j, w.src);
    f := 0;
    if StateAt(codec, run, i).conns[w.src].pc.Evicting? {
      f := EvictionBegan(codec, run, i, w.src);
    }
  }

  // ----- which messages are fatal

  /** A first message that ends the connection with an error. */
  predicate FatalFirst(codec: Codec, message: Message) {
    || !message.Binary?
    || codec.decodeFrame(message.raw).None?
    || (var frame := codec.decodeFrame(message.raw).value;
        && frame.envelope.kind.KindRegister?
        && (|| codec.unpackRegister(frame.body).None?
            || frame.envelope.to != "router"
            || frame.envelope.from != codec.unpackRegister(frame.body).value.peerId))
  }

  /** A later message that does. */
  predicate FatalLater(codec: Codec, own: RegisterBody, message: Message) {
    message.Binary? &&
    match codec.decodeFrame(message.raw)
    case None => true
    case Some(frame) =>
      && frame.envelope.from == own.peerId && frame.envelope.kind.KindQuery?
      && codec.unpackQuery(frame.body).None?
  }

  /** In this state this action ends connection c with an error: a fatal message, or a failed write of its own answer. */
  predicate Fatal(codec: Codec, s: State, a: Action, c: ConnId) {
    && c < |s.conns|
    && var conn := s.conns[c];
       || (a.Receive? && a.conn == c && conn.pc.AwaitRegister? && FatalFirst(codec, a.message))
       || (a.Receive? && a.conn == c && conn.pc.Looping? && conn.registered.Some? && FatalLater(codec, conn.registered.value, a.message))
       || (a.Proceed? && a.conn == c && conn.pc.Sending? && !a.ok)
  }

  lemma DropStep(codec: Codec, s: State, a: Action, c: ConnId)
    requires Inv(codec, s) && Step(codec, s, a).Some? && c < |Step(codec, s, a).value.conns|
    ensures Step(codec, s, a).value.conns[c].dropped <==> (c < |s.conns| && s.conns[c].dropped) || Fatal(codec, s, a, c)
  {
    if c < |s.conns| {
      assert ConnOk(codec, s.conns, s.conns[c]);
    }
  }

  ghost predicate WasFatal(codec: Codec, run: seq<Action>, j: nat, c: ConnId)
    requires j <= |run|
  {
    exists i :: 0 <= i < j && Fatal(codec, StateAt(codec, run, i), run[i], c)
  }

  /** c is a connection by then and has ended with an error. */
  predicate DroppedBy(codec: Codec, run: seq<Action>, j: nat, c: ConnId) {
    c < |StateAt(codec, run, j).conns| && StateAt(codec, run, j).conns[c].dropped
  }

  lemma DroppedNext(codec: Codec, run: seq<Action>, j: nat, c: ConnId)
    requires Exec(codec, run).Some? && j < |run|
    ensures DroppedBy(codec, run, j + 1, c) <==> DroppedBy(codec, run, j, c) || Fatal(codec, StateAt(codec, run, j), run[j], c)
  {
    Along(codec, run, j);
    var s, t := StateAt(codec, run, j), StateAt(codec, run, j + 1);
    StepLasts(codec, s, run[j]);
    if c < |t.conns| {
      DropStep(codec, s, run[j], c);
    }
  }

  lemma WasFatalGrows(codec: Codec, run: seq<Action>, j: nat, c: ConnId)
    requires j < |run|
    ensures WasFatal(codec, run, j + 1, c) <==> WasFatal(codec, run, j, c) || Fatal(codec, StateAt(codec, run, j), run[j], c)
  {
  }

  lemma {:induction false} DroppedUpTo(codec: Codec, run: seq<Action>, j: nat, c: ConnId)
    requires Exec(codec, run).Some? && j <= |run|
    ensures WasFatal(codec, run, j, c) <==> DroppedBy(codec, run, j, c)
    decreases j
  {
    AtStart(codec, run);
    if j > 0 {
      DroppedUpTo(codec, run, j - 1, c);
      DroppedNext(codec, run, j - 1, c);
      WasFatalGrows(codec, run, j - 1, c);
    }
  }

  /** A connection ends with an error exactly when it took a fatal message or could not write its own answer. */
  lemma DroppedExactly(codec: Codec, run: seq<Action>, c: ConnId)
    requires Exec(codec, run).Some? && c < |Exec(codec, run).value.conns|
    ensures Exec(codec, run).value.conns[c].dropped <==> WasFatal(codec, run, |run|, c)
  {
    Along(codec, run, |run|);
    DroppedUpTo(codec, run, |run|, c);
  }

  // ----- when a connection is over

  predicate IsOver(pc: Pc) {
    pc.Cleanup? || pc.Done?
  }

  /** In this state this action ends c: an error, a close frame, the end of its stream, or a last answer written. */
  predicate Ends(codec: Codec, s: State, a: Action, c: ConnId) {
    || Fatal(codec, s, a, c)
    || (&& c < |s.conns|
        && (|| (a.Receive? && a.conn == c && s.conns[c].pc.Looping? && a.message.CloseFrame?)
            || (a.StreamEnd? && a.conn == c)
            || (a.Proceed? && a.conn == c && a.ok && s.conns[c].pc.Sending? && s.conns[c].pc.after.Finish?)))
  }

  lemma TakeEnds(codec: Codec, conn: Conn, message: Message, now: Timestamp)
    requires (conn.pc.AwaitRegister? && conn.registered.None?) || (conn.pc.Looping? && conn.registered.Some?)
    ensures var next := if conn.pc.AwaitRegister? then TakeFirst(codec, conn, message, now)
                        else TakeNext(codec, conn, message, now);
            IsOver(next.pc) <==>
              if conn.pc.AwaitRegister? then FatalFirst(codec, message)
              else message.CloseFrame? || FatalLater(codec, conn.registered.value, message)
  {
  }

  lemma AdvanceEnds(peers: Peers, id: ConnId, conn: Conn, now: Timestamp)
    requires Advance(peers, id, conn, now).Some?
    ensures IsOver(Advance(peers, id, conn, now).value.0.pc) <==> IsOver(conn.pc)
  {
  }

  lemma EndStep(codec: Codec, s: State, a: Action, c: ConnId)
    requires Inv(codec, s) && Step(codec, s, a).Some? && c < |Step(codec, s, a).value.conns|
    ensures IsOver(Step(codec, s, a).value.conns[c].pc) <==> (c < |s.conns| && IsOver(s.conns[c].pc)) || Ends(codec, s, a, c)
  {
    if c < |s.conns| {
      assert ConnOk(codec, s.conns, s.conns[c]);
      if a.Receive? && a.conn == c {
        TakeEnds(codec, s.conns[c], a.message, a.now);
      } else if a.Proceed? && a.conn == c && Advance(s.peers, c, s.conns[c], a.now).Some? {
        AdvanceEnds(s.peers, c, s.conns[c], a.now);
      }
    }
  }

  ghost predicate HasEnded(codec: Codec, run: seq<Action>, j: nat, c: ConnId)
    requires j <= |run|
  {
    exists i :: 0 <= i < j && Ends(codec, StateAt(codec, run, i), run[i], c)
  }

  predicate OverBy(codec: Codec, run: seq<Action>, j: nat, c: ConnId) {
    c < |StateAt(codec, run, j).conns| && IsOver(StateAt(codec, run, j).conns[c].pc)
  }

  lemma OverNext(codec: Codec, run: seq<Action>, j: nat, c: ConnId)
    requires Exec(codec, run).Some? && j < |run|
    ensures OverBy(codec, run, j + 1, c) <==> OverBy(codec, run, j, c) || Ends(codec, StateAt(codec, run, j), run[j], c)
  {
    Along(codec, run, j);
    var s, t := StateAt(codec, run, j), StateAt(codec, run, j + 1);
    StepLasts(codec, s, run[j]);
    if c < |t.conns| {
      EndStep(codec, s, run[j], c);
    }
  }

  lemma HasEndedGrows(codec: Codec, run: seq<Action>, j: nat, c: ConnId)
    requires j < |run|
    ensures HasEnded(codec, run, j + 1, c) <==> HasEnded(codec, run, j, c) || Ends(codec, StateAt(codec, run, j), run[j], c)
  {
  }

  lemma {:induction false} OverUpTo(codec: Codec, run: seq<Action>, j: nat, c: ConnId)
    requires Exec(codec, run).Some? && j <= |run|
    ensures HasEnded(codec, run, j, c) <==> OverBy(codec, run, j, c)
    decreases j
  {
    AtStart(codec, run);
    if j > 0 {
      OverUpTo(codec, run, j - 1, c);
      OverNext(codec, run, j - 1, c);
      HasEndedGrows(codec, run, j - 1, c);
    }
  }

  /** A connection is in its cleanup or done exactly when one of these ends has happened to it. */
  lemma OverExactly(codec: Codec, run: seq<Action>, c: ConnId)
    requires Exec(codec, run).Some? && c < |Exec(codec, run).value.conns|
    ensures IsOver(Exec(codec, run).value.conns[c].pc) <==> HasEnded(codec, run, |run|, c)
  {
    Along(codec, run, |run|);
    OverUpTo(codec, run, |run|, c);
  }

  // ----- registrations and heartbeats

  /** A connection is registered under the id and class its first message asked for. */
  predicate AsAsked(codec: Codec, conn: Conn) {
    conn.registered.Some? ==>
      && conn.intake != [] && conn.intake[0].Binary?
      && codec.decodeFrame(conn.intake[0].raw).Some?
      && var frame := codec.decodeFrame(conn.intake[0].raw).value;
         frame.envelope.kind.KindRegister? && codec.unpackRegister(frame.body) == conn.registered
  }

  /** Only the first message can be a registration in hand. */
  predicate FirstInHand(conn: Conn) {
    && (conn.pc.AwaitRegister? ==> conn.intake == [])
    && (conn.pc.Inserting? ==> |conn.intake| == 1)
  }

  lemma AsAskedTake(codec: Codec, conn: Conn, message: Message, now: Timestamp)
    requires (conn.pc.AwaitRegister? && conn.registered.None?) || (conn.pc.Looping? && conn.registered.Some?)
    requires AsAsked(codec, conn) && FirstInHand(conn)
    ensures var next := if conn.pc.AwaitRegister? then TakeFirst(codec, conn, message, now)
                        else TakeNext(codec, conn, message, now);
            AsAsked(codec, next) && FirstInHand(next)
  {
  }

  lemma AsAskedAdvance(codec: Codec, s: State, id: ConnId, now: Timestamp)
    requires id < |s.conns| && PcOk(codec, s.conns, s.conns[id]) && Advance(s.peers, id, s.conns[id], now).Some?
    requires AsAsked(codec, s.conns[id]) && FirstInHand(s.conns[id])
    ensures var next := Advance(s.peers, id, s.conns[id], now).value.0; AsAsked(codec, next) && FirstInHand(next)
  {
  }

  lemma AsAskedStep(codec: Codec, s: State, a: Action, c: ConnId)
    requires Inv(codec, s) && Step(codec, s, a).Some? && c < |Step(codec, s, a).value.conns|
    requires c < |s.conns| ==> AsAsked(codec, s.conns[c]) && FirstInHand(s.conns[c])
    ensures AsAsked(codec, Step(codec, s, a).value.conns[c]) && FirstInHand(Step(codec, s, a).value.conns[c])
  {
    if c < |s.conns| {
      assert ConnOk(codec, s.conns, s.conns[c]);
      if a.Receive? && a.conn == c {
        AsAskedTake(codec, s.conns[c], a.message, a.now);
      } else if a.Proceed? && a.conn == c && Advance(s.peers, c, s.conns[c], a.now).Some? {
        AsAskedAdvance(codec, s, c, a.now);
      }
    }
  }

  lemma {:induction false} AsAskedAlong(codec: Codec, run: seq<Action>, j: nat, c: ConnId)
    requires Exec(codec, run).Some? && j <= |run| && c < |StateAt(codec, run, j).conns|
    ensures AsAsked(codec, StateAt(codec, run, j).conns[c]) && FirstInHand(StateAt(codec, run, j).conns[c])
    decreases j
  {
    AtStart(codec, run);
    Along(codec, run, j - 1);
    var s := StateAt(codec, run, j - 1);
    if c < |s.conns| {
      AsAskedAlong(codec, run, j - 1, c);
    }
    AsAskedStep(codec, s, run[j - 1], c);
  }

  lemma RegisteredAsAsked(codec: Codec, run: seq<Action>, c: ConnId)
    requires Exec(codec, run).Some? && c < |Exec(codec, run).value.conns|
    ensures AsAsked(codec, Exec(codec, run).value.conns[c])
  {
    Along(codec, run, |run|);
    AsAskedAlong(codec, run, |run|, c);
  }

  /** In this state this action marks a heartbeat of this id: the connection handling it registered the id. */
  predicate MarksHeartbeat(s: State, a: Action, id: string) {
    a.Proceed? && a.conn < |s.conns| && s.conns[a.conn].pc.HeartbeatMark? && Registered(s.conns, a.conn, id)
  }

  /** The time of a record that stays changes exactly by a heartbeat of its own id, and then to the time of that step. */
  lemma HeartbeatExactly(codec: Codec, s: State, a: Action, id: string)
    requires Inv(codec, s) && Step(codec, s, a).Some? && id in s.peers && id in Step(codec, s, a).value.peers
    ensures Step(codec, s, a).value.peers[id] ==
            if MarksHeartbeat(s, a, id) then s.peers[id].(lastHeartbeat := a.now) else s.peers[id]
  {
    if a.Proceed? && a.conn < |s.conns| {
      assert ConnOk(codec, s.conns, s.conns[a.conn]);
    }
  }

  /** The connection is passing on a heartbeat. */
  predicate PassesHeartbeat(pc: Pc) {
    (pc.ExistsCheck? || pc.SenderLookup? || pc.Forwarding? || pc.Evicting?) && pc.env.kind.KindHeartbeat?
  }

  /** In this state this action marks the heartbeat in hand, or finds its target registered. */
  predicate HandlesHeartbeat(s: State, a: Action, c: ConnId, intake: seq<Message>, checked: bool) {
    && a.Proceed? && a.conn == c && c < |s.conns| && s.conns[c].intake == intake
    && if checked then s.conns[c].pc.HeartbeatCheck? && s.conns[c].pc.env.to in s.peers else s.conns[c].pc.HeartbeatMark?
  }

  lemma TakePassesNone(codec: Codec, conn: Conn, message: Message, now: Timestamp)
    requires (conn.pc.AwaitRegister? && conn.registered.None?) || (conn.pc.Looping? && conn.registered.Some?)
    ensures !PassesHeartbeat((if conn.pc.AwaitRegister? then TakeFirst(codec, conn, message, now)
                              else TakeNext(codec, conn, message, now)).pc)
  {
  }

  lemma AdvancePasses(codec: Codec, s: State, id: ConnId, now: Timestamp)
    requires id < |s.conns| && PcOk(codec, s.conns, s.conns[id]) && Advance(s.peers, id, s.conns[id], now).Some?
    requires PassesHeartbeat(Advance(s.peers, id, s.conns[id], now).value.0.pc)
    ensures Advance(s.peers, id, s.conns[id], now).value.0.intake == s.conns[id].intake
    ensures PassesHeartbeat(s.conns[id].pc) || (s.conns[id].pc.HeartbeatCheck? && s.conns[id].pc.env.to in s.peers)
  {
  }

  lemma HeartbeatTurns(codec: Codec, s: State, a: Action, c: ConnId)
    requires Inv(codec, s) && Step(codec, s, a).Some? && c < |Step(codec, s, a).value.conns|
    requires PassesHeartbeat(Step(codec, s, a).value.conns[c].pc)
    ensures var conn := Step(codec, s, a).value.conns[c];
            || HandlesHeartbeat(s, a, c, conn.intake, true)
            || (c < |s.conns| && s.conns[c].intake == conn.intake && PassesHeartbeat(s.conns[c].pc))
  {
    if c < |s.conns| {
      assert ConnOk(codec, s.conns, s.conns[c]);
      if a.Receive? && a.conn == c {
        TakePassesNone(codec, s.conns[c], a.message, a.now);
      } else if a.Proceed? && a.conn == c && Advance(s.peers, c, s.conns[c], a.now).Some? {
        AdvancePasses(codec, s, c, a.now);
      }
    }
  }

  lemma CheckTurns(codec: Codec, s: State, a: Action, c: ConnId)
    requires Step(codec, s, a).Some? && c < |Step(codec, s, a).value.conns| && Step(codec, s, a).value.conns[c].pc.HeartbeatCheck?
    ensures var conn := Step(codec, s, a).value.conns[c];
            || HandlesHeartbeat(s, a, c, conn.intake, false)
            || (c < |s.conns| && s.conns[c] == conn)
  {
  }

  lemma {:induction false} CheckWasMarked(codec: Codec, run: seq<Action>, j: nat, c: ConnId) returns (h: nat)
    requires Exec(codec, run).Some? && j <= |run|
    requires c < |StateAt(codec, run, j).conns| && StateAt(codec, run, j).conns[c].pc.HeartbeatCheck?
    ensures h < j && HandlesHeartbeat(StateAt(codec, run, h), run[h], c, StateAt(codec, run, j).conns[c].intake, false)
    decreases j
  {
    AtStart(codec, run);
    Along(codec, run, j - 1);
    CheckTurns(codec, StateAt(codec, run, j - 1), run[j - 1], c);
    if HandlesHeartbeat(StateAt(codec, run, j - 1), run[j - 1], c, StateAt(codec, run, j).conns[c].intake, false) {
      h := j - 1;
    } else {
      h := CheckWasMarked(codec, run, j - 1, c);
    }
  }

  /** A heartbeat is passed on only after it was marked and its target was found registered, in that order; else it is echoed. */
  lemma {:induction false} HeartbeatWasChecked(codec: Codec, run: seq<Action>, j: nat, c: ConnId) returns (h: nat, i: nat)
    requires Exec(codec, run).Some? && j <= |run|
    requires c < |StateAt(codec, run, j).conns| && PassesHeartbeat(StateAt(codec, run, j).conns[c].pc)
    ensures h < i < j
    ensures HandlesHeartbeat(StateAt(codec, run, h), run[h], c, StateAt(codec, run, j).conns[c].intake, false)
    ensures HandlesHeartbeat(StateAt(codec, run, i), run[i], c, StateAt(codec, run, j).conns[c].intake, true)
    decreases j
  {
    AtStart(codec, run);
    Along(codec, run, j - 1);
    var s, intake := StateAt(codec, run, j - 1), StateAt(codec, run, j).conns[c].intake;
    HeartbeatTurns(codec, s, run[j - 1], c);
    if HandlesHeartbeat(s, run[j - 1], c, intake, true) {
      i := j - 1;
      h := CheckWasMarked(codec, run, j - 1, c);
    } else {
      h, i := HeartbeatWasChecked(codec, run, j - 1, c);
    }
  }
}
