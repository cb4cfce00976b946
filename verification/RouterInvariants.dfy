/** What every interleaving of the router's tasks keeps. */
module RouterInvariants {
  import opened Wire
  import opened Registry
  import opened Router

  // ----- vocabulary

  /** The connection has taken a message and has neither answered it nor given up. */
  predicate Busy(pc: Pc) {
    !(pc.AwaitRegister? || pc.Looping? || pc.Cleanup? || pc.Done?)
  }

  /** How many of a connection's messages have been answered by a written frame. */
  function Answered(conn: Conn): nat {
    if (Busy(conn.pc) || conn.dropped) && conn.intake != [] then |conn.intake| - 1 else |conn.intake|
  }

  /** The connection registered this id, now or earlier. */
  predicate Registered(conns: seq<Conn>, id: ConnId, peerId: string) {
    id < |conns| && conns[id].registered.Some? && conns[id].registered.value.peerId == peerId
  }

  predicate OfClass(conns: seq<Conn>, id: ConnId, peerClass: PeerClass) {
    id < |conns| && conns[id].registered.Some? && conns[id].registered.value.peerClass == peerClass
  }

  /** The id a router-made answer to this message carries. */
  function MsgIdOf(codec: Codec, message: Message): string {
    if message.Binary? && codec.decodeFrame(message.raw).Some?
    then codec.decodeFrame(message.raw).value.envelope.msgId
    else "unknown"
  }

  /** `msgId` is the id of the last message taken. */
  predicate Current(codec: Codec, conn: Conn, msgId: string) {
    conn.intake != [] && MsgIdOf(codec, conn.intake[|conn.intake| - 1]) == msgId
  }

  /**
    * The kinds the router answers with: an error to anything; a response only to a
    * register, a query or a disconnect; a heartbeat only to a heartbeat.
    */
  predicate AnswerKind(codec: Codec, message: Message, kind: Kind) {
    || kind.KindError?
    || (&& message.Binary? && codec.decodeFrame(message.raw).Some?
        && var asked := codec.decodeFrame(message.raw).value.envelope.kind;
           || (kind.KindResponse? && (asked.KindRegister? || asked.KindQuery? || asked.KindDisconnect?))
           || (kind.KindHeartbeat? && asked.KindHeartbeat?))
  }

  /** `raw` is the last message taken; it decodes to `env`, and `env.from` is the registered id. */
  predicate Handling(codec: Codec, conn: Conn, env: Envelope, raw: Bytes) {
    && conn.registered.Some?
    && conn.intake != []
    && conn.intake[|conn.intake| - 1] == Binary(raw)
    && codec.decodeFrame(raw).Some?
    && codec.decodeFrame(raw).value.envelope == env
    && env.from == conn.registered.value.peerId
  }

  /** Some frame with this envelope is in hand, and its body reads as this query. */
  predicate QueryInHand(codec: Codec, conn: Conn, env: Envelope, query: QueryBody) {
    && conn.registered.Some? && env.from == conn.registered.value.peerId && env.kind.KindQuery?
    && conn.intake != [] && conn.intake[|conn.intake| - 1].Binary?
    && var frame := codec.decodeFrame(conn.intake[|conn.intake| - 1].raw);
       frame.Some? && frame.value.envelope == env && codec.unpackQuery(frame.value.body) == Some(query)
  }

  /** A valid register frame is in hand. */
  predicate RegisterInHand(codec: Codec, conn: Conn, msgId: string, register: RegisterBody) {
    && conn.registered.None?
    && conn.intake != [] && conn.intake[|conn.intake| - 1].Binary?
    && var frame := codec.decodeFrame(conn.intake[|conn.intake| - 1].raw);
       && frame.Some? && frame.value.envelope.kind.KindRegister? && frame.value.envelope.msgId == msgId
       && codec.unpackRegister(frame.value.body) == Some(register) && ValidRegister(frame.value.envelope, register)
  }

  /** A disconnect of the connection's own is in hand. */
  predicate DisconnectInHand(codec: Codec, conn: Conn, env: Envelope) {
    && conn.registered.Some? && env.from == conn.registered.value.peerId && env.kind.KindDisconnect?
    && conn.intake != [] && conn.intake[|conn.intake| - 1].Binary?
    && var frame := codec.decodeFrame(conn.intake[|conn.intake| - 1].raw);
       frame.Some? && frame.value.envelope == env
  }

  /** Calls come from callers; responses and errors come from services. */
  predicate SourceRule(kind: Kind, peerClass: PeerClass) {
    && (kind.KindCall? ==> peerClass.Caller?)
    && (kind.KindResponse? || kind.KindError? ==> peerClass.Service?)
    && (kind.KindCall? || kind.KindResponse? || kind.KindError? || kind.KindHeartbeat?)
  }

  /** Whoever held the target id when its class was read was of the class the kind asks for. */
  predicate SeenRule(conns: seq<Conn>, env: Envelope, seen: Option<ConnId>) {
    && (env.kind.KindCall? ==> seen.Some? && Registered(conns, seen.value, env.to) && OfClass(conns, seen.value, Service))
    && (env.kind.KindError? ==> seen.Some? && Registered(conns, seen.value, env.to) && OfClass(conns, seen.value, Caller))
  }

  // ----- the invariant

  predicate PcOk(codec: Codec, conns: seq<Conn>, conn: Conn) {
    match conn.pc
    case AwaitRegister => conn.registered.None? && conn.intake == []
    case Inserting(msgId, register) => RegisterInHand(codec, conn, msgId, register)
    case Looping => conn.registered.Some?
    case QueryLookup(env, query) => QueryInHand(codec, conn, env, query)
    case ClassLookup(env, raw) =>
      && Handling(codec, conn, env, raw)
      && (env.kind.KindCall? || env.kind.KindError?)
      && SourceRule(env.kind, conn.registered.value.peerClass)
    case ExistsCheck(env, raw, seen) =>
      Handling(codec, conn, env, raw) && SourceRule(env.kind, conn.registered.value.peerClass) && SeenRule(conns, env, seen)
    case SenderLookup(env, raw, seen) =>
      Handling(codec, conn, env, raw) && SourceRule(env.kind, conn.registered.value.peerClass) && SeenRule(conns, env, seen)
    case Forwarding(env, raw, seen, target) =>
      && Handling(codec, conn, env, raw)
      && SourceRule(env.kind, conn.registered.value.peerClass)
      && SeenRule(conns, env, seen)
      && Registered(conns, target, env.to)
    case Evicting(env, raw) => Handling(codec, conn, env, raw) && SourceRule(env.kind, conn.registered.value.peerClass)
    case HeartbeatMark(env, raw) => Handling(codec, conn, env, raw) && env.kind.KindHeartbeat?
    case HeartbeatCheck(env, raw) => Handling(codec, conn, env, raw) && env.kind.KindHeartbeat?
    case DisconnectRemove(env) => DisconnectInHand(codec, conn, env)
    case Sending(reply, body, after) =>
      && Current(codec, conn, reply.msgId)
      && reply.from == ROUTER_PEER_ID
      && AnswerKind(codec, conn.intake[|conn.intake| - 1], reply.kind)
      && (after.KeepLooping? ==> conn.registered.Some?)
    case Cleanup => true
    case Done => true
  }

  predicate ConnOk(codec: Codec, conns: seq<Conn>, conn: Conn) {
    && PcOk(codec, conns, conn)
    && (conn.dropped ==> conn.intake != [] && (conn.pc.Cleanup? || conn.pc.Done?))
  }

  /** A record points at a connection that registered this exact id and class and is not finished. */
  predicate RecordOk(conns: seq<Conn>, id: string, record: PeerRecord) {
    && record.peerId == id
    && record.connected
    && record.sender < |conns|
    && conns[record.sender].registered == Some(RegisterBody(id, record.peerClass))
    && !conns[record.sender].pc.Done?
  }

  predicate RegistryOk(conns: seq<Conn>, peers: Peers) {
    forall id :: id in peers ==> RecordOk(conns, id, peers[id])
  }

  /** What a written frame says about where it came from and where it went. */
  predicate WriteOk(codec: Codec, conns: seq<Conn>, w: Write) {
    && w.src < |conns|
    && w.sink < |conns|
    && w.index < Answered(conns[w.src])
    && match w.payload
       case Made(env, body) =>
         && w.sink == w.src && env.from == ROUTER_PEER_ID
         && env.msgId == MsgIdOf(codec, conns[w.src].intake[w.index])
         && AnswerKind(codec, conns[w.src].intake[w.index], env.kind)
       case Raw(bytes) =>
         && conns[w.src].registered.Some?
         && conns[w.src].intake[w.index] == Binary(bytes)
         && codec.decodeFrame(bytes).Some?
         && var env := codec.decodeFrame(bytes).value.envelope;
            && env.from == conns[w.src].registered.value.peerId
            && Registered(conns, w.sink, env.to)
            && SourceRule(env.kind, conns[w.src].registered.value.peerClass)
            && SeenRule(conns, env, w.seen)
  }

  predicate Causes(log: seq<Write>, k: nat, src: ConnId, index: nat) {
    k < |log| && log[k].src == src && log[k].index == index
  }

  ghost predicate HasCaused(log: seq<Write>, src: ConnId, index: nat) {
    exists k: nat :: Causes(log, k, src, index)
  }

  /** No two frames have the same cause, and every answered message has caused one. */
  ghost predicate OneToOne(conns: seq<Conn>, log: seq<Write>) {
    && (forall j, k :: 0 <= j < k < |log| ==> log[j].src != log[k].src || log[j].index != log[k].index)
    && (forall c: nat, i: nat :: c < |conns| && i < Answered(conns[c]) ==> HasCaused(log, c, i))
  }

  function TotalAnswered(conns: seq<Conn>): nat {
    if conns == [] then 0 else TotalAnswered(conns[..|conns| - 1]) + Answered(conns[|conns| - 1])
  }

  lemma {:induction false} TotalUpdate(conns: seq<Conn>, id: ConnId, conn: Conn)
    requires id < |conns|
    ensures TotalAnswered(conns[id := conn]) == TotalAnswered(conns) - Answered(conns[id]) + Answered(conn)
  {
    var last := |conns| - 1;
    if id < last {
      TotalUpdate(conns[..last], id, conn);
      assert conns[id := conn][..last] == conns[..last][id := conn];
    } else {
      assert conns[id := conn][..last] == conns[..last];
    }
  }

  ghost predicate Inv(codec: Codec, s: State) {
    && (forall c :: 0 <= c < |s.conns| ==> ConnOk(codec, s.conns, s.conns[c]))
    && RegistryOk(s.conns, s.peers)
    && (forall k :: 0 <= k < |s.log| ==> WriteOk(codec, s.conns, s.log[k]))
    && OneToOne(s.conns, s.log)
    && |s.log| == TotalAnswered(s.conns)
  }

  // ----- growth: what later steps cannot take back

  /** A connection keeps what it took, what was answered, and what it registered. */
  predicate Grown(a: Conn, b: Conn) {
    && a.intake <= b.intake
    && Answered(a) <= Answered(b)
    && (a.registered.Some? ==> b.registered == a.registered)
  }

  predicate AllGrown(a: seq<Conn>, b: seq<Conn>) {
    |a| <= |b| && forall c :: 0 <= c < |a| ==> Grown(a[c], b[c])
  }

  lemma PcKept(codec: Codec, a: seq<Conn>, b: seq<Conn>, conn: Conn)
    requires AllGrown(a, b) && ConnOk(codec, a, conn)
    ensures ConnOk(codec, b, conn)
  {
  }

  lemma WriteKept(codec: Codec, a: seq<Conn>, b: seq<Conn>, w: Write)
    requires AllGrown(a, b) && WriteOk(codec, a, w)
    ensures WriteOk(codec, b, w)
  {
    assert Grown(a[w.src], b[w.src]);
    assert a[w.src].intake[w.index] == b[w.src].intake[w.index];
  }

  /** Everything about the old connections and the old log survives growth, whatever else changed. */
  lemma OthersKept(codec: Codec, s: State, conns: seq<Conn>)
    requires Inv(codec, s) && AllGrown(s.conns, conns)
    ensures forall c :: 0 <= c < |s.conns| && conns[c] == s.conns[c] ==> ConnOk(codec, conns, conns[c])
    ensures forall k :: 0 <= k < |s.log| ==> WriteOk(codec, conns, s.log[k])
  {
    forall c | 0 <= c < |s.conns| && conns[c] == s.conns[c]
      ensures ConnOk(codec, conns, conns[c])
    {
      PcKept(codec, s.conns, conns, s.conns[c]);
    }
    forall k | 0 <= k < |s.log|
      ensures WriteOk(codec, conns, s.log[k])
    {
      WriteKept(codec, s.conns, conns, s.log[k]);
    }
  }

  /** A step that writes no frame. */
  lemma QuietStep(codec: Codec, s: State, id: ConnId, conn: Conn, peers: Peers)
    requires Inv(codec, s) && id < |s.conns|
    requires Grown(s.conns[id], conn) && Answered(s.conns[id]) == Answered(conn)
    requires var conns := s.conns[id := conn]; ConnOk(codec, conns, conn) && RegistryOk(conns, peers)
    ensures Inv(codec, State(s.conns[id := conn], peers, s.log))
  {
    var conns := s.conns[id := conn];
    OthersKept(codec, s, conns);
    TotalUpdate(s.conns, id, conn);
    forall c: nat, i: nat | c < |conns| && i < Answered(conns[c])
      ensures HasCaused(s.log, c, i)
    {
      assert i < Answered(s.conns[c]);
    }
  }

  /** The frame that answers the message in hand is the first and only one with that cause. */
  lemma OneToOneGrows(codec: Codec, s: State, conns: seq<Conn>, w: Write)
    requires Inv(codec, s) && |conns| == |s.conns|
    requires w.src < |s.conns| && w.index == Answered(s.conns[w.src])
    requires forall c :: 0 <= c < |conns| ==>
               Answered(conns[c]) == Answered(s.conns[c]) + (if c == w.src then 1 else 0)
    ensures OneToOne(conns, s.log + [w])
  {
    var log := s.log + [w];
    forall j, k | 0 <= j < k < |log|
      ensures log[j].src != log[k].src || log[j].index != log[k].index
    {
      assert WriteOk(codec, s.conns, s.log[j]);
    }
    forall c: nat, i: nat | c < |conns| && i < Answered(conns[c])
      ensures HasCaused(log, c, i)
    {
      if c == w.src && i == w.index {
        assert Causes(log, |s.log|, c, i);
      } else {
        assert HasCaused(s.log, c, i);
        var k: nat :| Causes(s.log, k, c, i);
        assert Causes(log, k, c, i);
      }
    }
  }

  /** A step that writes one frame, which answers the message the connection was handling. */
  lemma WritingStep(codec: Codec, s: State, id: ConnId, pc: Pc, w: Write)
    requires Inv(codec, s) && id < |s.conns| && s.conns[id].intake != [] && !s.conns[id].dropped
    requires Busy(s.conns[id].pc) && !Busy(pc) && !pc.Done?
    requires w.src == id && w.index == LastIndex(s.conns[id])
    requires var conn := s.conns[id].(pc := pc);
             ConnOk(codec, s.conns[id := conn], conn) && WriteOk(codec, s.conns[id := conn], w)
    ensures Inv(codec, State(s.conns[id := s.conns[id].(pc := pc)], s.peers, s.log + [w]))
  {
    var conn := s.conns[id].(pc := pc);
    var conns := s.conns[id := conn];
    OthersKept(codec, s, conns);
    TotalUpdate(s.conns, id, conn);
    OneToOneGrows(codec, s, conns, w);
    forall p | p in s.peers
      ensures RecordOk(conns, p, s.peers[p])
    {
      assert RecordOk(s.conns, p, s.peers[p]);
    }
  }

  // ----- each step keeps the invariant

  /** Taking a message leaves the connection with that message in hand, or ends it. */
  lemma TakeOk(codec: Codec, conns: seq<Conn>, conn: Conn, message: Message, now: Timestamp)
    requires ConnOk(codec, conns, conn) && (conn.pc.AwaitRegister? || conn.pc.Looping?)
    ensures var next := if conn.pc.AwaitRegister? then TakeFirst(codec, conn, message, now)
                        else TakeNext(codec, conn, message, now);
            && (forall later :: AllGrown(conns, later) ==> ConnOk(codec, later, next))
            && Grown(conn, next) && Answered(conn) == Answered(next)
            && next.registered == conn.registered && !next.pc.Done?
  {
    if conn.pc.Looping? && message.Binary? && codec.decodeFrame(message.raw).Some? {
      var next := TakeNext(codec, conn, message, now);
      var env := codec.decodeFrame(message.raw).value.envelope;
      assert next.intake[|next.intake| - 1] == message;
      assert env.from == conn.registered.value.peerId ==> Handling(codec, next, env, message.raw);
    }
  }

  lemma ReceiveKeeps(codec: Codec, s: State, id: ConnId, message: Message, now: Timestamp)
    requires Inv(codec, s) && Step(codec, s, Receive(id, message, now)).Some?
    ensures Inv(codec, Step(codec, s, Receive(id, message, now)).value)
  {
    TakeOk(codec, s.conns, s.conns[id], message, now);
    var conns := Step(codec, s, Receive(id, message, now)).value.conns;
    assert AllGrown(s.conns, conns);
    QuietStep(codec, s, id, conns[id], s.peers);
  }

  /** The routing steps keep the facts about the frame in hand and about whom the registry named. */
  lemma RoutingOk(codec: Codec, s: State, id: ConnId, now: Timestamp)
    requires RegistryOk(s.conns, s.peers) && id < |s.conns| && ConnOk(codec, s.conns, s.conns[id])
    requires s.conns[id].pc.ClassLookup? || s.conns[id].pc.ExistsCheck? || s.conns[id].pc.SenderLookup?
    ensures ConnOk(codec, s.conns, Advance(s.peers, id, s.conns[id], now).value.0)
  {
    var env := s.conns[id].pc.env;
    if env.to in s.peers {
      assert RecordOk(s.conns, env.to, s.peers[env.to]);
    }
  }

  /** So do the steps that answer from the table or change it for the connection itself. */
  lemma AnsweringOk(codec: Codec, s: State, id: ConnId, now: Timestamp)
    requires id < |s.conns| && ConnOk(codec, s.conns, s.conns[id])
    requires var pc := s.conns[id].pc; pc.Inserting? || pc.QueryLookup? || pc.DisconnectRemove?
    ensures ConnOk(codec, s.conns, Advance(s.peers, id, s.conns[id], now).value.0)
  {
  }

  lemma HeartbeatOk(codec: Codec, s: State, id: ConnId, now: Timestamp)
    requires id < |s.conns| && ConnOk(codec, s.conns, s.conns[id])
    requires var pc := s.conns[id].pc; pc.HeartbeatMark? || pc.HeartbeatCheck? || pc.Evicting?
    ensures ConnOk(codec, s.conns, Advance(s.peers, id, s.conns[id], now).value.0)
  {
  }

  /** So does every other step of a task's own. */
  lemma AdvanceOk(codec: Codec, s: State, id: ConnId, now: Timestamp)
    requires RegistryOk(s.conns, s.peers) && id < |s.conns| && ConnOk(codec, s.conns, s.conns[id])
    requires Advance(s.peers, id, s.conns[id], now).Some?
    ensures ConnOk(codec, s.conns, Advance(s.peers, id, s.conns[id], now).value.0)
  {
    var pc := s.conns[id].pc;
    if pc.ClassLookup? || pc.ExistsCheck? || pc.SenderLookup? {
      RoutingOk(codec, s, id, now);
    } else if pc.Inserting? || pc.QueryLookup? || pc.DisconnectRemove? {
      AnsweringOk(codec, s, id, now);
    } else if !pc.Cleanup? {
      HeartbeatOk(codec, s, id, now);
    }
  }

  lemma AdvanceGrows(codec: Codec, s: State, id: ConnId, now: Timestamp)
    requires id < |s.conns| && ConnOk(codec, s.conns, s.conns[id])
    requires Advance(s.peers, id, s.conns[id], now).Some?
    ensures var conn := Advance(s.peers, id, s.conns[id], now).value.0;
            Grown(s.conns[id], conn) && Answered(s.conns[id]) == Answered(conn)
  {
  }

  /** A task's own step leaves no record behind that points anywhere but to a live holder of its id. */
  lemma AdvanceRegistry(codec: Codec, s: State, id: ConnId, now: Timestamp)
    requires RegistryOk(s.conns, s.peers) && id < |s.conns| && ConnOk(codec, s.conns, s.conns[id])
    requires Advance(s.peers, id, s.conns[id], now).Some?
    ensures var (conn, peers) := Advance(s.peers, id, s.conns[id], now).value;
            RegistryOk(s.conns[id := conn], peers)
  {
    var (conn, peers) := Advance(s.peers, id, s.conns[id], now).value;
    forall p | p in peers
      ensures RecordOk(s.conns[id := conn], p, peers[p])
    {
      if p in s.peers {
        assert RecordOk(s.conns, p, s.peers[p]);
      }
    }
  }

  lemma AdvanceKeeps(codec: Codec, s: State, id: ConnId, now: Timestamp)
    requires Inv(codec, s) && id < |s.conns| && Advance(s.peers, id, s.conns[id], now).Some?
    ensures var (conn, peers) := Advance(s.peers, id, s.conns[id], now).value;
            Inv(codec, State(s.conns[id := conn], peers, s.log))
  {
    AdvanceOk(codec, s, id, now);
    AdvanceGrows(codec, s, id, now);
    AdvanceRegistry(codec, s, id, now);
    var (conn, peers) := Advance(s.peers, id, s.conns[id], now).value;
    assert AllGrown(s.conns, s.conns[id := conn]);
    PcKept(codec, s.conns, s.conns[id := conn], conn);
    QuietStep(codec, s, id, conn, peers);
  }

  lemma SendingKeeps(codec: Codec, s: State, id: ConnId, ok: bool, now: Timestamp)
    requires Inv(codec, s) && id < |s.conns| && s.conns[id].pc.Sending?
    ensures Inv(codec, Step(codec, s, Proceed(id, ok, now)).value)
  {
    var conn := s.conns[id];
    assert ConnOk(codec, s.conns, conn);
    if ok {
      WritingStep(codec, s, id, Resume(conn.pc.after),
                  Write(id, id, LastIndex(conn), Made(conn.pc.reply, conn.pc.body), None));
    } else {
      QuietStep(codec, s, id, Fail(conn), s.peers);
    }
  }

  lemma ForwardingKeeps(codec: Codec, s: State, id: ConnId, ok: bool, now: Timestamp)
    requires Inv(codec, s) && id < |s.conns| && s.conns[id].pc.Forwarding?
    ensures Inv(codec, Step(codec, s, Proceed(id, ok, now)).value)
  {
    var conn := s.conns[id];
    assert ConnOk(codec, s.conns, conn);
    if ok {
      WritingStep(codec, s, id, Looping,
                  Write(conn.pc.target, id, LastIndex(conn), Raw(conn.pc.raw), conn.pc.seen));
    } else {
      QuietStep(codec, s, id, conn.(pc := Evicting(conn.pc.env, conn.pc.raw)), s.peers);
    }
  }

  lemma StepKeeps(codec: Codec, s: State, a: Action)
    requires Inv(codec, s) && Step(codec, s, a).Some?
    ensures Inv(codec, Step(codec, s, a).value)
  {
    match a
    case Accept =>
      var conns := Step(codec, s, a).value.conns;
      OthersKept(codec, s, conns);
      assert conns[..|conns| - 1] == s.conns;
      forall c: nat, i: nat | c < |conns| && i < Answered(conns[c])
        ensures HasCaused(s.log, c, i)
      {
        assert i < Answered(s.conns[c]);
      }
    case Receive(id, message, now) => ReceiveKeeps(codec, s, id, message, now);
    case StreamEnd(id) => QuietStep(codec, s, id, s.conns[id].(pc := Cleanup), s.peers);
    case Proceed(id, ok, now) =>
      if s.conns[id].pc.Sending? {
        SendingKeeps(codec, s, id, ok, now);
      } else if s.conns[id].pc.Forwarding? {
        ForwardingKeeps(codec, s, id, ok, now);
      } else {
        AdvanceKeeps(codec, s, id, now);
      }
  }

  lemma {:induction false} RunKeeps(codec: Codec, run: seq<Action>)
    requires Exec(codec, run).Some?
    ensures Inv(codec, Exec(codec, run).value)
  {
    if run != [] {
      RunKeeps(codec, run[..|run| - 1]);
      StepKeeps(codec, Exec(codec, run[..|run| - 1]).value, run[|run| - 1]);
    }
  }

  // ----- a forwarded call never comes back to its own sink

  /** While a task routes a call or an error, its own connection does not hold the target id. */
  predicate LeavesHome(peers: Peers, id: ConnId, conn: Conn) {
    (conn.pc.ExistsCheck? || conn.pc.SenderLookup?) && (conn.pc.env.kind.KindCall? || conn.pc.env.kind.KindError?)
    ==> SenderOf(peers, conn.pc.env.to) != Some(id)
  }

  predicate TargetIsElsewhere(id: ConnId, conn: Conn) {
    conn.pc.Forwarding? && (conn.pc.env.kind.KindCall? || conn.pc.env.kind.KindError?) ==> conn.pc.target != id
  }

  predicate LandedElsewhere(codec: Codec, w: Write) {
    w.payload.Raw? && codec.decodeFrame(w.payload.bytes).Some?
    && (var kind := codec.decodeFrame(w.payload.bytes).value.envelope.kind; kind.KindCall? || kind.KindError?)
    ==> w.sink != w.src
  }

  ghost predicate NothingComesHome(codec: Codec, s: State) {
    && (forall c :: 0 <= c < |s.conns| ==> LeavesHome(s.peers, c, s.conns[c]) && TargetIsElsewhere(c, s.conns[c]))
    && (forall k :: 0 <= k < |s.log| ==> LandedElsewhere(codec, s.log[k]))
  }

  lemma AdvanceLeavesHome(codec: Codec, s: State, id: ConnId, now: Timestamp)
    requires Inv(codec, s) && NothingComesHome(codec, s) && id < |s.conns|
    requires Advance(s.peers, id, s.conns[id], now).Some?
    ensures var (conn, peers) := Advance(s.peers, id, s.conns[id], now).value;
            NothingComesHome(codec, State(s.conns[id := conn], peers, s.log))
  {
    var before := s.conns[id];
    assert ConnOk(codec, s.conns, before) && LeavesHome(s.peers, id, before);
    if before.pc.ClassLookup? && before.pc.env.to in s.peers {
      assert RecordOk(s.conns, before.pc.env.to, s.peers[before.pc.env.to]);
    }
    var (conn, peers) := Advance(s.peers, id, before, now).value;
    var conns := s.conns[id := conn];
    forall c | 0 <= c < |conns|
      ensures LeavesHome(peers, c, conns[c]) && TargetIsElsewhere(c, conns[c])
    {
      assert LeavesHome(s.peers, c, s.conns[c]) && TargetIsElsewhere(c, s.conns[c]);
    }
  }

  lemma StepKeepsHome(codec: Codec, s: State, a: Action)
    requires Inv(codec, s) && NothingComesHome(codec, s) && Step(codec, s, a).Some?
    ensures NothingComesHome(codec, Step(codec, s, a).value)
  {
    var t := Step(codec, s, a).value;
    if a.Proceed? && !s.conns[a.conn].pc.Sending? && !s.conns[a.conn].pc.Forwarding? {
      AdvanceLeavesHome(codec, s, a.conn, a.now);
    } else {
      if a.Proceed? {
        assert ConnOk(codec, s.conns, s.conns[a.conn]);
      }
      forall c | 0 <= c < |t.conns|
        ensures LeavesHome(t.peers, c, t.conns[c]) && TargetIsElsewhere(c, t.conns[c])
      {
        assert c < |s.conns| ==> LeavesHome(s.peers, c, s.conns[c]) && TargetIsElsewhere(c, s.conns[c]);
      }
      forall k | 0 <= k < |t.log|
        ensures LandedElsewhere(codec, t.log[k])
      {
        if k < |s.log| {
          assert LandedElsewhere(codec, s.log[k]);
        } else {
          assert TargetIsElsewhere(a.conn, s.conns[a.conn]);
        }
      }
    }
  }
}
