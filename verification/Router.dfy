/**
  * The router as a step system. Each connection runs its own task; every registry call,
  * every frame taken from a socket and every frame written to a sink is one step, and the
  * steps of different connections interleave freely.
  */
module Router {
  import opened Wire
  import opened Registry

  /** What a websocket hands the router. */
  datatype Message = Binary(raw: Bytes) | Text | PingOrPong | CloseFrame

  /** What a task does once the frame it is writing to its own sink is out. */
  datatype After = KeepLooping | Finish

  /**
    * Where a task stands between two steps. `seen` is the connection that held the
    * target id when its class was read; it is history only and decides nothing.
    */
  datatype Pc =
    | AwaitRegister
    | Inserting(msgId: string, register: RegisterBody)
    | Looping
    | QueryLookup(env: Envelope, query: QueryBody)
    | ClassLookup(env: Envelope, raw: Bytes)
    | ExistsCheck(env: Envelope, raw: Bytes, seen: Option<ConnId>)
    | SenderLookup(env: Envelope, raw: Bytes, seen: Option<ConnId>)
    | Forwarding(env: Envelope, raw: Bytes, seen: Option<ConnId>, target: ConnId)
    | Evicting(env: Envelope, raw: Bytes)
    | HeartbeatMark(env: Envelope, raw: Bytes)
    | HeartbeatCheck(env: Envelope, raw: Bytes)
    | DisconnectRemove(env: Envelope)
    | Sending(reply: Envelope, body: RouterBody, after: After)
    | Cleanup
    | Done

  /**
    * A connection. `intake` is every message that asked for an answer, in order;
    * `dropped` says that the last of them ended the connection with an error instead.
    */
  datatype Conn = Conn(pc: Pc, intake: seq<Message>, registered: Option<RegisterBody>, dropped: bool)

  datatype Payload = Made(env: Envelope, body: RouterBody) | Raw(bytes: Bytes)

  /** One frame written: to which sink, and which taken message caused it. */
  datatype Write = Write(sink: ConnId, src: ConnId, index: nat, payload: Payload, seen: Option<ConnId>)

  datatype State = State(conns: seq<Conn>, peers: Peers, log: seq<Write>)

  datatype Action =
    | Accept
    | Receive(conn: ConnId, message: Message, now: Timestamp)
    | StreamEnd(conn: ConnId)
    | Proceed(conn: ConnId, ok: bool, now: Timestamp)

  const INIT := State([], map[], [])

  // ----- the pure decisions

  function RouterEnvelope(kind: Kind, msgId: string, to: string, ts: Timestamp): Envelope {
    Envelope(PROTOCOL_VERSION, kind, msgId, ROUTER_PEER_ID, to, ts)
  }

  function SendError(msgId: string, code: string, now: Timestamp, after: After): Pc {
    Sending(RouterEnvelope(KindError, msgId, ROUTER_PEER_ID, now), ErrorBody(code), after)
  }

  predicate ValidRegister(env: Envelope, register: RegisterBody) {
    env.to == ROUTER_PEER_ID && env.from == register.peerId
  }

  datatype RouteDecision = Deliver | Reject(code: string)

  function DecideRouteTarget(kind: Kind, target: Option<PeerClass>): RouteDecision {
    match target
    case None => Reject("peer_not_found")
    case Some(peerClass) =>
      if peerClass.Caller? && kind.KindCall? then Reject("invalid_target_class")
      else if peerClass.Service? && kind.KindResponse? then Reject("invalid_target_class")
      else if peerClass.Service? && kind.KindError? then Reject("invalid_target_class")
      else Deliver
  }

  // ----- taking a message

  /** The error exit while a taken message is still unanswered. */
  function Fail(conn: Conn): Conn {
    conn.(pc := Cleanup, dropped := true)
  }

  function TakeFirst(codec: Codec, conn: Conn, message: Message, now: Timestamp): Conn {
    var c := conn.(intake := conn.intake + [message]);
    if !message.Binary? then Fail(c)
    else
      match codec.decodeFrame(message.raw)
      case None => Fail(c)
      case Some(frame) =>
        if !frame.envelope.kind.KindRegister?
        then c.(pc := SendError(frame.envelope.msgId, "register.required", now, Finish))
        else
          match codec.unpackRegister(frame.body)
          case None => Fail(c)
          case Some(register) =>
            if ValidRegister(frame.envelope, register)
            then c.(pc := Inserting(frame.envelope.msgId, register))
            else Fail(c)
  }

  /** The dispatch on kind for a frame whose source has been checked. */
  function Dispatch(codec: Codec, conn: Conn, peerClass: PeerClass, frame: Frame, raw: Bytes, now: Timestamp): Conn {
    var env := frame.envelope;
    match env.kind
    case KindQuery =>
      (match codec.unpackQuery(frame.body)
       case None => Fail(conn)
       case Some(query) => conn.(pc := QueryLookup(env, query)))
    case KindCall =>
      if peerClass.Caller? then conn.(pc := ClassLookup(env, raw))
      else conn.(pc := SendError(env.msgId, "invalid_source_class", now, KeepLooping))
    case KindResponse =>
      if peerClass.Service? then conn.(pc := ExistsCheck(env, raw, None))
      else conn.(pc := SendError(env.msgId, "invalid_source_class", now, KeepLooping))
    case KindError =>
      if peerClass.Service? then conn.(pc := ClassLookup(env, raw))
      else conn.(pc := SendError(env.msgId, "invalid_source_class", now, KeepLooping))
    case KindHeartbeat => conn.(pc := HeartbeatMark(env, raw))
    case KindDisconnect => conn.(pc := DisconnectRemove(env))
    case _ => conn.(pc := SendError(env.msgId, "unsupported_kind", now, KeepLooping))
  }

  function TakeNext(codec: Codec, conn: Conn, message: Message, now: Timestamp): Conn
    requires conn.registered.Some?
  {
    match message
    case PingOrPong => conn
    case CloseFrame => conn.(pc := Cleanup)
    case Text =>
      conn.(intake := conn.intake + [message], pc := SendError("unknown", "non_binary_message", now, Finish))
    case Binary(raw) =>
      var c := conn.(intake := conn.intake + [message]);
      match codec.decodeFrame(raw)
      case None => Fail(c)
      case Some(frame) =>
        if frame.envelope.from != conn.registered.value.peerId
        then c.(pc := SendError(frame.envelope.msgId, "invalid_source", now, KeepLooping))
        else Dispatch(codec, c, conn.registered.value.peerClass, frame, raw, now)
  }

  // ----- a task's own steps

  function Presence(peers: Peers, query: QueryBody): RouterBody {
    var snapshot := Lookup(peers, query.peerId);
    var found := snapshot.Some?;
    var peerClass := if found then Some(snapshot.value.peerClass) else None;
    match query
    case PeerExists(id) => PresenceBody(id, found, peerClass, found)
    case PeerGet(id) => PresenceBody(id, found, peerClass, found && snapshot.value.connected)
  }

  /** What a step that writes nothing does to the connection and to the table. */
  function Advance(peers: Peers, id: ConnId, conn: Conn, now: Timestamp): Option<(Conn, Peers)> {
    match conn.pc
    case Inserting(msgId, register) =>
      (match Insert(peers, register.peerId, register.peerClass, id, now)
       case None => Some((conn.(pc := SendError(msgId, "duplicate_peer_id", now, Finish)), peers))
       case Some(inserted) =>
         var ack := RouterEnvelope(KindResponse, msgId, register.peerId, now);
         Some((conn.(registered := Some(register), pc := Sending(ack, AckBody(true), KeepLooping)), inserted)))
    case QueryLookup(env, query) =>
      var reply := Envelope(env.v, KindResponse, env.msgId, ROUTER_PEER_ID, env.from, env.ts);
      Some((conn.(pc := Sending(reply, Presence(peers, query), KeepLooping)), peers))
    case ClassLookup(env, raw) =>
      (match DecideRouteTarget(env.kind, ClassOf(peers, env.to))
       case Deliver => Some((conn.(pc := ExistsCheck(env, raw, SenderOf(peers, env.to))), peers))
       case Reject(code) => Some((conn.(pc := SendError(env.msgId, code, now, KeepLooping)), peers)))
    case ExistsCheck(env, raw, seen) =>
      if env.to in peers then Some((conn.(pc := SenderLookup(env, raw, seen)), peers))
      else Some((conn.(pc := SendError(env.msgId, "peer_not_found", now, KeepLooping)), peers))
    case SenderLookup(env, raw, seen) =>
      (match SenderOf(peers, env.to)
       case None => Some((conn.(pc := SendError(env.msgId, "peer_not_found", now, KeepLooping)), peers))
       case Some(target) => Some((conn.(pc := Forwarding(env, raw, seen, target)), peers)))
    case Evicting(env, raw) =>
      Some((conn.(pc := SendError(env.msgId, "peer_not_found", now, KeepLooping)), Remove(peers, env.to)))
    case HeartbeatMark(env, raw) =>
      Some((conn.(pc := HeartbeatCheck(env, raw)), MarkHeartbeat(peers, env.from, now)))
    case HeartbeatCheck(env, raw) =>
      if env.to in peers then Some((conn.(pc := ExistsCheck(env, raw, None)), peers))
      else
        var echo := RouterEnvelope(KindHeartbeat, env.msgId, env.from, env.ts);
        Some((conn.(pc := Sending(echo, AckBody(true), KeepLooping)), peers))
    case DisconnectRemove(env) =>
      var ack := RouterEnvelope(KindResponse, env.msgId, env.from, env.ts);
      Some((conn.(pc := Sending(ack, AckBody(true), Finish)), Remove(peers, env.from)))
    case Cleanup =>
      Some((conn.(pc := Done),
            if conn.registered.Some? then Remove(peers, conn.registered.value.peerId) else peers))
    case _ => None
  }

  function Resume(after: After): Pc {
    if after.KeepLooping? then Looping else Cleanup
  }

  function LastIndex(conn: Conn): nat {
    if conn.intake == [] then 0 else |conn.intake| - 1
  }

  function Step(codec: Codec, s: State, a: Action): Option<State> {
    match a
    case Accept => Some(s.(conns := s.conns + [Conn(AwaitRegister, [], None, false)]))
    case Receive(id, message, now) =>
      if id >= |s.conns| then None
      else
        var conn := s.conns[id];
        if conn.pc.AwaitRegister?
        then Some(s.(conns := s.conns[id := TakeFirst(codec, conn, message, now)]))
        else if conn.pc.Looping? && conn.registered.Some?
        then Some(s.(conns := s.conns[id := TakeNext(codec, conn, message, now)]))
        else None
    case StreamEnd(id) =>
      if id < |s.conns| && (s.conns[id].pc.AwaitRegister? || s.conns[id].pc.Looping?)
      then Some(s.(conns := s.conns[id := s.conns[id].(pc := Cleanup)]))
      else None
    case Proceed(id, ok, now) =>
      if id >= |s.conns| then None
      else
        var conn := s.conns[id];
        match conn.pc
        case Sending(reply, body, after) =>
          if ok then Some(State(s.conns[id := conn.(pc := Resume(after))], s.peers,
                                s.log + [Write(id, id, LastIndex(conn), Made(reply, body), None)]))
          else Some(s.(conns := s.conns[id := Fail(conn)]))
        case Forwarding(env, raw, seen, target) =>
          if ok then Some(State(s.conns[id := conn.(pc := Looping)], s.peers,
                                s.log + [Write(target, id, LastIndex(conn), Raw(raw), seen)]))
          else Some(s.(conns := s.conns[id := conn.(pc := Evicting(env, raw))]))
        case _ =>
          match Advance(s.peers, id, conn, now)
          case None => None
          case Some((conn', peers')) => Some(State(s.conns[id := conn'], peers', s.log))
  }

  /** The state after a run, if every action of it was enabled. */
  function Exec(codec: Codec, run: seq<Action>): Option<State> {
    if run == [] then Some(INIT)
    else
      match Exec(codec, run[..|run| - 1])
      case None => None
      case Some(s) => Step(codec, s, run[|run| - 1])
  }
}
