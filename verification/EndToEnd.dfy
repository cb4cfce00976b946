/**
  * The whole system: callers running the Go transport, services running the Go dispatch,
  * and the router between them, all interleaving. Message ids are fresh when a peer makes
  * a frame of its own; a service's reply copies the id of the call it answers.
  */
module EndToEnd {
  import opened Wire
  import opened Registry
  import R = Router
  import G = GoTransport

  /** How frames are read and written by everyone. */
  datatype World = World(codec: Codec, encode: (Envelope, Bytes) -> Bytes, packBody: RouterBody -> Bytes)

  /** The frame a peer writes can be read back. */
  predicate Readable(w: World, env: Envelope, body: Bytes) {
    w.codec.decodeFrame(w.encode(env, body)) == Some(Frame(env, body))
  }

  /** Why a frame was written; a reply names the log position it answers and the task that answered it. */
  datatype Origin = Own | FromRequest(r: nat) | ReplyTo(k: nat, task: nat)

  datatype Sent = Sent(bytes: Bytes, origin: Origin)

  /** Where a service's goroutine for one frame stands; an error it returns closes the transport. */
  datatype TaskPc =
    | Dispatch
    | DecodeCall
    | RunHandler
    | EncodeResult
    | EncodeError
    | EncodeReply(reply: Envelope, body: Bytes)
    | CheckOpen(reply: Envelope, body: Bytes)
    | WriteFrame(reply: Envelope, body: Bytes)
    | CloseTransport
    | Ended
    | Dropped

  /** The goroutine started for the frame read from log position k. */
  datatype Task = Task(k: nat, frame: Frame, pc: TaskPc)

  /** Dialling registers and waits for one frame, the ack; only then does the read loop start. */
  datatype Dial = Registering | Running | DialFailed

  /**
    * The far end of a connection. `sent` is everything it wrote, in order; it has read its sink
    * up to log position `heard`. A caller runs `transport`; a service runs `tasks` until `closed`, and
    * its goroutines find the transport only once the dial's result is `ready`.
    */
  datatype Peer = Peer(
    isCaller: bool,
    peerId: string,
    sent: seq<Sent>,
    heard: nat,
    dial: Dial,
    ready: bool,
    transport: G.State,
    tasks: seq<Task>,
    closed: bool)

  datatype Net = Net(router: R.State, peers: seq<Peer>, used: set<string>)

  const INIT := Net(R.INIT, [], {})

  datatype NetAction =
    | Open(isCaller: bool, peerId: string)
    | SendOwn(c: nat, env: Envelope, body: Bytes)
    | Client(c: nat, step: G.Action)
    | Hear(c: nat, k: nat, wireErr: G.Failure, accepted: bool)
    | Assign(c: nat)
    | Work(c: nat, i: nat, fails: bool, body: Bytes)
    | Shut(c: nat)
    | RouterMove(move: R.Action)

  /** What arrives when this payload is read from a socket. */
  function FrameOf(w: World, payload: R.Payload): Option<Frame> {
    match payload
    case Made(env, body) => Some(Frame(env, w.packBody(body)))
    case Raw(bytes) => w.codec.decodeFrame(bytes)
  }

  /** The reply a service builds: ends swapped, id and time copied. */
  function ReplyEnvelope(peerId: string, call: Envelope, failed: bool): Envelope {
    Envelope(PROTOCOL_VERSION, if failed then KindError else KindResponse, call.msgId, peerId, call.from, call.ts)
  }

  function Sends(n: Net, c: nat, peer: Peer, bytes: Bytes, origin: Origin): Net
    requires c < |n.peers|
  {
    n.(peers := n.peers[c := peer.(sent := peer.sent + [Sent(bytes, origin)])])
  }

  /** The transport is about to hand its frame to the socket. */
  predicate Writes(t: G.State, step: G.Action) {
    step.RequestStep? && step.r < |t.requests| && t.requests[step.r].pc.ConnWrite? && !step.choice.Fails?
  }

  function ClientStep(w: World, n: Net, c: nat, step: G.Action): Option<Net>
    requires c < |n.peers|
  {
    var peer := n.peers[c];
    if !peer.isCaller || !peer.dial.Running? || step.ReadFrame? then None
    else
      match G.Step(peer.transport, step)
      case None => None
      case Some(t) =>
        var moved := peer.(transport := t);
        if Writes(peer.transport, step) then
          var q := peer.transport.requests[step.r];
          if q.envelope.msgId in n.used || !Readable(w, q.envelope, q.body) then None
          else Some(Sends(n, c, moved, w.encode(q.envelope, q.body), FromRequest(step.r))
                    .(used := n.used + {q.envelope.msgId}))
        else Some(n.(peers := n.peers[c := moved]))
  }

  /** Log position k is the next frame on the sink of c that its far end has not read. */
  predicate IsNext(n: Net, c: nat, k: nat)
    requires c < |n.peers|
  {
    && n.peers[c].heard <= k < |n.router.log| && n.router.log[k].sink == c
    && forall j :: n.peers[c].heard <= j < k ==> n.router.log[j].sink != c
  }

  /**
    * The dial takes the first frame, and fails unless it is an accepting response. Then the read loop
    * takes over: a caller's frame goes to its transport, a service's starts a goroutine.
    */
  function HearStep(w: World, n: Net, c: nat, k: nat, wireErr: G.Failure, accepted: bool): Option<Net>
    requires c < |n.peers|
  {
    var peer := n.peers[c].(heard := k + 1);
    if !IsNext(n, c, k) || peer.dial.DialFailed? then None
    else
      match FrameOf(w, n.router.log[k].payload)
      case None => None
      case Some(frame) =>
        if peer.dial.Registering? then
          var dial := if frame.envelope.kind.KindResponse? && accepted then Running else DialFailed;
          Some(n.(peers := n.peers[c := peer.(dial := dial)]))
        else if !peer.isCaller then
          Some(n.(peers := n.peers[c := peer.(tasks := peer.tasks + [Task(k, frame, Dispatch)],
                                              closed := peer.closed || frame.envelope.kind.KindDisconnect?)]))
        else
          match G.Step(peer.transport, G.ReadFrame(frame, wireErr))
          case None => None
          case Some(t) => Some(n.(peers := n.peers[c := peer.(transport := t)]))
  }

  /** What follows in the dispatch closure, handleServiceFrame, handleServiceCall, sendServiceError and send; `fails` is the error of this step. */
  function NextPc(peer: Peer, task: Task, fails: bool, body: Bytes): TaskPc {
    var call := task.frame.envelope;
    match task.pc
    case Dispatch =>
      if !peer.ready then Dropped
      else
        (match call.kind
         case KindCall => DecodeCall
         case KindDisconnect => CloseTransport
         case KindHeartbeat => Ended
         case KindQuery => Ended
         case KindResponse => Ended
         case KindError => Ended
         case _ => CloseTransport)
    case DecodeCall => if fails then EncodeError else RunHandler
    case RunHandler => if fails then EncodeError else EncodeResult
    case EncodeResult => if fails then EncodeError else EncodeReply(ReplyEnvelope(peer.peerId, call, false), body)
    case EncodeError => if fails then CloseTransport else EncodeReply(ReplyEnvelope(peer.peerId, call, true), body)
    case EncodeReply(reply, bytes) => if fails then CloseTransport else CheckOpen(reply, bytes)
    case CheckOpen(reply, bytes) => if peer.closed then CloseTransport else WriteFrame(reply, bytes)
    case WriteFrame(_, _) => if fails then CloseTransport else Ended
    case CloseTransport => Ended
    case Ended => Ended
    case Dropped => Dropped
  }

  predicate Finished(pc: TaskPc) {
    pc.Ended? || pc.Dropped?
  }

  /** One step of a service's goroutine. */
  function WorkStep(w: World, n: Net, c: nat, i: nat, fails: bool, body: Bytes): Option<Net>
    requires c < |n.peers|
  {
    var peer := n.peers[c];
    if peer.isCaller || i >= |peer.tasks| || Finished(peer.tasks[i].pc) then None
    else
      var task := peer.tasks[i];
      var moved := peer.(tasks := peer.tasks[i := task.(pc := NextPc(peer, task, fails, body))]);
      match task.pc
      case EncodeReply(reply, bytes) =>
        if !fails && !Readable(w, reply, bytes) then None else Some(n.(peers := n.peers[c := moved]))
      case WriteFrame(reply, bytes) =>
        if fails then Some(n.(peers := n.peers[c := moved]))
        else Some(Sends(n, c, moved, w.encode(reply, bytes), ReplyTo(task.k, i)))
      case CloseTransport => Some(n.(peers := n.peers[c := moved.(closed := true)]))
      case _ => Some(n.(peers := n.peers[c := moved]))
  }

  /** The router takes each connection's frames in the order they were written. */
  predicate Arrives(n: Net, a: R.Action) {
    match a
    case Accept => false
    case Receive(id, message, _) =>
      && id < |n.peers| && id < |n.router.conns|
      && !message.Text?
      && (n.router.conns[id].pc.AwaitRegister? ==> message.Binary?)
      && (message.Binary? ==>
            var i := |n.router.conns[id].intake|;
            i < |n.peers[id].sent| && message.raw == n.peers[id].sent[i].bytes)
    case _ => true
  }

  function Step(w: World, n: Net, a: NetAction): Option<Net> {
    match a
    case Open(isCaller, peerId) =>
      (match R.Step(w.codec, n.router, R.Accept)
       case None => None
       case Some(router) => Some(Net(router, n.peers + [Peer(isCaller, peerId, [], 0, Registering, false, G.INIT, [], false)], n.used)))
    case SendOwn(c, env, body) =>
      if c >= |n.peers| || env.msgId in n.used || !Readable(w, env, body) then None
      else Some(Sends(n, c, n.peers[c], w.encode(env, body), Own).(used := n.used + {env.msgId}))
    case Client(c, step) => if c < |n.peers| then ClientStep(w, n, c, step) else None
    case Hear(c, k, wireErr, accepted) => if c < |n.peers| then HearStep(w, n, c, k, wireErr, accepted) else None
    case Assign(c) =>
      if c < |n.peers| && n.peers[c].dial.Running?
      then Some(n.(peers := n.peers[c := n.peers[c].(ready := true)]))
      else None
    case Work(c, i, fails, body) => if c < |n.peers| then WorkStep(w, n, c, i, fails, body) else None
    case Shut(c) => if c < |n.peers| then Some(n.(peers := n.peers[c := n.peers[c].(closed := true)])) else None
    case RouterMove(move) =>
      if !Arrives(n, move) then None
      else
        match R.Step(w.codec, n.router, move)
        case None => None
        case Some(router) => Some(n.(router := router))
  }

  function Exec(w: World, run: seq<NetAction>): Option<Net> {
    if run == [] then Some(INIT)
    else
      match Exec(w, run[..|run| - 1])
      case None => None
      case Some(n) => Step(w, n, run[|run| - 1])
  }
}
