/**
  * The Go peer transport as a step system: requesters, one reader and whoever closes share
  * a pending map behind a mutex, reply channels of capacity one, a closed flag guarded by a
  * once, and a write lock. Each mutex section and each channel operation is one step.
  */
module GoTransport {
  import opened Wire

  type Failure = string

  /** What travels on a reply channel and what `request` returns; the zero frame is `None`. */
  datatype Reply = Reply(frame: Option<Frame>, err: Option<Failure>)

  const ZERO := Reply(None, None)

  /** A reply channel of capacity one; `owner` is the request that made it. */
  datatype Chan = Chan(buf: seq<Reply>, closed: bool, owner: nat)

  datatype RequestPc =
    | CheckClosed
    | InsertPending
    | EncodeFrame
    | WriteCheck
    | WriteLock
    | WriteRecheck
    | ConnWrite
    | WriteClose(cause: Failure)
    | WriteUnlock(failed: Option<Failure>)
    | Select
    | RemovePending(err: Failure)
    | Returned(reply: Reply)

  datatype Request = Request(envelope: Envelope, body: Bytes, pc: RequestPc, ch: Option<nat>)

  datatype ReaderPc =
    | Reading
    | SendReply(ch: nat, reply: Reply)
    | CloseReply(ch: nat)
    | ReaderClose(cause: Failure)
    | ReaderDone

  datatype Closer = ByReader | ByRequest(r: nat) | ByOther

  datatype Stage = StoreErr | CloseFlag | CancelAll | CloseConn

  datatype Once = NotYet | Running(closer: Closer, stage: Stage, err: Option<Failure>) | Finished

  /** `read` is every frame the reader took from the socket; `panicked` marks a Go channel panic. */
  datatype State = State(
    pending: map<string, nat>,
    chans: seq<Chan>,
    requests: seq<Request>,
    reader: ReaderPc,
    closed: bool,
    closeErr: Option<Failure>,
    once: Once,
    writeMu: Option<nat>,
    read: seq<Frame>,
    panicked: bool)

  const INIT := State(map[], [], [], Reading, false, None, NotYet, None, [], false)

  datatype Choice = Plain | Fails(err: Failure) | TakeReply | ContextDone | SeeClosed

  datatype Action =
    | Begin(envelope: Envelope, body: Bytes)
    | RequestStep(r: nat, choice: Choice)
    | ReadFrame(frame: Frame, wireErr: Failure)
    | ReadFails(cause: Failure)
    | ReaderStep
    | OtherClose(err: Option<Failure>)
    | CloseStep

  /** The close error, or the stock one. */
  function ClosedError(s: State): Failure {
    if s.closeErr.Some? then s.closeErr.value else "transport closed"
  }

  // ----- the pending map and the channels

  /** `deliverPending` under the mutex: the entry leaves the map with its channel. */
  function Claim(pending: map<string, nat>, msgId: string): Option<nat> {
    if msgId in pending then Some(pending[msgId]) else None
  }

  /** `cancelPending` on one channel: a send that does not block, then a close. */
  function CancelChan(chan: Chan, err: Failure): Chan {
    chan.(buf := if |chan.buf| < 1 then chan.buf + [Reply(None, Some(err))] else chan.buf, closed := true)
  }

  function CancelChans(chans: seq<Chan>, pending: map<string, nat>, err: Failure): (after: seq<Chan>)
    ensures |after| == |chans|
  {
    seq(|chans|, i requires 0 <= i < |chans| => if i in pending.Values then CancelChan(chans[i], err) else chans[i])
  }

  /** Closing a channel that is already closed panics. */
  predicate ClosesTwice(chans: seq<Chan>, pending: map<string, nat>) {
    exists m :: m in pending && pending[m] < |chans| && chans[pending[m]].closed
  }

  // ----- steps

  function SetPc(s: State, r: nat, pc: RequestPc): State
    requires r < |s.requests|
  {
    s.(requests := s.requests[r := s.requests[r].(pc := pc)])
  }

  /** The moves that touch neither a channel nor the map: the next program counter and the write lock. */
  function PlainMove(s: State, r: nat, choice: Choice): Option<(RequestPc, Option<nat>)>
    requires r < |s.requests|
  {
    match s.requests[r].pc
    case CheckClosed => if s.closed then None else Some((InsertPending, s.writeMu))
    case EncodeFrame =>
      if choice.Fails? then Some((RemovePending(choice.err), s.writeMu)) else Some((WriteCheck, s.writeMu))
    case WriteCheck =>
      if s.closed then Some((RemovePending(ClosedError(s)), s.writeMu)) else Some((WriteLock, s.writeMu))
    case WriteLock => if s.writeMu.Some? then None else Some((WriteRecheck, Some(r)))
    case WriteRecheck =>
      if s.closed then Some((WriteUnlock(Some(ClosedError(s))), s.writeMu)) else Some((ConnWrite, s.writeMu))
    case ConnWrite =>
      if choice.Fails? then Some((WriteClose(choice.err), s.writeMu)) else Some((WriteUnlock(None), s.writeMu))
    case WriteClose(cause) => if s.once.Finished? then Some((WriteUnlock(Some(cause)), s.writeMu)) else None
    case WriteUnlock(failed) => Some((if failed.Some? then RemovePending(failed.value) else Select, None))
    case Select =>
      if choice.ContextDone? then Some((RemovePending("context done"), s.writeMu))
      else if choice.SeeClosed? && s.closed then Some((RemovePending(ClosedError(s)), s.writeMu))
      else None
    case _ => None
  }

  /** The reply case of the select: a buffered value, or the zero value of a closed, empty channel. */
  function TakeMove(s: State, r: nat): Option<State>
    requires r < |s.requests|
  {
    var ch := s.requests[r].ch;
    if ch.None? || ch.value >= |s.chans| then None
    else
      var chan := s.chans[ch.value];
      if chan.buf != []
      then Some(SetPc(s.(chans := s.chans[ch.value := chan.(buf := chan.buf[1..])]), r, Returned(chan.buf[0])))
      else if chan.closed then Some(SetPc(s, r, Returned(ZERO)))
      else None
  }

  function InsertMove(s: State, r: nat): State
    requires r < |s.requests|
  {
    var q, ch := s.requests[r], |s.chans|;
    s.(chans := s.chans + [Chan([], false, r)],
       pending := s.pending[q.envelope.msgId := ch],
       requests := s.requests[r := q.(pc := EncodeFrame, ch := Some(ch))])
  }

  function RemoveMove(s: State, r: nat, err: Failure): State
    requires r < |s.requests|
  {
    SetPc(s.(pending := s.pending - {s.requests[r].envelope.msgId}), r, Returned(Reply(None, Some(err))))
  }

  function RequestMove(s: State, r: nat, choice: Choice): Option<State>
    requires r < |s.requests|
  {
    var pc := s.requests[r].pc;
    if pc.CheckClosed? && s.closed then Some(SetPc(s, r, Returned(Reply(None, Some(ClosedError(s))))))
    else if pc.InsertPending? then Some(InsertMove(s, r))
    else if pc.WriteClose? && s.once.NotYet? then Some(s.(once := Running(ByRequest(r), StoreErr, Some(pc.cause))))
    else if pc.Select? && choice.TakeReply? then TakeMove(s, r)
    else if pc.RemovePending? then Some(RemoveMove(s, r, pc.err))
    else
      match PlainMove(s, r, choice)
      case None => None
      case Some((next, mu)) => Some(SetPc(s.(writeMu := mu), r, next))
  }

  function ReadOne(s: State, frame: Frame, wireErr: Failure): State {
    var t := s.(read := s.read + [frame]);
    var ch := Claim(s.pending, frame.envelope.msgId);
    if ch.Some? then
      var err := if frame.envelope.kind.KindError? then Some(wireErr) else None;
      t.(pending := s.pending - {frame.envelope.msgId}, reader := SendReply(ch.value, Reply(Some(frame), err)))
    else if frame.envelope.kind.KindDisconnect? then t.(reader := ReaderClose("peer disconnected"))
    else t
  }

  function ReaderMove(s: State): Option<State> {
    match s.reader
    case SendReply(ch, reply) =>
      if ch >= |s.chans| then None
      else
        var chan := s.chans[ch];
        if chan.closed then Some(s.(panicked := true))
        else if |chan.buf| >= 1 then None
        else Some(s.(chans := s.chans[ch := chan.(buf := chan.buf + [reply])], reader := CloseReply(ch)))
    case CloseReply(ch) =>
      if ch >= |s.chans| then None
      else if s.chans[ch].closed then Some(s.(panicked := true))
      else Some(s.(chans := s.chans[ch := s.chans[ch].(closed := true)], reader := Reading))
    case ReaderClose(cause) =>
      if s.once.NotYet? then Some(s.(once := Running(ByReader, StoreErr, Some(cause))))
      else if s.once.Finished? then Some(s.(reader := ReaderDone))
      else None
    case _ => None
  }

  function CloseMove(s: State): Option<State> {
    match s.once
    case Running(closer, stage, err) =>
      (match stage
       case StoreErr =>
         Some(s.(closeErr := if err.Some? then err else s.closeErr, once := Running(closer, CloseFlag, err)))
       case CloseFlag =>
         Some(s.(closed := true, panicked := s.panicked || s.closed, once := Running(closer, CancelAll, err)))
       case CancelAll =>
         var reason := if err.Some? then err.value else ClosedError(s);
         Some(s.(chans := CancelChans(s.chans, s.pending, reason),
                 panicked := s.panicked || ClosesTwice(s.chans, s.pending),
                 pending := map[],
                 once := Running(closer, CloseConn, err)))
       case CloseConn => Some(s.(once := Finished)))
    case _ => None
  }

  function Step(s: State, a: Action): Option<State> {
    match a
    case Begin(envelope, body) => Some(s.(requests := s.requests + [Request(envelope, body, CheckClosed, None)]))
    case RequestStep(r, choice) => if r < |s.requests| then RequestMove(s, r, choice) else None
    case ReadFrame(frame, wireErr) => if s.reader.Reading? then Some(ReadOne(s, frame, wireErr)) else None
    case ReadFails(cause) => if s.reader.Reading? then Some(s.(reader := ReaderClose(cause))) else None
    case ReaderStep => ReaderMove(s)
    case OtherClose(err) => if s.once.NotYet? then Some(s.(once := Running(ByOther, StoreErr, err))) else None
    case CloseStep => CloseMove(s)
  }

  function Exec(run: seq<Action>): Option<State> {
    if run == [] then Some(INIT)
    else
      match Exec(run[..|run| - 1])
      case None => None
      case Some(s) => Step(s, run[|run| - 1])
  }
}
