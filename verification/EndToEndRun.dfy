/**
  * A call can always be answered: from every state in which caller and service are registered and
  * have nothing unread or unsent, some run carries a call to the service and its reply back.
  */
module EndToEndRun {
  import opened Wire
  import opened Registry
  import opened EndToEnd
  import R = Router
  import G = GoTransport

  function Continue(w: World, n: Net, more: seq<NetAction>): Option<Net> {
    if more == [] then Some(n)
    else
      match Continue(w, n, more[..|more| - 1])
      case None => None
      case Some(m) => Step(w, m, more[|more| - 1])
  }

  ghost predicate Reaches(w: World, n: Net, m: Net) {
    exists more :: Continue(w, n, more) == Some(m)
  }

  lemma Then(w: World, n0: Net, n: Net, a: NetAction, m: Net)
    requires Reaches(w, n0, n) && Step(w, n, a) == Some(m)
    ensures Reaches(w, n0, m)
  {
    var more :| Continue(w, n0, more) == Some(n);
    var longer := more + [a];
    assert longer[..|longer| - 1] == more;
    assert Continue(w, n0, longer) == Some(m);
  }

  // ----- the caller writes its call

  function WithPeer(n: Net, c: nat, peer: Peer): Net
    requires c < |n.peers|
  {
    n.(peers := n.peers[c := peer])
  }

  /** The transport with one more request, at this point of its way out. */
  function Asking(t: G.State, call: Envelope, args: Bytes, pc: G.RequestPc, mu: Option<nat>): G.State {
    t.(requests := t.requests + [G.Request(call, args, pc, Some(|t.chans|))],
       chans := t.chans + [G.Chan([], false, |t.requests|)],
       pending := t.pending[call.msgId := |t.chans|],
       writeMu := mu)
  }

  predicate Idle(t: G.State) {
    !t.closed && t.reader.Reading? && t.writeMu.None? && !t.panicked
  }

  lemma Asks(t: G.State, call: Envelope, args: Bytes) returns (t1: G.State, t2: G.State)
    requires Idle(t)
    ensures var r := |t.requests|;
            && G.Step(t, G.Begin(call, args)) == Some(t1)
            && G.Step(t1, G.RequestStep(r, G.Plain)) == Some(t2)
            && G.Step(t2, G.RequestStep(r, G.Plain)) == Some(Asking(t, call, args, G.EncodeFrame, None))
  {
    var r := |t.requests|;
    t1 := G.Step(t, G.Begin(call, args)).value;
    t2 := G.Step(t1, G.RequestStep(r, G.Plain)).value;
    assert G.Step(t2, G.RequestStep(r, G.Plain)).value.requests == Asking(t, call, args, G.EncodeFrame, None).requests;
  }

  lemma MovesOn(t: G.State, call: Envelope, args: Bytes, pc: G.RequestPc, mu: Option<nat>, next: G.RequestPc, mu': Option<nat>)
    requires G.PlainMove(Asking(t, call, args, pc, mu), |t.requests|, G.Plain) == Some((next, mu'))
    requires !(pc.CheckClosed? && t.closed) && !pc.InsertPending? && !pc.RemovePending? && !(pc.WriteClose? && t.once.NotYet?)
    ensures G.Step(Asking(t, call, args, pc, mu), G.RequestStep(|t.requests|, G.Plain)) == Some(Asking(t, call, args, next, mu'))
  {
    var a, b := Asking(t, call, args, pc, mu), Asking(t, call, args, next, mu');
    assert a.requests[|t.requests| := a.requests[|t.requests|].(pc := next)] == b.requests;
  }

  /** A caller whose dial has returned. */
  predicate CanRun(peer: Peer) {
    peer.isCaller && peer.dial.Running?
  }

  lemma Runs(w: World, n0: Net, n: Net, c: nat, step: G.Action, t: G.State) returns (m: Net)
    requires Reaches(w, n0, n) && c < |n.peers| && CanRun(n.peers[c]) && !step.ReadFrame?
    requires G.Step(n.peers[c].transport, step) == Some(t) && !Writes(n.peers[c].transport, step)
    ensures Reaches(w, n0, m) && m == WithPeer(n, c, n.peers[c].(transport := t))
  {
    m := WithPeer(n, c, n.peers[c].(transport := t));
    Then(w, n0, n, Client(c, step), m);
  }

  lemma BeginsCall(w: World, n: Net, c: nat, call: Envelope, args: Bytes) returns (m: Net)
    requires c < |n.peers| && CanRun(n.peers[c]) && Idle(n.peers[c].transport)
    ensures Reaches(w, n, m)
    ensures m == WithPeer(n, c, n.peers[c].(transport := Asking(n.peers[c].transport, call, args, G.EncodeFrame, None)))
  {
    var t, r := n.peers[c].transport, |n.peers[c].transport.requests|;
    assert Continue(w, n, []) == Some(n);
    var t1, t2 := Asks(t, call, args);
    m := Runs(w, n, n, c, G.Begin(call, args), t1);
    m := Runs(w, n, m, c, G.RequestStep(r, G.Plain), t2);
    m := Runs(w, n, m, c, G.RequestStep(r, G.Plain), Asking(t, call, args, G.EncodeFrame, None));
  }

  /** One plain move of the request on its way out. */
  lemma Advances(w: World, n0: Net, n: Net, c: nat, t: G.State, call: Envelope, args: Bytes,
                 pc: G.RequestPc, mu: Option<nat>, next: G.RequestPc, mu': Option<nat>) returns (m: Net)
    requires Reaches(w, n0, n) && c < |n.peers| && CanRun(n.peers[c])
    requires n.peers[c].transport == Asking(t, call, args, pc, mu) && Idle(t)
    requires G.PlainMove(Asking(t, call, args, pc, mu), |t.requests|, G.Plain) == Some((next, mu'))
    requires !pc.ConnWrite? && !pc.CheckClosed? && !pc.InsertPending? && !pc.RemovePending? && !pc.WriteClose?
    ensures Reaches(w, n0, m)
    ensures m == WithPeer(n, c, n.peers[c].(transport := Asking(t, call, args, next, mu')))
  {
    MovesOn(t, call, args, pc, mu, next, mu');
    m := Runs(w, n0, n, c, G.RequestStep(|t.requests|, G.Plain), Asking(t, call, args, next, mu'));
  }

  lemma ReadiesCall(w: World, n: Net, c: nat, call: Envelope, args: Bytes) returns (m: Net)
    requires c < |n.peers| && CanRun(n.peers[c]) && Idle(n.peers[c].transport)
    ensures Reaches(w, n, m)
    ensures var t := n.peers[c].transport;
            m == WithPeer(n, c, n.peers[c].(transport := Asking(t, call, args, G.ConnWrite, Some(|t.requests|))))
  {
    var t, r := n.peers[c].transport, |n.peers[c].transport.requests|;
    m := BeginsCall(w, n, c, call, args);
    m := Advances(w, n, m, c, t, call, args, G.EncodeFrame, None, G.WriteCheck, None);
    m := Advances(w, n, m, c, t, call, args, G.WriteCheck, None, G.WriteLock, None);
    m := Advances(w, n, m, c, t, call, args, G.WriteLock, None, G.WriteRecheck, Some(r));
    m := Advances(w, n, m, c, t, call, args, G.WriteRecheck, Some(r), G.ConnWrite, Some(r));
  }

  /** The caller after its call is on the wire. */
  function Asked(w: World, caller: Peer, call: Envelope, args: Bytes): Peer {
    caller.(transport := Asking(caller.transport, call, args, G.Select, None),
            sent := caller.sent + [Sent(w.encode(call, args), FromRequest(|caller.transport.requests|))])
  }

  lemma CallIsSent(w: World, n: Net, c: nat, call: Envelope, args: Bytes) returns (m: Net)
    requires c < |n.peers| && CanRun(n.peers[c]) && Idle(n.peers[c].transport)
    requires call.msgId !in n.used && Readable(w, call, args)
    ensures Reaches(w, n, m)
    ensures m.router == n.router && m.peers == n.peers[c := Asked(w, n.peers[c], call, args)]
  {
    var t, r := n.peers[c].transport, |n.peers[c].transport.requests|;
    var ready := ReadiesCall(w, n, c, call, args);
    MovesOn(t, call, args, G.ConnWrite, Some(r), G.WriteUnlock(None), Some(r));
    var written := Step(w, ready, Client(c, G.RequestStep(r, G.Plain))).value;
    Then(w, n, ready, Client(c, G.RequestStep(r, G.Plain)), written);
    m := Advances(w, n, written, c, t, call, args, G.WriteUnlock(None), Some(r), G.Select, None);
  }

  // ----- the router passes a frame on

  lemma RouterMoves(w: World, n0: Net, n: Net, move: R.Action, router: R.State) returns (m: Net)
    requires Reaches(w, n0, n) && Arrives(n, move) && R.Step(w.codec, n.router, move) == Some(router)
    ensures Reaches(w, n0, m) && m == n.(router := router)
  {
    m := n.(router := router);
    Then(w, n0, n, RouterMove(move), m);
  }

  /** The connection can take this frame next, is registered as its sender, and may send it to this target. */
  predicate CanForward(w: World, n: Net, src: ConnId, raw: Bytes, frame: Frame, target: ConnId) {
    && src < |n.router.conns| && src < |n.peers|
    && var conn := n.router.conns[src];
       && conn.pc.Looping? && conn.registered.Some? && conn.registered.value.peerId == frame.envelope.from
       && |conn.intake| < |n.peers[src].sent| && n.peers[src].sent[|conn.intake|].bytes == raw
       && w.codec.decodeFrame(raw) == Some(frame)
       && SenderOf(n.router.peers, frame.envelope.to) == Some(target)
       && (|| (&& frame.envelope.kind.KindCall? && conn.registered.value.peerClass.Caller?
               && ClassOf(n.router.peers, frame.envelope.to) == Some(Service))
           || (frame.envelope.kind.KindResponse? && conn.registered.value.peerClass.Service?)
           || (&& frame.envelope.kind.KindError? && conn.registered.value.peerClass.Service?
               && ClassOf(n.router.peers, frame.envelope.to) == Some(Caller))
           || frame.envelope.kind.KindHeartbeat?)
  }

  /** The same net with one connection somewhere else in its handling of the frame. */
  function Handling(n: Net, src: ConnId, raw: Bytes, pc: R.Pc): Net
    requires src < |n.router.conns|
  {
    var conn := n.router.conns[src];
    n.(router := n.router.(conns := n.router.conns[src := conn.(intake := conn.intake + [R.Binary(raw)], pc := pc)]))
  }

  /** The net once the table has noted a heartbeat, if the frame is one. */
  function Noted(n: Net, frame: Frame): Net {
    if frame.envelope.kind.KindHeartbeat?
    then n.(router := n.router.(peers := MarkHeartbeat(n.router.peers, frame.envelope.from, 0)))
    else n
  }

  lemma HeartbeatIsNoted(w: World, n0: Net, n: Net, src: ConnId, raw: Bytes, frame: Frame) returns (m: Net)
    requires src < |n.router.conns| && Reaches(w, n0, Handling(n, src, raw, R.HeartbeatMark(frame.envelope, raw)))
    requires frame.envelope.kind.KindHeartbeat? && frame.envelope.to in n.router.peers
    ensures Reaches(w, n0, m) && m == Handling(Noted(n, frame), src, raw, R.ExistsCheck(frame.envelope, raw, None))
  {
    var before := Handling(n, src, raw, R.HeartbeatMark(frame.envelope, raw));
    var noted := Handling(Noted(n, frame), src, raw, R.HeartbeatCheck(frame.envelope, raw));
    assert R.Step(w.codec, before.router, R.Proceed(src, true, 0)).value.conns == noted.router.conns;
    m := RouterMoves(w, n0, before, R.Proceed(src, true, 0), noted.router);
    m := HandlingMoves(w, n0, Noted(n, frame), src, raw, R.HeartbeatCheck(frame.envelope, raw),
                       R.ExistsCheck(frame.envelope, raw, None));
  }

  /** Where the dispatch leaves a frame that can be forwarded. */
  function Dispatched(frame: Frame, raw: Bytes): R.Pc {
    if frame.envelope.kind.KindCall? || frame.envelope.kind.KindError? then R.ClassLookup(frame.envelope, raw)
    else if frame.envelope.kind.KindHeartbeat? then R.HeartbeatMark(frame.envelope, raw)
    else R.ExistsCheck(frame.envelope, raw, None)
  }

  lemma FrameIsTaken(w: World, n0: Net, n: Net, src: ConnId, raw: Bytes, frame: Frame, target: ConnId)
    returns (m: Net, seen: Option<ConnId>)
    requires Reaches(w, n0, n) && CanForward(w, n, src, raw, frame, target)
    ensures Reaches(w, n0, m) && m == Handling(Noted(n, frame), src, raw, R.ExistsCheck(frame.envelope, raw, seen))
  {
    var taken := Handling(n, src, raw, Dispatched(frame, raw));
    m := RouterMoves(w, n0, n, R.Receive(src, R.Binary(raw), 0), taken.router);
    seen := None;
    if frame.envelope.kind.KindCall? || frame.envelope.kind.KindError? {
      seen := Some(target);
      m := HandlingMoves(w, n0, n, src, raw, R.ClassLookup(frame.envelope, raw), R.ExistsCheck(frame.envelope, raw, seen));
    } else if frame.envelope.kind.KindHeartbeat? {
      m := HeartbeatIsNoted(w, n0, n, src, raw, frame);
    }
  }

  /** One step of the connection from one point to the next. */
  lemma HandlingMoves(w: World, n0: Net, n: Net, src: ConnId, raw: Bytes, pc: R.Pc, next: R.Pc) returns (m: Net)
    requires src < |n.router.conns| && Reaches(w, n0, Handling(n, src, raw, pc))
    requires !pc.Sending? && !pc.Forwarding?
    requires R.Advance(n.router.peers, src, Handling(n, src, raw, pc).router.conns[src], 0)
          == Some((Handling(n, src, raw, next).router.conns[src], n.router.peers))
    ensures Reaches(w, n0, m) && m == Handling(n, src, raw, next)
  {
    var before, after := Handling(n, src, raw, pc), Handling(n, src, raw, next);
    assert before.router.conns[src := after.router.conns[src]] == after.router.conns;
    m := RouterMoves(w, n0, before, R.Proceed(src, true, 0), after.router);
  }

  /** A call, response, error or heartbeat that can be forwarded reaches its target's sink, and nothing else changes but the heartbeat's time. */
  lemma FrameIsForwarded(w: World, n0: Net, n: Net, src: ConnId, raw: Bytes, frame: Frame, target: ConnId) returns (m: Net)
    requires Reaches(w, n0, n) && CanForward(w, n, src, raw, frame, target)
    ensures Reaches(w, n0, m) && m.peers == n.peers && m.router.peers == Noted(n, frame).router.peers
    ensures |m.router.conns| == |n.router.conns|
    ensures forall x :: 0 <= x < |n.router.conns| && x != src ==> m.router.conns[x] == n.router.conns[x]
    ensures |m.router.log| == |n.router.log| + 1 && m.router.log[..|n.router.log|] == n.router.log
    ensures m.router.log[|n.router.log|].sink == target && m.router.log[|n.router.log|].payload == R.Raw(raw)
  {
    var env, noted := frame.envelope, Noted(n, frame);
    var taken, seen := FrameIsTaken(w, n0, n, src, raw, frame, target);
    var found := HandlingMoves(w, n0, noted, src, raw, R.ExistsCheck(env, raw, seen), R.SenderLookup(env, raw, seen));
    found := HandlingMoves(w, n0, noted, src, raw, R.SenderLookup(env, raw, seen), R.Forwarding(env, raw, seen, target));
    m := RouterMoves(w, n0, found, R.Proceed(src, true, 0), R.Step(w.codec, found.router, R.Proceed(src, true, 0)).value);
  }

  // ----- the service answers

  /** The service once its goroutine for position k stands here. */
  function Serving(service: Peer, k: nat, frame: Frame, pc: TaskPc): Peer {
    service.(heard := k + 1, tasks := service.tasks + [Task(k, frame, pc)])
  }

  /** An open service whose read loop has started. */
  predicate CanServe(peer: Peer) {
    !peer.isCaller && !peer.closed && peer.dial.Running?
  }

  lemma Works(w: World, n0: Net, n: Net, d: nat, service: Peer, k: nat, frame: Frame, pc: TaskPc, fails: bool, body: Bytes)
    returns (m: Net)
    requires d < |n.peers| && n.peers[d] == Serving(service, k, frame, pc) && Reaches(w, n0, n) && !service.isCaller
    requires !Finished(pc) && !pc.WriteFrame? && !pc.CloseTransport?
    requires pc.EncodeReply? && !fails ==> Readable(w, pc.reply, pc.body)
    ensures Reaches(w, n0, m)
    ensures m == WithPeer(n, d, Serving(service, k, frame, NextPc(n.peers[d], Task(k, frame, pc), fails, body)))
  {
    var i, next := |service.tasks|, NextPc(n.peers[d], Task(k, frame, pc), fails, body);
    assert Serving(service, k, frame, pc).tasks[i := Task(k, frame, next)] == Serving(service, k, frame, next).tasks;
    m := WithPeer(n, d, Serving(service, k, frame, next));
    Then(w, n0, n, Work(d, i, fails, body), m);
  }

  lemma CallIsHandled(w: World, n0: Net, n: Net, d: nat, service: Peer, k: nat, frame: Frame, failed: bool, result: Bytes)
    returns (m: Net)
    requires d < |n.peers| && n.peers[d] == Serving(service, k, frame, Dispatch) && Reaches(w, n0, n) && !service.isCaller
    requires frame.envelope.kind.KindCall? && !service.closed && service.ready
    requires Readable(w, ReplyEnvelope(service.peerId, frame.envelope, failed), result)
    ensures Reaches(w, n0, m)
    ensures m == WithPeer(n, d, Serving(service, k, frame, WriteFrame(ReplyEnvelope(service.peerId, frame.envelope, failed), result)))
  {
    var reply := ReplyEnvelope(service.peerId, frame.envelope, failed);
    m := Works(w, n0, n, d, service, k, frame, Dispatch, false, []);
    m := Works(w, n0, m, d, service, k, frame, DecodeCall, false, []);
    m := Works(w, n0, m, d, service, k, frame, RunHandler, failed, []);
    m := Works(w, n0, m, d, service, k, frame, if failed then EncodeError else EncodeResult, false, result);
    m := Works(w, n0, m, d, service, k, frame, EncodeReply(reply, result), false, []);
    m := Works(w, n0, m, d, service, k, frame, CheckOpen(reply, result), false, []);
  }

  lemma CallIsServed(w: World, n0: Net, n: Net, d: nat, k: nat, frame: Frame, failed: bool, result: Bytes) returns (m: Net)
    requires Reaches(w, n0, n) && d < |n.peers| && CanServe(n.peers[d]) && n.peers[d].ready
    requires IsNext(n, d, k) && FrameOf(w, n.router.log[k].payload) == Some(frame) && frame.envelope.kind.KindCall?
    requires Readable(w, ReplyEnvelope(n.peers[d].peerId, frame.envelope, failed), result)
    ensures Reaches(w, n0, m) && m.router == n.router && |m.peers| == |n.peers|
    ensures forall x :: 0 <= x < |n.peers| && x != d ==> m.peers[x] == n.peers[x]
    ensures var reply := ReplyEnvelope(n.peers[d].peerId, frame.envelope, failed);
            |m.peers[d].sent| == |n.peers[d].sent| + 1 && m.peers[d].sent[|n.peers[d].sent|].bytes == w.encode(reply, result)
  {
    var service := n.peers[d];
    var heard := WithPeer(n, d, Serving(service, k, frame, Dispatch));
    Then(w, n0, n, Hear(d, k, "", true), heard);
    var ready := CallIsHandled(w, n0, heard, d, service, k, frame, failed, result);
    m := Step(w, ready, Work(d, |service.tasks|, false, [])).value;
    Then(w, n0, ready, Work(d, |service.tasks|, false, []), m);
  }

  // ----- the reply comes home

  /** What a caller gets with this frame: an error as well if it is an error frame. */
  function ReplyWith(frame: Frame): G.Reply {
    G.Reply(Some(frame), if frame.envelope.kind.KindError? then Some("") else None)
  }

  /** Reading the reply, passing it to the channel and taking it from there. */
  lemma ReplyIsTaken(t: G.State, call: Envelope, args: Bytes, frame: Frame) returns (t1: G.State, t2: G.State, t3: G.State)
    requires Idle(t) && frame.envelope.msgId == call.msgId
    ensures G.Step(Asking(t, call, args, G.Select, None), G.ReadFrame(frame, "")) == Some(t1)
    ensures G.Step(t1, G.ReaderStep) == Some(t2)
    ensures G.Step(t2, G.RequestStep(|t.requests|, G.TakeReply)) == Some(t3)
    ensures |t3.requests| == |t.requests| + 1
    ensures t3.requests[|t.requests|] == G.Request(call, args, G.Returned(ReplyWith(frame)), Some(|t.chans|))
  {
    t1 := G.Step(Asking(t, call, args, G.Select, None), G.ReadFrame(frame, "")).value;
    t2 := G.Step(t1, G.ReaderStep).value;
    assert t2.chans[|t.chans|].buf == [ReplyWith(frame)];
    t3 := G.Step(t2, G.RequestStep(|t.requests|, G.TakeReply)).value;
  }

  lemma ReplyReturns(w: World, n0: Net, n: Net, c: nat, caller: Peer, call: Envelope, args: Bytes, k: nat, frame: Frame)
    returns (m: Net)
    requires Reaches(w, n0, n) && c < |n.peers| && n.peers[c] == Asked(w, caller, call, args)
    requires CanRun(caller) && Idle(caller.transport) && IsNext(n, c, k)
    requires FrameOf(w, n.router.log[k].payload) == Some(frame)
    requires frame.envelope.msgId == call.msgId
    ensures Reaches(w, n0, m) && c < |m.peers| && |m.peers[c].transport.requests| == |caller.transport.requests| + 1
    ensures var q := m.peers[c].transport.requests[|caller.transport.requests|];
            q.envelope == call && q.pc == G.Returned(ReplyWith(frame))
  {
    var t1, t2, t3 := ReplyIsTaken(caller.transport, call, args, frame);
    var heard := WithPeer(n, c, n.peers[c].(heard := k + 1, transport := t1));
    Then(w, n0, n, Hear(c, k, "", true), heard);
    m := Runs(w, n0, heard, c, G.ReaderStep, t2);
    m := Runs(w, n0, m, c, G.RequestStep(|caller.transport.requests|, G.TakeReply), t3);
  }

  /** Registered and looping, with nothing sent that was not taken and nothing on its sink that was not read. */
  predicate AtRest(n: Net, c: nat, register: RegisterBody) {
    && c < |n.router.conns| && c < |n.peers|
    && n.router.conns[c].pc.Looping? && n.router.conns[c].registered == Some(register)
    && |n.router.conns[c].intake| == |n.peers[c].sent|
    && SenderOf(n.router.peers, register.peerId) == Some(c)
    && ClassOf(n.router.peers, register.peerId) == Some(register.peerClass)
    && n.peers[c].heard <= |n.router.log|
    && forall k :: n.peers[c].heard <= k < |n.router.log| ==> n.router.log[k].sink != c
  }

  /** Whatever else goes on, this caller can call this service now. */
  predicate CanCall(w: World, n: Net, c: nat, d: nat, call: Envelope, args: Bytes, failed: bool, result: Bytes) {
    && AtRest(n, c, RegisterBody(call.from, Caller)) && CanRun(n.peers[c]) && Idle(n.peers[c].transport)
    && AtRest(n, d, RegisterBody(call.to, Service)) && CanServe(n.peers[d])
    && n.peers[d].peerId == call.to
    && call.kind.KindCall? && call.msgId !in n.used
    && Readable(w, call, args) && Readable(w, ReplyEnvelope(call.to, call, failed), result)
  }

  lemma CallArrives(w: World, n: Net, c: nat, d: nat, call: Envelope, args: Bytes, failed: bool, result: Bytes)
    returns (m: Net)
    requires CanCall(w, n, c, d, call, args, failed, result)
    ensures Reaches(w, n, m) && m.peers == n.peers[c := Asked(w, n.peers[c], call, args)] && m.router.peers == n.router.peers
    ensures |m.router.conns| == |n.router.conns| && m.router.conns[d] == n.router.conns[d]
    ensures |m.router.log| == |n.router.log| + 1 && m.router.log[..|n.router.log|] == n.router.log
    ensures m.router.log[|n.router.log|].sink == d && m.router.log[|n.router.log|].payload == R.Raw(w.encode(call, args))
  {
    var sent := CallIsSent(w, n, c, call, args);
    m := FrameIsForwarded(w, n, sent, c, w.encode(call, args), Frame(call, args), d);
  }

  /** The service has written its reply; the router has not taken it yet. */
  lemma ReplyIsWritten(w: World, n: Net, c: nat, d: nat, call: Envelope, args: Bytes, failed: bool, result: Bytes)
    returns (m: Net)
    requires CanCall(w, n, c, d, call, args, failed, result) && n.peers[d].ready
    ensures var reply := ReplyEnvelope(call.to, call, failed);
            && Reaches(w, n, m)
            && CanForward(w, m, d, w.encode(reply, result), Frame(reply, result), c)
            && |m.router.log| == |n.router.log| + 1 && m.router.log[..|n.router.log|] == n.router.log
            && m.router.log[|n.router.log|].sink == d
            && c < |m.peers| && m.peers[c] == Asked(w, n.peers[c], call, args)
  {
    var k := |n.router.log|;
    var arrived := CallArrives(w, n, c, d, call, args, failed, result);
    NextAfterOne(n, arrived, d);
    m := CallIsServed(w, n, arrived, d, k, Frame(call, args), failed, result);
  }

  /** From every such state, in any world, once the service has its transport: some run returns its result, or its error, to the call. */
  lemma CallCanBeAnswered(w: World, n: Net, c: nat, d: nat, call: Envelope, args: Bytes, failed: bool, result: Bytes)
    returns (m: Net)
    requires CanCall(w, n, c, d, call, args, failed, result) && n.peers[d].ready
    ensures Reaches(w, n, m) && c < |m.peers|
    ensures var r := |n.peers[c].transport.requests|;
            && |m.peers[c].transport.requests| == r + 1
            && m.peers[c].transport.requests[r].envelope == call
            && m.peers[c].transport.requests[r].pc
               == G.Returned(ReplyWith(Frame(ReplyEnvelope(call.to, call, failed), result)))
  {
    var k, reply := |n.router.log|, ReplyEnvelope(call.to, call, failed);
    var written := ReplyIsWritten(w, n, c, d, call, args, failed, result);
    var back := FrameIsForwarded(w, n, written, d, w.encode(reply, result), Frame(reply, result), c);
    NextAfter(n, written, back, c);
    m := ReplyReturns(w, n, back, c, n.peers[c], call, args, k + 1, Frame(reply, result));
  }

  lemma NextAfterOne(n: Net, arrived: Net, d: nat)
    requires d < |n.peers| && d < |arrived.peers| && arrived.peers[d].heard == n.peers[d].heard <= |n.router.log|
    requires forall k :: n.peers[d].heard <= k < |n.router.log| ==> n.router.log[k].sink != d
    requires |arrived.router.log| == |n.router.log| + 1 && arrived.router.log[..|n.router.log|] == n.router.log
    requires arrived.router.log[|n.router.log|].sink == d
    ensures IsNext(arrived, d, |n.router.log|)
  {
    assert forall j :: 0 <= j < |n.router.log| ==> arrived.router.log[j] == arrived.router.log[..|n.router.log|][j];
  }

  /** From every such state before that: some run delivers the call to an open service whose goroutine drops it. */
  lemma CallCanBeLost(w: World, n: Net, c: nat, d: nat, call: Envelope, args: Bytes, failed: bool, result: Bytes)
    returns (m: Net)
    requires CanCall(w, n, c, d, call, args, failed, result) && !n.peers[d].ready
    ensures Reaches(w, n, m) && d < |m.peers| && !m.peers[d].closed
    ensures |m.peers[d].tasks| == |n.peers[d].tasks| + 1
    ensures var task := m.peers[d].tasks[|n.peers[d].tasks|]; task.pc.Dropped? && task.frame == Frame(call, args)
  {
    var k, service, frame := |n.router.log|, n.peers[d], Frame(call, args);
    var arrived := CallArrives(w, n, c, d, call, args, failed, result);
    NextAfterOne(n, arrived, d);
    var heard := WithPeer(arrived, d, Serving(service, k, frame, Dispatch));
    Then(w, n, arrived, Hear(d, k, "", true), heard);
    m := Works(w, n, heard, d, service, k, frame, Dispatch, false, []);
  }

  /** Two frames later the second of them is the first unread one. */
  lemma NextAfter(n: Net, written: Net, back: Net, c: nat)
    requires c < |n.peers| && c < |back.peers| && back.peers[c].heard == n.peers[c].heard <= |n.router.log|
    requires forall k :: n.peers[c].heard <= k < |n.router.log| ==> n.router.log[k].sink != c
    requires |written.router.log| == |n.router.log| + 1 && written.router.log[..|n.router.log|] == n.router.log
    requires written.router.log[|n.router.log|].sink != c
    requires |back.router.log| == |written.router.log| + 1
    requires back.router.log[..|written.router.log|] == written.router.log
    requires back.router.log[|written.router.log|].sink == c
    ensures IsNext(back, c, |n.router.log| + 1)
  {
    var a, b, l := n.router.log, written.router.log, back.router.log;
    forall j | n.peers[c].heard <= j < |a| + 1
      ensures l[j].sink != c
    {
      assert l[j] == l[..|b|][j] == b[j];
      if j < |a| {
        assert b[j] == b[..|a|][j];
      }
    }
  }

  // ----- such states are reached

  /** A far end can write this register frame, and the router can read it. */
  predicate CanJoin(w: World, n: Net, register: RegisterBody, env: Envelope, body: Bytes) {
    && |n.peers| == |n.router.conns| && register.peerId !in n.router.peers
    && (forall k :: 0 <= k < |n.router.log| ==> n.router.log[k].sink < |n.router.conns|)
    && env.kind.KindRegister? && env.from == register.peerId && env.to == ROUTER_PEER_ID && env.msgId !in n.used
    && Readable(w, env, body) && w.codec.unpackRegister(body) == Some(register)
  }

  /** A newly opened peer that has written its register frame, at this point of its handling. */
  function Joining(w: World, n: Net, isCaller: bool, register: RegisterBody, env: Envelope, body: Bytes, conn: R.Conn): Net {
    Net(n.router.(conns := n.router.conns + [conn]),
        n.peers + [Peer(isCaller, register.peerId, [Sent(w.encode(env, body), Own)], 0, Registering, false, G.INIT, [], false)],
        n.used + {env.msgId})
  }

  lemma PeerOpens(w: World, n0: Net, n: Net, isCaller: bool, register: RegisterBody, env: Envelope, body: Bytes) returns (m: Net)
    requires Reaches(w, n0, n) && CanJoin(w, n, register, env, body)
    ensures Reaches(w, n0, m)
    ensures m == Joining(w, n, isCaller, register, env, body, R.Conn(R.AwaitRegister, [], None, false))
  {
    var c := |n.peers|;
    var joined := Step(w, n, Open(isCaller, register.peerId)).value;
    Then(w, n0, n, Open(isCaller, register.peerId), joined);
    m := Joining(w, n, isCaller, register, env, body, R.Conn(R.AwaitRegister, [], None, false));
    assert [] + [Sent(w.encode(env, body), Own)] == [Sent(w.encode(env, body), Own)];
    assert joined.peers[c := m.peers[c]] == m.peers;
    Then(w, n0, joined, SendOwn(c, env, body), m);
  }

  /** A step of the joining connection that leaves the registry alone. */
  lemma JoiningMoves(w: World, n0: Net, n: Net, isCaller: bool, register: RegisterBody, env: Envelope, body: Bytes,
                     move: R.Action, conn: R.Conn, next: R.Conn) returns (m: Net)
    requires var before := Joining(w, n, isCaller, register, env, body, conn);
             && |n.peers| == |n.router.conns| && Reaches(w, n0, before) && Arrives(before, move)
             && R.Step(w.codec, before.router, move)
                == Some(before.router.(conns := before.router.conns[|n.router.conns| := next]))
    ensures Reaches(w, n0, m) && m == Joining(w, n, isCaller, register, env, body, next)
  {
    var before, after := Joining(w, n, isCaller, register, env, body, conn), Joining(w, n, isCaller, register, env, body, next);
    assert before.router.conns[|n.router.conns| := next] == after.router.conns;
    m := RouterMoves(w, n0, before, move, after.router);
  }

  lemma RegisterIsTaken(w: World, n0: Net, n: Net, isCaller: bool, register: RegisterBody, env: Envelope, body: Bytes) returns (m: Net)
    requires Reaches(w, n0, n) && CanJoin(w, n, register, env, body)
    ensures Reaches(w, n0, m)
    ensures m == Joining(w, n, isCaller, register, env, body,
                         R.Conn(R.Inserting(env.msgId, register), [R.Binary(w.encode(env, body))], None, false))
  {
    var raw, c := w.encode(env, body), |n.router.conns|;
    m := PeerOpens(w, n0, n, isCaller, register, env, body);
    var waiting := R.Conn(R.AwaitRegister, [], None, false);
    assert [] + [R.Binary(raw)] == [R.Binary(raw)];
    m := JoiningMoves(w, n0, n, isCaller, register, env, body, R.Receive(c, R.Binary(raw), 0), waiting,
                      R.Conn(R.Inserting(env.msgId, register), [R.Binary(raw)], None, false));
  }

  function AckWrite(c: ConnId, register: RegisterBody, env: Envelope): R.Write {
    R.Write(c, c, 0, R.Made(R.RouterEnvelope(KindResponse, env.msgId, register.peerId, 0), AckBody(true)), None)
  }

  /** The router after it has registered and acknowledged one more connection. */
  function WithRegistered(n: Net, register: RegisterBody, env: Envelope, raw: Bytes): R.State {
    var c := |n.router.conns|;
    R.State(n.router.conns + [R.Conn(R.Looping, [R.Binary(raw)], Some(register), false)],
            n.router.peers[register.peerId := PeerRecord(register.peerId, register.peerClass, c, true, 0)],
            n.router.log + [AckWrite(c, register, env)])
  }

  lemma RegisterIsAcked(w: World, n0: Net, n: Net, isCaller: bool, register: RegisterBody, env: Envelope, body: Bytes) returns (m: Net)
    requires Reaches(w, n0, n) && CanJoin(w, n, register, env, body)
    ensures Reaches(w, n0, m)
    ensures m.router == WithRegistered(n, register, env, w.encode(env, body))
    ensures m.used == n.used + {env.msgId}
    ensures m.peers == n.peers + [Peer(isCaller, register.peerId, [Sent(w.encode(env, body), Own)], 0, Registering, false, G.INIT, [], false)]
  {
    var raw, c := w.encode(env, body), |n.router.conns|;
    var taken := RegisterIsTaken(w, n0, n, isCaller, register, env, body);
    var inserted := R.Step(w.codec, taken.router, R.Proceed(c, true, 0)).value;
    m := RouterMoves(w, n0, taken, R.Proceed(c, true, 0), inserted);
    var after := WithRegistered(n, register, env, raw);
    assert R.Step(w.codec, inserted, R.Proceed(c, true, 0)).value.conns == after.conns;
    m := RouterMoves(w, n0, m, R.Proceed(c, true, 0), after);
  }

  /** A far end that can join does: it is registered and at rest, and the others notice nothing. */
  lemma PeerCanJoin(w: World, n0: Net, n: Net, isCaller: bool, register: RegisterBody, env: Envelope, body: Bytes) returns (m: Net)
    requires Reaches(w, n0, n) && CanJoin(w, n, register, env, body)
    ensures Reaches(w, n0, m) && AtRest(m, |n.peers|, register)
    ensures m.router == WithRegistered(n, register, env, w.encode(env, body)) && m.used == n.used + {env.msgId}
    ensures |m.peers| == |n.peers| + 1 && m.peers[..|n.peers|] == n.peers
    ensures var peer := m.peers[|n.peers|];
            && peer.isCaller == isCaller && peer.peerId == register.peerId && !peer.closed && peer.dial.Running?
            && !peer.ready && peer.tasks == [] && Idle(peer.transport) && peer.transport.requests == []
  {
    var c, k := |n.peers|, |n.router.log|;
    var acked := RegisterIsAcked(w, n0, n, isCaller, register, env, body);
    assert IsNext(acked, c, k) by {
      assert forall j :: 0 <= j < k ==> acked.router.log[j] == n.router.log[j];
    }
    m := Step(w, acked, Hear(c, k, "", true)).value;
    Then(w, n0, acked, Hear(c, k, "", true), m);
    assert m.peers[..c] == acked.peers[..c] == n.peers;
  }

  lemma StaysAtRest(n: Net, m: Net, c: nat, register: RegisterBody, other: RegisterBody, env: Envelope, raw: Bytes)
    requires AtRest(n, c, register) && |n.peers| == |n.router.conns| && other.peerId != register.peerId
    requires m.router == WithRegistered(n, other, env, raw) && |m.peers| > |n.peers| && m.peers[..|n.peers|] == n.peers
    ensures AtRest(m, c, register) && m.peers[c] == n.peers[c]
  {
    assert m.peers[c] == m.peers[..|n.peers|][c];
  }

  /** A caller and a service join an empty router. */
  lemma TwoJoin(w: World, caller: RegisterBody, joinCaller: Envelope, callerBody: Bytes,
                service: RegisterBody, joinService: Envelope, serviceBody: Bytes) returns (m: Net)
    requires caller.peerId != service.peerId && joinCaller.msgId != joinService.msgId
    requires CanJoin(w, INIT, caller, joinCaller, callerBody) && CanJoin(w, INIT, service, joinService, serviceBody)
    ensures Reaches(w, INIT, m) && AtRest(m, 0, caller) && AtRest(m, 1, service)
    ensures m.used == {joinCaller.msgId, joinService.msgId}
    ensures CanRun(m.peers[0]) && Idle(m.peers[0].transport) && m.peers[0].transport.requests == []
    ensures CanServe(m.peers[1]) && m.peers[1].peerId == service.peerId && !m.peers[1].ready && m.peers[1].tasks == []
  {
    assert Continue(w, INIT, []) == Some(INIT);
    var one := PeerCanJoin(w, INIT, INIT, true, caller, joinCaller, callerBody);
    assert CanJoin(w, one, service, joinService, serviceBody);
    m := PeerCanJoin(w, INIT, one, false, service, joinService, serviceBody);
    StaysAtRest(one, m, 0, caller, service, joinService, w.encode(joinService, serviceBody));
  }

  /** In this world a caller and a service with these frames can join an empty router, and one call the other. */
  predicate Suits(w: World, caller: RegisterBody, joinCaller: Envelope, callerBody: Bytes,
                  service: RegisterBody, joinService: Envelope, serviceBody: Bytes,
                  call: Envelope, args: Bytes, failed: bool, result: Bytes)
  {
    && caller.peerClass.Caller? && service.peerClass.Service? && caller.peerId != service.peerId
    && CanJoin(w, INIT, caller, joinCaller, callerBody) && CanJoin(w, INIT, service, joinService, serviceBody)
    && joinCaller.msgId != joinService.msgId && call.msgId !in {joinCaller.msgId, joinService.msgId}
    && call.kind.KindCall? && call.from == caller.peerId && call.to == service.peerId
    && Readable(w, call, args) && Readable(w, ReplyEnvelope(call.to, call, failed), result)
  }

  /** From nothing: in every such world two peers join and a call returns its result, or its error. */
  lemma CallFromNothing(w: World, caller: RegisterBody, joinCaller: Envelope, callerBody: Bytes,
                        service: RegisterBody, joinService: Envelope, serviceBody: Bytes,
                        call: Envelope, args: Bytes, failed: bool, result: Bytes) returns (m: Net)
    requires Suits(w, caller, joinCaller, callerBody, service, joinService, serviceBody, call, args, failed, result)
    ensures Reaches(w, INIT, m) && |m.peers| > 0 && |m.peers[0].transport.requests| == 1
    ensures m.peers[0].transport.requests[0].pc
         == G.Returned(ReplyWith(Frame(ReplyEnvelope(call.to, call, failed), result)))
  {
    var two := TwoJoin(w, caller, joinCaller, callerBody, service, joinService, serviceBody);
    var ready := WithPeer(two, 1, two.peers[1].(ready := true));
    Then(w, INIT, two, Assign(1), ready);
    m := CallCanBeAnswered(w, ready, 0, 1, call, args, failed, result);
    ReachesChain(w, INIT, ready, m);
  }

  /** In the same worlds a call that comes too early is lost, although the service is open. */
  lemma CallLostFromNothing(w: World, caller: RegisterBody, joinCaller: Envelope, callerBody: Bytes,
                            service: RegisterBody, joinService: Envelope, serviceBody: Bytes,
                            call: Envelope, args: Bytes, failed: bool, result: Bytes) returns (m: Net)
    requires Suits(w, caller, joinCaller, callerBody, service, joinService, serviceBody, call, args, failed, result)
    ensures Reaches(w, INIT, m) && |m.peers| > 1 && !m.peers[1].closed
    ensures |m.peers[1].tasks| == 1 && m.peers[1].tasks[0].pc.Dropped? && m.peers[1].tasks[0].frame == Frame(call, args)
  {
    var two := TwoJoin(w, caller, joinCaller, callerBody, service, joinService, serviceBody);
    m := CallCanBeLost(w, two, 0, 1, call, args, failed, result);
    ReachesChain(w, INIT, two, m);
  }

  lemma ContinueOne(w: World, n: Net, more: seq<NetAction>, a: NetAction)
    ensures Continue(w, n, more + [a]) ==
            if Continue(w, n, more).None? then None else Step(w, Continue(w, n, more).value, a)
  {
    assert (more + [a])[..|more|] == more;
  }

  lemma OneMoreAlike(w: World, n: Net, m: Net, whole: seq<NetAction>, more: seq<NetAction>, a: NetAction)
    requires Continue(w, n, whole) == Continue(w, m, more)
    ensures Continue(w, n, whole + [a]) == Continue(w, m, more + [a])
  {
    ContinueOne(w, n, whole, a);
    ContinueOne(w, m, more, a);
  }

  lemma {:induction false} ContinueChains(w: World, n: Net, m: Net, first: seq<NetAction>, more: seq<NetAction>)
    requires Continue(w, n, first) == Some(m)
    ensures Continue(w, n, first + more) == Continue(w, m, more)
    decreases |more|
  {
    if more == [] {
      assert first + more == first;
    } else {
      var init, a := more[..|more| - 1], more[|more| - 1];
      assert more == init + [a] && first + more == (first + init) + [a];
      ContinueChains(w, n, m, first, init);
      OneMoreAlike(w, n, m, first + init, init, a);
    }
  }

  lemma ReachesChain(w: World, n: Net, m: Net, l: Net)
    requires Reaches(w, n, m) && Reaches(w, m, l)
    ensures Reaches(w, n, l)
  {
    var first :| Continue(w, n, first) == Some(m);
    var more :| Continue(w, m, more) == Some(l);
    ContinueChains(w, n, m, first, more);
  }
}
