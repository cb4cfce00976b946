/** Correlation over whole runs: a request and its reply belong to each other. */
module EndToEndProofs {
  import opened Wire
  import opened EndToEnd
  import R = Router
  import RI = RouterInvariants
  import G = GoTransport
  import GP = GoTransportProofs

  // ----- the invariant

  predicate IsSent(n: Net, c: nat, i: nat) {
    c < |n.peers| && i < |n.peers[c].sent|
  }

  /** The envelope of the i-th frame a peer wrote. */
  function EnvOf(w: World, n: Net, c: nat, i: nat): Envelope
    requires IsSent(n, c, i) && w.codec.decodeFrame(n.peers[c].sent[i].bytes).Some?
  {
    w.codec.decodeFrame(n.peers[c].sent[i].bytes).value.envelope
  }

  /** Log position k holds a call that reached connection c. */
  predicate CallAt(w: World, n: Net, c: nat, k: nat) {
    && k < |n.router.log|
    && n.router.log[k].sink == c
    && n.router.log[k].payload.Raw?
    && w.codec.decodeFrame(n.router.log[k].payload.bytes).Some?
    && w.codec.decodeFrame(n.router.log[k].payload.bytes).value.envelope.kind.KindCall?
  }

  predicate SentOk(w: World, n: Net, c: nat, i: nat)
    requires IsSent(n, c, i)
  {
    var peer, sent := n.peers[c], n.peers[c].sent[i];
    && w.codec.decodeFrame(sent.bytes).Some?
    && match sent.origin
       case Own => EnvOf(w, n, c, i).msgId in n.used
       case FromRequest(r) =>
         && peer.isCaller && r < |peer.transport.requests|
         && EnvOf(w, n, c, i).msgId in n.used
         && EnvOf(w, n, c, i) == peer.transport.requests[r].envelope
       case ReplyTo(k, task) =>
         && !peer.isCaller && CallAt(w, n, c, k)
         && task < |peer.tasks| && peer.tasks[task].k == k && peer.tasks[task].pc.Ended?
         && var call := w.codec.decodeFrame(n.router.log[k].payload.bytes).value.envelope;
            var env := EnvOf(w, n, c, i);
            env == ReplyEnvelope(peer.peerId, call, true) || env == ReplyEnvelope(peer.peerId, call, false)
  }

  /** Frames of a peer's own never share an id; no log position is answered twice. */
  predicate Distinct(w: World, n: Net, c: nat, i: nat, d: nat, j: nat)
    requires IsSent(n, c, i) && w.codec.decodeFrame(n.peers[c].sent[i].bytes).Some?
    requires IsSent(n, d, j) && w.codec.decodeFrame(n.peers[d].sent[j].bytes).Some?
  {
    c != d || i != j ==>
      var a, b := n.peers[c].sent[i].origin, n.peers[d].sent[j].origin;
      && (!a.ReplyTo? && !b.ReplyTo? ==> EnvOf(w, n, c, i).msgId != EnvOf(w, n, d, j).msgId)
      && (a.ReplyTo? && b.ReplyTo? ==> a.k != b.k)
  }

  ghost predicate SentsOk(w: World, n: Net) {
    && (forall c: nat, i: nat :: IsSent(n, c, i) ==> SentOk(w, n, c, i))
    && (forall c: nat, i: nat, d: nat, j: nat :: IsSent(n, c, i) && IsSent(n, d, j) ==> Distinct(w, n, c, i, d, j))
  }

  /** What the router took from a connection is what the far end wrote, in order. */
  predicate IntakeOk(n: Net, c: nat)
    requires c < |n.peers| && c < |n.router.conns|
  {
    && |n.router.conns[c].intake| <= |n.peers[c].sent|
    && forall i :: 0 <= i < |n.router.conns[c].intake| ==>
         n.router.conns[c].intake[i] == R.Binary(n.peers[c].sent[i].bytes)
  }

  predicate ArrivedAs(w: World, n: Net, c: nat, k: nat, frame: Frame) {
    k < |n.router.log| && n.router.log[k].sink == c && FrameOf(w, n.router.log[k].payload) == Some(frame)
  }

  /** Some frame on this connection's sink reads as this one. */
  ghost predicate OnSink(w: World, n: Net, c: nat, frame: Frame) {
    exists k: nat :: ArrivedAs(w, n, c, k, frame)
  }

  /** The request has handed its frame to the socket. */
  predicate HasWritten(pc: G.RequestPc) {
    pc == G.WriteUnlock(None) || pc.Select? || (pc.Returned? && pc.reply.frame.Some?)
  }

  predicate IsFrameOf(n: Net, c: nat, i: nat, r: nat) {
    IsSent(n, c, i) && n.peers[c].sent[i].origin == FromRequest(r)
  }

  ghost predicate OnWire(n: Net, c: nat, r: nat) {
    exists i: nat :: IsFrameOf(n, c, i, r)
  }

  ghost predicate ClientOk(w: World, n: Net, c: nat)
    requires c < |n.peers|
  {
    var t := n.peers[c].transport;
    && GP.Inv(t)
    && (forall j :: 0 <= j < |t.read| ==> OnSink(w, n, c, t.read[j]))
    && (forall r: nat :: r < |t.requests| && HasWritten(t.requests[r].pc) ==> OnWire(n, c, r))
  }

  /** A task past the dispatch handles a call; a reply it holds is the one its call asks for, and can be read back. */
  predicate TaskOk(w: World, n: Net, c: nat, task: Task)
    requires c < |n.peers|
  {
    && task.k < n.peers[c].heard && ArrivedAs(w, n, c, task.k, task.frame)
    && var call := task.frame.envelope;
       match task.pc
       case DecodeCall => call.kind.KindCall?
       case RunHandler => call.kind.KindCall?
       case EncodeResult => call.kind.KindCall?
       case EncodeError => call.kind.KindCall?
       case EncodeReply(reply, _) => call.kind.KindCall? && IsReply(n.peers[c].peerId, call, reply)
       case CheckOpen(reply, body) =>
         call.kind.KindCall? && IsReply(n.peers[c].peerId, call, reply) && Readable(w, reply, body)
       case WriteFrame(reply, body) =>
         call.kind.KindCall? && IsReply(n.peers[c].peerId, call, reply) && Readable(w, reply, body)
       case _ => true
  }

  predicate IsReply(peerId: string, call: Envelope, reply: Envelope) {
    reply == ReplyEnvelope(peerId, call, true) || reply == ReplyEnvelope(peerId, call, false)
  }

  /** Frame j of c is a reply to log position k. */
  predicate Replies(n: Net, c: nat, j: nat, k: nat) {
    IsSent(n, c, j) && n.peers[c].sent[j].origin.ReplyTo? && n.peers[c].sent[j].origin.k == k
  }

  ghost predicate IsAnswered(n: Net, c: nat, k: nat) {
    exists j: nat :: Replies(n, c, j, k)
  }

  /** A goroutine that has ended, or is about to close, has answered its call or leaves the service closed. */
  ghost predicate TaskDone(n: Net, c: nat, task: Task)
    requires c < |n.peers|
  {
    task.pc.Ended? && task.frame.envelope.kind.KindCall? ==> IsAnswered(n, c, task.k) || n.peers[c].closed
  }

  /** Every frame read started one goroutine, in order. */
  ghost predicate TasksOk(w: World, n: Net, c: nat)
    requires c < |n.peers|
  {
    var tasks := n.peers[c].tasks;
    && (forall i :: 0 <= i < |tasks| ==> TaskOk(w, n, c, tasks[i]) && TaskDone(n, c, tasks[i]))
    && (forall i, j :: 0 <= i < j < |tasks| ==> tasks[i].k < tasks[j].k)
  }

  ghost predicate NetInv(w: World, n: Net) {
    && RI.Inv(w.codec, n.router)
    && RI.NothingComesHome(w.codec, n.router)
    && |n.peers| == |n.router.conns|
    && SentsOk(w, n)
    && (forall c :: 0 <= c < |n.peers| ==> IntakeOk(n, c))
    && (forall c :: 0 <= c < |n.peers| ==> ClientOk(w, n, c))
    && (forall c :: 0 <= c < |n.peers| ==> TasksOk(w, n, c))
  }

  // ----- router moves

  lemma RouterEffect(codec: Codec, s: R.State, a: R.Action)
    requires R.Step(codec, s, a).Some? && !a.Accept?
    ensures var t := R.Step(codec, s, a).value;
            && s.log <= t.log && |t.conns| == |s.conns|
            && forall c :: 0 <= c < |s.conns| ==>
                 || t.conns[c].intake == s.conns[c].intake
                 || (&& a.Receive? && c == a.conn && t.conns[c].intake == s.conns[c].intake + [a.message]
                     && (a.message.Binary? || a.message.Text? || s.conns[c].pc.AwaitRegister?))
  {
  }

  lemma TasksOutliveLog(w: World, n: Net, m: Net, c: nat)
    requires c < |n.peers| && TasksOk(w, n, c) && m.peers == n.peers && n.router.log <= m.router.log
    ensures TasksOk(w, m, c)
  {
    var tasks := n.peers[c].tasks;
    forall i | 0 <= i < |tasks|
      ensures TaskOk(w, m, c, tasks[i]) && TaskDone(m, c, tasks[i])
    {
      assert TaskOk(w, n, c, tasks[i]) && TaskDone(n, c, tasks[i]);
      if j: nat :| Replies(n, c, j, tasks[i].k) {
        assert Replies(m, c, j, tasks[i].k);
      }
    }
  }

  /** A longer log changes nothing about what was sent. */
  lemma LogGrows(w: World, n: Net, m: Net)
    requires NetInv(w, n) && m.peers == n.peers && m.used == n.used && n.router.log <= m.router.log
    ensures SentsOk(w, m)
    ensures forall c :: 0 <= c < |m.peers| ==> ClientOk(w, m, c)
  {
    forall c: nat, i: nat | IsSent(m, c, i)
      ensures SentOk(w, m, c, i)
    {
      assert IsSent(n, c, i) && SentOk(w, n, c, i);
    }
    forall c: nat, i: nat, d: nat, j: nat | IsSent(m, c, i) && IsSent(m, d, j)
      ensures Distinct(w, m, c, i, d, j)
    {
      assert IsSent(n, c, i) && IsSent(n, d, j) && Distinct(w, n, c, i, d, j);
    }
    forall c | 0 <= c < |m.peers|
      ensures ClientOk(w, m, c)
    {
      assert ClientOk(w, n, c);
      var t := m.peers[c].transport;
      forall j | 0 <= j < |t.read|
        ensures OnSink(w, m, c, t.read[j])
      {
        var k: nat :| ArrivedAs(w, n, c, k, t.read[j]);
        assert ArrivedAs(w, m, c, k, t.read[j]);
      }
      forall r: nat | r < |t.requests| && HasWritten(t.requests[r].pc)
        ensures OnWire(m, c, r)
      {
        var i: nat :| IsFrameOf(n, c, i, r);
        assert IsFrameOf(m, c, i, r);
      }
    }
  }

  lemma RouterMoveKeeps(w: World, n: Net, move: R.Action)
    requires NetInv(w, n) && Step(w, n, RouterMove(move)).Some?
    ensures NetInv(w, Step(w, n, RouterMove(move)).value)
  {
    var m := Step(w, n, RouterMove(move)).value;
    RI.StepKeeps(w.codec, n.router, move);
    RI.StepKeepsHome(w.codec, n.router, move);
    RouterEffect(w.codec, n.router, move);
    LogGrows(w, n, m);
    forall c | 0 <= c < |m.peers|
      ensures IntakeOk(m, c) && TasksOk(w, m, c)
    {
      assert IntakeOk(n, c);
      TasksOutliveLog(w, n, m, c);
    }
  }

  // ----- moves at the far ends

  /** A peer keeps what it wrote, what it heard, its goroutines and the envelopes of its requests. */
  predicate PeerGrown(a: Peer, b: Peer) {
    && b.isCaller == a.isCaller && b.peerId == a.peerId
    && a.sent <= b.sent && a.heard <= b.heard && (a.closed ==> b.closed)
    && |a.tasks| <= |b.tasks|
    && (forall i :: 0 <= i < |a.tasks| ==>
          b.tasks[i].k == a.tasks[i].k && (a.tasks[i].pc.Ended? ==> b.tasks[i].pc.Ended?))
    && |a.transport.requests| <= |b.transport.requests|
    && forall r :: 0 <= r < |a.transport.requests| ==>
         b.transport.requests[r].envelope == a.transport.requests[r].envelope
  }

  /** The net after connection c's far end has become `peer`. */
  function WithPeer(n: Net, c: nat, peer: Peer, used: set<string>): Net
    requires c < |n.peers|
  {
    n.(peers := n.peers[c := peer], used := used)
  }

  lemma OldSentsKept(w: World, n: Net, c: nat, peer: Peer, used: set<string>)
    requires NetInv(w, n) && c < |n.peers| && PeerGrown(n.peers[c], peer) && n.used <= used
    ensures var m := WithPeer(n, c, peer, used);
            && (forall d: nat, i: nat :: IsSent(n, d, i) ==> IsSent(m, d, i) && SentOk(w, m, d, i))
            && (forall d: nat, i: nat, e: nat, j: nat :: IsSent(n, d, i) && IsSent(n, e, j) ==>
                  IsSent(m, d, i) && IsSent(m, e, j) && Distinct(w, m, d, i, e, j))
  {
    var m := WithPeer(n, c, peer, used);
    forall d: nat, i: nat | IsSent(n, d, i)
      ensures IsSent(m, d, i) && SentOk(w, m, d, i)
    {
      assert SentOk(w, n, d, i);
      assert m.peers[d].sent[i] == n.peers[d].sent[i];
    }
    forall d: nat, i: nat, e: nat, j: nat | IsSent(n, d, i) && IsSent(n, e, j)
      ensures IsSent(m, d, i) && IsSent(m, e, j) && Distinct(w, m, d, i, e, j)
    {
      assert Distinct(w, n, d, i, e, j);
      assert m.peers[d].sent[i] == n.peers[d].sent[i] && m.peers[e].sent[j] == n.peers[e].sent[j];
    }
  }

  /** Nothing new was written. */
  lemma QuietPeer(w: World, n: Net, c: nat, peer: Peer)
    requires NetInv(w, n) && c < |n.peers| && PeerGrown(n.peers[c], peer) && peer.sent == n.peers[c].sent
    ensures SentsOk(w, WithPeer(n, c, peer, n.used))
  {
    var m := WithPeer(n, c, peer, n.used);
    OldSentsKept(w, n, c, peer, n.used);
    assert forall d: nat, i: nat :: IsSent(m, d, i) ==> IsSent(n, d, i);
  }

  /** No reply to this log position has been written. */
  ghost predicate Unanswered(n: Net, k: nat) {
    forall d: nat, i: nat :: IsSent(n, d, i) && n.peers[d].sent[i].origin.ReplyTo? ==> n.peers[d].sent[i].origin.k != k
  }

  /** A goroutine that has not ended has not replied, and no other goroutine has its frame. */
  lemma NotYetAnswered(w: World, n: Net, c: nat, i: nat)
    requires NetInv(w, n) && c < |n.peers| && i < |n.peers[c].tasks| && !n.peers[c].tasks[i].pc.Ended?
    ensures Unanswered(n, n.peers[c].tasks[i].k)
  {
    var k := n.peers[c].tasks[i].k;
    assert TasksOk(w, n, c);
    assert TaskOk(w, n, c, n.peers[c].tasks[i]);
    forall d: nat, j: nat | IsSent(n, d, j) && n.peers[d].sent[j].origin.ReplyTo?
      ensures n.peers[d].sent[j].origin.k != k
    {
      assert SentOk(w, n, d, j);
      var other := n.peers[d].sent[j].origin.task;
      if d == c && other != i {
        assert n.peers[c].tasks[other].k != n.peers[c].tasks[i].k;
      }
    }
  }

  /** One new frame was written, unlike every earlier one. */
  lemma WritingPeer(w: World, n: Net, c: nat, peer: Peer, used: set<string>)
    requires NetInv(w, n) && c < |n.peers| && PeerGrown(n.peers[c], peer) && n.used <= used
    requires |peer.sent| == |n.peers[c].sent| + 1
    requires var m := WithPeer(n, c, peer, used); var last := |peer.sent| - 1;
             && SentOk(w, m, c, last)
             && (var origin := peer.sent[last].origin;
                 if origin.ReplyTo? then Unanswered(n, origin.k) else EnvOf(w, m, c, last).msgId !in n.used)
    ensures SentsOk(w, WithPeer(n, c, peer, used))
  {
    var m, last := WithPeer(n, c, peer, used), |peer.sent| - 1;
    OldSentsKept(w, n, c, peer, used);
    assert forall d: nat, i: nat :: IsSent(m, d, i) ==> IsSent(n, d, i) || (d == c && i == last);
    forall d: nat, i: nat | IsSent(n, d, i)
      ensures SentOk(w, m, d, i) && Distinct(w, m, d, i, c, last) && Distinct(w, m, c, last, d, i)
    {
      assert SentOk(w, n, d, i) && SentOk(w, m, d, i);
      assert m.peers[d].sent[i] == n.peers[d].sent[i];
    }
    forall d: nat, i: nat, e: nat, j: nat | IsSent(m, d, i) && IsSent(m, e, j)
      ensures SentOk(w, m, d, i) && SentOk(w, m, e, j) && Distinct(w, m, d, i, e, j)
    {
    }
  }

  /** The other clients, and the taken frames, do not notice. */
  lemma OthersKept(w: World, n: Net, c: nat, peer: Peer, used: set<string>)
    requires NetInv(w, n) && c < |n.peers| && PeerGrown(n.peers[c], peer) && n.used <= used
    ensures var m := WithPeer(n, c, peer, used);
            && (forall d :: 0 <= d < |m.peers| ==> IntakeOk(m, d))
            && (forall d :: 0 <= d < |m.peers| && d != c ==> ClientOk(w, m, d) && TasksOk(w, m, d))
  {
    var m := WithPeer(n, c, peer, used);
    forall d | 0 <= d < |m.peers|
      ensures IntakeOk(m, d)
    {
      assert IntakeOk(n, d);
    }
    forall d | 0 <= d < |m.peers| && d != c
      ensures ClientOk(w, m, d) && TasksOk(w, m, d)
    {
      assert ClientOk(w, n, d) && TasksOk(w, n, d);
      ClientKept(w, n, d, c, peer, used);
      TasksKept(w, n, d, c, peer, used);
    }
  }

  lemma AnswerKept(n: Net, d: nat, c: nat, peer: Peer, used: set<string>, k: nat)
    requires c < |n.peers| && PeerGrown(n.peers[c], peer) && IsAnswered(n, d, k)
    ensures IsAnswered(WithPeer(n, c, peer, used), d, k)
  {
    var j: nat :| Replies(n, d, j, k);
    assert Replies(WithPeer(n, c, peer, used), d, j, k);
  }

  /** Goroutines that did not move. */
  lemma TaskKept(w: World, n: Net, d: nat, c: nat, peer: Peer, used: set<string>, i: nat)
    requires c < |n.peers| && d < |n.peers| && PeerGrown(n.peers[c], peer) && TasksOk(w, n, d) && i < |n.peers[d].tasks|
    ensures TaskOk(w, WithPeer(n, c, peer, used), d, n.peers[d].tasks[i])
    ensures TaskDone(WithPeer(n, c, peer, used), d, n.peers[d].tasks[i])
  {
    var task := n.peers[d].tasks[i];
    assert TaskOk(w, n, d, task) && TaskDone(n, d, task);
    if IsAnswered(n, d, task.k) {
      AnswerKept(n, d, c, peer, used, task.k);
    }
  }

  lemma TasksKept(w: World, n: Net, d: nat, c: nat, peer: Peer, used: set<string>)
    requires c < |n.peers| && d < |n.peers| && PeerGrown(n.peers[c], peer) && TasksOk(w, n, d)
    requires d == c ==> peer.tasks == n.peers[c].tasks
    ensures TasksOk(w, WithPeer(n, c, peer, used), d)
  {
    var m := WithPeer(n, c, peer, used);
    forall i | 0 <= i < |m.peers[d].tasks|
      ensures TaskOk(w, m, d, m.peers[d].tasks[i]) && TaskDone(m, d, m.peers[d].tasks[i])
    {
      TaskKept(w, n, d, c, peer, used, i);
    }
  }

  /** One goroutine moved, or a new one was started. */
  lemma TasksMoved(w: World, n: Net, c: nat, i: nat, peer: Peer)
    requires NetInv(w, n) && c < |n.peers| && PeerGrown(n.peers[c], peer) && i < |peer.tasks|
    requires i <= |n.peers[c].tasks|
    requires |peer.tasks| == if i < |n.peers[c].tasks| then |n.peers[c].tasks| else i + 1
    requires forall j :: 0 <= j < |peer.tasks| && j != i ==> peer.tasks[j] == n.peers[c].tasks[j]
    requires i == |n.peers[c].tasks| ==> peer.tasks[i].k >= n.peers[c].heard
    requires var m := WithPeer(n, c, peer, n.used); TaskOk(w, m, c, peer.tasks[i]) && TaskDone(m, c, peer.tasks[i])
    ensures TasksOk(w, WithPeer(n, c, peer, n.used), c)
  {
    var m, before := WithPeer(n, c, peer, n.used), n.peers[c].tasks;
    assert TasksOk(w, n, c);
    forall j | 0 <= j < |peer.tasks|
      ensures TaskOk(w, m, c, peer.tasks[j]) && TaskDone(m, c, peer.tasks[j])
    {
      if j != i {
        TaskKept(w, n, c, c, peer, n.used, j);
      }
    }
    forall j, l | 0 <= j < l < |peer.tasks|
      ensures peer.tasks[j].k < peer.tasks[l].k
    {
      assert TaskOk(w, n, c, before[j]);
    }
  }

  /** A step at one far end: it is enough to look at what that end wrote, its transport and its goroutines. */
  lemma PeerStepKeeps(w: World, n: Net, c: nat, peer: Peer, used: set<string>)
    requires NetInv(w, n) && c < |n.peers| && PeerGrown(n.peers[c], peer) && n.used <= used
    requires var m := WithPeer(n, c, peer, used); SentsOk(w, m) && ClientOk(w, m, c) && TasksOk(w, m, c)
    ensures NetInv(w, WithPeer(n, c, peer, used))
  {
    OthersKept(w, n, c, peer, used);
  }

  /** A client whose transport did not move. */
  lemma ClientKept(w: World, n: Net, d: nat, c: nat, peer: Peer, used: set<string>)
    requires c < |n.peers| && d < |n.peers| && PeerGrown(n.peers[c], peer) && ClientOk(w, n, d)
    requires d == c ==> peer.transport == n.peers[c].transport
    ensures ClientOk(w, WithPeer(n, c, peer, used), d)
  {
    var m := WithPeer(n, c, peer, used);
    var t := m.peers[d].transport;
    forall j | 0 <= j < |t.read|
      ensures OnSink(w, m, d, t.read[j])
    {
      var k: nat :| ArrivedAs(w, n, d, k, t.read[j]);
      assert ArrivedAs(w, m, d, k, t.read[j]);
    }
    forall r: nat | r < |t.requests| && HasWritten(t.requests[r].pc)
      ensures OnWire(m, d, r)
    {
      var i: nat :| IsFrameOf(n, d, i, r);
      assert IsFrameOf(m, d, i, r);
    }
  }

  lemma PlainMoveEffect(s: G.State, r: nat, choice: G.Choice)
    requires r < |s.requests| && G.PlainMove(s, r, choice).Some?
    ensures HasWritten(G.PlainMove(s, r, choice).value.0) ==>
              HasWritten(s.requests[r].pc) || (s.requests[r].pc.ConnWrite? && !choice.Fails?)
    ensures !G.PlainMove(s, r, choice).value.0.Returned?
  {
  }

  /** A request's own move leaves the other requests and the frames read alone. */
  lemma RequestEffect(s: G.State, r: nat, choice: G.Choice)
    requires r < |s.requests| && G.RequestMove(s, r, choice).Some?
    ensures var t := G.RequestMove(s, r, choice).value;
            && |t.requests| == |s.requests| && t.read == s.read
            && t.requests[r].envelope == s.requests[r].envelope
            && (forall q :: 0 <= q < |s.requests| && q != r ==> t.requests[q] == s.requests[q])
            && (HasWritten(t.requests[r].pc) ==>
                  HasWritten(s.requests[r].pc) || (s.requests[r].pc.ConnWrite? && !choice.Fails?))
  {
    if G.PlainMove(s, r, choice).Some? {
      PlainMoveEffect(s, r, choice);
    }
  }

  /** What a transport step does to the requests and to the frames read. */
  lemma ClientEffect(s: G.State, step: G.Action)
    requires G.Step(s, step).Some?
    ensures var t := G.Step(s, step).value;
            && |s.requests| <= |t.requests|
            && (forall r :: 0 <= r < |s.requests| ==> t.requests[r].envelope == s.requests[r].envelope)
            && (forall r :: 0 <= r < |t.requests| && HasWritten(t.requests[r].pc) ==>
                  r < |s.requests| && (HasWritten(s.requests[r].pc) || (Writes(s, step) && step.r == r)))
            && t.read == if step.ReadFrame? then s.read + [step.frame] else s.read
  {
    if step.RequestStep? {
      RequestEffect(s, step.r, step.choice);
    }
  }

  lemma SendOwnKeeps(w: World, n: Net, c: nat, env: Envelope, body: Bytes)
    requires NetInv(w, n) && Step(w, n, SendOwn(c, env, body)).Some?
    ensures NetInv(w, Step(w, n, SendOwn(c, env, body)).value)
  {
    var peer := n.peers[c].(sent := n.peers[c].sent + [Sent(w.encode(env, body), Own)]);
    var used := n.used + {env.msgId};
    WritingPeer(w, n, c, peer, used);
    assert ClientOk(w, n, c) && TasksOk(w, n, c);
    ClientKept(w, n, c, c, peer, used);
    TasksKept(w, n, c, c, peer, used);
    PeerStepKeeps(w, n, c, peer, used);
  }

  /** A goroutine's step changes its own peer only. */
  lemma WorkEffect(w: World, n: Net, c: nat, i: nat, fails: bool, body: Bytes)
    requires Step(w, n, Work(c, i, fails, body)).Some?
    ensures c < |n.peers| && i < |n.peers[c].tasks| && !Finished(n.peers[c].tasks[i].pc)
    ensures var m := Step(w, n, Work(c, i, fails, body)).value;
            && c < |m.peers| && m == WithPeer(n, c, m.peers[c], n.used) && PeerGrown(n.peers[c], m.peers[c])
            && m.peers[c].transport == n.peers[c].transport && m.peers[c].heard == n.peers[c].heard
            && var before := n.peers[c].tasks[i];
               m.peers[c].tasks == n.peers[c].tasks[i := before.(pc := NextPc(n.peers[c], before, fails, body))]
    ensures !(n.peers[c].tasks[i].pc.WriteFrame? && !fails) ==>
              Step(w, n, Work(c, i, fails, body)).value.peers[c].sent == n.peers[c].sent
  {
  }

  /** It also keeps what is known of the goroutine. */
  lemma TaskNext(w: World, n: Net, c: nat, i: nat, fails: bool, body: Bytes)
    requires Step(w, n, Work(c, i, fails, body)).Some?
    requires c < |n.peers| && i < |n.peers[c].tasks| && TaskOk(w, n, c, n.peers[c].tasks[i])
    ensures var m := Step(w, n, Work(c, i, fails, body)).value;
            c < |m.peers| && i < |m.peers[c].tasks| && TaskOk(w, m, c, m.peers[c].tasks[i])
  {
    WorkEffect(w, n, c, i, fails, body);
  }

  /** Only a call is ever replied to: the router itself makes none. */
  lemma TaskIsCall(w: World, n: Net, c: nat, i: nat)
    requires NetInv(w, n) && c < |n.peers| && i < |n.peers[c].tasks| && n.peers[c].tasks[i].pc.WriteFrame?
    ensures CallAt(w, n, c, n.peers[c].tasks[i].k)
    ensures w.codec.decodeFrame(n.router.log[n.peers[c].tasks[i].k].payload.bytes) == Some(n.peers[c].tasks[i].frame)
  {
    assert TasksOk(w, n, c);
    assert TaskOk(w, n, c, n.peers[c].tasks[i]);
    assert RI.WriteOk(w.codec, n.router.conns, n.router.log[n.peers[c].tasks[i].k]);
  }

  lemma TaskEnds(w: World, n: Net, c: nat, i: nat, fails: bool, body: Bytes)
    requires NetInv(w, n) && Step(w, n, Work(c, i, fails, body)).Some?
    ensures var m := Step(w, n, Work(c, i, fails, body)).value;
            i < |m.peers[c].tasks| && TaskDone(m, c, m.peers[c].tasks[i])
  {
    var m, task := Step(w, n, Work(c, i, fails, body)).value, n.peers[c].tasks[i];
    if task.pc.WriteFrame? && !fails {
      assert Replies(m, c, |n.peers[c].sent|, task.k);
    }
  }

  lemma ReplyKeeps(w: World, n: Net, c: nat, i: nat, body: Bytes)
    requires NetInv(w, n) && Step(w, n, Work(c, i, false, body)).Some? && n.peers[c].tasks[i].pc.WriteFrame?
    ensures SentsOk(w, Step(w, n, Work(c, i, false, body)).value)
  {
    var m := Step(w, n, Work(c, i, false, body)).value;
    var task := n.peers[c].tasks[i];
    WorkEffect(w, n, c, i, false, body);
    TaskIsCall(w, n, c, i);
    NotYetAnswered(w, n, c, i);
    assert TaskOk(w, n, c, task) by { assert TasksOk(w, n, c); }
    assert CallAt(w, m, c, task.k);
    WritingPeer(w, n, c, m.peers[c], n.used);
  }

  lemma WorkKeeps(w: World, n: Net, c: nat, i: nat, fails: bool, body: Bytes)
    requires NetInv(w, n) && Step(w, n, Work(c, i, fails, body)).Some?
    ensures NetInv(w, Step(w, n, Work(c, i, fails, body)).value)
  {
    var peer := Step(w, n, Work(c, i, fails, body)).value.peers[c];
    WorkEffect(w, n, c, i, fails, body);
    assert TaskOk(w, n, c, n.peers[c].tasks[i]) by { assert TasksOk(w, n, c); }
    TaskNext(w, n, c, i, fails, body);
    TaskEnds(w, n, c, i, fails, body);
    if n.peers[c].tasks[i].pc.WriteFrame? && !fails {
      ReplyKeeps(w, n, c, i, body);
    } else {
      QuietPeer(w, n, c, peer);
    }
    assert ClientOk(w, n, c);
    ClientKept(w, n, c, c, peer, n.used);
    TasksMoved(w, n, c, i, peer);
    PeerStepKeeps(w, n, c, peer, n.used);
  }

  /** A service's read loop takes a frame. */
  lemma ServiceHears(w: World, n: Net, c: nat, k: nat, wireErr: G.Failure, accepted: bool)
    requires NetInv(w, n) && Step(w, n, Hear(c, k, wireErr, accepted)).Some?
    requires !n.peers[c].isCaller && n.peers[c].dial.Running?
    ensures NetInv(w, Step(w, n, Hear(c, k, wireErr, accepted)).value)
  {
    var m := Step(w, n, Hear(c, k, wireErr, accepted)).value;
    var peer := m.peers[c];
    assert m == WithPeer(n, c, peer, n.used);
    QuietPeer(w, n, c, peer);
    assert ClientOk(w, n, c);
    ClientKept(w, n, c, c, peer, n.used);
    TasksMoved(w, n, c, |n.peers[c].tasks|, peer);
    PeerStepKeeps(w, n, c, peer, n.used);
  }

  /** A far end changes in nothing that was written, read by a transport or dispatched. */
  lemma AsidePeerKeeps(w: World, n: Net, c: nat, peer: Peer)
    requires NetInv(w, n) && c < |n.peers| && PeerGrown(n.peers[c], peer)
    requires peer.sent == n.peers[c].sent && peer.transport == n.peers[c].transport && peer.tasks == n.peers[c].tasks
    ensures NetInv(w, WithPeer(n, c, peer, n.used))
  {
    assert ClientOk(w, n, c) && TasksOk(w, n, c);
    QuietPeer(w, n, c, peer);
    ClientKept(w, n, c, c, peer, n.used);
    TasksKept(w, n, c, c, peer, n.used);
    PeerStepKeeps(w, n, c, peer, n.used);
  }

  /** The dial takes its one frame. */
  lemma DialHears(w: World, n: Net, c: nat, k: nat, wireErr: G.Failure, accepted: bool)
    requires NetInv(w, n) && Step(w, n, Hear(c, k, wireErr, accepted)).Some? && n.peers[c].dial.Registering?
    ensures NetInv(w, Step(w, n, Hear(c, k, wireErr, accepted)).value)
  {
    var m := Step(w, n, Hear(c, k, wireErr, accepted)).value;
    assert m == WithPeer(n, c, m.peers[c], n.used);
    AsidePeerKeeps(w, n, c, m.peers[c]);
  }

  /** A caller's read loop takes a frame. */
  lemma CallerHears(w: World, n: Net, c: nat, k: nat, wireErr: G.Failure, accepted: bool)
    requires NetInv(w, n) && Step(w, n, Hear(c, k, wireErr, accepted)).Some?
    requires n.peers[c].isCaller && n.peers[c].dial.Running?
    ensures NetInv(w, Step(w, n, Hear(c, k, wireErr, accepted)).value)
  {
    var m := Step(w, n, Hear(c, k, wireErr, accepted)).value;
    var step := G.ReadFrame(FrameOf(w, n.router.log[k].payload).value, wireErr);
    assert m == WithPeer(n, c, m.peers[c], n.used);
    ReadKeeps(w, n, c, k, step, m.peers[c]);
  }

  lemma ReadKeeps(w: World, n: Net, c: nat, k: nat, step: G.Action, peer: Peer)
    requires NetInv(w, n) && c < |n.peers| && step.ReadFrame? && ArrivedAs(w, n, c, k, step.frame)
    requires n.peers[c].heard <= k && G.Step(n.peers[c].transport, step) == Some(peer.transport)
    requires peer == n.peers[c].(heard := k + 1, transport := peer.transport)
    ensures NetInv(w, WithPeer(n, c, peer, n.used))
  {
    assert ClientOk(w, n, c) && TasksOk(w, n, c);
    ReadGrows(n.peers[c], step, peer);
    ClientHeard(w, n, c, k, step, peer);
    QuietPeer(w, n, c, peer);
    TasksKept(w, n, c, c, peer, n.used);
    PeerStepKeeps(w, n, c, peer, n.used);
  }

  lemma ReadGrows(before: Peer, step: G.Action, peer: Peer)
    requires step.ReadFrame? && G.Step(before.transport, step) == Some(peer.transport)
    requires before.heard <= peer.heard && peer == before.(heard := peer.heard, transport := peer.transport)
    ensures PeerGrown(before, peer)
  {
    ClientEffect(before.transport, step);
  }

  lemma ClientHeard(w: World, n: Net, c: nat, k: nat, step: G.Action, peer: Peer)
    requires c < |n.peers| && ClientOk(w, n, c) && step.ReadFrame? && ArrivedAs(w, n, c, k, step.frame)
    requires G.Step(n.peers[c].transport, step) == Some(peer.transport) && peer.sent == n.peers[c].sent
    ensures ClientOk(w, WithPeer(n, c, peer, n.used), c)
  {
    var before, m := n.peers[c], WithPeer(n, c, peer, n.used);
    GP.StepKeeps(before.transport, step);
    ClientEffect(before.transport, step);
    forall j | 0 <= j < |peer.transport.read|
      ensures OnSink(w, m, c, peer.transport.read[j])
    {
      if j < |before.transport.read| {
        var at: nat :| ArrivedAs(w, n, c, at, before.transport.read[j]);
        assert ArrivedAs(w, m, c, at, peer.transport.read[j]);
      } else {
        assert ArrivedAs(w, m, c, k, step.frame);
      }
    }
    forall r: nat | r < |peer.transport.requests| && HasWritten(peer.transport.requests[r].pc)
      ensures OnWire(m, c, r)
    {
      var i: nat :| IsFrameOf(n, c, i, r);
      assert IsFrameOf(m, c, i, r);
    }
  }

  /** The client side of a step that is not a read: earlier frames stay on the wire, and a written one is there. */
  lemma ClientMoved(w: World, n: Net, c: nat, step: G.Action, peer: Peer, used: set<string>)
    requires c < |n.peers| && ClientOk(w, n, c) && !step.ReadFrame?
    requires G.Step(n.peers[c].transport, step) == Some(peer.transport)
    requires n.peers[c].sent <= peer.sent
    requires Writes(n.peers[c].transport, step) ==>
               |peer.sent| == |n.peers[c].sent| + 1 && peer.sent[|peer.sent| - 1].origin == FromRequest(step.r)
    ensures ClientOk(w, WithPeer(n, c, peer, used), c)
  {
    var before, m := n.peers[c].transport, WithPeer(n, c, peer, used);
    GP.StepKeeps(before, step);
    ClientEffect(before, step);
    forall j | 0 <= j < |peer.transport.read|
      ensures OnSink(w, m, c, peer.transport.read[j])
    {
      var at: nat :| ArrivedAs(w, n, c, at, before.read[j]);
      assert ArrivedAs(w, m, c, at, peer.transport.read[j]);
    }
    forall r: nat | r < |peer.transport.requests| && HasWritten(peer.transport.requests[r].pc)
      ensures OnWire(m, c, r)
    {
      if HasWritten(before.requests[r].pc) {
        var i: nat :| IsFrameOf(n, c, i, r);
        assert IsFrameOf(m, c, i, r);
      } else {
        assert IsFrameOf(m, c, |peer.sent| - 1, r);
      }
    }
  }

  lemma ClientKeeps(w: World, n: Net, c: nat, step: G.Action)
    requires NetInv(w, n) && Step(w, n, Client(c, step)).Some?
    ensures NetInv(w, Step(w, n, Client(c, step)).value)
  {
    var before := n.peers[c];
    assert ClientOk(w, n, c) && TasksOk(w, n, c);
    ClientEffect(before.transport, step);
    var moved := before.(transport := G.Step(before.transport, step).value);
    if Writes(before.transport, step) {
      var q := before.transport.requests[step.r];
      var peer := moved.(sent := before.sent + [Sent(w.encode(q.envelope, q.body), FromRequest(step.r))]);
      var used := n.used + {q.envelope.msgId};
      WritingPeer(w, n, c, peer, used);
      ClientMoved(w, n, c, step, peer, used);
      TasksKept(w, n, c, c, peer, used);
      PeerStepKeeps(w, n, c, peer, used);
    } else {
      QuietPeer(w, n, c, moved);
      ClientMoved(w, n, c, step, moved, n.used);
      TasksKept(w, n, c, c, moved, n.used);
      PeerStepKeeps(w, n, c, moved, n.used);
    }
  }

  lemma TasksStay(w: World, n: Net, m: Net, c: nat)
    requires c < |n.peers| && TasksOk(w, n, c) && |n.peers| <= |m.peers| && m.peers[c] == n.peers[c]
    requires m.router.log == n.router.log
    ensures TasksOk(w, m, c)
  {
    var tasks := n.peers[c].tasks;
    forall i | 0 <= i < |tasks|
      ensures TaskOk(w, m, c, tasks[i]) && TaskDone(m, c, tasks[i])
    {
      assert TaskOk(w, n, c, tasks[i]) && TaskDone(n, c, tasks[i]);
      if j: nat :| Replies(n, c, j, tasks[i].k) {
        assert Replies(m, c, j, tasks[i].k);
      }
    }
  }

  lemma ClientStays(w: World, n: Net, m: Net, c: nat)
    requires c < |n.peers| && ClientOk(w, n, c) && |n.peers| <= |m.peers| && m.peers[c] == n.peers[c]
    requires m.router.log == n.router.log
    ensures ClientOk(w, m, c)
  {
    var t := n.peers[c].transport;
    forall j | 0 <= j < |t.read|
      ensures OnSink(w, m, c, t.read[j])
    {
      var k: nat :| ArrivedAs(w, n, c, k, t.read[j]);
      assert ArrivedAs(w, m, c, k, t.read[j]);
    }
    forall r: nat | r < |t.requests| && HasWritten(t.requests[r].pc)
      ensures OnWire(m, c, r)
    {
      var i: nat :| IsFrameOf(n, c, i, r);
      assert IsFrameOf(m, c, i, r);
    }
  }

  lemma OpenKeeps(w: World, n: Net, isCaller: bool, peerId: string)
    requires NetInv(w, n)
    ensures Step(w, n, Open(isCaller, peerId)).Some? && NetInv(w, Step(w, n, Open(isCaller, peerId)).value)
  {
    RI.StepKeeps(w.codec, n.router, R.Accept);
    RI.StepKeepsHome(w.codec, n.router, R.Accept);
    var m := Step(w, n, Open(isCaller, peerId)).value;
    assert forall c: nat, i: nat :: IsSent(m, c, i) ==> IsSent(n, c, i);
    forall c: nat, i: nat | IsSent(m, c, i)
      ensures SentOk(w, m, c, i)
    {
      assert SentOk(w, n, c, i);
    }
    forall c: nat, i: nat, d: nat, j: nat | IsSent(m, c, i) && IsSent(m, d, j)
      ensures Distinct(w, m, c, i, d, j)
    {
      assert Distinct(w, n, c, i, d, j);
    }
    forall c | 0 <= c < |m.peers|
      ensures IntakeOk(m, c) && ClientOk(w, m, c) && TasksOk(w, m, c)
    {
      if c < |n.peers| {
        assert IntakeOk(n, c) && ClientOk(w, n, c) && TasksOk(w, n, c);
        TasksStay(w, n, m, c);
        ClientStays(w, n, m, c);
      }
    }
  }

  lemma StepKeeps(w: World, n: Net, a: NetAction)
    requires NetInv(w, n) && Step(w, n, a).Some?
    ensures NetInv(w, Step(w, n, a).value)
  {
    match a
    case Open(isCaller, peerId) => OpenKeeps(w, n, isCaller, peerId);
    case SendOwn(c, env, body) => SendOwnKeeps(w, n, c, env, body);
    case Client(c, step) => ClientKeeps(w, n, c, step);
    case Hear(c, k, wireErr, accepted) =>
      if n.peers[c].dial.Registering? {
        DialHears(w, n, c, k, wireErr, accepted);
      } else if n.peers[c].isCaller {
        CallerHears(w, n, c, k, wireErr, accepted);
      } else {
        ServiceHears(w, n, c, k, wireErr, accepted);
      }
    case Assign(c) => AsidePeerKeeps(w, n, c, n.peers[c].(ready := true));
    case Work(c, i, fails, body) => WorkKeeps(w, n, c, i, fails, body);
    case Shut(c) => AsidePeerKeeps(w, n, c, n.peers[c].(closed := true));
    case RouterMove(move) => RouterMoveKeeps(w, n, move);
  }

  lemma {:induction false} RunKeeps(w: World, run: seq<NetAction>)
    requires Exec(w, run).Some?
    ensures NetInv(w, Exec(w, run).value)
  {
    if run != [] {
      RunKeeps(w, run[..|run| - 1]);
      StepKeeps(w, Exec(w, run[..|run| - 1]).value, run[|run| - 1]);
    }
  }
}
