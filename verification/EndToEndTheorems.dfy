/** A request's reply, end to end. */
module EndToEndTheorems {
  import opened Wire
  import opened FrameCodec
  import opened EndToEnd
  import opened EndToEndProofs
  import R = Router
  import RI = RouterInvariants
  import G = GoTransport
  import GT = GoTransportProofs

  /** The id on a written frame. */
  function WriteId(w: World, payload: R.Payload): string {
    match payload
    case Made(env, _) => env.msgId
    case Raw(bytes) => if w.codec.decodeFrame(bytes).Some? then w.codec.decodeFrame(bytes).value.envelope.msgId else ""
  }

  /** The i-th frame of c carries an id of its own rather than a copied one. */
  predicate OwnFrame(n: Net, c: nat, i: nat) {
    IsSent(n, c, i) && !n.peers[c].sent[i].origin.ReplyTo?
  }

  /** Log position k was caused by the i-th frame of c. */
  predicate CausedBy(n: Net, k: nat, c: nat, i: nat) {
    k < |n.router.log| && n.router.log[k].src == c && n.router.log[k].index == i
  }

  /** A written frame carries the id of the frame that caused it, and a forwarded one its very bytes. */
  lemma CauseHasSameId(w: World, n: Net, k: nat)
    requires NetInv(w, n) && k < |n.router.log|
    ensures var x := n.router.log[k];
            && IsSent(n, x.src, x.index)
            && SentOk(w, n, x.src, x.index)
            && EnvOf(w, n, x.src, x.index).msgId == WriteId(w, x.payload)
            && (x.payload.Raw? ==> x.payload.bytes == n.peers[x.src].sent[x.index].bytes)
  {
    var x := n.router.log[k];
    assert RI.WriteOk(w.codec, n.router.conns, x);
    assert IntakeOk(n, x.src);
    assert IsSent(n, x.src, x.index) && SentOk(w, n, x.src, x.index);
    assert n.router.conns[x.src].intake[x.index] == R.Binary(n.peers[x.src].sent[x.index].bytes);
  }

  /** A frame with the id of c's i-th frame was caused by that frame, or by a reply to its forwarding. */
  lemma Classify(w: World, n: Net, c: nat, i: nat, k: nat)
    requires NetInv(w, n) && OwnFrame(n, c, i) && SentOk(w, n, c, i) && k < |n.router.log|
    requires WriteId(w, n.router.log[k].payload) == EnvOf(w, n, c, i).msgId
    ensures var x := n.router.log[k];
            && IsSent(n, x.src, x.index)
            && var origin := n.peers[x.src].sent[x.index].origin;
               if origin.ReplyTo? then CausedBy(n, origin.k, c, i) && CallAt(w, n, x.src, origin.k)
               else CausedBy(n, k, c, i)
  {
    var x := n.router.log[k];
    CauseHasSameId(w, n, k);
    var origin := n.peers[x.src].sent[x.index].origin;
    if origin.ReplyTo? {
      CauseHasSameId(w, n, origin.k);
      var y := n.router.log[origin.k];
      assert SentOk(w, n, y.src, y.index);
      assert !n.peers[y.src].sent[y.index].origin.ReplyTo?;
      assert Distinct(w, n, y.src, y.index, c, i);
    } else {
      assert Distinct(w, n, x.src, x.index, c, i);
    }
  }

  lemma SameCauseSamePosition(w: World, n: Net, j: nat, k: nat, c: nat, i: nat)
    requires NetInv(w, n) && CausedBy(n, j, c, i) && CausedBy(n, k, c, i)
    ensures j == k
  {
  }

  lemma OneFramePerId(w: World, n: Net, c: nat, i: nat, j: nat, k: nat)
    requires NetInv(w, n) && OwnFrame(n, c, i) && SentOk(w, n, c, i)
    requires j < |n.router.log| && k < |n.router.log|
    requires n.router.log[j].sink < |n.peers| && n.peers[n.router.log[j].sink].isCaller
    requires n.router.log[k].sink < |n.peers| && n.peers[n.router.log[k].sink].isCaller
    requires WriteId(w, n.router.log[j].payload) == EnvOf(w, n, c, i).msgId
    requires WriteId(w, n.router.log[k].payload) == EnvOf(w, n, c, i).msgId
    ensures j == k
  {
    var x, y := n.router.log[j], n.router.log[k];
    Classify(w, n, c, i, j);
    Classify(w, n, c, i, k);
    var a, b := n.peers[x.src].sent[x.index].origin, n.peers[y.src].sent[y.index].origin;
    assert SentOk(w, n, x.src, x.index) && SentOk(w, n, y.src, y.index);
    if a.ReplyTo? && b.ReplyTo? {
      SameCauseSamePosition(w, n, a.k, b.k, c, i);
      assert Distinct(w, n, x.src, x.index, y.src, y.index);
      SameCauseSamePosition(w, n, j, k, x.src, x.index);
    } else if a.ReplyTo? {
      // The request itself is the frame on the service's sink, so it is on no caller's.
      SameCauseSamePosition(w, n, a.k, k, c, i);
    } else if b.ReplyTo? {
      SameCauseSamePosition(w, n, b.k, j, c, i);
    } else {
      SameCauseSamePosition(w, n, j, k, c, i);
    }
  }

  /**
    * At most one reply: over all sinks of all callers there is at most one frame with the
    * id of a given request, in every run.
    */
  lemma AtMostOneReply(w: World, run: seq<NetAction>, c: nat, i: nat, j: nat, k: nat)
    requires Exec(w, run).Some? && OwnFrame(Exec(w, run).value, c, i)
    requires var n := Exec(w, run).value;
             && j < |n.router.log| && n.router.log[j].sink < |n.peers| && n.peers[n.router.log[j].sink].isCaller
             && k < |n.router.log| && n.router.log[k].sink < |n.peers| && n.peers[n.router.log[k].sink].isCaller
             && w.codec.decodeFrame(n.peers[c].sent[i].bytes).Some?
             && WriteId(w, n.router.log[j].payload) == EnvOf(w, n, c, i).msgId
             && WriteId(w, n.router.log[k].payload) == EnvOf(w, n, c, i).msgId
    ensures j == k
  {
    RunKeeps(w, run);
    var n := Exec(w, run).value;
    assert SentOk(w, n, c, i);
    OneFramePerId(w, n, c, i, j, k);
  }

  /** The frame at k is the router's own answer to c's i-th frame; to a call it is an error. */
  predicate FromRouter(w: World, n: Net, c: nat, i: nat, k: nat)
    requires IsSent(n, c, i) && w.codec.decodeFrame(n.peers[c].sent[i].bytes).Some?
  {
    && CausedBy(n, k, c, i) && n.router.log[k].sink == c
    && n.router.log[k].payload.Made? && n.router.log[k].payload.env.from == ROUTER_PEER_ID
    && (EnvOf(w, n, c, i).kind.KindCall? ==> n.router.log[k].payload.env.kind.KindError?)
  }

  /**
    * The frame at k is the unchanged reply of the service that received c's i-th frame,
    * itself unchanged, at k0: ends swapped, id and time copied.
    */
  predicate FromService(w: World, n: Net, c: nat, i: nat, k: nat, k0: nat)
    requires IsSent(n, c, i) && w.codec.decodeFrame(n.peers[c].sent[i].bytes).Some?
  {
    && CausedBy(n, k0, c, i)
    && n.router.log[k0].payload == R.Raw(n.peers[c].sent[i].bytes)
    && k < |n.router.log|
    && var t, j := n.router.log[k].src, n.router.log[k].index;
       && n.router.log[k0].sink == t
       && IsSent(n, t, j) && !n.peers[t].isCaller
       && n.peers[t].sent[j].origin.ReplyTo? && n.peers[t].sent[j].origin.k == k0
       && n.router.log[k].payload == R.Raw(n.peers[t].sent[j].bytes)
       && w.codec.decodeFrame(n.peers[t].sent[j].bytes).Some?
       && var request, reply := EnvOf(w, n, c, i), EnvOf(w, n, t, j);
          && (reply.kind.KindResponse? || reply.kind.KindError?) && reply.v == PROTOCOL_VERSION
          && reply.msgId == request.msgId && reply.ts == request.ts
          && reply.from == request.to && reply.to == request.from
  }

  lemma WhereItCameFrom(w: World, n: Net, c: nat, i: nat, k: nat) returns (k0: nat)
    requires NetInv(w, n) && OwnFrame(n, c, i) && SentOk(w, n, c, i)
    requires EnvOf(w, n, c, i).kind.KindCall? || EnvOf(w, n, c, i).kind.KindQuery?
    requires k < |n.router.log| && n.router.log[k].sink == c && n.peers[c].isCaller
    requires WriteId(w, n.router.log[k].payload) == EnvOf(w, n, c, i).msgId
    ensures FromRouter(w, n, c, i, k) || FromService(w, n, c, i, k, k0)
  {
    k0 := 0;
    var x := n.router.log[k];
    Classify(w, n, c, i, k);
    CauseHasSameId(w, n, k);
    assert RI.WriteOk(w.codec, n.router.conns, x);
    assert RI.LandedElsewhere(w.codec, x);
    var origin := n.peers[x.src].sent[x.index].origin;
    if origin.ReplyTo? {
      k0 := origin.k;
      CauseHasSameId(w, n, k0);
      assert RI.WriteOk(w.codec, n.router.conns, n.router.log[k0]);
    } else {
      assert IntakeOk(n, c);
      assert n.router.conns[c].intake[i] == R.Binary(n.peers[c].sent[i].bytes);
    }
  }

  /**
    * Correlation: when a caller's call or query returns a frame, that frame carries the
    * request's id and is either the router's own answer to it or, byte for byte, the reply
    * that the service which received the request's bytes built for it.
    */
  lemma RequestGetsItsOwnReply(w: World, run: seq<NetAction>, c: nat, r: nat) returns (i: nat, k: nat, k0: nat)
    requires Exec(w, run).Some?
    requires var n := Exec(w, run).value;
             && c < |n.peers| && n.peers[c].isCaller && r < |n.peers[c].transport.requests|
             && var q := n.peers[c].transport.requests[r];
                && q.pc.Returned? && q.pc.reply.frame.Some?
                && (q.envelope.kind.KindCall? || q.envelope.kind.KindQuery?)
    ensures var n := Exec(w, run).value;
            var q := n.peers[c].transport.requests[r];
            && IsFrameOf(n, c, i, r)
            && w.codec.decodeFrame(n.peers[c].sent[i].bytes).Some? && EnvOf(w, n, c, i) == q.envelope
            && ArrivedAs(w, n, c, k, q.pc.reply.frame.value)
            && q.pc.reply.frame.value.envelope.msgId == q.envelope.msgId
            && (FromRouter(w, n, c, i, k) || FromService(w, n, c, i, k, k0))
  {
    RunKeeps(w, run);
    var n := Exec(w, run).value;
    var t := n.peers[c].transport;
    assert ClientOk(w, n, c);
    assert GT.RequestOk(t, r);
    var frame := t.requests[r].pc.reply.frame.value;
    assert OnWire(n, c, r);
    i :| IsFrameOf(n, c, i, r);
    assert SentOk(w, n, c, i);
    var at :| 0 <= at < |t.read| && t.read[at] == frame;
    assert OnSink(w, n, c, t.read[at]);
    k :| ArrivedAs(w, n, c, k, frame);
    k0 := WhereItCameFrom(w, n, c, i, k);
  }

  /**
    * One reply per call: whatever fails on the way, no delivered frame is answered by two reply
    * frames, of one service or of several, because each is read once and its goroutine writes at most once.
    */
  lemma SingleReply(w: World, run: seq<NetAction>, c: nat, i: nat, d: nat, j: nat, k: nat)
    requires Exec(w, run).Some? && Replies(Exec(w, run).value, c, i, k) && Replies(Exec(w, run).value, d, j, k)
    ensures c == d && i == j
  {
    RunKeeps(w, run);
    var n := Exec(w, run).value;
    assert Distinct(w, n, c, i, d, j);
  }

  /** The world whose frames are laid out by the frame codec. */
  function LaidOut(c: EnvelopeCodec,
                   unpackRegister: Bytes -> Option<RegisterBody>,
                   unpackQuery: Bytes -> Option<QueryBody>,
                   packBody: RouterBody -> Bytes): World
  {
    World(Codec(raw => DecodeFrame(c, raw), unpackRegister, unpackQuery),
          (env, body) => EncodeFrame(c, env, body),
          packBody)
  }

  /** There, a peer can write exactly the version-5 frames whose envelope length fits in 32 bits. */
  lemma ReadableExactly(c: EnvelopeCodec,
                        unpackRegister: Bytes -> Option<RegisterBody>,
                        unpackQuery: Bytes -> Option<QueryBody>,
                        packBody: RouterBody -> Bytes,
                        env: Envelope, body: Bytes)
    requires RoundTrips(c)
    ensures Readable(LaidOut(c, unpackRegister, unpackQuery, packBody), env, body)
       <==> env.v == PROTOCOL_VERSION && |c.pack(env)| < LENGTH_LIMIT
  {
    RoundTripExact(c, env, body);
  }
}
