/** What the router guarantees in every reachable state, for every decoder and every interleaving. */
module RouterTheorems {
  import opened Wire
  import opened Registry
  import opened Router
  import opened RouterInvariants
  import opened RouterHistory

  /**
    * No stale entry: a record points at the connection that registered that exact id and
    * class and has not finished its final cleanup, and no sink stands under two ids.
    */
  lemma NoStaleEntry(codec: Codec, run: seq<Action>)
    requires Exec(codec, run).Some?
    ensures var s := Exec(codec, run).value;
            && (forall id :: id in s.peers ==>
                  && s.peers[id].sender < |s.conns|
                  && s.conns[s.peers[id].sender].registered == Some(RegisterBody(id, s.peers[id].peerClass))
                  && !s.conns[s.peers[id].sender].pc.Done?)
            && (forall p, q :: p in s.peers && q in s.peers && s.peers[p].sender == s.peers[q].sender ==> p == q)
  {
    RunKeeps(codec, run);
    var s := Exec(codec, run).value;
    forall id | id in s.peers
      ensures RecordOk(s.conns, id, s.peers[id])
    {
    }
  }

  function Taken(conns: seq<Conn>): nat {
    if conns == [] then 0 else Taken(conns[..|conns| - 1]) + |conns[|conns| - 1].intake|
  }

  function Fatal(conns: seq<Conn>): nat {
    if conns == [] then 0 else Fatal(conns[..|conns| - 1]) + (if conns[|conns| - 1].dropped then 1 else 0)
  }

  function InHand(conns: seq<Conn>): nat {
    if conns == [] then 0 else InHand(conns[..|conns| - 1]) + (if Busy(conns[|conns| - 1].pc) then 1 else 0)
  }

  lemma {:induction false} AnsweredIsTheRest(codec: Codec, all: seq<Conn>, conns: seq<Conn>)
    requires forall c :: 0 <= c < |conns| ==> ConnOk(codec, all, conns[c])
    ensures TotalAnswered(conns) + Fatal(conns) + InHand(conns) == Taken(conns)
  {
    if conns != [] {
      var last := |conns| - 1;
      assert ConnOk(codec, all, conns[last]);
      AnsweredIsTheRest(codec, all, conns[..last]);
    }
  }

  /** Conservation: frames written over all sinks are the messages taken, less the fatal ones and those in hand. */
  lemma FramesAreConserved(codec: Codec, run: seq<Action>)
    requires Exec(codec, run).Some?
    ensures var s := Exec(codec, run).value;
            |s.log| + Fatal(s.conns) + InHand(s.conns) == Taken(s.conns)
  {
    RunKeeps(codec, run);
    var s := Exec(codec, run).value;
    AnsweredIsTheRest(codec, s.conns, s.conns);
  }

  /**
    * One in, one out: a message taken by a connection has caused exactly one frame across
    * all sinks, unless it is the last one taken and either still in hand or the one that
    * ended the connection with an error, and then it has caused none.
    */
  lemma OneInOneOut(codec: Codec, run: seq<Action>, c: ConnId, i: nat)
    requires Exec(codec, run).Some?
    requires c < |Exec(codec, run).value.conns| && i < |Exec(codec, run).value.conns[c].intake|
    ensures var s := Exec(codec, run).value;
            var open := i == |s.conns[c].intake| - 1 && (Busy(s.conns[c].pc) || s.conns[c].dropped);
            && (open <==> !HasCaused(s.log, c, i))
            && (forall j: nat, k: nat :: Causes(s.log, j, c, i) && Causes(s.log, k, c, i) ==> j == k)
  {
    RunKeeps(codec, run);
    var s := Exec(codec, run).value;
    assert forall k :: 0 <= k < |s.log| ==> WriteOk(codec, s.conns, s.log[k]);
    assert i < Answered(s.conns[c]) ==> HasCaused(s.log, c, i);
  }

  /** Step i of the run looked up this frame's `to` and found this frame's sink registered under it. */
  predicate FoundAt(codec: Codec, run: seq<Action>, i: nat, w: Write) {
    && i < |run| && LooksUp(StateAt(codec, run, i), run[i], w)
    && w.payload.Raw? && codec.decodeFrame(w.payload.bytes).Some?
    && SenderOf(StateAt(codec, run, i).peers, codec.decodeFrame(w.payload.bytes).value.envelope.to) == Some(w.sink)
  }

  /**
    * Provenance: a forwarded frame is byte for byte one that its source connection took,
    * names that connection's registered id as `from`, and went to the sink that was
    * registered under its `to` at the step of the run that looked it up.
    */
  lemma ForwardedProvenance(codec: Codec, run: seq<Action>, k: nat) returns (i: nat)
    requires Exec(codec, run).Some?
    requires k < |Exec(codec, run).value.log| && Exec(codec, run).value.log[k].payload.Raw?
    ensures var s := Exec(codec, run).value;
            var w := s.log[k];
            && w.src < |s.conns| && w.index < |s.conns[w.src].intake|
            && s.conns[w.src].intake[w.index] == Binary(w.payload.bytes)
            && codec.decodeFrame(w.payload.bytes).Some?
            && var env := codec.decodeFrame(w.payload.bytes).value.envelope;
               && Registered(s.conns, w.src, env.from)
               && Registered(s.conns, w.sink, env.to)
               && FoundAt(codec, run, i, w)
  {
    RunKeeps(codec, run);
    var s := Exec(codec, run).value;
    assert WriteOk(codec, s.conns, s.log[k]);
    i := ForwardWasLookedUp(codec, run, k);
    Along(codec, run, i);
    var before := StateAt(codec, run, i);
    assert ConnOk(codec, before.conns, before.conns[s.log[k].src]);
  }

  /** A frame the router made goes to the sink of the connection it answers, under that message's id and a fitting kind. */
  lemma MadeFramesAnswerTheirSource(codec: Codec, run: seq<Action>, k: nat)
    requires Exec(codec, run).Some?
    requires k < |Exec(codec, run).value.log| && Exec(codec, run).value.log[k].payload.Made?
    ensures var s := Exec(codec, run).value;
            var w := s.log[k];
            && w.sink == w.src && w.src < |s.conns| && w.index < |s.conns[w.src].intake|
            && w.payload.env.from == "router"
            && w.payload.env.msgId == MsgIdOf(codec, s.conns[w.src].intake[w.index])
            && AnswerKind(codec, s.conns[w.src].intake[w.index], w.payload.env.kind)
  {
    RunKeeps(codec, run);
    var s := Exec(codec, run).value;
    assert WriteOk(codec, s.conns, s.log[k]);
  }

  /**
    * Class rules: forwarded calls come from callers, forwarded responses and errors from
    * services. Whoever held the target id when its class was read was of the right
    * class; so with that read and the sender lookup in one step (same holder), no forwarded
    * call reaches a caller and no forwarded error a service.
    */
  lemma ClassRules(codec: Codec, run: seq<Action>, k: nat)
    requires Exec(codec, run).Some?
    requires k < |Exec(codec, run).value.log| && Exec(codec, run).value.log[k].payload.Raw?
    ensures var s := Exec(codec, run).value;
            var w := s.log[k];
            && codec.decodeFrame(w.payload.bytes).Some?
            && var kind := codec.decodeFrame(w.payload.bytes).value.envelope.kind;
               && (kind.KindCall? ==>
                     && OfClass(s.conns, w.src, Caller)
                     && w.seen.Some? && OfClass(s.conns, w.seen.value, Service)
                     && (w.seen.value == w.sink ==> OfClass(s.conns, w.sink, Service)))
               && (kind.KindResponse? || kind.KindError? ==> OfClass(s.conns, w.src, Service))
               && (kind.KindError? ==>
                     && w.seen.Some? && OfClass(s.conns, w.seen.value, Caller)
                     && (w.seen.value == w.sink ==> OfClass(s.conns, w.sink, Caller)))
  {
    RunKeeps(codec, run);
    var s := Exec(codec, run).value;
    assert WriteOk(codec, s.conns, s.log[k]);
  }

  /**
    * The lookup is a second read, and it alone decides: a forwarded frame, a response included, is on
    * a sink of some class exactly when the record found at the lookup was of that class.
    * `RouterRaces.ClassRuleIsLost` and `RouterRaces.ResponseReachesService` are runs that use this.
    */
  lemma MisroutedExactly(codec: Codec, run: seq<Action>, k: nat, peerClass: PeerClass) returns (i: nat)
    requires Exec(codec, run).Some?
    requires k < |Exec(codec, run).value.log| && Exec(codec, run).value.log[k].payload.Raw?
    ensures var s := Exec(codec, run).value;
            var w := s.log[k];
            && FoundAt(codec, run, i, w)
            && var env := codec.decodeFrame(w.payload.bytes).value.envelope;
               OfClass(s.conns, w.sink, peerClass) <==> ClassOf(StateAt(codec, run, i).peers, env.to) == Some(peerClass)
  {
    i := ForwardedProvenance(codec, run, k);
    Along(codec, run, i);
    Along(codec, run, |run|);
    RunLasts(codec, run, i, |run|);
    var w := Exec(codec, run).value.log[k];
    var before := StateAt(codec, run, i);
    var to := codec.decodeFrame(w.payload.bytes).value.envelope.to;
    assert RecordOk(before.conns, to, before.peers[to]);
    assert ConnLasts(before.conns[w.sink], StateAt(codec, run, |run|).conns[w.sink]);
  }

  predicate SameIdSameClass(a: Option<RegisterBody>, b: Option<RegisterBody>) {
    a.Some? && b.Some? && a.value.peerId == b.value.peerId ==> a.value.peerClass == b.value.peerClass
  }

  /** No two connections of the run registered one id under different classes. */
  ghost predicate IdsKeepTheirClass(conns: seq<Conn>) {
    forall a, b :: 0 <= a < |conns| && 0 <= b < |conns| ==> SameIdSameClass(conns[a].registered, conns[b].registered)
  }

  /** Where ids keep their class, no forwarded call reaches a caller and no forwarded error a service. */
  lemma StableIdsKeepClassRules(codec: Codec, run: seq<Action>, k: nat)
    requires Exec(codec, run).Some? && IdsKeepTheirClass(Exec(codec, run).value.conns)
    requires k < |Exec(codec, run).value.log| && Exec(codec, run).value.log[k].payload.Raw?
    requires codec.decodeFrame(Exec(codec, run).value.log[k].payload.bytes).Some?
    ensures var s := Exec(codec, run).value;
            var w := s.log[k];
            var kind := codec.decodeFrame(w.payload.bytes).value.envelope.kind;
            && (kind.KindCall? ==> OfClass(s.conns, w.sink, Service))
            && (kind.KindError? ==> OfClass(s.conns, w.sink, Caller))
  {
    RunKeeps(codec, run);
    var s := Exec(codec, run).value;
    var w := s.log[k];
    assert WriteOk(codec, s.conns, w);
    var env := codec.decodeFrame(w.payload.bytes).value.envelope;
    if env.kind.KindCall? || env.kind.KindError? {
      assert SameIdSameClass(s.conns[w.sink].registered, s.conns[w.seen.value].registered);
    }
  }
}
