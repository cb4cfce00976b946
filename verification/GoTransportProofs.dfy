/** What every interleaving of requesters, reader and closer keeps in the Go transport. */
module GoTransportProofs {
  import opened Wire
  import opened GoTransport

  // ----- the invariant

  /** A reply that carries something: never the zero frame with a nil error. */
  predicate Nonzero(reply: Reply) {
    reply.frame.Some? || reply.err.Some?
  }

  /** A frame handed to a request carries its id, was read from the socket, and comes with an error exactly if it is one. */
  predicate ReplyFor(read: seq<Frame>, q: Request, reply: Reply) {
    && Nonzero(reply)
    && (reply.frame.Some? ==>
          && reply.frame.value.envelope.msgId == q.envelope.msgId && reply.frame.value in read
          && (reply.err.Some? <==> reply.frame.value.envelope.kind.KindError?))
  }

  predicate HoldsWriteLock(pc: RequestPc) {
    pc.WriteRecheck? || pc.ConnWrite? || pc.WriteClose? || pc.WriteUnlock?
  }

  predicate BeforeInsert(pc: RequestPc) {
    pc.CheckClosed? || pc.InsertPending?
  }

  /** A waiting request's channel is never closed empty; what it holds is a reply for that request. */
  predicate ChanOk(s: State, ch: nat)
    requires ch < |s.chans|
  {
    var chan := s.chans[ch];
    && chan.owner < |s.requests|
    && s.requests[chan.owner].ch == Some(ch)
    && |chan.buf| <= 1
    && (chan.buf != [] ==> ReplyFor(s.read, s.requests[chan.owner], chan.buf[0]))
    && (!s.requests[chan.owner].pc.Returned? && chan.buf == [] ==> !chan.closed)
  }

  predicate RequestOk(s: State, r: nat)
    requires r < |s.requests|
  {
    var q := s.requests[r];
    && (BeforeInsert(q.pc) ==> q.ch.None?)
    && (!BeforeInsert(q.pc) && !q.pc.Returned? ==> q.ch.Some?)
    && (q.ch.Some? ==> q.ch.value < |s.chans| && s.chans[q.ch.value].owner == r)
    && (q.pc.Returned? ==> ReplyFor(s.read, q, q.pc.reply))
    && (HoldsWriteLock(q.pc) <==> s.writeMu == Some(r))
  }

  /** An entry of the pending map: an open, empty channel of a request with that id that has not returned. */
  predicate EntryOk(s: State, m: string)
    requires m in s.pending
  {
    var ch := s.pending[m];
    && ch < |s.chans|
    && s.chans[ch].buf == []
    && !s.chans[ch].closed
    && s.chans[ch].owner < |s.requests|
    && s.requests[s.chans[ch].owner].envelope.msgId == m
    && !s.requests[s.chans[ch].owner].pc.Returned?
  }

  predicate ReaderOk(s: State) {
    match s.reader
    case SendReply(ch, reply) =>
      && ch < |s.chans| && s.chans[ch].buf == [] && !s.chans[ch].closed
      && ch !in s.pending.Values
      && s.chans[ch].owner < |s.requests| && ReplyFor(s.read, s.requests[s.chans[ch].owner], reply)
    case CloseReply(ch) =>
      && ch < |s.chans| && !s.chans[ch].closed
      && ch !in s.pending.Values
      && s.chans[ch].owner < |s.requests|
      && (s.chans[ch].buf == [] ==> s.requests[s.chans[ch].owner].pc.Returned?)
    case _ => true
  }

  predicate OnceOk(s: State) {
    && (s.closed <==> s.once.Finished? || (s.once.Running? && (s.once.stage.CancelAll? || s.once.stage.CloseConn?)))
    && (s.once.Running? && s.once.closer.ByReader? ==> s.reader.ReaderClose?)
    && (s.once.Running? && s.once.closer.ByRequest? ==>
          s.once.closer.r < |s.requests| && s.requests[s.once.closer.r].pc.WriteClose?)
    && (s.writeMu.Some? ==> s.writeMu.value < |s.requests|)
  }

  ghost predicate Inv(s: State) {
    && !s.panicked
    && (forall m :: m in s.pending ==> EntryOk(s, m))
    && (forall ch :: 0 <= ch < |s.chans| ==> ChanOk(s, ch))
    && (forall r :: 0 <= r < |s.requests| ==> RequestOk(s, r))
    && ReaderOk(s)
    && OnceOk(s)
  }

  // ----- each step keeps it

  /** The three families of facts, read off the state before, to be re-established on the state after. */
  lemma Facts(s: State)
    requires Inv(s)
    ensures forall m {:trigger s.pending[m]} :: m in s.pending ==> EntryOk(s, m)
    ensures forall ch {:trigger s.chans[ch]} :: 0 <= ch < |s.chans| ==> ChanOk(s, ch)
    ensures forall r {:trigger s.requests[r]} :: 0 <= r < |s.requests| ==> RequestOk(s, r)
  {
  }

  lemma BeginKeeps(s: State, a: Action)
    requires Inv(s) && a.Begin?
    ensures Inv(Step(s, a).value)
  {
    Facts(s);
  }

  /** The request moves on, takes the write lock or gives it back, touching no channel and no entry. */
  predicate MovesOn(s: State, r: nat, pc: RequestPc, mu: Option<nat>)
    requires r < |s.requests|
  {
    var before := s.requests[r].pc;
    && !before.Returned? && !pc.Returned?
    && (BeforeInsert(pc) <==> BeforeInsert(before))
    && (s.once.Running? && s.once.closer == ByRequest(r) ==> pc.WriteClose?)
    && (if HoldsWriteLock(before) == HoldsWriteLock(pc) then mu == s.writeMu
        else if HoldsWriteLock(pc) then s.writeMu.None? && mu == Some(r)
        else mu.None?)
  }

  lemma MovesOnRequests(s: State, r: nat, pc: RequestPc, mu: Option<nat>)
    requires Inv(s) && r < |s.requests| && MovesOn(s, r, pc, mu)
    ensures var t := SetPc(s.(writeMu := mu), r, pc); forall q :: 0 <= q < |t.requests| ==> RequestOk(t, q)
  {
    Facts(s);
  }

  lemma PcChangeKeeps(s: State, r: nat, pc: RequestPc, mu: Option<nat>)
    requires Inv(s) && r < |s.requests| && MovesOn(s, r, pc, mu)
    ensures Inv(SetPc(s.(writeMu := mu), r, pc))
  {
    MovesOnRequests(s, r, pc, mu);
    Facts(s);
  }

  lemma PlainMoveKeeps(s: State, r: nat, choice: Choice)
    requires Inv(s) && r < |s.requests| && PlainMove(s, r, choice).Some?
    ensures var (pc, mu) := PlainMove(s, r, choice).value;
            Inv(SetPc(s.(writeMu := mu), r, pc))
  {
    assert RequestOk(s, r);
    var (pc, mu) := PlainMove(s, r, choice).value;
    PcChangeKeeps(s, r, pc, mu);
  }

  lemma InsertKeepsRequests(s: State, r: nat)
    requires Inv(s) && r < |s.requests| && s.requests[r].pc.InsertPending?
    ensures var t := InsertMove(s, r); forall q :: 0 <= q < |t.requests| ==> RequestOk(t, q)
  {
    Facts(s);
  }

  lemma InsertKeepsChans(s: State, r: nat)
    requires Inv(s) && r < |s.requests| && s.requests[r].pc.InsertPending?
    ensures var t := InsertMove(s, r); forall ch :: 0 <= ch < |t.chans| ==> ChanOk(t, ch)
  {
    Facts(s);
  }

  lemma InsertKeepsEntries(s: State, r: nat)
    requires Inv(s) && r < |s.requests| && s.requests[r].pc.InsertPending?
    ensures var t := InsertMove(s, r); forall m :: m in t.pending ==> EntryOk(t, m)
  {
    Facts(s);
  }

  lemma InsertKeeps(s: State, r: nat)
    requires Inv(s) && r < |s.requests| && s.requests[r].pc.InsertPending?
    ensures Inv(InsertMove(s, r))
  {
    InsertKeepsRequests(s, r);
    InsertKeepsChans(s, r);
    InsertKeepsEntries(s, r);
    var t := InsertMove(s, r);
    forall i | i in t.pending.Values
      ensures i in s.pending.Values || i == |s.chans|
    {
      var m :| m in t.pending && t.pending[m] == i;
      assert m in s.pending || m == s.requests[r].envelope.msgId;
    }
  }

  lemma RemoveKeeps(s: State, r: nat)
    requires Inv(s) && r < |s.requests| && s.requests[r].pc.RemovePending?
    ensures Inv(RemoveMove(s, r, s.requests[r].pc.err))
  {
    Facts(s);
  }

  lemma TakeKeepsRequests(s: State, r: nat)
    requires Inv(s) && r < |s.requests| && s.requests[r].pc.Select? && TakeMove(s, r).Some?
    ensures var t := TakeMove(s, r).value; forall q :: 0 <= q < |t.requests| ==> RequestOk(t, q)
  {
    Facts(s);
  }

  lemma TakeKeepsChans(s: State, r: nat)
    requires Inv(s) && r < |s.requests| && s.requests[r].pc.Select? && TakeMove(s, r).Some?
    ensures var t := TakeMove(s, r).value; forall ch :: 0 <= ch < |t.chans| ==> ChanOk(t, ch)
  {
    Facts(s);
  }

  lemma TakeKeeps(s: State, r: nat)
    requires Inv(s) && r < |s.requests| && s.requests[r].pc.Select? && TakeMove(s, r).Some?
    ensures Inv(TakeMove(s, r).value)
  {
    TakeKeepsRequests(s, r);
    TakeKeepsChans(s, r);
    Facts(s);
  }

  /** A return before any entry was made, and the step that starts the close after a failed write. */
  lemma EdgeMovesKeep(s: State, r: nat, choice: Choice)
    requires Inv(s) && r < |s.requests|
    requires var pc := s.requests[r].pc; (pc.CheckClosed? && s.closed) || (pc.WriteClose? && s.once.NotYet?)
    ensures Inv(RequestMove(s, r, choice).value)
  {
    Facts(s);
  }

  lemma ReadKeeps(s: State, frame: Frame, wireErr: Failure)
    requires Inv(s) && s.reader.Reading?
    ensures Inv(ReadOne(s, frame, wireErr))
  {
    Facts(s);
  }

  lemma ReaderSends(s: State)
    requires Inv(s) && s.reader.SendReply? && ReaderMove(s).Some?
    ensures Inv(ReaderMove(s).value)
  {
    Facts(s);
  }

  lemma ReaderCloses(s: State)
    requires Inv(s) && s.reader.CloseReply? && ReaderMove(s).Some?
    ensures Inv(ReaderMove(s).value)
  {
    Facts(s);
  }

  lemma ReaderKeeps(s: State)
    requires Inv(s) && ReaderMove(s).Some?
    ensures Inv(ReaderMove(s).value)
  {
    if s.reader.SendReply? {
      ReaderSends(s);
    } else if s.reader.CloseReply? {
      ReaderCloses(s);
    } else {
      Facts(s);
    }
  }

  lemma CancelKeeps(s: State)
    requires Inv(s) && s.once.Running? && s.once.stage.CancelAll?
    ensures Inv(CloseMove(s).value)
  {
    Facts(s);
    assert !ClosesTwice(s.chans, s.pending);
  }

  lemma CloseKeeps(s: State)
    requires Inv(s) && CloseMove(s).Some?
    ensures Inv(CloseMove(s).value)
  {
    if s.once.stage.CancelAll? {
      CancelKeeps(s);
    } else {
      Facts(s);
    }
  }

  lemma RequestKeeps(s: State, r: nat, choice: Choice)
    requires Inv(s) && r < |s.requests| && RequestMove(s, r, choice).Some?
    ensures Inv(RequestMove(s, r, choice).value)
  {
    var pc := s.requests[r].pc;
    if (pc.CheckClosed? && s.closed) || (pc.WriteClose? && s.once.NotYet?) {
      EdgeMovesKeep(s, r, choice);
    } else if pc.InsertPending? {
      InsertKeeps(s, r);
    } else if pc.RemovePending? {
      RemoveKeeps(s, r);
    } else if pc.Select? && choice.TakeReply? {
      TakeKeeps(s, r);
    } else {
      PlainMoveKeeps(s, r, choice);
    }
  }

  lemma StepKeeps(s: State, a: Action)
    requires Inv(s) && Step(s, a).Some?
    ensures Inv(Step(s, a).value)
  {
    match a
    case Begin(_, _) => BeginKeeps(s, a);
    case RequestStep(r, choice) => RequestKeeps(s, r, choice);
    case ReadFrame(frame, wireErr) => ReadKeeps(s, frame, wireErr);
    case ReadFails(_) => Facts(s);
    case ReaderStep => ReaderKeeps(s);
    case OtherClose(_) => Facts(s);
    case CloseStep => CloseKeeps(s);
  }

  lemma {:induction false} RunKeeps(run: seq<Action>)
    requires Exec(run).Some?
    ensures Inv(Exec(run).value)
  {
    if run != [] {
      RunKeeps(run[..|run| - 1]);
      StepKeeps(Exec(run[..|run| - 1]).value, run[|run| - 1]);
    }
  }

  // ----- what it gives

  /**
    * Reply channels, in every interleaving and even with repeated ids: a channel still in the
    * map is open and empty, no channel is sent to after its close or closed twice, and the
    * reader's send finds room.
    */
  lemma ChannelsAreSafe(run: seq<Action>)
    requires Exec(run).Some?
    ensures var s := Exec(run).value;
            && !s.panicked
            && (forall m :: m in s.pending ==>
                  s.pending[m] < |s.chans| && s.chans[s.pending[m]].buf == [] && !s.chans[s.pending[m]].closed)
            && (s.reader.SendReply? ==>
                  && Step(s, ReaderStep).Some?
                  && Step(s, ReaderStep).value.reader == CloseReply(s.reader.ch)
                  && Step(s, ReaderStep).value.chans[s.reader.ch].buf == [s.reader.reply])
  {
    RunKeeps(run);
    var s := Exec(run).value;
    Facts(s);
  }

  /**
    * What a request returns: never the zero frame with a nil error, and a returned frame was
    * read from the socket, carries the request's own id and comes with an error exactly if it is an error frame.
    */
  lemma ReturnsAreSound(run: seq<Action>, r: nat)
    requires Exec(run).Some? && r < |Exec(run).value.requests| && Exec(run).value.requests[r].pc.Returned?
    ensures var s := Exec(run).value;
            var reply := s.requests[r].pc.reply;
            && (reply.frame.Some? || reply.err.Some?)
            && (reply.frame.Some? ==>
                  && reply.frame.value in s.read && reply.frame.value.envelope.msgId == s.requests[r].envelope.msgId
                  && (reply.err.Some? <==> reply.frame.value.envelope.kind.KindError?))
  {
    RunKeeps(run);
    assert RequestOk(Exec(run).value, r);
  }

  predicate OnlyRequestWithItsId(s: State, r: nat) {
    r < |s.requests|
    && forall q :: 0 <= q < |s.requests| && s.requests[q].envelope.msgId == s.requests[r].envelope.msgId ==> q == r
  }

  /** Leak freedom: however a request returned, an id of its own is no longer in the map. */
  lemma NoLeak(run: seq<Action>, r: nat)
    requires Exec(run).Some? && OnlyRequestWithItsId(Exec(run).value, r)
    requires Exec(run).value.requests[r].pc.Returned?
    ensures Exec(run).value.requests[r].envelope.msgId !in Exec(run).value.pending
  {
    RunKeeps(run);
    Facts(Exec(run).value);
  }

  // ----- after the close

  /** Anything but new requests, frames and close orders; a failed write and a cancelled context are among them. */
  predicate Internal(a: Action) {
    a.RequestStep? || a.ReaderStep? || a.CloseStep?
  }

  /** What the transport does of its own accord: nothing fails and no caller's context ends. */
  predicate Own(a: Action) {
    || (a.RequestStep? && (a.choice.Plain? || a.choice.TakeReply? || a.choice.SeeClosed?))
    || a.ReaderStep?
    || a.CloseStep?
  }

  function PcRank(pc: RequestPc): nat {
    match pc
    case CheckClosed => 11
    case InsertPending => 10
    case EncodeFrame => 9
    case WriteCheck => 8
    case WriteLock => 7
    case WriteRecheck => 6
    case ConnWrite => 5
    case WriteClose(_) => 4
    case WriteUnlock(_) => 3
    case Select => 2
    case RemovePending(_) => 1
    case Returned(_) => 0
  }

  function RequestsRank(requests: seq<Request>): nat {
    if requests == [] then 0
    else RequestsRank(requests[..|requests| - 1]) + PcRank(requests[|requests| - 1].pc)
  }

  function ReaderRank(reader: ReaderPc): nat {
    match reader
    case SendReply(_, _) => 2
    case CloseReply(_) => 1
    case ReaderClose(_) => 1
    case Reading => 0
    case ReaderDone => 0
  }

  function OnceRank(once: Once): nat {
    match once
    case NotYet => 5
    case Running(_, StoreErr, _) => 4
    case Running(_, CloseFlag, _) => 3
    case Running(_, CancelAll, _) => 2
    case Running(_, CloseConn, _) => 1
    case Finished => 0
  }

  function Rank(s: State): nat {
    RequestsRank(s.requests) + ReaderRank(s.reader) + OnceRank(s.once)
  }

  lemma {:induction false} RankUpdate(requests: seq<Request>, r: nat, q: Request)
    requires r < |requests|
    ensures RequestsRank(requests[r := q]) == RequestsRank(requests) - PcRank(requests[r].pc) + PcRank(q.pc)
  {
    var last := |requests| - 1;
    if r < last {
      RankUpdate(requests[..last], r, q);
      assert requests[r := q][..last] == requests[..last][r := q];
    } else {
      assert requests[r := q][..last] == requests[..last];
    }
  }

  lemma PcDescends(s: State, t: State, r: nat, q: Request)
    requires r < |s.requests| && t.requests == s.requests[r := q]
    requires t.reader == s.reader && t.once == s.once
    requires PcRank(q.pc) < PcRank(s.requests[r].pc)
    ensures Rank(t) < Rank(s)
  {
    RankUpdate(s.requests, r, q);
  }

  lemma PlainMoveDescends(s: State, r: nat, choice: Choice)
    requires r < |s.requests| && PlainMove(s, r, choice).Some?
    ensures PcRank(PlainMove(s, r, choice).value.0) < PcRank(s.requests[r].pc)
  {
  }

  lemma RequestDescends(s: State, r: nat, choice: Choice)
    requires r < |s.requests| && RequestMove(s, r, choice).Some?
    ensures Rank(RequestMove(s, r, choice).value) < Rank(s)
  {
    var t := RequestMove(s, r, choice).value;
    var q := s.requests[r];
    if q.pc.InsertPending? {
      PcDescends(s, t, r, q.(pc := EncodeFrame, ch := Some(|s.chans|)));
    } else if !(q.pc.WriteClose? && s.once.NotYet?) {
      if PlainMove(s, r, choice).Some? {
        PlainMoveDescends(s, r, choice);
      }
      PcDescends(s, t, r, q.(pc := t.requests[r].pc));
    }
  }

  lemma InternalStepsDescend(s: State, a: Action)
    requires Inv(s) && Internal(a) && Step(s, a).Some?
    ensures Rank(Step(s, a).value) < Rank(s)
  {
    match a
    case RequestStep(r, choice) => RequestDescends(s, r, choice);
    case ReaderStep => Facts(s);
    case CloseStep =>
  }

  /** The request waits in its select, no reply has come and the transport is open. */
  predicate AwaitsReply(s: State, r: nat)
    requires r < |s.requests|
  {
    && s.requests[r].pc.Select? && !s.closed
    && s.requests[r].ch.Some? && s.requests[r].ch.value < |s.chans|
    && s.chans[s.requests[r].ch.value] == Chan([], false, r)
  }

  /** The request itself moves, or the holder of the write lock it waits for, or the close either of them waits for. */
  predicate MovesFor(s: State, r: nat, a: Action)
    requires r < |s.requests|
  {
    var pc := s.requests[r].pc;
    var blocked := pc.WriteLock? && s.writeMu.Some? && s.writeMu.value < |s.requests|;
    || (a.RequestStep? && a.r == r)
    || (blocked && a == RequestStep(s.writeMu.value, Plain))
    || (a == CloseStep && (pc.WriteClose? || (blocked && s.requests[s.writeMu.value].pc.WriteClose?)))
  }

  /** A request that has not returned and is not waiting for a reply can move of its own accord, or what it waits for can. */
  lemma SomeoneMoves(s: State, r: nat) returns (a: Action)
    requires Inv(s) && r < |s.requests| && !s.requests[r].pc.Returned? && !AwaitsReply(s, r)
    ensures Own(a) && Step(s, a).Some? && MovesFor(s, r, a)
  {
    Facts(s);
    var waiting := s.requests[r].pc;
    if waiting.Select? {
      a := RequestStep(r, if s.closed then SeeClosed else TakeReply);
    } else if waiting.WriteClose? && s.once.Running? {
      a := CloseStep;
    } else if waiting.WriteLock? && s.writeMu.Some? {
      var holder := s.writeMu.value;
      assert RequestOk(s, holder);
      a := if s.requests[holder].pc.WriteClose? && s.once.Running? then CloseStep else RequestStep(holder, Plain);
    } else {
      a := RequestStep(r, Plain);
    }
  }

  function Continue(s: State, more: seq<Action>): Option<State>
    decreases |more|
  {
    if more == [] then Some(s)
    else
      match Step(s, more[0])
      case None => None
      case Some(t) => Continue(t, more[1..])
  }

  /**
    * Once the transport is closed a waiting request needs two steps of its own to return an error with
    * its entry gone, however late that entry was made and whether or not a reply is there as well.
    */
  lemma ClosedWakesWaiters(run: seq<Action>, r: nat)
    requires Exec(run).Some? && Exec(run).value.closed
    requires r < |Exec(run).value.requests| && Exec(run).value.requests[r].pc.Select?
    ensures var after := Continue(Exec(run).value, [RequestStep(r, SeeClosed), RequestStep(r, Plain)]);
            && after.Some? && r < |after.value.requests|
            && after.value.requests[r].pc.Returned? && after.value.requests[r].pc.reply.err.Some?
            && after.value.requests[r].envelope.msgId !in after.value.pending
  {
    var s := Exec(run).value;
    var two := [RequestStep(r, SeeClosed), RequestStep(r, Plain)];
    var t := Step(s, two[0]).value;
    assert two[1..] == [two[1]] && two[1..][1..] == [];
    assert Continue(t, two[1..]) == Continue(Step(t, two[1]).value, []);
  }

  lemma {:induction false} InternalRunsAreShort(s: State, more: seq<Action>)
    requires Inv(s) && Continue(s, more).Some? && forall i :: 0 <= i < |more| ==> Internal(more[i])
    ensures Inv(Continue(s, more).value)
    ensures |more| + Rank(Continue(s, more).value) <= Rank(s)
    decreases |more|
  {
    if more != [] {
      StepKeeps(s, more[0]);
      InternalStepsDescend(s, more[0]);
      InternalRunsAreShort(Step(s, more[0]).value, more[1..]);
    }
  }

  /** Nothing moves of its own accord any more. */
  ghost predicate Stuck(s: State) {
    forall a :: Own(a) ==> Step(s, a).None?
  }

  /** Where the transport's own steps end, the requests that have not returned are exactly those that still await a reply. */
  lemma StuckExactly(run: seq<Action>, r: nat)
    requires Exec(run).Some? && Stuck(Exec(run).value) && r < |Exec(run).value.requests|
    ensures !Exec(run).value.requests[r].pc.Returned? <==> AwaitsReply(Exec(run).value, r)
  {
    RunKeeps(run);
    var s := Exec(run).value;
    if !s.requests[r].pc.Returned? && !AwaitsReply(s, r) {
      var a := SomeoneMoves(s, r);
      assert false;
    }
  }

  lemma {:induction false} ClosedStaysClosed(s: State, more: seq<Action>)
    requires s.closed && Continue(s, more).Some?
    ensures Continue(s, more).value.closed
    decreases |more|
  {
    if more != [] {
      ClosedStaysClosed(Step(s, more[0]).value, more[1..]);
    }
  }

  /**
    * After the close every run without new orders is finite, whatever fails in it, and where the
    * transport's own steps can go no further every request has returned, under any context.
    */
  lemma ClosedTransportDrains(run: seq<Action>, more: seq<Action>)
    requires Exec(run).Some? && Exec(run).value.closed
    requires forall i :: 0 <= i < |more| ==> Internal(more[i])
    requires Continue(Exec(run).value, more).Some?
    ensures |more| <= Rank(Exec(run).value)
    ensures var t := Continue(Exec(run).value, more).value;
            Stuck(t) ==> forall r :: 0 <= r < |t.requests| ==> t.requests[r].pc.Returned?
  {
    RunKeeps(run);
    var s := Exec(run).value;
    InternalRunsAreShort(s, more);
    ClosedStaysClosed(s, more);
    var t := Continue(s, more).value;
    if Stuck(t) {
      forall r | 0 <= r < |t.requests|
        ensures t.requests[r].pc.Returned?
      {
        if !t.requests[r].pc.Returned? {
          var a := SomeoneMoves(t, r);
          assert false;
        }
      }
    }
  }

  // ----- a reply reaches its request

  ghost predicate SharesId(s: State, r: nat)
    requires r < |s.requests|
  {
    exists q :: 0 <= q < |s.requests| && q != r && s.requests[q].envelope.msgId == s.requests[r].envelope.msgId
  }

  /** The request's channel holds a reply, is in the map under its id, or is in the reader's hand. */
  predicate Known(s: State, r: nat)
    requires r < |s.requests|
  {
    var q := s.requests[r];
    && q.ch.Some? && q.ch.value < |s.chans|
    && (|| s.chans[q.ch.value].buf != []
        || (q.envelope.msgId in s.pending && s.pending[q.envelope.msgId] == q.ch.value)
        || (s.reader.SendReply? && s.reader.ch == q.ch.value))
  }

  /** A request that has made its entry and not returned is known, unless it shares its id. */
  ghost predicate Tracked(s: State, r: nat)
    requires r < |s.requests|
  {
    s.requests[r].ch.Some? && !s.requests[r].pc.Returned? ==> Known(s, r) || SharesId(s, r)
  }

  /** Requests only come and keep their ids. */
  predicate SameIds(s: State, t: State) {
    && |s.requests| <= |t.requests|
    && forall q :: 0 <= q < |s.requests| ==> t.requests[q].envelope.msgId == s.requests[q].envelope.msgId
  }

  lemma SharingLasts(s: State, t: State, r: nat)
    requires SameIds(s, t) && r < |s.requests| && SharesId(s, r)
    ensures SharesId(t, r)
  {
    var q :| 0 <= q < |s.requests| && q != r && s.requests[q].envelope.msgId == s.requests[r].envelope.msgId;
    assert t.requests[q].envelope.msgId == t.requests[r].envelope.msgId;
  }

  lemma MoveKeepsIds(s: State, q: nat, choice: Choice)
    requires q < |s.requests| && RequestMove(s, q, choice).Some?
    ensures SameIds(s, RequestMove(s, q, choice).value)
  {
  }

  /** A request that inserts or removes an entry touches only its own id. */
  lemma EntryTracks(s: State, q: nat, choice: Choice, r: nat)
    requires Inv(s) && q < |s.requests| && r < |s.requests| && Tracked(s, r) && !SharesId(s, r)
    requires s.requests[q].pc.InsertPending? || s.requests[q].pc.RemovePending?
    ensures Tracked(RequestMove(s, q, choice).value, r)
  {
    assert RequestOk(s, r) && RequestOk(s, q);
    if q != r {
      assert s.requests[q].envelope.msgId != s.requests[r].envelope.msgId;
    }
  }

  /** A request that takes a reply takes it from its own channel. */
  lemma TakeTracks(s: State, q: nat, r: nat)
    requires Inv(s) && q < |s.requests| && r < |s.requests| && Tracked(s, r) && !SharesId(s, r) && TakeMove(s, q).Some?
    ensures r < |TakeMove(s, q).value.requests| && Tracked(TakeMove(s, q).value, r)
  {
    assert RequestOk(s, r) && RequestOk(s, q);
  }

  /** Any other move touches no channel and no entry. */
  lemma OtherTracks(s: State, q: nat, choice: Choice, r: nat)
    requires q < |s.requests| && r < |s.requests| && Tracked(s, r) && !SharesId(s, r) && RequestMove(s, q, choice).Some?
    requires RequestOk(s, r)
    requires !s.requests[q].pc.InsertPending? && !s.requests[q].pc.RemovePending?
    requires !(s.requests[q].pc.Select? && choice.TakeReply?)
    ensures Tracked(RequestMove(s, q, choice).value, r)
  {
  }

  lemma MoveTracks(s: State, q: nat, choice: Choice, r: nat)
    requires Inv(s) && q < |s.requests| && r < |s.requests| && RequestMove(s, q, choice).Some? && Tracked(s, r)
    ensures r < |RequestMove(s, q, choice).value.requests| && Tracked(RequestMove(s, q, choice).value, r)
  {
    MoveKeepsIds(s, q, choice);
    if SharesId(s, r) {
      SharingLasts(s, RequestMove(s, q, choice).value, r);
    } else if s.requests[q].pc.InsertPending? || s.requests[q].pc.RemovePending? {
      EntryTracks(s, q, choice, r);
    } else if s.requests[q].pc.Select? && choice.TakeReply? {
      TakeTracks(s, q, r);
    } else {
      assert RequestOk(s, r);
      OtherTracks(s, q, choice, r);
    }
  }

  lemma ReadKeepsIds(s: State, a: Action)
    requires (a.ReadFrame? || a.ReadFails?) && Step(s, a).Some?
    ensures SameIds(s, Step(s, a).value)
  {
  }

  lemma ReadTracks(s: State, a: Action, r: nat)
    requires Inv(s) && (a.ReadFrame? || a.ReadFails?) && Step(s, a).Some? && r < |s.requests| && Tracked(s, r)
    ensures SameIds(s, Step(s, a).value) && Tracked(Step(s, a).value, r)
  {
    ReadKeepsIds(s, a);
    if SharesId(s, r) {
      SharingLasts(s, Step(s, a).value, r);
    } else {
      assert RequestOk(s, r);
    }
  }

  lemma ReaderTracks(s: State, r: nat)
    requires Inv(s) && ReaderMove(s).Some? && r < |s.requests| && Tracked(s, r)
    ensures SameIds(s, ReaderMove(s).value) && Tracked(ReaderMove(s).value, r)
  {
    assert RequestOk(s, r);
    if SharesId(s, r) {
      SharingLasts(s, ReaderMove(s).value, r);
    }
  }

  lemma CloseTracks(s: State, a: Action, r: nat)
    requires Inv(s) && (a.CloseStep? || a.OtherClose?) && Step(s, a).Some? && r < |s.requests| && Tracked(s, r)
    ensures SameIds(s, Step(s, a).value) && Tracked(Step(s, a).value, r)
  {
    assert RequestOk(s, r);
    if SharesId(s, r) {
      SharingLasts(s, Step(s, a).value, r);
    }
  }

  lemma BeginTracks(s: State, a: Action, r: nat)
    requires Inv(s) && a.Begin? && r < |Step(s, a).value.requests| && (r < |s.requests| ==> Tracked(s, r))
    ensures Tracked(Step(s, a).value, r)
  {
    if r < |s.requests| && SharesId(s, r) {
      SharingLasts(s, Step(s, a).value, r);
    }
  }

  lemma {:induction false} RunTracks(run: seq<Action>, r: nat)
    requires Exec(run).Some? && r < |Exec(run).value.requests|
    ensures Tracked(Exec(run).value, r)
  {
    var init, a := run[..|run| - 1], run[|run| - 1];
    var s := Exec(init).value;
    RunKeeps(init);
    if r < |s.requests| {
      RunTracks(init, r);
    }
    if a.Begin? {
      BeginTracks(s, a, r);
    } else if a.RequestStep? {
      MoveTracks(s, a.r, a.choice, r);
    } else if a.CloseStep? || a.OtherClose? {
      CloseTracks(s, a, r);
    } else if a.ReaderStep? {
      ReaderTracks(s, r);
    } else {
      ReadTracks(s, a, r);
    }
  }

  /** Three steps from a known, waiting request to its return. */
  lemma ReplyPassesThrough(s: State, r: nat, frame: Frame, wireErr: Failure)
    requires s.reader.Reading? && r < |s.requests| && AwaitsReply(s, r)
    requires frame.envelope.msgId in s.pending && s.requests[r].ch == Some(s.pending[frame.envelope.msgId])
    ensures var reply := Reply(Some(frame), if frame.envelope.kind.KindError? then Some(wireErr) else None);
            var t := Step(s, ReadFrame(frame, wireErr)).value;
            && Step(s, ReadFrame(frame, wireErr)).Some? && Step(t, ReaderStep).Some?
            && var u := Step(t, ReaderStep).value;
               && Step(u, RequestStep(r, TakeReply)).Some?
               && Step(u, RequestStep(r, TakeReply)).value.requests == s.requests[r := s.requests[r].(pc := Returned(reply))]
  {
    var reply := Reply(Some(frame), if frame.envelope.kind.KindError? then Some(wireErr) else None);
    var u := Step(Step(s, ReadFrame(frame, wireErr)).value, ReaderStep).value;
    assert u.chans[s.requests[r].ch.value].buf == [reply];
  }

  lemma ContinueThree(s: State, a: Action, b: Action, c: Action)
    requires Step(s, a).Some? && Step(Step(s, a).value, b).Some?
    ensures Continue(s, [a, b, c]) == Step(Step(Step(s, a).value, b).value, c)
  {
    var t := Step(s, a).value;
    var u := Step(t, b).value;
    assert [a, b, c][1..] == [b, c] && [b, c][1..] == [c] && [c][1..] == [];
    assert Continue(s, [a, b, c]) == Continue(t, [b, c]) == Continue(u, [c]);
    if Step(u, c).Some? {
      assert Continue(u, [c]) == Continue(Step(u, c).value, []);
    }
  }

  /**
    * A reply is returned: while the reader reads, a frame for a request with an id of its own that awaits a
    * reply is returned by it, and nothing else returns, after reading, passing on and taking it; with an
    * error exactly if it is an error frame.
    */
  lemma ReplyIsReturned(run: seq<Action>, r: nat, frame: Frame, wireErr: Failure)
    requires Exec(run).Some? && Exec(run).value.reader.Reading?
    requires OnlyRequestWithItsId(Exec(run).value, r) && AwaitsReply(Exec(run).value, r)
    requires frame.envelope.msgId == Exec(run).value.requests[r].envelope.msgId
    ensures var s := Exec(run).value;
            var reply := Reply(Some(frame), if frame.envelope.kind.KindError? then Some(wireErr) else None);
            var after := Continue(s, [ReadFrame(frame, wireErr), ReaderStep, RequestStep(r, TakeReply)]);
            after.Some? && after.value.requests == s.requests[r := s.requests[r].(pc := Returned(reply))]
  {
    RunTracks(run, r);
    var s := Exec(run).value;
    assert !SharesId(s, r);
    ReplyPassesThrough(s, r, frame, wireErr);
    ContinueThree(s, ReadFrame(frame, wireErr), ReaderStep, RequestStep(r, TakeReply));
  }

  // ----- which errors come out

  /** The errors that request r met by itself in this run: of its encoding or its write, or of its context. */
  function OwnErrors(run: seq<Action>, r: nat): (errs: set<Failure>) {
    if run == [] then {}
    else
      var a := run[|run| - 1];
      OwnErrors(run[..|run| - 1], r)
      + if a.RequestStep? && a.r == r && a.choice.Fails? then {a.choice.err}
        else if a.RequestStep? && a.r == r && a.choice.ContextDone? then {"context done"}
        else {}
  }

  /** The error everyone gets from a closed transport: the one it was closed with, or the stock one. */
  predicate IsCloseError(s: State, e: Failure) {
    s.closed && e == if s.closeErr.Some? then s.closeErr.value else "transport closed"
  }

  /** An error on its way out of r was met by r itself or is the close error. */
  predicate Earned(s: State, own: set<Failure>, e: Failure) {
    e in own || IsCloseError(s, e)
  }

  predicate ErrorsOk(s: State, r: nat, own: set<Failure>)
    requires r < |s.requests|
  {
    var q := s.requests[r];
    && (q.pc.WriteClose? ==> q.pc.cause in own)
    && (q.pc.WriteUnlock? && q.pc.failed.Some? ==> s.closed && Earned(s, own, q.pc.failed.value))
    && (q.pc.RemovePending? ==> Earned(s, own, q.pc.err))
    && (q.pc.Returned? && q.pc.reply.frame.None? && q.pc.reply.err.Some? ==> Earned(s, own, q.pc.reply.err.value))
    && (q.ch.Some? && q.ch.value < |s.chans| && s.chans[q.ch.value].buf != [] ==>
          var reply := s.chans[q.ch.value].buf[0];
          reply.frame.None? && reply.err.Some? ==> IsCloseError(s, reply.err.value))
  }

  /** A close in progress has stored its error, and the reader's hand holds a frame. */
  predicate CloseOk(s: State) {
    && (s.once.Running? && !s.once.stage.StoreErr? && s.once.err.Some? ==> s.closeErr == s.once.err)
    && (s.reader.SendReply? ==> s.reader.reply.frame.Some?)
  }

  lemma CloseOkStep(s: State, a: Action)
    requires Inv(s) && CloseOk(s) && Step(s, a).Some?
    ensures CloseOk(Step(s, a).value)
  {
    if a.RequestStep? {
      RequestKeepsClose(s, a.r, a.choice);
    }
  }

  lemma RequestKeepsClose(s: State, r: nat, choice: Choice)
    requires r < |s.requests| && RequestMove(s, r, choice).Some? && CloseOk(s)
    ensures CloseOk(RequestMove(s, r, choice).value)
    ensures RequestMove(s, r, choice).value.closed == s.closed && RequestMove(s, r, choice).value.closeErr == s.closeErr
  {
  }

  /** Once closed, the close error stays. */
  lemma CloseErrorLasts(s: State, a: Action)
    requires Inv(s) && Step(s, a).Some? && s.closed
    ensures Step(s, a).value.closed && Step(s, a).value.closeErr == s.closeErr
  {
    if a.RequestStep? && a.r < |s.requests| {
      assert RequestOk(s, a.r);
    }
  }

  /** The next place of a request that neither inserts, removes, takes nor starts a close. */
  lemma PlainMoveErrors(s: State, r: nat, choice: Choice, own: set<Failure>, more: set<Failure>)
    requires Inv(s) && r < |s.requests| && PlainMove(s, r, choice).Some? && ErrorsOk(s, r, own) && own <= more
    requires choice.Fails? ==> choice.err in more
    requires choice.ContextDone? ==> "context done" in more
    ensures ErrorsOk(SetPc(s.(writeMu := PlainMove(s, r, choice).value.1), r, PlainMove(s, r, choice).value.0), r, more)
  {
  }

  lemma TakeErrors(s: State, r: nat, own: set<Failure>, more: set<Failure>)
    requires Inv(s) && r < |s.requests| && TakeMove(s, r).Some? && ErrorsOk(s, r, own) && own <= more
    ensures r < |TakeMove(s, r).value.requests| && ErrorsOk(TakeMove(s, r).value, r, more)
  {
    assert RequestOk(s, r);
    assert ChanOk(s, s.requests[r].ch.value);
  }

  lemma OwnMoveErrors(s: State, r: nat, choice: Choice, own: set<Failure>, more: set<Failure>)
    requires Inv(s) && r < |s.requests| && RequestMove(s, r, choice).Some? && ErrorsOk(s, r, own) && own <= more
    requires choice.Fails? ==> choice.err in more
    requires choice.ContextDone? ==> "context done" in more
    ensures r < |RequestMove(s, r, choice).value.requests| && ErrorsOk(RequestMove(s, r, choice).value, r, more)
  {
    var pc := s.requests[r].pc;
    if pc.Select? && choice.TakeReply? {
      TakeErrors(s, r, own, more);
    } else if PlainMove(s, r, choice).Some? {
      PlainMoveErrors(s, r, choice, own, more);
    }
  }

  /** A move of another request leaves r, its channel and the close error alone. */
  lemma OtherMoveAside(s: State, q: nat, choice: Choice, r: nat)
    requires Inv(s) && q < |s.requests| && r < |s.requests| && q != r && RequestMove(s, q, choice).Some?
    ensures var t := RequestMove(s, q, choice).value;
            && r < |t.requests| && t.requests[r] == s.requests[r]
            && |s.chans| <= |t.chans|
            && (s.requests[r].ch.Some? ==>
                  var ch := s.requests[r].ch.value;
                  ch < |s.chans| && t.chans[ch] == s.chans[ch])
  {
    assert RequestOk(s, r) && RequestOk(s, q);
  }

  lemma OtherMoveErrors(s: State, q: nat, choice: Choice, r: nat, own: set<Failure>)
    requires Inv(s) && CloseOk(s) && q < |s.requests| && r < |s.requests| && q != r
    requires RequestMove(s, q, choice).Some? && ErrorsOk(s, r, own)
    ensures r < |RequestMove(s, q, choice).value.requests| && ErrorsOk(RequestMove(s, q, choice).value, r, own)
  {
    assert RequestOk(s, r);
    OtherMoveAside(s, q, choice, r);
    RequestKeepsClose(s, q, choice);
  }

  lemma ReadErrors(s: State, a: Action, r: nat, own: set<Failure>)
    requires (a.ReadFrame? || a.ReadFails?) && Step(s, a).Some? && r < |s.requests| && ErrorsOk(s, r, own)
    ensures r < |Step(s, a).value.requests| && ErrorsOk(Step(s, a).value, r, own)
  {
  }

  lemma ReaderErrors(s: State, r: nat, own: set<Failure>)
    requires Inv(s) && CloseOk(s) && ReaderMove(s).Some? && r < |s.requests| && ErrorsOk(s, r, own)
    ensures r < |ReaderMove(s).value.requests| && ErrorsOk(ReaderMove(s).value, r, own)
  {
    assert RequestOk(s, r);
  }

  lemma CancelErrors(s: State, r: nat, own: set<Failure>)
    requires Inv(s) && CloseOk(s) && s.once.Running? && s.once.stage.CancelAll? && r < |s.requests| && ErrorsOk(s, r, own)
    ensures r < |CloseMove(s).value.requests| && ErrorsOk(CloseMove(s).value, r, own)
  {
    assert RequestOk(s, r);
    if s.requests[r].ch.Some? {
      assert ChanOk(s, s.requests[r].ch.value);
    }
  }

  lemma CloseErrors(s: State, a: Action, r: nat, own: set<Failure>)
    requires Inv(s) && CloseOk(s) && (a.CloseStep? || a.OtherClose?) && Step(s, a).Some?
    requires r < |s.requests| && ErrorsOk(s, r, own)
    ensures r < |Step(s, a).value.requests| && ErrorsOk(Step(s, a).value, r, own)
  {
    if a.CloseStep? && s.once.stage.CancelAll? {
      CancelErrors(s, r, own);
    }
  }

  lemma ErrorsStep(s: State, a: Action, r: nat, own: set<Failure>, more: set<Failure>)
    requires Inv(s) && CloseOk(s) && Step(s, a).Some? && r < |s.requests| && ErrorsOk(s, r, own) && own <= more
    requires a.RequestStep? && a.r == r && a.choice.Fails? ==> a.choice.err in more
    requires a.RequestStep? && a.r == r && a.choice.ContextDone? ==> "context done" in more
    ensures r < |Step(s, a).value.requests| && ErrorsOk(Step(s, a).value, r, more)
  {
    if a.RequestStep? && a.r == r {
      OwnMoveErrors(s, r, a.choice, own, more);
    } else if a.RequestStep? {
      OtherMoveErrors(s, a.r, a.choice, r, own);
    } else if a.CloseStep? || a.OtherClose? {
      CloseErrors(s, a, r, own);
    } else if a.ReaderStep? {
      ReaderErrors(s, r, own);
    } else if !a.Begin? {
      ReadErrors(s, a, r, own);
    }
  }

  lemma BeginErrors(s: State, a: Action, r: nat, own: set<Failure>)
    requires Step(s, a).Some? && |s.requests| <= r < |Step(s, a).value.requests|
    ensures ErrorsOk(Step(s, a).value, r, own)
  {
  }

  lemma {:induction false} RunErrors(run: seq<Action>, r: nat)
    requires Exec(run).Some?
    ensures CloseOk(Exec(run).value)
    ensures r < |Exec(run).value.requests| ==> ErrorsOk(Exec(run).value, r, OwnErrors(run, r))
  {
    if run != [] {
      var init, a := run[..|run| - 1], run[|run| - 1];
      var s := Exec(init).value;
      RunKeeps(init);
      RunErrors(init, r);
      CloseOkStep(s, a);
      if r < |s.requests| {
        ErrorsStep(s, a, r, OwnErrors(init, r), OwnErrors(run, r));
      } else if r < |Exec(run).value.requests| {
        BeginErrors(s, a, r, OwnErrors(run, r));
      }
    }
  }

  /**
    * The error a request returns without a frame is one it met itself, or the error the transport was closed with;
    * and a request whose write failed has closed the transport before it returns.
    */
  lemma ErrorsAreEarned(run: seq<Action>, r: nat)
    requires Exec(run).Some? && r < |Exec(run).value.requests|
    ensures var s := Exec(run).value;
            var pc := s.requests[r].pc;
            && (pc.Returned? && pc.reply.frame.None? ==> pc.reply.err.Some? && Earned(s, OwnErrors(run, r), pc.reply.err.value))
            && (pc.WriteUnlock? && pc.failed.Some? ==> s.closed)
            && (s.once.Running? && !s.once.stage.StoreErr? && s.once.err.Some? ==> s.closeErr == s.once.err)
  {
    RunKeeps(run);
    RunErrors(run, r);
    assert RequestOk(Exec(run).value, r);
  }

  /** A disconnect frame that no request waits for, and a read that fails, send the reader to close the transport with that cause. */
  lemma ReaderClosesFor(s: State, a: Action)
    requires s.reader.Reading?
    requires a.ReadFails? || (a.ReadFrame? && a.frame.envelope.kind.KindDisconnect? && a.frame.envelope.msgId !in s.pending)
    ensures Step(s, a).Some?
    ensures Step(s, a).value.reader == ReaderClose(if a.ReadFails? then a.cause else "peer disconnected")
    ensures s.once.NotYet? ==>
      var t := Step(Step(s, a).value, ReaderStep);
      t.Some? && t.value.once == Running(ByReader, StoreErr, Some(if a.ReadFails? then a.cause else "peer disconnected"))
  {
  }

  /** A request that looks at the closed flag before its write, outside or under the write lock, turns back with the close error. */
  lemma ClosedTurnsBack(s: State, r: nat, choice: Choice)
    requires r < |s.requests| && s.closed && (s.requests[r].pc.WriteCheck? || s.requests[r].pc.WriteRecheck?)
    ensures Step(s, RequestStep(r, choice)).Some?
    ensures var pc := Step(s, RequestStep(r, choice)).value.requests[r].pc;
            var e := if s.closeErr.Some? then s.closeErr.value else "transport closed";
            pc == if s.requests[r].pc.WriteCheck? then RemovePending(e) else WriteUnlock(Some(e))
  {
  }
}
