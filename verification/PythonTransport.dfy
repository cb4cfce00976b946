/**
  * The Python transport as a step system. It is cooperative: whatever a coroutine does
  * between two awaits is one step.
  */
module PythonTransport {
  import opened Wire

  datatype Future = Incomplete | Resolved(frame: Frame) | Failed | Cancelled

  /** How `request` ends: with the frame, or with an exception. */
  datatype Outcome = Returned(frame: Frame) | Raised

  datatype RequestPc = Sending | Waiting | Finished(outcome: Outcome)

  datatype Request = Request(msgId: string, future: nat, pc: RequestPc)

  datatype StarterPc = Connecting | Registering | StartOver

  /** A receive task runs its `finally` only if it got to enter its loop before it was cancelled. */
  datatype ReceiverPc = Unstarted | Receiving | Finalised

  /** `task` is the receive task the close waits for, if there was one. */
  datatype CloserPc = Closing | AwaitingTask(task: Option<nat>) | CloseOver

  /**
    * `task` is the receive task the transport currently knows; `swept` says that some
    * coroutine has failed the pending requests.
    */
  datatype State = State(
    websocket: bool,
    active: bool,
    closed: bool,
    pending: map<string, nat>,
    futures: seq<Future>,
    requests: seq<Request>,
    starters: seq<StarterPc>,
    receivers: seq<ReceiverPc>,
    closers: seq<CloserPc>,
    task: Option<nat>,
    swept: bool)

  const INIT := State(false, false, false, map[], [], [], [], [], [], None, false)

  datatype Action =
    | Start
    | Connect(i: nat, ok: bool)
    | Register(i: nat, ok: bool)
    | Close
    | StopTask(i: nat)
    | FinishClose(i: nat)
    | ReceiveFrame(j: nat, frame: Frame)
    | EnterLoop(j: nat)
    | FinaliseTask(j: nat)
    | DropTask(j: nat)
    | BeginRequest(msgId: string, encodes: bool)
    | FrameSent(r: nat, ok: bool)
    | Resume(r: nat)
    | TimeOut(r: nat)
    | CancelRequest(r: nat)

  /** The property of the same name: closed wins over active. */
  predicate Active(s: State) {
    s.active && !s.closed
  }

  /** `_fail_pending`: every future still incomplete fails, and the map is emptied. */
  function FailFutures(futures: seq<Future>, pending: map<string, nat>): (after: seq<Future>)
    ensures |after| == |futures|
  {
    seq(|futures|, i requires 0 <= i < |futures| =>
      if i in pending.Values && futures[i].Incomplete? then Failed else futures[i])
  }

  function Sweep(s: State): State {
    s.(futures := FailFutures(s.futures, s.pending), pending := map[], swept := true)
  }

  /** `_resolve_pending`: the entry goes, and its future gets the frame unless it is done already. */
  function Resolve(s: State, frame: Frame): State {
    var m := frame.envelope.msgId;
    if m !in s.pending then s
    else
      var f := s.pending[m];
      var t := s.(pending := s.pending - {m});
      if f < |s.futures| && s.futures[f].Incomplete? then t.(futures := s.futures[f := Resolved(frame)]) else t
  }

  /** The first stretch of `close`. */
  function BeginClose(s: State): State {
    if s.closed then s else s.(closed := true, active := false, closers := s.closers + [Closing])
  }

  function SetRequest(s: State, r: nat, pc: RequestPc): State
    requires r < |s.requests|
  {
    s.(requests := s.requests[r := s.requests[r].(pc := pc)])
  }

  /** The first stretch of `request`: the check and the insert are not separated by an await. */
  function OpenRequest(s: State, msgId: string, encodes: bool): State {
    if !Active(s) then s
    else
      var f := |s.futures|;
      s.(futures := s.futures + [Incomplete],
         pending := s.pending[msgId := f],
         requests := s.requests + [Request(msgId, f, if encodes then Sending else Finished(Raised))])
  }

  /** What awaiting a completed future gives. */
  function OutcomeOf(future: Future): Outcome {
    if future.Resolved? then Returned(future.frame) else Raised
  }

  function RequestStep(s: State, a: Action): Option<State> {
    match a
    case BeginRequest(msgId, encodes) => Some(OpenRequest(s, msgId, encodes))
    case FrameSent(r, ok) =>
      if r >= |s.requests| || !s.requests[r].pc.Sending? then None
      else if ok then Some(SetRequest(s, r, Waiting))
      else Some(SetRequest(s.(pending := s.pending - {s.requests[r].msgId}), r, Finished(Raised)))
    case Resume(r) =>
      if r >= |s.requests| || !s.requests[r].pc.Waiting? || s.requests[r].future >= |s.futures| then None
      else if s.futures[s.requests[r].future].Incomplete? then None
      else Some(SetRequest(s, r, Finished(OutcomeOf(s.futures[s.requests[r].future]))))
    case TimeOut(r) =>
      if r >= |s.requests| || !s.requests[r].pc.Waiting? || s.requests[r].future >= |s.futures| then None
      else if !s.futures[s.requests[r].future].Incomplete? then None
      else Some(SetRequest(s.(pending := s.pending - {s.requests[r].msgId},
                              futures := s.futures[s.requests[r].future := Cancelled]), r, Finished(Raised)))
    case CancelRequest(r) =>
      if r >= |s.requests| || s.requests[r].pc.Finished? || s.requests[r].future >= |s.futures| then None
      else
        var f := s.requests[r].future;
        var futures := if s.requests[r].pc.Waiting? && s.futures[f].Incomplete? then s.futures[f := Cancelled]
                       else s.futures;
        Some(SetRequest(s.(futures := futures), r, Finished(Raised)))
    case _ => None
  }

  function LifecycleStep(s: State, a: Action): Option<State> {
    match a
    case Start => if s.websocket then None else Some(s.(starters := s.starters + [Connecting]))
    case Connect(i, ok) =>
      if i >= |s.starters| || !s.starters[i].Connecting? then None
      else if ok then Some(s.(websocket := true, starters := s.starters[i := Registering]))
      else Some(s.(starters := s.starters[i := StartOver]))
    case Register(i, ok) =>
      if i >= |s.starters| || !s.starters[i].Registering? then None
      else if !ok then Some(BeginClose(s.(starters := s.starters[i := StartOver])))
      else Some(s.(active := true, receivers := s.receivers + [Unstarted], task := Some(|s.receivers|),
                   starters := s.starters[i := StartOver]))
    case Close => Some(BeginClose(s))
    case StopTask(i) =>
      if i >= |s.closers| || !s.closers[i].Closing? then None
      else Some(s.(closers := s.closers[i := AwaitingTask(s.task)]))
    case FinishClose(i) =>
      if i >= |s.closers| || !s.closers[i].AwaitingTask? then None
      else if s.closers[i].task.Some? && s.closers[i].task.value < |s.receivers|
              && !s.receivers[s.closers[i].task.value].Finalised?
      then None
      else Some(Sweep(s.(closers := s.closers[i := CloseOver])).(websocket := false))
    case ReceiveFrame(j, frame) =>
      if j >= |s.receivers| || !s.receivers[j].Receiving? then None
      else if frame.envelope.kind.KindResponse? || frame.envelope.kind.KindError? then Some(Resolve(s, frame))
      else Some(s)
    case EnterLoop(j) =>
      if j >= |s.receivers| || !s.receivers[j].Unstarted? then None
      else Some(s.(receivers := s.receivers[j := Receiving]))
    case DropTask(j) =>
      if j >= |s.receivers| || !s.receivers[j].Unstarted? || AwaitingTask(Some(j)) !in s.closers then None
      else Some(s.(receivers := s.receivers[j := Finalised]))
    case FinaliseTask(j) =>
      if j >= |s.receivers| || !s.receivers[j].Receiving? then None
      else Some(Sweep(s.(receivers := s.receivers[j := Finalised], active := false, closed := true)))
    case _ => None
  }

  function Step(s: State, a: Action): Option<State> {
    if a.BeginRequest? || a.FrameSent? || a.Resume? || a.TimeOut? || a.CancelRequest? then RequestStep(s, a)
    else LifecycleStep(s, a)
  }

  function Exec(run: seq<Action>): Option<State> {
    if run == [] then Some(INIT)
    else
      match Exec(run[..|run| - 1])
      case None => None
      case Some(s) => Step(s, run[|run| - 1])
  }

  // ----- the invariant

  ghost predicate AnotherWithItsId(s: State, r: nat)
    requires r < |s.requests|
  {
    exists q :: 0 <= q < |s.requests| && q != r && s.requests[q].msgId == s.requests[r].msgId
  }

  /**
    * A future is resolved only by a frame with its request's id; an unfinished request's
    * incomplete future is reachable through the map, unless its id is shared.
    */
  ghost predicate RequestOk(s: State, r: nat)
    requires r < |s.requests|
  {
    var q := s.requests[r];
    && q.future == r && r < |s.futures|
    && (s.futures[r].Resolved? ==> s.futures[r].frame.envelope.msgId == q.msgId)
    && (q.pc.Finished? && q.pc.outcome.Returned? ==> s.futures[r] == Resolved(q.pc.outcome.frame))
    && (!q.pc.Finished? && s.futures[q.future].Incomplete? ==>
          (q.msgId in s.pending && s.pending[q.msgId] == q.future) || AnotherWithItsId(s, r))
  }

  /** An entry belongs to the request that made it. */
  predicate EntryOk(s: State, m: string)
    requires m in s.pending
  {
    s.pending[m] < |s.requests| && s.requests[s.pending[m]].msgId == m
  }

  ghost predicate Inv(s: State) {
    && |s.futures| == |s.requests|
    && (forall r :: 0 <= r < |s.requests| ==> RequestOk(s, r))
    && (forall m :: m in s.pending ==> EntryOk(s, m))
    && (s.closers != [] ==> s.closed)
    && (s.swept ==> s.closed && s.pending == map[])
  }

  lemma Facts(s: State)
    requires Inv(s)
    ensures forall r {:trigger s.requests[r]} :: 0 <= r < |s.requests| ==> RequestOk(s, r)
    ensures forall m {:trigger s.pending[m]} :: m in s.pending ==> EntryOk(s, m)
  {
  }

  /** Requests keep their ids, so sharing an id is for ever. */
  predicate SameIds(s: State, t: State) {
    |s.requests| <= |t.requests| && forall q :: 0 <= q < |s.requests| ==> t.requests[q].msgId == s.requests[q].msgId
  }

  lemma SharingLasts(s: State, t: State)
    requires SameIds(s, t)
    ensures forall r {:trigger AnotherWithItsId(t, r)} ::
              0 <= r < |s.requests| && AnotherWithItsId(s, r) ==> AnotherWithItsId(t, r)
  {
    forall r | 0 <= r < |s.requests| && AnotherWithItsId(s, r)
      ensures AnotherWithItsId(t, r)
    {
      var q :| 0 <= q < |s.requests| && q != r && s.requests[q].msgId == s.requests[r].msgId;
      assert t.requests[q].msgId == t.requests[r].msgId;
    }
  }

  lemma OpenKeeps(s: State, msgId: string, encodes: bool)
    requires Inv(s)
    ensures Inv(OpenRequest(s, msgId, encodes))
  {
    var t := OpenRequest(s, msgId, encodes);
    Facts(s);
    SharingLasts(s, t);
    forall r | 0 <= r < |t.requests|
      ensures RequestOk(t, r)
    {
      if r < |s.requests| && Active(s) && s.requests[r].msgId == msgId {
        assert t.requests[|s.requests|].msgId == t.requests[r].msgId;
      }
    }
  }

  /** Leaving the waiting: the entry goes, and with it any entry of another request under the same id. */
  lemma LeavingKeeps(s: State, r: nat, futures: seq<Future>)
    requires Inv(s) && r < |s.requests| && |futures| == |s.futures|
    requires forall f :: 0 <= f < |futures| ==> futures[f] == s.futures[f] || (s.futures[f].Incomplete? && futures[f].Cancelled?)
    ensures Inv(SetRequest(s.(pending := s.pending - {s.requests[r].msgId}, futures := futures), r, Finished(Raised)))
  {
    var t := SetRequest(s.(pending := s.pending - {s.requests[r].msgId}, futures := futures), r, Finished(Raised));
    Facts(s);
    SharingLasts(s, t);
    forall q | 0 <= q < |t.requests|
      ensures RequestOk(t, q)
    {
      if q != r && s.requests[q].msgId == s.requests[r].msgId {
        assert t.requests[r].msgId == t.requests[q].msgId;
      }
    }
  }

  /** Moving on with the entry in place. */
  lemma StayingKeeps(s: State, r: nat, pc: RequestPc, futures: seq<Future>)
    requires Inv(s) && r < |s.requests| && |futures| == |s.futures|
    requires s.requests[r].pc.Finished? ==> pc.Finished?
    requires pc.Finished? ==> pc == Finished(Raised) || pc == Finished(OutcomeOf(futures[r]))
    requires forall f :: 0 <= f < |futures| ==> futures[f] == s.futures[f] || (s.futures[f].Incomplete? && futures[f].Cancelled?)
    ensures Inv(SetRequest(s.(futures := futures), r, pc))
  {
    Facts(s);
    SharingLasts(s, SetRequest(s.(futures := futures), r, pc));
  }

  lemma RequestKeeps(s: State, a: Action)
    requires Inv(s) && !a.BeginRequest? && RequestStep(s, a).Some?
    ensures Inv(RequestStep(s, a).value)
  {
    var t := RequestStep(s, a).value;
    if a.TimeOut? || (a.FrameSent? && !a.ok) {
      LeavingKeeps(s, a.r, t.futures);
    } else {
      assert RequestOk(s, a.r);
      StayingKeeps(s, a.r, t.requests[a.r].pc, t.futures);
    }
  }

  lemma SweepKeeps(s: State)
    requires Inv(s) && s.closed
    ensures Inv(Sweep(s))
  {
    var t := Sweep(s);
    Facts(s);
    SharingLasts(s, t);
  }

  lemma ResolveKeepsRequest(s: State, frame: Frame, r: nat)
    requires Inv(s) && r < |s.requests|
    ensures r < |Resolve(s, frame).requests| && RequestOk(Resolve(s, frame), r)
  {
    var t, m := Resolve(s, frame), frame.envelope.msgId;
    assert RequestOk(s, r);
    if AnotherWithItsId(s, r) {
      SharingLasts(s, t);
    }
    if m in s.pending {
      assert EntryOk(s, m);
      if s.requests[r].msgId == m && r != s.pending[m] {
        assert t.requests[s.pending[m]].msgId == t.requests[r].msgId;
      }
    }
  }

  lemma ResolveKeeps(s: State, frame: Frame)
    requires Inv(s)
    ensures Inv(Resolve(s, frame))
  {
    var t := Resolve(s, frame);
    forall r | 0 <= r < |t.requests|
      ensures RequestOk(t, r)
    {
      ResolveKeepsRequest(s, frame, r);
    }
    forall m | m in t.pending
      ensures EntryOk(t, m)
    {
      assert EntryOk(s, m);
    }
  }

  /** Steps that touch neither the map, nor a future, nor a request. */
  lemma OtherFieldsKeep(s: State, t: State)
    requires Inv(s) && t.pending == s.pending && t.futures == s.futures && t.requests == s.requests
    requires t.swept == s.swept && (s.closed ==> t.closed) && (t.closers != [] ==> t.closed)
    ensures Inv(t)
  {
    Facts(s);
    SharingLasts(s, t);
  }

  lemma LifecycleKeeps(s: State, a: Action)
    requires Inv(s) && LifecycleStep(s, a).Some?
    ensures Inv(LifecycleStep(s, a).value)
  {
    if a.FinishClose? {
      var t := s.(closers := s.closers[a.i := CloseOver]);
      OtherFieldsKeep(s, t);
      SweepKeeps(t);
      OtherFieldsKeep(Sweep(t), Sweep(t).(websocket := false));
    } else if a.FinaliseTask? {
      var t := s.(receivers := s.receivers[a.j := Finalised], active := false, closed := true);
      OtherFieldsKeep(s, t);
      SweepKeeps(t);
    } else if a.ReceiveFrame? {
      ResolveKeeps(s, a.frame);
    } else {
      OtherFieldsKeep(s, LifecycleStep(s, a).value);
    }
  }

  lemma {:induction false} RunKeeps(run: seq<Action>)
    requires Exec(run).Some?
    ensures Inv(Exec(run).value)
  {
    if run != [] {
      var s, a := Exec(run[..|run| - 1]).value, run[|run| - 1];
      RunKeeps(run[..|run| - 1]);
      if a.BeginRequest? {
        OpenKeeps(s, a.msgId, a.encodes);
      } else if a.FrameSent? || a.Resume? || a.TimeOut? || a.CancelRequest? {
        RequestKeeps(s, a);
      } else {
        LifecycleKeeps(s, a);
      }
    }
  }

  // ----- what it gives

  predicate NoNewEntry(s: State, t: State) {
    && |t.requests| == |s.requests|
    && forall m :: m in t.pending ==> m in s.pending && t.pending[m] == s.pending[m]
  }

  lemma ClosedRequests(s: State, a: Action)
    requires s.closed && RequestStep(s, a).Some?
    ensures RequestStep(s, a).value.closed && NoNewEntry(s, RequestStep(s, a).value)
  {
  }

  lemma ClosedLifecycle(s: State, a: Action)
    requires s.closed && LifecycleStep(s, a).Some?
    ensures LifecycleStep(s, a).value.closed && NoNewEntry(s, LifecycleStep(s, a).value)
  {
  }

  lemma ClosedStep(s: State, a: Action)
    requires s.closed && Step(s, a).Some?
    ensures Step(s, a).value.closed && NoNewEntry(s, Step(s, a).value)
  {
    if a.BeginRequest? || a.FrameSent? || a.Resume? || a.TimeOut? || a.CancelRequest? {
      ClosedRequests(s, a);
    } else {
      ClosedLifecycle(s, a);
    }
  }

  lemma NoNewEntryChains(s: State, t: State, u: State)
    requires NoNewEntry(s, t) && NoNewEntry(t, u)
    ensures NoNewEntry(s, u)
  {
  }

  /** Closed is absorbing, a second start included, and from then on no entry is made. */
  lemma {:induction false} ClosedIsAbsorbing(run: seq<Action>, more: seq<Action>)
    requires Exec(run).Some? && Exec(run).value.closed && Exec(run + more).Some?
    ensures var s, t := Exec(run).value, Exec(run + more).value;
            t.closed && !Active(t) && NoNewEntry(s, t)
    decreases |more|
  {
    if more == [] {
      assert run + more == run;
    } else {
      var last := |more| - 1;
      assert (run + more)[..|run + more| - 1] == run + more[..last];
      ClosedIsAbsorbing(run, more[..last]);
      var s, a := Exec(run + more[..last]).value, more[last];
      assert Exec(run + more) == Step(s, a);
      ClosedStep(s, a);
      NoNewEntryChains(Exec(run).value, s, Step(s, a).value);
    }
  }

  /** A start is refused exactly while there is a socket, and gives no life back to a closed transport. */
  lemma StartsExactly(s: State)
    ensures Step(s, Start).Some? <==> !s.websocket
    ensures Step(s, Start).Some? ==> Step(s, Start).value.closed == s.closed && (s.closed ==> !Active(Step(s, Start).value))
  {
  }

  /** A close, or a registration that fails, closes at once; the first of them has a closer that will sweep. */
  lemma ClosingCloses(s: State, a: Action)
    requires a.Close? || (a.Register? && !a.ok)
    requires Step(s, a).Some?
    ensures var t := Step(s, a).value;
            && t.closed && !Active(t)
            && t.closers == if s.closed then s.closers else s.closers + [Closing]
  {
  }

  /** And a closer whose receive task has ended sweeps and lets go of the socket. */
  lemma CloserSweeps(s: State, i: nat)
    requires i < |s.closers| && s.closers[i].AwaitingTask?
    requires s.closers[i].task.Some? && s.closers[i].task.value < |s.receivers| ==>
               s.receivers[s.closers[i].task.value].Finalised?
    ensures Step(s, FinishClose(i)).Some?
    ensures var t := Step(s, FinishClose(i)).value;
            && t.swept && !t.websocket && t.pending == map[]
            && |t.futures| == |s.futures|
            && (forall m :: m in s.pending && s.pending[m] < |s.futures| ==> !t.futures[s.pending[m]].Incomplete?)
            && (forall f :: 0 <= f < |s.futures| && !s.futures[f].Incomplete? ==> t.futures[f] == s.futures[f])
  {
  }

  /** A request whose future was resolved got a frame with its own id, and what it returned is that frame. */
  lemma RepliesMatch(run: seq<Action>, r: nat)
    requires Exec(run).Some? && r < |Exec(run).value.requests|
    ensures var s := Exec(run).value;
            var f := s.requests[r].future;
            && f < |s.futures|
            && (s.futures[f].Resolved? ==> s.futures[f].frame.envelope.msgId == s.requests[r].msgId)
            && (forall q :: 0 <= q < |s.requests| && s.requests[q].future == f ==> q == r)
            && (s.requests[r].pc.Finished? && s.requests[r].pc.outcome.Returned? ==>
                  s.futures[f] == Resolved(s.requests[r].pc.outcome.frame))
  {
    RunKeeps(run);
    Facts(Exec(run).value);
  }

  /** A response or an error frame for a request with an id of its own completes its future, no other, and is what it returns. */
  lemma ReplyIsReturned(run: seq<Action>, j: nat, r: nat, frame: Frame)
    requires Exec(run).Some? && j < |Exec(run).value.receivers| && Exec(run).value.receivers[j].Receiving?
    requires r < |Exec(run).value.requests| && !AnotherWithItsId(Exec(run).value, r)
    requires Exec(run).value.requests[r].pc.Waiting? && frame.envelope.msgId == Exec(run).value.requests[r].msgId
    requires Step(Exec(run).value, Resume(r)).None?
    requires frame.envelope.kind.KindResponse? || frame.envelope.kind.KindError?
    ensures var s := Exec(run).value;
            && Step(s, ReceiveFrame(j, frame)).Some?
            && var t := Step(s, ReceiveFrame(j, frame)).value;
               && r < |s.futures| && t.futures == s.futures[r := Resolved(frame)]
               && Step(t, Resume(r)).Some?
               && Step(t, Resume(r)).value.requests == s.requests[r := s.requests[r].(pc := Finished(Returned(frame)))]
  {
    RunKeeps(run);
    assert RequestOk(Exec(run).value, r);
    ReplyGoesThrough(Exec(run).value, j, r, frame);
  }

  lemma ReplyGoesThrough(s: State, j: nat, r: nat, frame: Frame)
    requires j < |s.receivers| && s.receivers[j].Receiving? && r < |s.requests| && r < |s.futures|
    requires s.requests[r].pc.Waiting? && s.requests[r].future == r && s.futures[r].Incomplete?
    requires frame.envelope.msgId in s.pending && s.pending[frame.envelope.msgId] == r
    requires frame.envelope.kind.KindResponse? || frame.envelope.kind.KindError?
    ensures LifecycleStep(s, ReceiveFrame(j, frame)).Some?
    ensures var t := LifecycleStep(s, ReceiveFrame(j, frame)).value;
            && t.futures == s.futures[r := Resolved(frame)]
            && RequestStep(t, Resume(r)).Some?
            && RequestStep(t, Resume(r)).value.requests == s.requests[r := s.requests[r].(pc := Finished(Returned(frame)))]
  {
  }

  /** A failed send and a timeout raise and take the entry out of the map; a cancellation raises and leaves it, and so does a failed encoding. */
  lemma RaisingEnds(s: State, a: Action)
    requires (a.FrameSent? && !a.ok) || a.TimeOut? || a.CancelRequest? || (a.BeginRequest? && !a.encodes && Active(s))
    requires RequestStep(s, a).Some?
    ensures var t := RequestStep(s, a).value;
            var r := if a.BeginRequest? then |s.requests| else a.r;
            && r < |t.requests| && t.requests[r].pc == Finished(Raised)
            && t.pending == (if a.CancelRequest? then s.pending
                             else if a.BeginRequest? then s.pending[a.msgId := |s.futures|]
                             else s.pending - {t.requests[r].msgId})
  {
  }

  /** A frame of any other kind completes nothing. */
  lemma OtherKindsCompleteNothing(s: State, j: nat, frame: Frame)
    requires Step(s, ReceiveFrame(j, frame)).Some?
    requires !frame.envelope.kind.KindResponse? && !frame.envelope.kind.KindError?
    ensures Step(s, ReceiveFrame(j, frame)).value.futures == s.futures
    ensures Step(s, ReceiveFrame(j, frame)).value.pending == s.pending
  {
  }

  /** Once some coroutine has failed the pending requests the map is empty for good. */
  lemma EmptyAfterSweep(run: seq<Action>)
    requires Exec(run).Some? && Exec(run).value.swept
    ensures Exec(run).value.closed && Exec(run).value.pending == map[]
  {
    RunKeeps(run);
  }

  /** After that no request waits on an incomplete future, unless it shares its id with another. */
  lemma NobodyIsLeftWaiting(run: seq<Action>, r: nat)
    requires Exec(run).Some? && Exec(run).value.swept
    requires r < |Exec(run).value.requests| && !Exec(run).value.requests[r].pc.Finished?
    requires !AnotherWithItsId(Exec(run).value, r)
    ensures var s := Exec(run).value;
            && s.requests[r].future < |s.futures| && !s.futures[s.requests[r].future].Incomplete?
            && (s.requests[r].pc.Waiting? ==> Step(s, Resume(r)).Some?)
  {
    RunKeeps(run);
    assert RequestOk(Exec(run).value, r);
  }

  lemma Then(run: seq<Action>, s: State, a: Action) returns (longer: seq<Action>, t: State)
    requires Exec(run) == Some(s) && Step(s, a).Some?
    ensures Exec(longer) == Some(t) && Step(s, a) == Some(t)
  {
    longer, t := run + [a], Step(s, a).value;
    assert longer[..|longer| - 1] == run;
  }

  /** Some request waits on a future nobody will complete. */
  predicate Stranded(s: State, r: nat) {
    && s.swept && r < |s.requests| && s.requests[r].pc.Waiting?
    && s.requests[r].future < |s.futures| && s.futures[s.requests[r].future].Incomplete?
  }

  ghost predicate HasIds(s: State, ids: seq<string>) {
    |s.requests| == |ids| && forall k :: 0 <= k < |ids| ==> s.requests[k].msgId == ids[k]
  }

  /** However requests with these ids run, the sweep leaves none of them waiting. */
  ghost predicate NeverStrands(ids: seq<string>) {
    forall run, r: nat :: Exec(run).Some? && HasIds(Exec(run).value, ids) ==> !Stranded(Exec(run).value, r)
  }

  predicate AllDistinct(ids: seq<string>) {
    forall i, j :: 0 <= i < j < |ids| ==> ids[i] != ids[j]
  }

  /** Every id has an open request, and the map knows the newest request of each id. */
  ghost predicate AllOpen(s: State, ids: seq<string>) {
    && s.active && !s.closed && s.receivers == [Receiving]
    && |s.requests| == |s.futures| == |ids|
    && (forall k :: 0 <= k < |ids| ==> s.requests[k] == Request(ids[k], k, Sending) && s.futures[k].Incomplete?)
    && (forall m :: m in s.pending ==> forall k :: 0 <= k < |ids| && ids[k] == m ==> k <= s.pending[m])
    && (forall m :: m in s.pending ==> s.pending[m] < |ids| && ids[s.pending[m]] == m)
  }

  lemma Connected() returns (run: seq<Action>, s: State)
    ensures Exec(run) == Some(s) && s == INIT.(websocket := true, starters := [Registering])
  {
    run, s := Then([], INIT, Start);
    assert s.starters == [Connecting];
    run, s := Then(run, s, Connect(0, true));
    assert s.starters == [Registering];
  }

  lemma Registered() returns (run: seq<Action>, s: State)
    ensures Exec(run) == Some(s) && s.requests == [] && s.futures == [] && s.pending == map[]
    ensures s.active && !s.closed && s.receivers == [Unstarted]
  {
    run, s := Connected();
    run, s := Then(run, s, Register(0, true));
    assert s.receivers == [Unstarted];
  }

  lemma EntersLoop(s: State)
    requires s.receivers == [Unstarted]
    ensures Step(s, EnterLoop(0)) == Some(s.(receivers := [Receiving]))
  {
    assert s.receivers[0 := Receiving] == [Receiving];
  }

  lemma EmptyIsOpen(s: State)
    requires s.active && !s.closed && s.receivers == [Receiving]
    requires s.requests == [] && s.futures == [] && s.pending == map[]
    ensures AllOpen(s, [])
  {
  }

  lemma NoneOpen() returns (run: seq<Action>, s: State)
    ensures Exec(run) == Some(s) && AllOpen(s, [])
  {
    var before;
    run, before := Registered();
    EntersLoop(before);
    run, s := Then(run, before, EnterLoop(0));
    EmptyIsOpen(s);
  }

  lemma OneMoreOpen(s: State, ids: seq<string>, id: string)
    requires AllOpen(s, ids)
    ensures AllOpen(OpenRequest(s, id, true), ids + [id])
  {
    var t, more := OpenRequest(s, id, true), ids + [id];
    assert forall k :: 0 <= k < |ids| ==> more[k] == ids[k] && t.requests[k] == s.requests[k];
  }

  lemma {:induction false} OpenAll(ids: seq<string>) returns (run: seq<Action>, s: State)
    ensures Exec(run) == Some(s) && AllOpen(s, ids)
    decreases |ids|
  {
    if ids == [] {
      run, s := NoneOpen();
    } else {
      var init, last := ids[..|ids| - 1], ids[|ids| - 1];
      var before;
      run, before := OpenAll(init);
      OneMoreOpen(before, init, last);
      run, s := Then(run, before, BeginRequest(last, true));
      assert init + [last] == ids;
    }
  }

  lemma SweepSpares(s: State, f: nat)
    requires f < |s.futures| && s.futures[f].Incomplete? && forall m :: m in s.pending ==> s.pending[m] != f
    ensures |Sweep(s).futures| == |s.futures| && Sweep(s).futures[f].Incomplete?
  {
  }

  /** A waiting request whose future no entry leads to is past the sweep's reach. */
  lemma FinaliseSpares(s: State, r: nat)
    requires s.receivers == [Receiving]
    requires r < |s.requests| && s.requests[r].pc.Waiting? && s.requests[r].future < |s.futures|
    requires s.futures[s.requests[r].future].Incomplete?
    requires forall m :: m in s.pending ==> s.pending[m] != s.requests[r].future
    ensures LifecycleStep(s, FinaliseTask(0)).Some?
    ensures LifecycleStep(s, FinaliseTask(0)).value.requests == s.requests
    ensures Stranded(LifecycleStep(s, FinaliseTask(0)).value, r)
  {
    SweepSpares(s.(receivers := s.receivers[0 := Finalised], active := false, closed := true), s.requests[r].future);
  }

  lemma SentFirst(s: State, ids: seq<string>, i: nat)
    requires AllOpen(s, ids) && i < |ids|
    ensures RequestStep(s, FrameSent(i, true)) ==
            Some(s.(requests := s.requests[i := Request(ids[i], i, Waiting)]))
  {
  }

  lemma OverwrittenIsStranded(ids: seq<string>, i: nat, j: nat) returns (run: seq<Action>, s: State)
    requires i < j < |ids| && ids[i] == ids[j]
    ensures Exec(run) == Some(s) && HasIds(s, ids) && Stranded(s, i)
  {
    var open, sent;
    run, open := OpenAll(ids);
    SentFirst(open, ids, i);
    run, sent := Then(run, open, FrameSent(i, true));
    assert forall m :: m in sent.pending ==> sent.pending[m] != i;
    FinaliseSpares(sent, i);
    run, s := Then(run, sent, FinaliseTask(0));
    assert HasIds(sent, ids);
  }

  /** Nobody is ever left waiting exactly when no two requests share an id. */
  lemma StrandsNobodyExactly(ids: seq<string>)
    ensures NeverStrands(ids) <==> AllDistinct(ids)
  {
    if AllDistinct(ids) {
      forall run, r: nat | Exec(run).Some? && HasIds(Exec(run).value, ids)
        ensures !Stranded(Exec(run).value, r)
      {
        if Stranded(Exec(run).value, r) {
          NobodyIsLeftWaiting(run, r);
        }
      }
    } else {
      var i, j :| 0 <= i < j < |ids| && ids[i] == ids[j];
      var run, s := OverwrittenIsStranded(ids, i, j);
      assert Exec(run).Some? && HasIds(Exec(run).value, ids) && Stranded(Exec(run).value, i);
    }
  }

  // ----- in place

  /** The pending map and the futures, changed in place as the source does. */
  class PendingTable {
    var pending: map<string, nat>
    var futures: seq<Future>

    ghost predicate Valid()
      reads this
    {
      forall m :: m in pending ==> pending[m] < |futures|
    }

    /** The loop of `_fail_pending`, followed by the clear. */
    method FailPending()
      requires Valid()
      modifies this
      ensures Valid() && pending == map[]
      ensures futures == FailFutures(old(futures), old(pending))
    {
      var left := pending.Keys;
      ghost var before := futures;
      while left != {}
        invariant left <= pending.Keys && Valid() && pending == old(pending)
        invariant |futures| == |before|
        invariant forall i :: 0 <= i < |futures| ==>
                    futures[i] == before[i] || (futures[i] == Failed && before[i].Incomplete? && i in pending.Values)
        invariant forall m :: m in pending && m !in left ==> !futures[pending[m]].Incomplete?
      {
        var m :| m in left;
        var f := pending[m];
        assert f in pending.Values;
        if futures[f].Incomplete? {
          futures := futures[f := Failed];
        }
        left := left - {m};
      }
      assert futures == FailFutures(before, pending);
      pending := map[];
    }
  }
}
