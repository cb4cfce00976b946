/**
  * The Rust caller transport as a step system: requests and one inbound loop share a closed
  * flag and a pending map, each behind its own async lock. A frame's removal and its send
  * happen under the map's lock, so they are one step.
  */
module RustTransport {
  import opened Wire

  datatype Answer = Got(frame: Frame) | Unavailable

  /** The sender half of a oneshot: unused, used, or dropped unused. */
  datatype Sender = Open | Used(answer: Answer) | Dropped

  /** `late` says that the sender was put into the map after the final drain. */
  datatype Oneshot = Oneshot(msgId: string, owner: nat, sender: Sender, uses: nat, late: bool)

  datatype Outcome = Answered(answer: Answer) | SendFailed | TimedOut

  datatype RequestPc = CheckClosed | Insert | SendFrame | RemoveEntry | Await | Returned(outcome: Outcome)

  datatype Request = Request(msgId: string, pc: RequestPc, oneshot: Option<nat>)

  datatype LoopPc = Reading | SetClosed | Drain | Notify(senders: seq<nat>) | LoopOver

  datatype State = State(
    closed: bool,
    pending: map<string, nat>,
    oneshots: seq<Oneshot>,
    requests: seq<Request>,
    inbound: LoopPc)

  const INIT := State(false, map[], [], [], Reading)

  datatype Action =
    | Begin(msgId: string)
    | Move(r: nat, fails: bool)
    | TimeOut(r: nat)
    | FrameArrives(frame: Frame)
    | EndOfStream
    | LoopStep(order: seq<nat>)

  function SetPc(s: State, r: nat, pc: RequestPc): State
    requires r < |s.requests|
  {
    s.(requests := s.requests[r := s.requests[r].(pc := pc)])
  }

  function SetSender(s: State, x: nat, sender: Sender): State
    requires x < |s.oneshots|
  {
    var uses := s.oneshots[x].uses + if sender.Used? then 1 else 0;
    s.(oneshots := s.oneshots[x := s.oneshots[x].(sender := sender, uses := uses)])
  }

  /** Whatever entry the id has leaves the map and its sender is dropped unused. */
  function DropEntry(s: State, msgId: string): State {
    if msgId !in s.pending then s
    else
      var x, t := s.pending[msgId], s.(pending := s.pending - {msgId});
      if x < |s.oneshots| then SetSender(t, x, Dropped) else t
  }

  predicate HasDrained(s: State) {
    s.inbound.Notify? || s.inbound.LoopOver?
  }

  /** Inserting under a used id drops the old sender. */
  function InsertEntry(s: State, r: nat): State
    requires r < |s.requests|
  {
    PutEntry(DropEntry(s, s.requests[r].msgId), r)
  }

  function PutEntry(s: State, r: nat): State
    requires r < |s.requests|
  {
    var m, x := s.requests[r].msgId, |s.oneshots|;
    s.(oneshots := s.oneshots + [Oneshot(m, r, Open, 0, HasDrained(s))],
       pending := s.pending[m := x],
       requests := s.requests[r := Request(m, SendFrame, Some(x))])
  }

  function RequestMove(s: State, r: nat, fails: bool): Option<State>
    requires r < |s.requests|
  {
    var q := s.requests[r];
    match q.pc
    case CheckClosed => Some(SetPc(s, r, if s.closed then Returned(Answered(Unavailable)) else Insert))
    case Insert => Some(InsertEntry(s, r))
    case SendFrame => Some(SetPc(s, r, if fails then RemoveEntry else Await))
    case RemoveEntry => Some(SetPc(DropEntry(s, q.msgId), r, Returned(SendFailed)))
    case Await =>
      if q.oneshot.None? || q.oneshot.value >= |s.oneshots| then None
      else
        (match s.oneshots[q.oneshot.value].sender
         case Open => None
         case Used(answer) => Some(SetPc(s, r, Returned(Answered(answer))))
         case Dropped => Some(SetPc(s, r, Returned(Answered(Unavailable)))))
    case Returned(_) => None
  }

  /** A frame for a pending id uses up that id's sender; any other frame is dropped. */
  function Deliver(s: State, frame: Frame): State {
    var m := frame.envelope.msgId;
    if m !in s.pending then s
    else
      var x, t := s.pending[m], s.(pending := s.pending - {m});
      if x < |s.oneshots| then SetSender(t, x, Used(Got(frame))) else t
  }

  /** `order` lists the drained senders: the map's values, each once. */
  predicate IsDrainOrder(pending: map<string, nat>, order: seq<nat>) {
    && (forall i :: 0 <= i < |order| ==> order[i] in pending.Values)
    && (forall m :: m in pending ==> pending[m] in order)
    && (forall i, j :: 0 <= i < j < |order| ==> order[i] != order[j])
  }

  function LoopMove(s: State, order: seq<nat>): Option<State> {
    match s.inbound
    case SetClosed => Some(s.(closed := true, inbound := Drain))
    case Drain => if IsDrainOrder(s.pending, order) then Some(s.(pending := map[], inbound := Notify(order))) else None
    case Notify(senders) =>
      if senders == [] then Some(s.(inbound := LoopOver))
      else if senders[0] < |s.oneshots|
      then Some(SetSender(s, senders[0], Used(Unavailable)).(inbound := Notify(senders[1..])))
      else None
    case _ => None
  }

  function Step(s: State, a: Action): Option<State> {
    match a
    case Begin(msgId) => Some(s.(requests := s.requests + [Request(msgId, CheckClosed, None)]))
    case Move(r, fails) => if r < |s.requests| then RequestMove(s, r, fails) else None
    case TimeOut(r) =>
      if r < |s.requests| && s.requests[r].pc.Await? then Some(SetPc(s, r, Returned(TimedOut))) else None
    case FrameArrives(frame) => if s.inbound.Reading? then Some(Deliver(s, frame)) else None
    case EndOfStream => if s.inbound.Reading? then Some(s.(inbound := SetClosed)) else None
    case LoopStep(order) => LoopMove(s, order)
  }

  function Exec(run: seq<Action>): Option<State> {
    if run == [] then Some(INIT)
    else
      match Exec(run[..|run| - 1])
      case None => None
      case Some(s) => Step(s, run[|run| - 1])
  }

  // ----- the invariant

  predicate InHand(s: State, x: nat) {
    s.inbound.Notify? && x in s.inbound.senders
  }

  /** A sender is used at most once, by a frame with its id or by the drain; an open one is in the map or in hand. */
  predicate OneshotOk(s: State, x: nat)
    requires x < |s.oneshots|
  {
    var o := s.oneshots[x];
    && o.owner < |s.requests| && s.requests[o.owner].oneshot == Some(x) && s.requests[o.owner].msgId == o.msgId
    && (if o.sender.Used? then o.uses == 1 else o.uses == 0)
    && (o.sender.Used? && o.sender.answer.Got? ==> o.sender.answer.frame.envelope.msgId == o.msgId)
    && (o.sender.Used? && o.sender.answer.Unavailable? ==> HasDrained(s) && !o.late)
    && (o.sender.Open? ==> (o.msgId in s.pending && s.pending[o.msgId] == x) || InHand(s, x))
    && (o.late ==> HasDrained(s))
  }

  predicate EntryOk(s: State, m: string)
    requires m in s.pending
  {
    && s.pending[m] < |s.oneshots| && s.oneshots[s.pending[m]].sender.Open? && s.oneshots[s.pending[m]].msgId == m
    && !InHand(s, s.pending[m])
    && (HasDrained(s) ==> s.oneshots[s.pending[m]].late)
  }

  predicate RequestOk(s: State, r: nat)
    requires r < |s.requests|
  {
    var q := s.requests[r];
    && (q.pc.CheckClosed? || q.pc.Insert? ==> q.oneshot.None?)
    && (q.pc.SendFrame? || q.pc.RemoveEntry? || q.pc.Await? ==> q.oneshot.Some?)
    && (q.oneshot.Some? ==> q.oneshot.value < |s.oneshots| && s.oneshots[q.oneshot.value].owner == r)
    && (q.pc.Returned? && q.pc.outcome.Answered? && q.pc.outcome.answer.Got? ==>
          q.pc.outcome.answer.frame.envelope.msgId == q.msgId)
  }

  predicate LoopOk(s: State) {
    && (s.closed <==> !s.inbound.Reading? && !s.inbound.SetClosed?)
    && (s.inbound.Notify? ==>
          var senders := s.inbound.senders;
          && (forall i :: 0 <= i < |senders| ==>
                senders[i] < |s.oneshots| && s.oneshots[senders[i]].sender.Open? && !s.oneshots[senders[i]].late)
          && (forall i, j :: 0 <= i < j < |senders| ==> senders[i] != senders[j]))
  }

  ghost predicate Inv(s: State) {
    && (forall m :: m in s.pending ==> EntryOk(s, m))
    && (forall x :: 0 <= x < |s.oneshots| ==> OneshotOk(s, x))
    && (forall r :: 0 <= r < |s.requests| ==> RequestOk(s, r))
    && LoopOk(s)
  }

  lemma Facts(s: State)
    requires Inv(s)
    ensures forall m {:trigger s.pending[m]} :: m in s.pending ==> EntryOk(s, m)
    ensures forall x {:trigger s.oneshots[x]} :: 0 <= x < |s.oneshots| ==> OneshotOk(s, x)
    ensures forall r {:trigger s.requests[r]} :: 0 <= r < |s.requests| ==> RequestOk(s, r)
  {
  }

  // ----- each step keeps it

  lemma BeginKeeps(s: State, msgId: string)
    requires Inv(s)
    ensures Inv(Step(s, Begin(msgId)).value)
  {
    Facts(s);
  }

  lemma PcKeeps(s: State, r: nat, pc: RequestPc)
    requires Inv(s) && r < |s.requests|
    requires RequestOk(SetPc(s, r, pc), r)
    ensures Inv(SetPc(s, r, pc))
  {
    Facts(s);
  }

  lemma DropKeeps(s: State, msgId: string)
    requires Inv(s)
    ensures Inv(DropEntry(s, msgId))
    ensures msgId !in DropEntry(s, msgId).pending
    ensures DropEntry(s, msgId).requests == s.requests && DropEntry(s, msgId).inbound == s.inbound
    ensures |DropEntry(s, msgId).oneshots| == |s.oneshots|
  {
    Facts(s);
  }

  lemma PutKeeps(s: State, r: nat)
    requires Inv(s) && r < |s.requests| && s.requests[r].pc.Insert? && s.requests[r].msgId !in s.pending
    ensures Inv(PutEntry(s, r))
  {
    Facts(s);
  }

  lemma InsertKeeps(s: State, r: nat)
    requires Inv(s) && r < |s.requests| && s.requests[r].pc.Insert?
    ensures Inv(InsertEntry(s, r))
  {
    DropKeeps(s, s.requests[r].msgId);
    PutKeeps(DropEntry(s, s.requests[r].msgId), r);
  }

  lemma RequestKeeps(s: State, r: nat, fails: bool)
    requires Inv(s) && r < |s.requests| && RequestMove(s, r, fails).Some?
    ensures Inv(RequestMove(s, r, fails).value)
  {
    Facts(s);
    var q := s.requests[r];
    if q.pc.Insert? {
      InsertKeeps(s, r);
    } else if q.pc.RemoveEntry? {
      DropKeeps(s, q.msgId);
      Facts(DropEntry(s, q.msgId));
      PcKeeps(DropEntry(s, q.msgId), r, Returned(SendFailed));
    } else {
      var t := RequestMove(s, r, fails).value;
      PcKeeps(s, r, t.requests[r].pc);
    }
  }

  lemma DeliverKeeps(s: State, frame: Frame)
    requires Inv(s) && s.inbound.Reading?
    ensures Inv(Deliver(s, frame))
  {
    Facts(s);
  }

  lemma DrainKeeps(s: State, order: seq<nat>)
    requires Inv(s) && s.inbound.Drain? && LoopMove(s, order).Some?
    ensures Inv(LoopMove(s, order).value)
  {
    Facts(s);
  }

  lemma NotifyKeeps(s: State, order: seq<nat>)
    requires Inv(s) && s.inbound.Notify? && LoopMove(s, order).Some?
    ensures Inv(LoopMove(s, order).value)
  {
    Facts(s);
  }

  lemma LoopKeeps(s: State, order: seq<nat>)
    requires Inv(s) && LoopMove(s, order).Some?
    ensures Inv(LoopMove(s, order).value)
  {
    if s.inbound.Drain? {
      DrainKeeps(s, order);
    } else if s.inbound.Notify? {
      NotifyKeeps(s, order);
    } else {
      Facts(s);
    }
  }

  lemma {:induction false} RunKeeps(run: seq<Action>)
    requires Exec(run).Some?
    ensures Inv(Exec(run).value)
  {
    if run != [] {
      var s, a := Exec(run[..|run| - 1]).value, run[|run| - 1];
      RunKeeps(run[..|run| - 1]);
      match a
      case Begin(msgId) => BeginKeeps(s, msgId);
      case Move(r, fails) => RequestKeeps(s, r, fails);
      case TimeOut(r) => Facts(s); PcKeeps(s, r, Returned(TimedOut));
      case FrameArrives(frame) => DeliverKeeps(s, frame);
      case EndOfStream => Facts(s);
      case LoopStep(order) => LoopKeeps(s, order);
    }
  }

  // ----- what it gives

  /** A oneshot is used at most once: by a frame with its own id, or by the final drain. */
  lemma OneshotsAreUsedOnce(run: seq<Action>, x: nat)
    requires Exec(run).Some? && x < |Exec(run).value.oneshots|
    ensures var s := Exec(run).value;
            var o := s.oneshots[x];
            && o.uses <= 1
            && (o.uses == 1 ==> o.sender.Used?)
            && (o.sender.Used? && o.sender.answer.Got? ==> o.sender.answer.frame.envelope.msgId == o.msgId)
            && (o.sender.Used? && o.sender.answer.Unavailable? ==> HasDrained(s))
  {
    RunKeeps(run);
    assert OneshotOk(Exec(run).value, x);
  }

  /** A request that returned a frame returned one with its own id, through a oneshot nobody else reads. */
  lemma RequestsGetTheirOwnFrame(run: seq<Action>, r: nat)
    requires Exec(run).Some? && r < |Exec(run).value.requests|
    ensures var s := Exec(run).value;
            var q := s.requests[r];
            && (q.pc.Returned? && q.pc.outcome.Answered? && q.pc.outcome.answer.Got? ==>
                  q.pc.outcome.answer.frame.envelope.msgId == q.msgId)
            && (forall p :: 0 <= p < |s.requests| && s.requests[p].oneshot == q.oneshot && q.oneshot.Some? ==> p == r)
  {
    RunKeeps(run);
    Facts(Exec(run).value);
  }

  /**
    * A late reply: once a request has timed out, a frame with its id moves no request and
    * changes no oneshot but the abandoned one.
    */
  lemma LateReplyIsDropped(run: seq<Action>, r: nat, frame: Frame)
    requires Exec(run).Some? && Exec(run).value.inbound.Reading?
    requires r < |Exec(run).value.requests| && Exec(run).value.requests[r].pc == Returned(TimedOut)
    requires frame.envelope.msgId == Exec(run).value.requests[r].msgId
    requires forall q :: 0 <= q < |Exec(run).value.requests| && q != r ==>
               Exec(run).value.requests[q].msgId != frame.envelope.msgId
    ensures var s := Exec(run).value;
            var t := Step(s, FrameArrives(frame)).value;
            && t.requests == s.requests
            && frame.envelope.msgId !in t.pending
            && |t.oneshots| == |s.oneshots|
            && (forall x :: 0 <= x < |s.oneshots| && t.oneshots[x] != s.oneshots[x] ==> s.requests[r].oneshot == Some(x))
  {
    RunKeeps(run);
    Facts(Exec(run).value);
  }

  /** The k-th action of the run was request r reading the closed flag, and the flag was still false. */
  predicate ReadsOpen(run: seq<Action>, k: nat, r: nat)
    requires k < |run|
  {
    && run[k].Move? && run[k].r == r
    && Exec(run[..k]).Some?
    && var s := Exec(run[..k]).value;
       r < |s.requests| && s.requests[r].pc.CheckClosed? && !s.closed
  }

  ghost predicate ReadOpen(run: seq<Action>, r: nat) {
    exists k :: 0 <= k < |run| && ReadsOpen(run, k, r)
  }

  lemma ReadOpenLater(run: seq<Action>, r: nat)
    requires run != [] && ReadOpen(run[..|run| - 1], r)
    ensures ReadOpen(run, r)
  {
    var init := run[..|run| - 1];
    var k :| 0 <= k < |init| && ReadsOpen(init, k, r);
    assert init[..k] == run[..k];
    assert ReadsOpen(run, k, r);
  }

  predicate MayInsert(q: Request) {
    q.pc.Insert? || q.oneshot.Some?
  }

  lemma MoveNeedsTheRead(s: State, r: nat, fails: bool)
    requires r < |s.requests| && RequestMove(s, r, fails).Some?
    ensures var t := RequestMove(s, r, fails).value;
            && |t.requests| == |s.requests| && t.requests == s.requests[r := t.requests[r]]
            && (MayInsert(t.requests[r]) ==> MayInsert(s.requests[r]) || (s.requests[r].pc.CheckClosed? && !s.closed))
  {
  }

  /** A step after which a request may insert found it so already, or let it pass the check while open. */
  lemma EntryNeedsTheRead(s: State, a: Action, r: nat)
    requires Step(s, a).Some? && r < |Step(s, a).value.requests| && MayInsert(Step(s, a).value.requests[r])
    ensures r < |s.requests|
    ensures MayInsert(s.requests[r]) || (a.Move? && a.r == r && s.requests[r].pc.CheckClosed? && !s.closed)
  {
    if a.Move? {
      MoveNeedsTheRead(s, a.r, a.fails);
    }
  }

  lemma {:induction false} EntryOwnersReadOpen(run: seq<Action>, r: nat)
    requires Exec(run).Some? && r < |Exec(run).value.requests|
    requires MayInsert(Exec(run).value.requests[r])
    ensures ReadOpen(run, r)
  {
    var init, last := run[..|run| - 1], |run| - 1;
    var s := Exec(init).value;
    EntryNeedsTheRead(s, run[last], r);
    if MayInsert(s.requests[r]) {
      EntryOwnersReadOpen(init, r);
      ReadOpenLater(run, r);
    } else {
      assert ReadsOpen(run, last, r);
    }
  }

  /** After the drain the map holds only senders put there after it, by requests that read closed as false while it was. */
  lemma OnlyLateEntriesAfterDrain(run: seq<Action>, m: string)
    requires Exec(run).Some? && HasDrained(Exec(run).value) && m in Exec(run).value.pending
    ensures var s := Exec(run).value;
            && s.closed && s.pending[m] < |s.oneshots|
            && var o := s.oneshots[s.pending[m]];
               && o.late && o.owner < |s.requests|
               && s.requests[o.owner].msgId == m && s.requests[o.owner].oneshot == Some(s.pending[m])
               && ReadOpen(run, o.owner)
  {
    RunKeeps(run);
    var s := Exec(run).value;
    Facts(s);
    EntryOwnersReadOpen(run, s.oneshots[s.pending[m]].owner);
  }

  // ----- what a request returns

  /** The answer a used or dropped sender stands for. */
  predicate Answers(sender: Sender, answer: Answer) {
    match sender
    case Open => false
    case Used(given) => answer == given
    case Dropped => answer == Unavailable
  }

  /** A request that has returned an answer returned the one its sender gave, or had found the transport closed; any other outcome needs an entry. */
  predicate OutcomeOk(s: State, r: nat)
    requires r < |s.requests|
  {
    var q := s.requests[r];
    q.pc.Returned? ==>
      if !q.pc.outcome.Answered? then q.oneshot.Some?
      else if q.oneshot.Some? then q.oneshot.value < |s.oneshots| && Answers(s.oneshots[q.oneshot.value].sender, q.pc.outcome.answer)
      else q.pc.outcome.answer == Unavailable && s.closed
  }

  /** A sender that is no longer open stays as it is. */
  predicate SendersLast(s: State, t: State) {
    && |s.oneshots| <= |t.oneshots|
    && (s.closed ==> t.closed)
    && forall x :: 0 <= x < |s.oneshots| && !s.oneshots[x].sender.Open? ==> t.oneshots[x].sender == s.oneshots[x].sender
  }

  lemma MoveSendersLast(s: State, q: nat, fails: bool)
    requires Inv(s) && q < |s.requests| && RequestMove(s, q, fails).Some?
    ensures SendersLast(s, RequestMove(s, q, fails).value)
  {
    Facts(s);
  }

  lemma OtherSendersLast(s: State, a: Action)
    requires Inv(s) && !a.Move? && Step(s, a).Some?
    ensures SendersLast(s, Step(s, a).value)
  {
    Facts(s);
  }

  lemma MoveOutcome(s: State, q: nat, fails: bool, r: nat)
    requires Inv(s) && q < |s.requests| && r < |s.requests| && RequestMove(s, q, fails).Some? && OutcomeOk(s, r)
    ensures r < |RequestMove(s, q, fails).value.requests| && OutcomeOk(RequestMove(s, q, fails).value, r)
  {
    assert RequestOk(s, r);
    MoveSendersLast(s, q, fails);
  }

  lemma OtherOutcome(s: State, a: Action, r: nat)
    requires Inv(s) && !a.Move? && Step(s, a).Some? && r < |Step(s, a).value.requests|
    requires r < |s.requests| ==> OutcomeOk(s, r)
    ensures OutcomeOk(Step(s, a).value, r)
  {
    OtherSendersLast(s, a);
    if r < |s.requests| {
      assert RequestOk(s, r);
    }
  }

  /** In every reachable state, what a request returned is what its own sender was used for. */
  lemma {:induction false} OutcomesAreGiven(run: seq<Action>, r: nat)
    requires Exec(run).Some? && r < |Exec(run).value.requests|
    ensures OutcomeOk(Exec(run).value, r)
  {
    var init, a := run[..|run| - 1], run[|run| - 1];
    var s := Exec(init).value;
    RunKeeps(init);
    if r < |s.requests| {
      OutcomesAreGiven(init, r);
    }
    if a.Move? {
      MoveOutcome(s, a.r, a.fails, r);
    } else {
      OtherOutcome(s, a, r);
    }
  }

  /** A reply is returned: a frame for a request that waits for one is what it returns next. */
  lemma ReplyIsReturned(run: seq<Action>, r: nat, frame: Frame)
    requires Exec(run).Some? && Exec(run).value.inbound.Reading?
    requires r < |Exec(run).value.requests| && Exec(run).value.requests[r].pc.Await?
    requires Step(Exec(run).value, Move(r, false)).None? && frame.envelope.msgId == Exec(run).value.requests[r].msgId
    ensures var s := Exec(run).value;
            && Step(s, FrameArrives(frame)).Some?
            && var t := Step(s, FrameArrives(frame)).value;
               && Step(t, Move(r, false)).Some?
               && Step(t, Move(r, false)).value.requests == s.requests[r := s.requests[r].(pc := Returned(Answered(Got(frame))))]
  {
    RunKeeps(run);
    Facts(Exec(run).value);
  }

  /** Woken by the drain or by a dropped sender, a request returns that the router is unavailable; by a frame, the frame. */
  lemma WokenReturns(s: State, r: nat, fails: bool)
    requires r < |s.requests| && s.requests[r].pc.Await? && s.requests[r].oneshot.Some? && s.requests[r].oneshot.value < |s.oneshots|
    ensures var sender := s.oneshots[s.requests[r].oneshot.value].sender;
            && (Step(s, Move(r, fails)).None? <==> sender.Open?)
            && (!sender.Open? ==>
                  var answer := if sender.Used? then sender.answer else Unavailable;
                  Step(s, Move(r, fails)).value.requests == s.requests[r := s.requests[r].(pc := Returned(Answered(answer)))])
  {
  }

  /** A request whose send fails returns that, and takes its entry out of the map. */
  lemma FailedSendReturns(s: State, r: nat)
    requires r < |s.requests| && s.requests[r].pc.SendFrame?
    ensures Step(s, Move(r, true)).Some? && Step(Step(s, Move(r, true)).value, Move(r, true)).Some?
    ensures var t := Step(Step(s, Move(r, true)).value, Move(r, true)).value;
            && t.requests == s.requests[r := s.requests[r].(pc := Returned(SendFailed))]
            && t.pending == s.pending - {s.requests[r].msgId}
  {
  }

  /** A request that times out returns that, and leaves its entry behind. */
  lemma TimeoutLeavesEntry(s: State, r: nat)
    requires r < |s.requests| && s.requests[r].pc.Await?
    ensures Step(s, TimeOut(r)) == Some(s.(requests := s.requests[r := s.requests[r].(pc := Returned(TimedOut))]))
  {
  }

  /** Whose entries the map can hold: requests under way, and requests that timed out. */
  predicate OwnerOk(s: State, m: string)
    requires m in s.pending
  {
    var x := s.pending[m];
    && x < |s.oneshots| && s.oneshots[x].owner < |s.requests|
    && var pc := s.requests[s.oneshots[x].owner].pc;
       pc.SendFrame? || pc.RemoveEntry? || pc.Await? || pc == Returned(TimedOut)
  }

  ghost predicate OwnersOk(s: State) {
    forall m :: m in s.pending ==> OwnerOk(s, m)
  }

  /** A move that makes or drops an entry. */
  lemma EntryOwners(s: State, r: nat, fails: bool)
    requires Inv(s) && OwnersOk(s) && r < |s.requests|
    requires s.requests[r].pc.Insert? || s.requests[r].pc.RemoveEntry?
    ensures OwnersOk(RequestMove(s, r, fails).value)
  {
    var t := RequestMove(s, r, fails).value;
    assert RequestOk(s, r);
    forall m | m in t.pending
      ensures OwnerOk(t, m)
    {
      if m != s.requests[r].msgId {
        assert OwnerOk(s, m) && EntryOk(s, m) && OneshotOk(s, s.pending[m]);
      }
    }
  }

  /** A move of a request that leaves every entry alone. */
  lemma PlainOwners(s: State, r: nat, pc: RequestPc)
    requires Inv(s) && OwnersOk(s) && r < |s.requests|
    requires forall m :: m in s.pending && s.oneshots[s.pending[m]].owner == r ==> pc.SendFrame? || pc.RemoveEntry? || pc.Await? || pc == Returned(TimedOut)
    ensures OwnersOk(SetPc(s, r, pc))
  {
    forall m | m in s.pending
      ensures OwnerOk(SetPc(s, r, pc), m)
    {
      assert OwnerOk(s, m);
    }
  }

  lemma MoveOwners(s: State, r: nat, fails: bool)
    requires Inv(s) && OwnersOk(s) && r < |s.requests| && RequestMove(s, r, fails).Some?
    ensures OwnersOk(RequestMove(s, r, fails).value)
  {
    if s.requests[r].pc.Insert? || s.requests[r].pc.RemoveEntry? {
      EntryOwners(s, r, fails);
    } else {
      var t := RequestMove(s, r, fails).value;
      assert RequestOk(s, r);
      forall m | m in s.pending && s.oneshots[s.pending[m]].owner == r
        ensures var pc := t.requests[r].pc; pc.RemoveEntry? || pc.Await?
      {
        assert EntryOk(s, m) && OneshotOk(s, s.pending[m]) && OwnerOk(s, m);
      }
      PlainOwners(s, r, t.requests[r].pc);
    }
  }

  lemma OtherOwners(s: State, a: Action)
    requires Inv(s) && OwnersOk(s) && !a.Move? && Step(s, a).Some?
    ensures OwnersOk(Step(s, a).value)
  {
    var t := Step(s, a).value;
    forall m | m in t.pending
      ensures OwnerOk(t, m)
    {
      assert OwnerOk(s, m) && EntryOk(s, m) && OneshotOk(s, s.pending[m]);
    }
  }

  /** In every reachable state the map holds entries of requests under way or timed out, and of no other. */
  lemma {:induction false} OnlyTimeoutsLeak(run: seq<Action>)
    requires Exec(run).Some?
    ensures OwnersOk(Exec(run).value)
  {
    if run != [] {
      var init, a := run[..|run| - 1], run[|run| - 1];
      RunKeeps(init);
      OnlyTimeoutsLeak(init);
      if a.Move? {
        MoveOwners(Exec(init).value, a.r, a.fails);
      } else {
        OtherOwners(Exec(init).value, a);
      }
    }
  }

  // ----- who is stranded

  ghost predicate SharesId(s: State, r: nat)
    requires r < |s.requests|
  {
    exists q :: 0 <= q < |s.requests| && q != r && s.requests[q].msgId == s.requests[r].msgId
  }

  /** A sender inserted after the drain is never used; one is dropped only if its owner has returned or shares its id. */
  ghost predicate EndOk(s: State, x: nat)
    requires x < |s.oneshots|
  {
    var o := s.oneshots[x];
    && (o.late ==> !o.sender.Used?)
    && (o.sender.Dropped? ==> o.owner < |s.requests| && (s.requests[o.owner].pc.Returned? || SharesId(s, o.owner)))
  }

  ghost predicate EndsOk(s: State) {
    forall x :: 0 <= x < |s.oneshots| ==> EndOk(s, x)
  }

  /** Requests only come, keep their ids, and stay returned. */
  predicate RequestsLast(s: State, t: State) {
    && |s.requests| <= |t.requests|
    && forall q :: 0 <= q < |s.requests| ==>
         t.requests[q].msgId == s.requests[q].msgId && (s.requests[q].pc.Returned? ==> t.requests[q].pc.Returned?)
  }

  lemma SharingLasts(s: State, t: State, r: nat)
    requires RequestsLast(s, t) && r < |s.requests| && SharesId(s, r)
    ensures SharesId(t, r)
  {
    var q :| 0 <= q < |s.requests| && q != r && s.requests[q].msgId == s.requests[r].msgId;
    assert t.requests[q].msgId == t.requests[r].msgId;
  }

  /** A step that leaves a sender as it was leaves it in order. */
  lemma EndLasts(s: State, t: State, x: nat)
    requires RequestsLast(s, t) && x < |s.oneshots| && x < |t.oneshots| && EndOk(s, x)
    requires t.oneshots[x] == s.oneshots[x] || t.oneshots[x].sender.Open?
    ensures EndOk(t, x)
  {
    var o := s.oneshots[x];
    if o.sender.Dropped? && !s.requests[o.owner].pc.Returned? {
      SharingLasts(s, t, o.owner);
    }
  }

  /** Dropping the entry of an id on behalf of request r. */
  lemma DropEnds(s: State, r: nat, t: State)
    requires Inv(s) && EndsOk(s) && r < |s.requests| && RequestsLast(s, t)
    requires var d := DropEntry(s, s.requests[r].msgId);
             |d.oneshots| <= |t.oneshots| && d.oneshots == t.oneshots[..|d.oneshots|]
    requires forall x :: |s.oneshots| <= x < |t.oneshots| ==> t.oneshots[x].sender.Open?
    requires t.requests[r].pc.Returned? || s.requests[r].pc.Insert?
    ensures EndsOk(t)
  {
    var m, d := s.requests[r].msgId, DropEntry(s, s.requests[r].msgId);
    forall x | 0 <= x < |t.oneshots|
      ensures EndOk(t, x)
    {
      if x < |s.oneshots| {
        assert t.oneshots[x] == d.oneshots[x];
        if m in s.pending && s.pending[m] == x {
          DroppedForReason(s, r, t, x);
        } else {
          EndLasts(s, t, x);
        }
      }
    }
  }

  lemma DroppedForReason(s: State, r: nat, t: State, x: nat)
    requires Inv(s) && r < |s.requests| && RequestsLast(s, t) && x < |t.oneshots|
    requires s.requests[r].msgId in s.pending && s.pending[s.requests[r].msgId] == x && x < |s.oneshots|
    requires t.oneshots[x] == s.oneshots[x].(sender := Dropped)
    requires t.requests[r].pc.Returned? || s.requests[r].pc.Insert?
    ensures EndOk(t, x)
  {
    var m, owner := s.requests[r].msgId, s.oneshots[x].owner;
    assert EntryOk(s, m) && OneshotOk(s, x) && RequestOk(s, r);
    if owner != r {
      assert s.requests[r].msgId == s.requests[owner].msgId;
      SharingLasts(s, t, owner);
    }
  }

  lemma MoveEnds(s: State, r: nat, fails: bool)
    requires Inv(s) && EndsOk(s) && r < |s.requests| && RequestMove(s, r, fails).Some?
    ensures EndsOk(RequestMove(s, r, fails).value)
  {
    var t := RequestMove(s, r, fails).value;
    if s.requests[r].pc.Insert? || s.requests[r].pc.RemoveEntry? {
      DropEnds(s, r, t);
    } else {
      forall x | 0 <= x < |t.oneshots|
        ensures EndOk(t, x)
      {
        EndLasts(s, t, x);
      }
    }
  }

  lemma OtherEnds(s: State, a: Action)
    requires Inv(s) && EndsOk(s) && !a.Move? && Step(s, a).Some?
    ensures EndsOk(Step(s, a).value)
  {
    var t := Step(s, a).value;
    forall x | 0 <= x < |t.oneshots|
      ensures EndOk(t, x)
    {
      if t.oneshots[x] == s.oneshots[x] {
        EndLasts(s, t, x);
      } else if a.FrameArrives? {
        assert EntryOk(s, a.frame.envelope.msgId) && OneshotOk(s, x);
      } else {
        assert x == s.inbound.senders[0];
      }
    }
  }

  lemma {:induction false} RunEnds(run: seq<Action>)
    requires Exec(run).Some?
    ensures EndsOk(Exec(run).value)
  {
    if run != [] {
      var s, a := Exec(run[..|run| - 1]).value, run[|run| - 1];
      RunEnds(run[..|run| - 1]);
      RunKeeps(run[..|run| - 1]);
      if a.Move? {
        MoveEnds(s, a.r, a.fails);
      } else {
        OtherEnds(s, a);
      }
    }
  }

  /** The k-th action of the run was request r inserting its sender, after the drain. */
  predicate InsertsLate(run: seq<Action>, k: nat, r: nat)
    requires k < |run|
  {
    && run[k].Move? && run[k].r == r
    && Exec(run[..k]).Some?
    && var s := Exec(run[..k]).value;
       r < |s.requests| && s.requests[r].pc.Insert? && HasDrained(s)
  }

  ghost predicate InsertedLate(run: seq<Action>, r: nat) {
    exists k :: 0 <= k < |run| && InsertsLate(run, k, r)
  }

  lemma InsertedLateGrows(run: seq<Action>, r: nat)
    requires run != []
    ensures InsertedLate(run, r) <==> InsertedLate(run[..|run| - 1], r) || InsertsLate(run, |run| - 1, r)
  {
    var init := run[..|run| - 1];
    assert forall k :: 0 <= k < |init| ==> init[..k] == run[..k] && init[k] == run[k];
    if InsertedLate(run, r) {
      var k :| 0 <= k < |run| && InsertsLate(run, k, r);
      assert k < |init| ==> InsertsLate(init, k, r);
    }
    if InsertedLate(init, r) {
      var k :| 0 <= k < |init| && InsertsLate(init, k, r);
      assert InsertsLate(run, k, r);
    }
  }

  lemma MoveKeepsSenders(s: State, q: nat, fails: bool, r: nat)
    requires Inv(s) && q < |s.requests| && RequestMove(s, q, fails).Some? && r < |s.requests|
    ensures var t := RequestMove(s, q, fails).value;
            && |t.requests| == |s.requests| && |s.oneshots| <= |t.oneshots|
            && (forall x :: 0 <= x < |s.oneshots| ==> t.oneshots[x].late == s.oneshots[x].late)
            && (q != r || !s.requests[r].pc.Insert? ==> t.requests[r].oneshot == s.requests[r].oneshot)
  {
  }

  /** One step: only its own insert gives a request a sender, and marks it late exactly after the drain. */
  lemma LateStep(s: State, a: Action, r: nat)
    requires Inv(s) && Step(s, a).Some? && r < |Step(s, a).value.requests|
    ensures var t := Step(s, a).value;
            if a.Move? && a.r == r && r < |s.requests| && s.requests[r].pc.Insert?
            then s.requests[r].oneshot.None? && t.requests[r].oneshot == Some(|s.oneshots|)
                 && |s.oneshots| < |t.oneshots| && (t.oneshots[|s.oneshots|].late <==> HasDrained(s))
            else t.requests[r].oneshot == (if r < |s.requests| then s.requests[r].oneshot else None)
    ensures var t := Step(s, a).value;
            && |s.oneshots| <= |t.oneshots|
            && forall x :: 0 <= x < |s.oneshots| ==> t.oneshots[x].late == s.oneshots[x].late
  {
    if r < |s.requests| {
      assert RequestOk(s, r);
    }
    if a.Move? {
      MoveKeepsSenders(s, a.r, a.fails, r);
    }
  }

  /** Request r has a late sender exactly when `inserted` says so. */
  predicate LateIs(s: State, r: nat, inserted: bool) {
    if r < |s.requests| && s.requests[r].oneshot.Some?
    then s.requests[r].oneshot.value < |s.oneshots| && s.oneshots[s.requests[r].oneshot.value].late == inserted
    else !inserted
  }

  lemma LateNext(s: State, a: Action, r: nat, inserted: bool)
    requires Inv(s) && Step(s, a).Some? && LateIs(s, r, inserted)
    ensures var inserts := a.Move? && a.r == r && r < |s.requests| && s.requests[r].pc.Insert? && HasDrained(s);
            LateIs(Step(s, a).value, r, inserted || inserts)
  {
    if r < |Step(s, a).value.requests| {
      LateStep(s, a, r);
    }
  }

  /** The flag on a sender tells when it was inserted. */
  lemma {:induction false} LateMeansAfterDrain(run: seq<Action>, r: nat)
    requires Exec(run).Some?
    ensures LateIs(Exec(run).value, r, InsertedLate(run, r))
  {
    if run != [] {
      var init, a := run[..|run| - 1], run[|run| - 1];
      LateMeansAfterDrain(init, r);
      RunKeeps(init);
      InsertedLateGrows(run, r);
      LateNext(Exec(init).value, a, r, InsertedLate(init, r));
    }
  }

  /**
    * Who is stranded: when the loop is over, a waiting request that shares its id with nobody is
    * stuck exactly when it inserted its sender after the drain; any stuck request did.
    */
  lemma StrandedExactly(run: seq<Action>, r: nat)
    requires Exec(run).Some? && Exec(run).value.inbound.LoopOver?
    requires r < |Exec(run).value.requests| && Exec(run).value.requests[r].pc.Await?
    ensures Step(Exec(run).value, Move(r, false)).None? ==> InsertedLate(run, r)
    ensures !SharesId(Exec(run).value, r) ==>
              (Step(Exec(run).value, Move(r, false)).None? <==> InsertedLate(run, r))
  {
    RunKeeps(run);
    RunEnds(run);
    LateMeansAfterDrain(run, r);
    var s := Exec(run).value;
    assert RequestOk(s, r);
    var x := s.requests[r].oneshot.value;
    assert OneshotOk(s, x) && EndOk(s, x);
    if s.oneshots[x].sender.Open? {
      assert EntryOk(s, s.requests[r].msgId);
    }
  }

  lemma Then(run: seq<Action>, s: State, a: Action) returns (longer: seq<Action>, t: State)
    requires Exec(run) == Some(s) && Step(s, a).Some?
    ensures Exec(longer) == Some(t) && Step(s, a) == Some(t)
  {
    longer, t := run + [a], Step(s, a).value;
    assert longer[..|longer| - 1] == run;
  }

  /** One request has read closed as false when the loop ends and drains the empty map. */
  lemma LoopEndsFirst() returns (run: seq<Action>, s: State)
    ensures Exec(run) == Some(s)
    ensures s == State(true, map[], [], [Request("m", Insert, None)], LoopOver)
  {
    run, s := Then([], INIT, Begin("m"));
    assert s.requests == [Request("m", CheckClosed, None)];
    run, s := Then(run, s, Move(0, false));
    assert s.requests == [Request("m", Insert, None)];
    run, s := Then(run, s, EndOfStream);
    run, s := Then(run, s, LoopStep([]));
    run, s := Then(run, s, LoopStep([]));
    run, s := Then(run, s, LoopStep([]));
  }

  /** It then inserts its sender and waits, and without a timeout nothing will ever wake it. */
  lemma LateRequestIsStranded() returns (run: seq<Action>, s: State)
    ensures Exec(run) == Some(s) && s.inbound.LoopOver?
    ensures |s.requests| == 1 && s.requests[0].pc.Await? && Step(s, Move(0, false)).None?
  {
    run, s := LoopEndsFirst();
    run, s := Then(run, s, Move(0, false));
    run, s := Then(run, s, Move(0, false));
  }

  // ----- in place

  function Refuse(o: Oneshot): Oneshot {
    o.(sender := Used(Unavailable), uses := o.uses + 1)
  }

  /** The oneshots after those numbered in `which` were told that the router is gone. */
  ghost function RefuseSet(oneshots: seq<Oneshot>, which: set<nat>): (after: seq<Oneshot>)
    ensures |after| == |oneshots|
  {
    seq(|oneshots|, i requires 0 <= i < |oneshots| => if i in which then Refuse(oneshots[i]) else oneshots[i])
  }

  lemma RefuseOneMore(oneshots: seq<Oneshot>, which: set<nat>, x: nat)
    requires x < |oneshots| && x !in which
    ensures RefuseSet(oneshots, which)[x] == oneshots[x]
    ensures RefuseSet(oneshots, which)[x := Refuse(oneshots[x])] == RefuseSet(oneshots, which + {x})
  {
  }

  /** The pending map and the senders it holds, changed in place as the source does under the map's lock. */
  class PendingSenders {
    var pending: map<string, nat>
    var oneshots: seq<Oneshot>

    /** Every pending sender is unused and stands under its own id, so under no other. */
    ghost predicate Valid()
      reads this
    {
      forall m :: m in pending ==>
        pending[m] < |oneshots| && oneshots[pending[m]].sender.Open? && oneshots[pending[m]].msgId == m
    }

    /** A frame uses up the sender of its own id, once, and no other. */
    method DeliverFrame(frame: Frame)
      requires Valid()
      modifies this
      ensures Valid() && pending == old(pending) - {frame.envelope.msgId}
      ensures frame.envelope.msgId in old(pending) ==>
                var x := old(pending)[frame.envelope.msgId];
                oneshots == old(oneshots)[x := old(oneshots)[x].(sender := Used(Got(frame)), uses := old(oneshots)[x].uses + 1)]
      ensures frame.envelope.msgId !in old(pending) ==> oneshots == old(oneshots)
    {
      var m := frame.envelope.msgId;
      if m in pending {
        var x := pending[m];
        oneshots := oneshots[x := oneshots[x].(sender := Used(Got(frame)), uses := oneshots[x].uses + 1)];
        pending := pending - {m};
      }
    }

    /** The final drain: the map is emptied first, then every sender that was in it is used, each once. */
    method DrainPending()
      requires Valid()
      modifies this
      ensures Valid() && pending == map[]
      ensures oneshots == RefuseSet(old(oneshots), old(pending).Values)
    {
      var drained := pending.Values;
      ghost var all, before := drained, oneshots;
      pending := map[];
      while drained != {}
        invariant drained <= all && pending == map[]
        invariant forall x :: x in all ==> x < |before|
        invariant oneshots == RefuseSet(before, all - drained)
      {
        var x :| x in drained;
        RefuseOneMore(before, all - drained, x);
        oneshots := oneshots[x := Refuse(oneshots[x])];
        assert (all - drained) + {x} == all - (drained - {x});
        drained := drained - {x};
      }
      assert all - drained == all;
    }
  }
}
