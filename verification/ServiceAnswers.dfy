/** Which calls a service answers, and with what. */
module ServiceAnswers {
  import opened Wire
  import opened EndToEnd
  import opened EndToEndProofs

  // ----- what has happened in a run

  predicate HappensAt(w: World, run: seq<NetAction>, j: nat, p: (Net, NetAction) -> bool)
    requires j < |run|
  {
    Exec(w, run[..j]).Some? && p(Exec(w, run[..j]).value, run[j])
  }

  /** Some action of the run, in the state it met, was of this sort. */
  ghost predicate Happened(w: World, run: seq<NetAction>, p: (Net, NetAction) -> bool) {
    exists j :: 0 <= j < |run| && HappensAt(w, run, j, p)
  }

  lemma SameBefore(w: World, run: seq<NetAction>, j: nat, p: (Net, NetAction) -> bool)
    requires j + 1 < |run|
    ensures HappensAt(w, run[..|run| - 1], j, p) <==> HappensAt(w, run, j, p)
  {
    assert run[..|run| - 1][..j] == run[..j];
  }

  lemma HappenedGrows(w: World, run: seq<NetAction>, p: (Net, NetAction) -> bool)
    requires run != [] && Exec(w, run[..|run| - 1]).Some?
    ensures Happened(w, run, p)
       <==> Happened(w, run[..|run| - 1], p) || p(Exec(w, run[..|run| - 1]).value, run[|run| - 1])
  {
    var init, last := run[..|run| - 1], |run| - 1;
    assert HappensAt(w, run, last, p) <==> p(Exec(w, init).value, run[last]);
    forall j | 0 <= j < last
      ensures HappensAt(w, init, j, p) <==> HappensAt(w, run, j, p)
    {
      SameBefore(w, run, j, p);
    }
  }

  // ----- which calls are answered

  /** Goroutine i of service c is being dispatched before the dial's result is there. */
  predicate TooEarly(n: Net, a: NetAction, c: nat, i: nat) {
    && a.Work? && a.c == c && a.i == i && c < |n.peers| && i < |n.peers[c].tasks|
    && n.peers[c].tasks[i].pc.Dispatch? && !n.peers[c].ready
  }

  ghost predicate DispatchedTooEarly(w: World, run: seq<NetAction>, c: nat, i: nat) {
    Happened(w, run, (n, a) => TooEarly(n, a, c, i))
  }

  /** Goroutine i of c was dropped exactly when `early` says so. */
  predicate DropIs(n: Net, c: nat, i: nat, early: bool) {
    if c < |n.peers| && i < |n.peers[c].tasks| then n.peers[c].tasks[i].pc.Dropped? == early else !early
  }

  lemma WorkDrops(w: World, n: Net, a: NetAction, c: nat, i: nat, early: bool)
    requires a.Work? && Step(w, n, a).Some? && DropIs(n, c, i, early)
    ensures DropIs(Step(w, n, a).value, c, i, early || TooEarly(n, a, c, i))
  {
    WorkEffect(w, n, a.c, a.i, a.fails, a.body);
  }

  lemma DropNext(w: World, n: Net, a: NetAction, c: nat, i: nat, early: bool)
    requires Step(w, n, a).Some? && DropIs(n, c, i, early)
    ensures DropIs(Step(w, n, a).value, c, i, early || TooEarly(n, a, c, i))
  {
    if a.Work? {
      WorkDrops(w, n, a, c, i, early);
    }
  }

  lemma {:induction false} DroppedExactly(w: World, run: seq<NetAction>, c: nat, i: nat)
    requires Exec(w, run).Some?
    ensures DropIs(Exec(w, run).value, c, i, DispatchedTooEarly(w, run, c, i))
  {
    if run != [] {
      var init, a := run[..|run| - 1], run[|run| - 1];
      DroppedExactly(w, init, c, i);
      HappenedGrows(w, run, (n, a) => TooEarly(n, a, c, i));
      DropNext(w, Exec(w, init).value, a, c, i, DispatchedTooEarly(w, init, c, i));
    }
  }

  /** The call's goroutine is finished and its service still open. */
  predicate FinishedCall(n: Net, c: nat, i: nat) {
    && c < |n.peers| && !n.peers[c].closed && i < |n.peers[c].tasks|
    && Finished(n.peers[c].tasks[i].pc) && n.peers[c].tasks[i].frame.envelope.kind.KindCall?
  }

  /**
    * A finished call on an open service was left unanswered exactly when its goroutine was dispatched
    * before the dial had returned its transport; `EndToEndRun.CallLostFromNothing` has such a run.
    */
  lemma AnsweredExactly(w: World, run: seq<NetAction>, c: nat, i: nat)
    requires Exec(w, run).Some? && FinishedCall(Exec(w, run).value, c, i)
    ensures IsAnswered(Exec(w, run).value, c, Exec(w, run).value.peers[c].tasks[i].k)
       <==> !DispatchedTooEarly(w, run, c, i)
  {
    RunKeeps(w, run);
    DroppedExactly(w, run, c, i);
    var n := Exec(w, run).value;
    var task := n.peers[c].tasks[i];
    assert TasksOk(w, n, c);
    assert TaskDone(n, c, task);
    if task.pc.Dropped? {
      NotYetAnswered(w, n, c, i);
    }
  }

  /** And an answer is a reply to that call: its id and time copied, its ends swapped. */
  lemma AnswerFitsItsCall(w: World, run: seq<NetAction>, c: nat, i: nat, j: nat)
    requires Exec(w, run).Some?
    requires c < |Exec(w, run).value.peers| && i < |Exec(w, run).value.peers[c].tasks|
    requires Replies(Exec(w, run).value, c, j, Exec(w, run).value.peers[c].tasks[i].k)
    ensures var n := Exec(w, run).value;
            && w.codec.decodeFrame(n.peers[c].sent[j].bytes).Some?
            && IsReply(n.peers[c].peerId, n.peers[c].tasks[i].frame.envelope, EnvOf(w, n, c, j))
  {
    RunKeeps(w, run);
    var n := Exec(w, run).value;
    assert TasksOk(w, n, c);
    assert TaskOk(w, n, c, n.peers[c].tasks[i]);
    assert SentOk(w, n, c, j);
  }

  // ----- which answers are errors

  /** A step of goroutine i of c that fails while there is still a result to be had. */
  predicate Failing(n: Net, a: NetAction, c: nat, i: nat) {
    && a.Work? && a.c == c && a.i == i && a.fails && c < |n.peers| && i < |n.peers[c].tasks|
    && var pc := n.peers[c].tasks[i].pc; pc.DecodeCall? || pc.RunHandler? || pc.EncodeResult?
  }

  /** In this run the call of goroutine i of c could not be decoded, its handler failed, or its result could not be encoded. */
  ghost predicate CallFailed(w: World, run: seq<NetAction>, c: nat, i: nat) {
    Happened(w, run, (n, a) => Failing(n, a, c, i))
  }

  /** An error if the call failed, a response if not. */
  predicate KindFits(kind: Kind, failed: bool) {
    if failed then kind.KindError? else kind.KindResponse?
  }

  /** Where the goroutine stands fits whether its call has failed. */
  predicate PcFits(pc: TaskPc, failed: bool) {
    match pc
    case EncodeError => failed
    case EncodeReply(reply, _) => KindFits(reply.kind, failed)
    case CheckOpen(reply, _) => KindFits(reply.kind, failed)
    case WriteFrame(reply, _) => KindFits(reply.kind, failed)
    case CloseTransport => true
    case Ended => true
    case _ => !failed
  }

  /** So does the frame it wrote, if it wrote one. */
  ghost predicate FrameFits(w: World, n: Net, c: nat, i: nat, failed: bool)
    requires c < |n.peers|
  {
    forall j :: 0 <= j < |n.peers[c].sent| && n.peers[c].sent[j].origin.ReplyTo? && n.peers[c].sent[j].origin.task == i ==>
      && w.codec.decodeFrame(n.peers[c].sent[j].bytes).Some?
      && KindFits(w.codec.decodeFrame(n.peers[c].sent[j].bytes).value.envelope.kind, failed)
  }

  ghost predicate FailureIs(w: World, n: Net, c: nat, i: nat, failed: bool) {
    if c < |n.peers| && i < |n.peers[c].tasks|
    then PcFits(n.peers[c].tasks[i].pc, failed) && FrameFits(w, n, c, i, failed)
    else !failed
  }

  /** No frame names a goroutine that is not there or has not ended. */
  lemma NothingWrittenYet(w: World, n: Net, c: nat, i: nat, failed: bool)
    requires NetInv(w, n) && c < |n.peers| && (i < |n.peers[c].tasks| ==> !n.peers[c].tasks[i].pc.Ended?)
    ensures FrameFits(w, n, c, i, failed)
  {
    forall j | 0 <= j < |n.peers[c].sent|
      ensures !(n.peers[c].sent[j].origin.ReplyTo? && n.peers[c].sent[j].origin.task == i)
    {
      assert IsSent(n, c, j) && SentOk(w, n, c, j);
    }
  }

  /** The goroutine's next place fits, failure of this very step included. */
  lemma NextPcFits(peer: Peer, task: Task, fails: bool, body: Bytes, failed: bool)
    requires PcFits(task.pc, failed) && !Finished(task.pc)
    ensures var failing := fails && (task.pc.DecodeCall? || task.pc.RunHandler? || task.pc.EncodeResult?);
            PcFits(NextPc(peer, task, fails, body), failed || failing)
  {
  }

  lemma OwnWorkFits(w: World, n: Net, a: NetAction, c: nat, i: nat, failed: bool)
    requires NetInv(w, n) && a.Work? && a.c == c && a.i == i && Step(w, n, a).Some? && FailureIs(w, n, c, i, failed)
    ensures FailureIs(w, Step(w, n, a).value, c, i, failed || Failing(n, a, c, i))
  {
    WorkEffect(w, n, c, i, a.fails, a.body);
    var m := Step(w, n, a).value;
    NextPcFits(n.peers[c], n.peers[c].tasks[i], a.fails, a.body, failed);
    if m.peers[c].tasks[i].pc.Ended? {
      OwnFrameFits(w, n, a, c, i, failed);
    } else {
      WorkKeeps(w, n, c, i, a.fails, a.body);
      NothingWrittenYet(w, m, c, i, failed || Failing(n, a, c, i));
    }
  }

  /** The frame a goroutine ends with, if any, is the reply it held. */
  lemma OwnFrameFits(w: World, n: Net, a: NetAction, c: nat, i: nat, failed: bool)
    requires NetInv(w, n) && a.Work? && a.c == c && a.i == i && Step(w, n, a).Some?
    requires c < |n.peers| && i < |n.peers[c].tasks| && PcFits(n.peers[c].tasks[i].pc, failed)
    requires c < |Step(w, n, a).value.peers| && i < |Step(w, n, a).value.peers[c].tasks|
    requires Step(w, n, a).value.peers[c].tasks[i].pc.Ended?
    ensures FrameFits(w, Step(w, n, a).value, c, i, failed)
  {
    WorkEffect(w, n, c, i, a.fails, a.body);
    NothingWrittenYet(w, n, c, i, failed);
    assert TasksOk(w, n, c);
    assert TaskOk(w, n, c, n.peers[c].tasks[i]);
  }

  /** A step that is not its own leaves a goroutine where it is, or starts it. */
  lemma TaskUnmoved(w: World, n: Net, a: NetAction, c: nat, i: nat)
    requires Step(w, n, a).Some? && !(a.Work? && a.c == c && a.i == i)
    requires c < |Step(w, n, a).value.peers| && i < |Step(w, n, a).value.peers[c].tasks|
    ensures var m := Step(w, n, a).value;
            if c < |n.peers| && i < |n.peers[c].tasks| then m.peers[c].tasks[i] == n.peers[c].tasks[i]
            else m.peers[c].tasks[i].pc.Dispatch?
  {
  }

  lemma TaskStays(w: World, n: Net, a: NetAction, c: nat, i: nat)
    requires Step(w, n, a).Some? && c < |n.peers| && i < |n.peers[c].tasks|
    ensures c < |Step(w, n, a).value.peers| && i < |Step(w, n, a).value.peers[c].tasks|
  {
  }

  lemma OtherStepFits(w: World, n: Net, a: NetAction, c: nat, i: nat, failed: bool)
    requires Step(w, n, a).Some? && NetInv(w, Step(w, n, a).value) && FailureIs(w, n, c, i, failed)
    requires !(a.Work? && a.c == c && a.i == i)
    ensures FailureIs(w, Step(w, n, a).value, c, i, failed)
  {
    var m := Step(w, n, a).value;
    if c < |n.peers| && i < |n.peers[c].tasks| {
      TaskStays(w, n, a, c, i);
    }
    if c < |m.peers| && i < |m.peers[c].tasks| {
      TaskUnmoved(w, n, a, c, i);
      if m.peers[c].tasks[i].pc.Ended? {
        OtherFramesFit(w, n, a, c, i, failed);
      } else {
        NothingWrittenYet(w, m, c, i, failed);
      }
    }
  }

  lemma OtherFramesFit(w: World, n: Net, a: NetAction, c: nat, i: nat, failed: bool)
    requires Step(w, n, a).Some? && c < |n.peers| && FrameFits(w, n, c, i, failed)
    requires !(a.Work? && a.c == c && a.i == i)
    ensures c < |Step(w, n, a).value.peers| && FrameFits(w, Step(w, n, a).value, c, i, failed)
  {
  }

  lemma {:induction false} FailureExactly(w: World, run: seq<NetAction>, c: nat, i: nat)
    requires Exec(w, run).Some?
    ensures FailureIs(w, Exec(w, run).value, c, i, CallFailed(w, run, c, i))
  {
    if run != [] {
      var init, a := run[..|run| - 1], run[|run| - 1];
      var n := Exec(w, init).value;
      FailureExactly(w, init, c, i);
      HappenedGrows(w, run, (n, a) => Failing(n, a, c, i));
      RunKeeps(w, init);
      RunKeeps(w, run);
      if a.Work? && a.c == c && a.i == i {
        OwnWorkFits(w, n, a, c, i, CallFailed(w, init, c, i));
      } else {
        OtherStepFits(w, n, a, c, i, CallFailed(w, init, c, i));
      }
    }
  }

  /** A reply to a call is an error exactly when decoding it, handling it or encoding its result failed in this run; otherwise a response. */
  lemma ReplyKindExactly(w: World, run: seq<NetAction>, c: nat, i: nat, j: nat)
    requires Exec(w, run).Some?
    requires c < |Exec(w, run).value.peers| && i < |Exec(w, run).value.peers[c].tasks|
    requires Replies(Exec(w, run).value, c, j, Exec(w, run).value.peers[c].tasks[i].k)
    ensures var n := Exec(w, run).value;
            && w.codec.decodeFrame(n.peers[c].sent[j].bytes).Some?
            && KindFits(EnvOf(w, n, c, j).kind, CallFailed(w, run, c, i))
  {
    RunKeeps(w, run);
    FailureExactly(w, run, c, i);
    var n := Exec(w, run).value;
    assert SentOk(w, n, c, j);
    var other := n.peers[c].sent[j].origin.task;
    assert TasksOk(w, n, c);
    assert other == i;
  }

  // ----- why a service closes

  /**
    * In this state this action makes service c close: an order, a disconnect frame, a frame of a kind it does
    * not know, or a reply that could not be encoded or written. A failed call is no reason.
    */
  predicate Closes(w: World, n: Net, a: NetAction, c: nat) {
    && c < |n.peers|
    && (|| a == Shut(c)
        || (&& a.Hear? && a.c == c && a.k < |n.router.log|
            && FrameOf(w, n.router.log[a.k].payload).Some?
            && FrameOf(w, n.router.log[a.k].payload).value.envelope.kind.KindDisconnect?)
        || (a.Work? && a.c == c && a.i < |n.peers[c].tasks| && ClosesTask(n.peers[c].tasks[a.i], a.fails)))
  }

  predicate ClosesTask(task: Task, fails: bool) {
    var kind := task.frame.envelope.kind;
    || (task.pc.Dispatch? && (kind.KindDisconnect? || kind.KindRegister? || kind.KindOther?))
    || (fails && (task.pc.EncodeError? || task.pc.EncodeReply? || task.pc.WriteFrame?))
  }

  ghost predicate ClosedBy(w: World, run: seq<NetAction>, c: nat) {
    Happened(w, run, (n, a) => Closes(w, n, a, c))
  }

  /** The service is closed, or this goroutine of it is about to close it. */
  predicate ClosingTask(n: Net, c: nat, i: nat) {
    c < |n.peers| && (n.peers[c].closed || (i < |n.peers[c].tasks| && n.peers[c].tasks[i].pc.CloseTransport?))
  }

  lemma ClosingStep(w: World, n: Net, a: NetAction, c: nat, i: nat)
    requires Step(w, n, a).Some? && ClosingTask(Step(w, n, a).value, c, i)
    ensures ClosingTask(n, c, i) || Closes(w, n, a, c) || (a.Work? && a.c == c && ClosingTask(n, c, a.i))
  {
    if a.Work? {
      WorkEffect(w, n, a.c, a.i, a.fails, a.body);
    }
  }

  /** A service that has closed, or a goroutine about to close it, had one of these reasons in this run. */
  lemma {:induction false} ClosesForReason(w: World, run: seq<NetAction>, c: nat, i: nat)
    requires Exec(w, run).Some? && ClosingTask(Exec(w, run).value, c, i)
    ensures ClosedBy(w, run, c)
  {
    if run != [] {
      var init, a := run[..|run| - 1], run[|run| - 1];
      var n := Exec(w, init).value;
      ClosingStep(w, n, a, c, i);
      HappenedGrows(w, run, (n, a) => Closes(w, n, a, c));
      if ClosingTask(n, c, i) {
        ClosesForReason(w, init, c, i);
      } else if a.Work? && a.c == c && ClosingTask(n, c, a.i) {
        ClosesForReason(w, init, c, a.i);
      }
    }
  }

  // ----- a closed service stops writing

  /** Goroutine i of c finds its service open just before it writes. */
  predicate FindsOpen(n: Net, a: NetAction, c: nat, i: nat) {
    && a.Work? && a.c == c && a.i == i && c < |n.peers| && i < |n.peers[c].tasks|
    && n.peers[c].tasks[i].pc.CheckOpen? && !n.peers[c].closed
  }

  lemma WriteNeedsOpen(w: World, n: Net, a: NetAction, c: nat, i: nat)
    requires Step(w, n, a).Some? && c < |Step(w, n, a).value.peers| && i < |Step(w, n, a).value.peers[c].tasks|
    requires Step(w, n, a).value.peers[c].tasks[i].pc.WriteFrame?
    ensures FindsOpen(n, a, c, i) || (c < |n.peers| && i < |n.peers[c].tasks| && n.peers[c].tasks[i].pc.WriteFrame?)
  {
    if a.Work? && a.c == c && a.i == i {
      WorkEffect(w, n, c, i, a.fails, a.body);
    } else {
      TaskUnmoved(w, n, a, c, i);
    }
  }

  /** A goroutine that is about to write its reply has found the service open in this run. */
  lemma {:induction false} WritesWhenOpen(w: World, run: seq<NetAction>, c: nat, i: nat)
    requires Exec(w, run).Some? && c < |Exec(w, run).value.peers| && i < |Exec(w, run).value.peers[c].tasks|
    requires Exec(w, run).value.peers[c].tasks[i].pc.WriteFrame?
    ensures Happened(w, run, (n, a) => FindsOpen(n, a, c, i))
  {
    if run != [] {
      var init, a := run[..|run| - 1], run[|run| - 1];
      var n := Exec(w, init).value;
      WriteNeedsOpen(w, n, a, c, i);
      HappenedGrows(w, run, (n, a) => FindsOpen(n, a, c, i));
      if !FindsOpen(n, a, c, i) {
        WritesWhenOpen(w, init, c, i);
      }
    }
  }

  // ----- when a peer runs and when it is closed

  /** The dial of c takes an accepting response as its first frame. */
  predicate TakesAck(w: World, n: Net, a: NetAction, c: nat) {
    && a.Hear? && a.c == c && a.accepted && c < |n.peers| && n.peers[c].dial.Registering?
    && a.k < |n.router.log| && FrameOf(w, n.router.log[a.k].payload).Some?
    && FrameOf(w, n.router.log[a.k].payload).value.envelope.kind.KindResponse?
  }

  predicate IsRunning(n: Net, c: nat) {
    c < |n.peers| && n.peers[c].dial.Running?
  }

  lemma RunningStep(w: World, n: Net, a: NetAction, c: nat)
    requires Step(w, n, a).Some?
    ensures IsRunning(Step(w, n, a).value, c) <==> IsRunning(n, c) || TakesAck(w, n, a, c)
  {
  }

  /** A peer's read loop runs exactly when the first frame its dial took was an accepting response. */
  lemma {:induction false} RunsExactly(w: World, run: seq<NetAction>, c: nat)
    requires Exec(w, run).Some?
    ensures IsRunning(Exec(w, run).value, c) <==> Happened(w, run, (n, a) => TakesAck(w, n, a, c))
  {
    if run != [] {
      var init, a := run[..|run| - 1], run[|run| - 1];
      RunsExactly(w, init, c);
      RunningStep(w, Exec(w, init).value, a, c);
      HappenedGrows(w, run, (n, a) => TakesAck(w, n, a, c));
    }
  }

  /** An order to close, a disconnect frame read by a service, or a goroutine that has come to closing. */
  predicate ShutsDown(w: World, n: Net, a: NetAction, c: nat) {
    && c < |n.peers|
    && (|| a == Shut(c)
        || (&& a.Hear? && a.c == c && n.peers[c].dial.Running? && !n.peers[c].isCaller && a.k < |n.router.log|
            && FrameOf(w, n.router.log[a.k].payload).Some?
            && FrameOf(w, n.router.log[a.k].payload).value.envelope.kind.KindDisconnect?)
        || (a.Work? && a.c == c && a.i < |n.peers[c].tasks| && n.peers[c].tasks[a.i].pc.CloseTransport?))
  }

  predicate IsClosed(n: Net, c: nat) {
    c < |n.peers| && n.peers[c].closed
  }

  lemma ClosedStep(w: World, n: Net, a: NetAction, c: nat)
    requires Step(w, n, a).Some?
    ensures IsClosed(Step(w, n, a).value, c) <==> IsClosed(n, c) || ShutsDown(w, n, a, c)
  {
  }

  /** A peer is closed exactly when one of these has happened in the run. */
  lemma {:induction false} ClosedExactly(w: World, run: seq<NetAction>, c: nat)
    requires Exec(w, run).Some?
    ensures IsClosed(Exec(w, run).value, c) <==> Happened(w, run, (n, a) => ShutsDown(w, n, a, c))
  {
    if run != [] {
      var init, a := run[..|run| - 1], run[|run| - 1];
      ClosedExactly(w, init, c);
      ClosedStep(w, Exec(w, init).value, a, c);
      HappenedGrows(w, run, (n, a) => ShutsDown(w, n, a, c));
    }
  }

  /** A goroutine comes to closing exactly by one of its reasons, once it is dispatched, or because it finds its service closed. */
  lemma ClosingTurnExactly(peer: Peer, task: Task, fails: bool, body: Bytes)
    requires !task.pc.CloseTransport?
    ensures NextPc(peer, task, fails, body).CloseTransport?
       <==> (ClosesTask(task, fails) && (task.pc.Dispatch? ==> peer.ready)) || (task.pc.CheckOpen? && peer.closed)
  {
  }

  /** Nothing has been requested, and nothing dispatched. */
  predicate Untouched(peer: Peer) {
    peer.transport.requests == [] && peer.tasks == []
  }

  lemma UntouchedStep(w: World, n: Net, a: NetAction, c: nat)
    requires Step(w, n, a).Some? && c < |Step(w, n, a).value.peers| && !Step(w, n, a).value.peers[c].dial.Running?
    requires c < |n.peers| && !n.peers[c].dial.Running? ==> Untouched(n.peers[c])
    ensures Untouched(Step(w, n, a).value.peers[c])
  {
  }

  /** Until its dial has succeeded a peer makes no request and serves no frame. */
  lemma {:induction false} NothingBeforeTheAck(w: World, run: seq<NetAction>, c: nat)
    requires Exec(w, run).Some? && c < |Exec(w, run).value.peers| && !Exec(w, run).value.peers[c].dial.Running?
    ensures Untouched(Exec(w, run).value.peers[c])
  {
    if run != [] {
      var init, a := run[..|run| - 1], run[|run| - 1];
      var n := Exec(w, init).value;
      if c < |n.peers| && !n.peers[c].dial.Running? {
        NothingBeforeTheAck(w, init, c);
      }
      UntouchedStep(w, n, a, c);
    }
  }
}
