/** Looking back along a run of the router: which earlier step a frame or a record came from. */
module RouterHistory {
  import opened Wire
  import opened Registry
  import opened Router
  import opened RouterInvariants

  /** The state before the j-th action of a run. */
  function StateAt(codec: Codec, run: seq<Action>, j: nat): State {
    if j <= |run| && Exec(codec, run[..j]).Some? then Exec(codec, run[..j]).value else INIT
  }

  lemma {:induction false} PrefixRuns(codec: Codec, run: seq<Action>, j: nat)
    requires Exec(codec, run).Some? && j <= |run|
    ensures Exec(codec, run[..j]).Some?
    decreases |run|
  {
    if j == |run| {
      assert run[..j] == run;
    } else {
      assert run[..|run| - 1][..j] == run[..j];
      PrefixRuns(codec, run[..|run| - 1], j);
    }
  }

  /** Every state along a run satisfies the invariant, and each action leads to the next. */
  lemma Along(codec: Codec, run: seq<Action>, j: nat)
    requires Exec(codec, run).Some? && j <= |run|
    ensures Exec(codec, run[..j]) == Some(StateAt(codec, run, j)) && Inv(codec, StateAt(codec, run, j))
    ensures j < |run| ==> Step(codec, StateAt(codec, run, j), run[j]) == Some(StateAt(codec, run, j + 1))
    ensures StateAt(codec, run, |run|) == Exec(codec, run).value
  {
    PrefixRuns(codec, run, j);
    RunKeeps(codec, run[..j]);
    assert run[..|run|] == run;
    if j < |run| {
      PrefixRuns(codec, run, j + 1);
      assert run[..j + 1][..j] == run[..j];
    }
  }

  lemma AtStart(codec: Codec, run: seq<Action>)
    ensures StateAt(codec, run, 0) == INIT
  {
    assert run[..0] == [];
  }

  // ----- what a step cannot take back

  /** The connection is on its way out and will not loop again. */
  predicate Leaving(pc: Pc) {
    pc.Cleanup? || pc.Done? || pc.DisconnectRemove? || (pc.Sending? && pc.after.Finish?)
  }

  predicate ConnLasts(a: Conn, b: Conn) {
    && a.intake <= b.intake
    && (a.registered.Some? ==> b.registered == a.registered)
    && (Leaving(a.pc) ==> Leaving(b.pc) && b.registered == a.registered)
  }

  predicate Lasts(s: State, t: State) {
    && s.log <= t.log
    && |s.conns| <= |t.conns|
    && forall c :: 0 <= c < |s.conns| ==> ConnLasts(s.conns[c], t.conns[c])
  }

  lemma TakeLasts(codec: Codec, conn: Conn, message: Message, now: Timestamp)
    requires conn.pc.AwaitRegister? || (conn.pc.Looping? && conn.registered.Some?)
    ensures ConnLasts(conn, if conn.pc.AwaitRegister? then TakeFirst(codec, conn, message, now)
                            else TakeNext(codec, conn, message, now))
  {
  }

  lemma AdvanceLasts(codec: Codec, s: State, id: ConnId, now: Timestamp)
    requires id < |s.conns| && ConnOk(codec, s.conns, s.conns[id])
    requires Advance(s.peers, id, s.conns[id], now).Some?
    ensures ConnLasts(s.conns[id], Advance(s.peers, id, s.conns[id], now).value.0)
  {
  }

  lemma StepLasts(codec: Codec, s: State, a: Action)
    requires Inv(codec, s) && Step(codec, s, a).Some?
    ensures Lasts(s, Step(codec, s, a).value)
  {
    match a
    case Receive(id, message, now) => TakeLasts(codec, s.conns[id], message, now);
    case Proceed(id, ok, now) =>
      if !s.conns[id].pc.Sending? && !s.conns[id].pc.Forwarding? {
        AdvanceLasts(codec, s, id, now);
      }
    case _ =>
  }

  lemma {:induction false} RunLasts(codec: Codec, run: seq<Action>, i: nat, j: nat)
    requires Exec(codec, run).Some? && i <= j <= |run|
    ensures Lasts(StateAt(codec, run, i), StateAt(codec, run, j))
    decreases j - i
  {
    if i < j {
      RunLasts(codec, run, i, j - 1);
      Along(codec, run, j - 1);
      StepLasts(codec, StateAt(codec, run, j - 1), run[j - 1]);
      LastsChains(StateAt(codec, run, i), StateAt(codec, run, j - 1), StateAt(codec, run, j));
    }
  }

  lemma LastsChains(s: State, t: State, u: State)
    requires Lasts(s, t) && Lasts(t, u)
    ensures Lasts(s, u)
  {
    forall c | 0 <= c < |s.conns|
      ensures ConnLasts(s.conns[c], u.conns[c])
    {
      assert ConnLasts(s.conns[c], t.conns[c]) && ConnLasts(t.conns[c], u.conns[c]);
    }
  }

  /** The two facts about one connection that looking back needs. */
  lemma ConnAt(codec: Codec, run: seq<Action>, i: nat, j: nat, c: ConnId)
    requires Exec(codec, run).Some? && i <= j <= |run| && c < |StateAt(codec, run, i).conns|
    ensures ConnOk(codec, StateAt(codec, run, i).conns, StateAt(codec, run, i).conns[c])
    ensures c < |StateAt(codec, run, j).conns|
    ensures ConnLasts(StateAt(codec, run, i).conns[c], StateAt(codec, run, j).conns[c])
  {
    Along(codec, run, i);
    RunLasts(codec, run, i, j);
  }

  // ----- where a written frame came from

  /** In this state this action writes exactly this frame. */
  predicate Writes(s: State, a: Action, w: Write) {
    && a.Proceed? && a.ok && a.conn == w.src && w.src < |s.conns|
    && var conn := s.conns[w.src];
       || (conn.pc.Sending? && w == Write(w.src, w.src, LastIndex(conn), Made(conn.pc.reply, conn.pc.body), None))
       || (conn.pc.Forwarding? && w == Write(conn.pc.target, w.src, LastIndex(conn), Raw(conn.pc.raw), conn.pc.seen))
  }

  lemma StepWrites(codec: Codec, s: State, a: Action)
    requires Step(codec, s, a).Some?
    ensures var t := Step(codec, s, a).value;
            t.log == s.log || (|t.log| == |s.log| + 1 && t.log == s.log + [t.log[|s.log|]] && Writes(s, a, t.log[|s.log|]))
  {
  }

  /** The step of a run that wrote its k-th frame. */
  lemma {:induction false} WrittenAt(codec: Codec, run: seq<Action>, j: nat, k: nat) returns (i: nat)
    requires Exec(codec, run).Some? && j <= |run| && k < |StateAt(codec, run, j).log|
    ensures i < j && StateAt(codec, run, i).log == StateAt(codec, run, j).log[..k]
    ensures Writes(StateAt(codec, run, i), run[i], StateAt(codec, run, j).log[k])
    decreases j
  {
    AtStart(codec, run);
    Along(codec, run, j - 1);
    var s := StateAt(codec, run, j - 1);
    StepWrites(codec, s, run[j - 1]);
    if k < |s.log| {
      i := WrittenAt(codec, run, j - 1, k);
      assert StateAt(codec, run, j).log[..k] == s.log[..k];
    } else {
      i := j - 1;
    }
  }

  /** In this state this action finds, under the frame's `to`, the sink the frame will be forwarded to. */
  predicate LooksUp(s: State, a: Action, w: Write) {
    && a.Proceed? && a.conn == w.src && w.src < |s.conns|
    && var conn := s.conns[w.src];
       && conn.pc.SenderLookup?
       && w == Write(w.sink, w.src, LastIndex(conn), Raw(conn.pc.raw), conn.pc.seen)
       && SenderOf(s.peers, conn.pc.env.to) == Some(w.sink)
  }

  /** The frame a forwarding connection is about to write. */
  function NextWrite(c: ConnId, conn: Conn): Write
    requires conn.pc.Forwarding?
  {
    Write(conn.pc.target, c, LastIndex(conn), Raw(conn.pc.raw), conn.pc.seen)
  }

  lemma ForwardingBegins(codec: Codec, s: State, a: Action, c: ConnId)
    requires Step(codec, s, a).Some?
    requires c < |Step(codec, s, a).value.conns| && Step(codec, s, a).value.conns[c].pc.Forwarding?
    ensures var conn := Step(codec, s, a).value.conns[c];
            (c < |s.conns| && s.conns[c] == conn) || LooksUp(s, a, NextWrite(c, conn))
  {
  }

  lemma {:induction false} ForwardingWasLookedUp(codec: Codec, run: seq<Action>, j: nat, c: ConnId) returns (i: nat)
    requires Exec(codec, run).Some? && j <= |run|
    requires c < |StateAt(codec, run, j).conns| && StateAt(codec, run, j).conns[c].pc.Forwarding?
    ensures i < j && LooksUp(StateAt(codec, run, i), run[i], NextWrite(c, StateAt(codec, run, j).conns[c]))
    decreases j
  {
    AtStart(codec, run);
    Along(codec, run, j - 1);
    var s := StateAt(codec, run, j - 1);
    ForwardingBegins(codec, s, run[j - 1], c);
    if LooksUp(s, run[j - 1], NextWrite(c, StateAt(codec, run, j).conns[c])) {
      i := j - 1;
    } else {
      i := ForwardingWasLookedUp(codec, run, j - 1, c);
    }
  }

  /** Every forwarded frame of a run was looked up in it: the sink held the frame's `to` at that step. */
  lemma ForwardWasLookedUp(codec: Codec, run: seq<Action>, k: nat) returns (i: nat)
    requires Exec(codec, run).Some?
    requires k < |Exec(codec, run).value.log| && Exec(codec, run).value.log[k].payload.Raw?
    ensures i < |run| && LooksUp(StateAt(codec, run, i), run[i], Exec(codec, run).value.log[k])
  {
    Along(codec, run, |run|);
    var j := WrittenAt(codec, run, |run|, k);
    i := ForwardingWasLookedUp(codec, run, j, Exec(codec, run).value.log[k].src);
  }
}
