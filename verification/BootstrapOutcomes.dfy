/** What a bootstrapping process tells its caller, and what it did on the way. */
module BootstrapOutcomes {
  import opened Wire
  import opened LockFile
  import opened Bootstrap

  /** The k-th action of the run was a move of process p, in the state it met. */
  predicate MovesAt(run: seq<Action>, k: nat, p: nat)
    requires k < |run|
  {
    run[k].Move? && run[k].p == p && Exec(run[..k]).Some? && p < |Exec(run[..k]).value.procs|
  }

  /** It was a probe that found a router on the process's own port. */
  predicate FindsAt(run: seq<Action>, k: nat, p: nat)
    requires k < |run|
  {
    MovesAt(run, k, p) && Finds(Exec(run[..k]).value, p)
  }

  predicate Finds(s: State, p: nat)
    requires p < |s.procs|
  {
    var proc := s.procs[p];
    (proc.pc.Probe? || proc.pc.PollOnly? || proc.pc.Reprobe? || proc.pc.AwaitReady?) && proc.port in s.up
  }

  /** It was a step that failed or timed out. */
  predicate FailsAt(run: seq<Action>, k: nat, p: nat)
    requires k < |run|
  {
    MovesAt(run, k, p) && run[k].fails
  }

  ghost predicate Found(run: seq<Action>, p: nat) {
    exists k :: 0 <= k < |run| && FindsAt(run, k, p)
  }

  ghost predicate Failed(run: seq<Action>, p: nat) {
    exists k :: 0 <= k < |run| && FailsAt(run, k, p)
  }

  lemma HistoryGrows(run: seq<Action>, p: nat)
    requires run != []
    ensures Found(run[..|run| - 1], p) || FindsAt(run, |run| - 1, p) ==> Found(run, p)
    ensures Failed(run[..|run| - 1], p) || FailsAt(run, |run| - 1, p) ==> Failed(run, p)
  {
    var init := run[..|run| - 1];
    assert forall k :: 0 <= k < |init| ==> init[..k] == run[..k] && init[k] == run[k];
    if Found(init, p) {
      var k :| 0 <= k < |init| && FindsAt(init, k, p);
      assert FindsAt(run, k, p);
    }
    if Failed(init, p) {
      var k :| 0 <= k < |init| && FailsAt(init, k, p);
      assert FailsAt(run, k, p);
    }
  }

  /** The process is set to report success, or failure. */
  predicate Succeeding(pc: Pc) {
    pc == Exited(true) || pc == Release(true) || pc.RecordReady?
  }

  predicate Failing(pc: Pc) {
    pc == Exited(false) || pc == Release(false) || pc.RecordFailed?
  }

  /** A process turns to success only by finding its router, to failure only by a step that fails. */
  lemma TurnsForReason(s: State, a: Action, p: nat)
    requires Step(s, a).Some? && p < |Step(s, a).value.procs|
    ensures var pc := Step(s, a).value.procs[p].pc;
            && (Succeeding(pc) ==>
                  p < |s.procs| && (Succeeding(s.procs[p].pc) || (a.Move? && a.p == p && Finds(s, p))))
            && (Failing(pc) ==>
                  p < |s.procs| && (Failing(s.procs[p].pc) || (a.Move? && a.p == p && a.fails)))
  {
    if p < |s.procs| && s.procs[p].pc.EvaluateLock? {
      NeverThrows(s.procs[p].lang, s.file, s.now, Alive(s.dead));
    }
  }

  lemma NeverThrows(lang: Lang, file: Option<Fields>, now: real, alive: int -> bool)
    ensures !Evaluate(lang, ContentOf(file), now, alive).Throws?
  {
  }

  /**
    * A process reports success only after it found a router on its own port, and failure only after a
    * step of its own failed or timed out, in every run and for every binding.
    */
  lemma {:induction false} OutcomesAreEarned(run: seq<Action>, p: nat)
    requires Exec(run).Some? && p < |Exec(run).value.procs|
    ensures Succeeding(Exec(run).value.procs[p].pc) ==> Found(run, p)
    ensures Failing(Exec(run).value.procs[p].pc) ==> Failed(run, p)
  {
    if run != [] {
      var init, last := run[..|run| - 1], |run| - 1;
      var s := Exec(init).value;
      TurnsForReason(s, run[last], p);
      HistoryGrows(run, p);
      if p < |s.procs| {
        OutcomesAreEarned(init, p);
      }
    }
  }

  // ----- what a process does with the lock

  /** The verdict decides: a stale record is to be removed, a live router waited for, anything else retried until time is up. */
  lemma EvaluationExactly(s: State, p: nat, fails: bool, router: int, lifetime: real)
    requires p < |s.procs| && s.procs[p].pc.EvaluateLock?
    requires s.file.Some? && Written(s.file.value) && FitsPort(s.file.value.port.value)
    ensures var proc, f := s.procs[p], s.file.value;
            var next :=
              if Stale(f, s.now, Alive(s.dead)) then Unlink
              else if f.routerPid.Value? && f.routerPid.n !in s.dead then PollOnly
              else if fails && !proc.lang.Php? && !proc.lang.Python? then Exited(false)
              else TryCreate;
            Step(s, Move(p, fails, router, lifetime)) == Some(s.(procs := s.procs[p := proc.(pc := next)]))
  {
    VerdictExactly(s.file.value, s.procs[p].lang, s.now, Alive(s.dead));
  }

  /** The state after a move of p, or the same state if it cannot move. */
  function After(s: State, p: nat, fails: bool, router: int, lifetime: real): State {
    var t := Step(s, Move(p, fails, router, lifetime));
    if t.Some? then t.value else s
  }

  /** A process that finds no router and no file holds the lock with its own record. */
  lemma FreeLockIsTaken(s: State, p: nat, router: int, lifetime: real)
    requires p < |s.procs| && s.procs[p].pc.Probe? && s.procs[p].port !in s.up && s.file.None?
    ensures var proc := s.procs[p];
            var record := Created(proc.lang, proc.pid, proc.port, s.now, lifetime);
            After(After(s, p, false, router, lifetime), p, false, router, lifetime)
            == s.(file := Some(record), procs := s.procs[p := proc.(pc := Reprobe, data := Some(record))])
  {
    var trying := After(s, p, false, router, lifetime);
    assert trying.procs[p].pc == TryCreate;
  }

  /** A holder that still finds no router spawns one, once, and notes its pid in the file. */
  lemma HolderSpawns(s: State, p: nat, router: int, lifetime: real)
    requires p < |s.procs| && s.procs[p].pc.Reprobe? && s.procs[p].port !in s.up
    requires s.file.Some? && s.procs[p].data == s.file
    ensures var proc := s.procs[p];
            var record := s.file.value.(routerPid := Value(router));
            After(After(After(s, p, false, router, lifetime), p, false, router, lifetime), p, false, router, lifetime)
            == s.(file := Some(record),
                  procs := s.procs[p := proc.(pc := AwaitReady, data := Some(record), spawned := proc.spawned + 1)])
  {
    var proc := s.procs[p];
    var ready := After(s, p, false, router, lifetime);
    assert ready == s.(procs := s.procs[p := proc.(pc := Spawn)]);
    var spawned := After(ready, p, false, router, lifetime);
    assert spawned == s.(procs := s.procs[p := proc.(pc := RecordPid(router), spawned := proc.spawned + 1)]);
  }

  /** Once its router answers, the holder marks the file ready, removes it and reports success. */
  lemma ReadyIsRecorded(s: State, p: nat, router: int, lifetime: real)
    requires p < |s.procs| && s.procs[p].pc.AwaitReady? && s.procs[p].port in s.up
    requires s.file.Some? && s.procs[p].data == s.file
    ensures var proc := s.procs[p];
            var record := s.file.value.(status := Some("ready"));
            var marked := After(After(s, p, false, router, lifetime), p, false, router, lifetime);
            && marked.file == Some(record)
            && After(marked, p, false, router, lifetime)
               == s.(file := None, procs := s.procs[p := proc.(pc := Exited(true), data := Some(record))])
  {
    var proc := s.procs[p];
    var found := After(s, p, false, router, lifetime);
    assert found == s.(procs := s.procs[p := proc.(pc := RecordReady)]);
  }

  /** A router that does not come up in time leaves the file marked failed before it is removed, and failure is reported. */
  lemma FailureIsRecorded(s: State, p: nat, router: int, lifetime: real)
    requires p < |s.procs| && s.procs[p].pc.AwaitReady? && s.procs[p].data.Some? && s.file == s.procs[p].data
    requires s.procs[p].port !in s.up
    ensures var marked := After(After(s, p, true, router, lifetime), p, true, router, lifetime);
            && marked.file == Some(s.file.value.(status := Some(FAILED)))
            && |marked.procs| == |s.procs|
            && After(marked, p, true, router, lifetime).file == None
            && After(marked, p, true, router, lifetime).procs == marked.procs[p := marked.procs[p].(pc := Exited(false))]
  {
  }

  /** A stale lock is taken over: whoever finds it evaluates it, removes it and creates its own. */
  lemma StaleIsTakenOver(s: State, p: nat, router: int, lifetime: real)
    requires p < |s.procs| && s.procs[p].pc.TryCreate?
    requires s.file.Some? && Written(s.file.value) && FitsPort(s.file.value.port.value)
    requires Stale(s.file.value, s.now, Alive(s.dead))
    ensures var proc := s.procs[p];
            var record := Created(proc.lang, proc.pid, proc.port, s.now, lifetime);
            var judging := After(s, p, false, router, lifetime);
            var removing := After(judging, p, false, router, lifetime);
            var retrying := After(removing, p, false, router, lifetime);
            var holding := After(retrying, p, false, router, lifetime);
            && judging.file == s.file && removing.file == s.file && retrying.file == None
            && holding == s.(file := Some(record), procs := s.procs[p := proc.(pc := Reprobe, data := Some(record))])
  {
    var judging := After(s, p, false, router, lifetime);
    EvaluationExactly(judging, p, false, router, lifetime);
    var removing := After(judging, p, false, router, lifetime);
    assert removing.procs[p].pc == Unlink;
  }

  /** A process that finds its router at its first probe, or while it polls for another's, succeeds without touching the file. */
  lemma FoundWithoutLock(s: State, p: nat, fails: bool, router: int, lifetime: real)
    requires p < |s.procs| && (s.procs[p].pc.Probe? || s.procs[p].pc.PollOnly?) && s.procs[p].port in s.up
    ensures After(s, p, fails, router, lifetime) == s.(procs := s.procs[p := s.procs[p].(pc := Exited(true))])
  {
  }

  /** A holder that finds a router at its second probe spawns none: it removes the file, marked ready first unless it is PHP. */
  lemma FoundUnderLock(s: State, p: nat, router: int, lifetime: real)
    requires p < |s.procs| && s.procs[p].pc.Reprobe? && s.procs[p].port in s.up
    requires s.file.Some? && s.procs[p].data == s.file
    ensures var releasing := if s.procs[p].lang.Php? then After(s, p, false, router, lifetime)
                             else After(After(s, p, false, router, lifetime), p, false, router, lifetime);
            var done := After(releasing, p, false, router, lifetime);
            && releasing.file == (if s.procs[p].lang.Php? then s.file else Some(s.file.value.(status := Some("ready"))))
            && done.file == None && |done.procs| == |s.procs|
            && done.procs[p].pc == Exited(true) && done.procs[p].spawned == s.procs[p].spawned
  {
  }

  /** A spawn that fails is reported as a failure and removes the file, marked failed first unless it is Rust. */
  lemma FailedSpawn(s: State, p: nat, router: int, lifetime: real)
    requires p < |s.procs| && s.procs[p].pc.Spawn? && s.file.Some? && s.procs[p].data == s.file
    ensures var releasing := if s.procs[p].lang.Rust? then After(s, p, true, router, lifetime)
                             else After(After(s, p, true, router, lifetime), p, true, router, lifetime);
            var done := After(releasing, p, true, router, lifetime);
            && releasing.file == (if s.procs[p].lang.Rust? then s.file else Some(s.file.value.(status := Some(FAILED))))
            && done.file == None && |done.procs| == |s.procs|
            && done.procs[p].pc == Exited(false) && done.procs[p].spawned == s.procs[p].spawned
  {
  }

  /** When waiting without the lock ends in a timeout: before a create in PHP, after a failed one in Python, after a wait verdict elsewhere. */
  lemma TimesOutExactly(s: State, p: nat, router: int, lifetime: real)
    requires p < |s.procs| && BeforeLock(s.procs[p].pc)
    ensures var proc := s.procs[p];
            Step(s, Move(p, true, router, lifetime)) == Some(s.(procs := s.procs[p := proc.(pc := Exited(false))]))
            <==>
            match proc.pc
            case TryCreate => proc.lang.Php? || (proc.lang.Python? && s.file.Some?)
            case EvaluateLock =>
              && (proc.lang.Rust? || proc.lang.Go? || proc.lang.JavaScript?)
              && Evaluate(proc.lang, ContentOf(s.file), s.now, Alive(s.dead)).Wait?
            case PollOnly => proc.port !in s.up
            case _ => false
  {
    var proc := s.procs[p];
    var gone := s.procs[p := proc.(pc := Exited(false))];
    assert gone[p].pc == Exited(false);
    NeverThrows(proc.lang, s.file, s.now, Alive(s.dead));
    var t := Step(s, Move(p, true, router, lifetime));
    if t.Some? && p < |t.value.procs| && t.value.procs[p].pc != Exited(false) {
      assert t.value.procs != gone;
    }
  }
}
