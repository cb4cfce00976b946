/** From an empty directory at most one process ever spawns a router. */
module SpawnOnce {
  import opened Wire
  import opened LockFile
  import opened Bootstrap

  // ----- the assumptions

  predicate Holding(pc: Pc) {
    !BeforeLock(pc) && !pc.Exited?
  }

  /** A holder is alive and its lock has not expired. */
  predicate HolderHealthy(s: State, p: nat)
    requires p < |s.procs|
  {
    Holding(s.procs[p].pc) ==>
      && s.procs[p].pid !in s.dead
      && s.procs[p].data.Some? && s.procs[p].data.value.expiresAt.Some?
      && s.now <= s.procs[p].data.value.expiresAt.value
  }

  predicate Healthy(s: State) {
    forall p :: 0 <= p < |s.procs| ==> HolderHealthy(s, p)
  }

  /** Pids are ordinary, ports are among these, no holder fails, and a reachable router stays reachable. */
  predicate Calm(s: State, a: Action, ports: set<real>) {
    match a
    case Begin(_, pid, port) => IsPid(pid) && FitsPort(port) && port in ports
    case Move(p, fails, router, _) => IsPid(router) && (fails && p < |s.procs| ==> BeforeLock(s.procs[p].pc))
    case RouterDown(_) => false
    case _ => true
  }

  /** Every action of the run was calm and every state it went through healthy. */
  predicate CalmRun(run: seq<Action>, ports: set<real>) {
    if run == [] then true
    else
      var before := run[..|run| - 1];
      CalmRun(before, ports)
      && Exec(before).Some? && Calm(Exec(before).value, run[|run| - 1], ports)
      && Exec(run).Some? && Healthy(Exec(run).value)
  }

  // ----- the invariant

  /** A process has spawned, or has decided to. */
  predicate Committed(proc: Proc) {
    proc.pc.Spawn? || proc.spawned > 0
  }

  /** Before anyone can reach a router: the one holder's record is in the file, and nobody is about to remove it. */
  predicate Quiet(s: State, holder: Option<nat>) {
    && (forall p :: 0 <= p < |s.procs| && (Holding(s.procs[p].pc) || Committed(s.procs[p])) ==> holder == Some(p))
    && (forall p :: 0 <= p < |s.procs| ==> !s.procs[p].pc.Unlink?)
    && (holder.None? ==> s.file.None? && forall p :: 0 <= p < |s.procs| ==> !s.procs[p].pc.EvaluateLock?)
    && (holder.Some? ==>
          && holder.value < |s.procs|
          && var h := s.procs[holder.value];
             && (h.pc.Reprobe? || h.pc.Spawn? || h.pc.RecordPid? || h.pc.AwaitReady?)
             && h.data.Some? && s.file == h.data
             && Written(h.data.value) && FitsPort(h.data.value.port.value)
             && h.data.value.status == Some("starting")
             && h.data.value.pid == Some(h.pid))
  }

  predicate ProcOk(proc: Proc, port: real) {
    && IsPid(proc.pid) && FitsPort(proc.port) && proc.port == port
    && proc.spawned <= 1
    && (proc.pc.Spawn? || proc.pc.Reprobe? || BeforeLock(proc.pc) ==> proc.spawned == 0)
    && (proc.pc.RecordPid? ==> IsPid(proc.pc.router))
    && (Holding(proc.pc) ==> proc.data.Some?)
  }

  ghost predicate Inv(s: State, port: real) {
    && (forall p :: 0 <= p < |s.procs| ==> ProcOk(s.procs[p], port))
    && (forall p, q :: 0 <= p < q < |s.procs| ==> !(Committed(s.procs[p]) && Committed(s.procs[q])))
    && (port !in s.up ==> exists holder: Option<nat> :: Quiet(s, holder))
  }

  // ----- each calm step keeps it

  /** No binding reclaims the healthy record of a live holder. */
  lemma HealthyLockIsRespected(s: State, holder: nat, lang: Lang)
    requires Quiet(s, Some(holder)) && Healthy(s)
    ensures var verdict := Evaluate(lang, ContentOf(s.file), s.now, Alive(s.dead)); verdict.Wait? || verdict.SkipSpawn?
  {
    var h := s.procs[holder];
    assert HolderHealthy(s, holder);
    assert FitsInt64(h.data.value.pid.value as real);
    assert FitsInt64(h.data.value.port.value);
    assert h.data.value.routerPid.Value? ==> FitsInt64(h.data.value.routerPid.n as real);
  }

  lemma QuietCreate(s: State, port: real, holder: Option<nat>, p: nat, fails: bool, lifetime: real)
    requires Inv(s, port) && port !in s.up && Quiet(s, holder)
    requires p < |s.procs| && s.procs[p].pc.TryCreate?
    ensures Quiet(MoveBeforeLock(s, p, fails, lifetime).value, holder)
         || Quiet(MoveBeforeLock(s, p, fails, lifetime).value, Some(p))
  {
    assert ProcOk(s.procs[p], port);
    if s.file.None? && !(fails && s.procs[p].lang.Php?) {
      assert Quiet(MoveBeforeLock(s, p, fails, lifetime).value, Some(p));
    }
  }

  lemma QuietBeforeLock(s: State, port: real, holder: Option<nat>, p: nat, fails: bool, lifetime: real)
    requires Inv(s, port) && Healthy(s) && port !in s.up && Quiet(s, holder)
    requires p < |s.procs| && BeforeLock(s.procs[p].pc) && MoveBeforeLock(s, p, fails, lifetime).Some?
    ensures exists next: Option<nat> :: Quiet(MoveBeforeLock(s, p, fails, lifetime).value, next)
  {
    var t := MoveBeforeLock(s, p, fails, lifetime).value;
    if s.procs[p].pc.TryCreate? {
      QuietCreate(s, port, holder, p, fails, lifetime);
    } else {
      if s.procs[p].pc.EvaluateLock? {
        HealthyLockIsRespected(s, holder.value, s.procs[p].lang);
      }
      assert Quiet(t, holder);
    }
  }

  lemma QuietHoldingLock(s: State, port: real, holder: Option<nat>, p: nat, router: int)
    requires Inv(s, port) && port !in s.up && Quiet(s, holder) && IsPid(router)
    requires p < |s.procs| && !BeforeLock(s.procs[p].pc) && MoveHoldingLock(s, p, false, router).Some?
    ensures Quiet(MoveHoldingLock(s, p, false, router).value, holder)
  {
    assert ProcOk(s.procs[p], port);
  }

  /** A move changes one process, and only a failed re-probe commits it to spawning. */
  lemma MovedProc(s: State, a: Action, port: real) returns (proc: Proc)
    requires a.Move? && Calm(s, a, {port}) && Step(s, a).Some? && ProcOk(s.procs[a.p], port)
    ensures Step(s, a).value.procs == s.procs[a.p := proc]
    ensures ProcOk(proc, port)
    ensures Committed(proc) ==> Committed(s.procs[a.p]) || (Holding(s.procs[a.p].pc) && port !in s.up)
  {
    proc := Step(s, a).value.procs[a.p];
  }

  lemma MoveKeepsProcs(s: State, a: Action, port: real)
    requires Inv(s, port) && a.Move? && Calm(s, a, {port}) && Step(s, a).Some?
    ensures var t := Step(s, a).value;
            && (forall p :: 0 <= p < |t.procs| ==> ProcOk(t.procs[p], port))
            && (forall p, q :: 0 <= p < q < |t.procs| ==> !(Committed(t.procs[p]) && Committed(t.procs[q])))
  {
    var proc := MovedProc(s, a, port);
    if port !in s.up {
      var holder :| Quiet(s, holder);
    }
  }

  lemma StepKeeps(s: State, a: Action, port: real)
    requires Inv(s, port) && Healthy(s) && Calm(s, a, {port}) && Step(s, a).Some?
    ensures Inv(Step(s, a).value, port)
  {
    var t := Step(s, a).value;
    if a.Move? {
      MoveKeepsProcs(s, a, port);
    }
    if port !in t.up {
      var holder :| Quiet(s, holder);
      if a.Move? {
        if BeforeLock(s.procs[a.p].pc) {
          QuietBeforeLock(s, port, holder, a.p, a.fails, a.lifetime);
        } else {
          QuietHoldingLock(s, port, holder, a.p, a.router);
        }
      } else {
        assert Quiet(t, holder);
      }
    }
  }

  lemma {:induction false} RunKeeps(run: seq<Action>, port: real)
    requires CalmRun(run, {port})
    ensures Exec(run).Some? && Inv(Exec(run).value, port) && Healthy(Exec(run).value)
  {
    if run == [] {
      assert Quiet(START, None);
    } else {
      RunKeeps(run[..|run| - 1], port);
      StepKeeps(Exec(run[..|run| - 1]).value, run[|run| - 1], port);
    }
  }

  lemma {:induction false} SpawnsOfFew(procs: seq<Proc>)
    requires forall p :: 0 <= p < |procs| ==> procs[p].spawned <= 1
    requires forall p, q :: 0 <= p < q < |procs| ==> !(procs[p].spawned > 0 && procs[q].spawned > 0)
    ensures Spawns(procs) <= 1
    ensures Spawns(procs) > 0 ==> exists p :: 0 <= p < |procs| && procs[p].spawned > 0
  {
    if procs != [] {
      var last := |procs| - 1;
      SpawnsOfFew(procs[..last]);
      assert procs[last].spawned > 0 ==> Spawns(procs[..last]) == 0;
      assert Spawns(procs[..last]) > 0 ==> exists p :: 0 <= p < last && procs[..last][p].spawned > 0;
    }
  }

  /**
    * Spawn once: from no lock file, on one port, with holders that stay alive, unexpired and
    * unfailed and a reachable router that stays reachable, at most one router is ever spawned, by
    * any number of processes in any mix of bindings and under any interleaving.
    */
  lemma AtMostOneSpawn(run: seq<Action>, port: real)
    requires CalmRun(run, {port})
    ensures Exec(run).Some? && Spawns(Exec(run).value.procs) <= 1
  {
    RunKeeps(run, port);
    var procs := Exec(run).value.procs;
    assert forall p :: 0 <= p < |procs| ==> ProcOk(procs[p], port);
    assert forall p, q :: 0 <= p < q < |procs| ==> !(Committed(procs[p]) && Committed(procs[q]));
    SpawnsOfFew(procs);
  }

  /** Until a router is reachable there is at most one holder, and the file is its record. */
  lemma ExclusiveUntilReachable(run: seq<Action>, port: real, p: nat, q: nat)
    requires CalmRun(run, {port}) && Exec(run).Some? && port !in Exec(run).value.up
    requires p < |Exec(run).value.procs| && Holding(Exec(run).value.procs[p].pc)
    requires q < |Exec(run).value.procs| && Holding(Exec(run).value.procs[q].pc)
    ensures p == q && Exec(run).value.file == Exec(run).value.procs[p].data
  {
    RunKeeps(run, port);
    var holder :| Quiet(Exec(run).value, holder);
  }

  lemma {:induction false} SpawnsOnIsPart(procs: seq<Proc>, port: real)
    ensures SpawnsOn(procs, port) <= Spawns(procs)
  {
    if procs != [] {
      SpawnsOnIsPart(procs[..|procs| - 1], port);
    }
  }

  lemma {:induction false} CalmOnMorePorts(run: seq<Action>, ports: set<real>, more: set<real>)
    requires CalmRun(run, ports) && ports <= more
    ensures CalmRun(run, more)
  {
    if run != [] {
      CalmOnMorePorts(run[..|run| - 1], ports, more);
    }
  }
}
