/** Runs of the bootstrap protocol that show what it does not guarantee, and what spawn-once needs. */
module BootstrapRaces {
  import opened Wire
  import opened LockFile
  import opened Bootstrap
  import opened SpawnOnce

  const PORT := 9981.0

  function Go(p: nat): Action {
    Move(p, false, 7, 10.0)
  }

  /** Some run leads to this state. */
  ghost predicate Reachable(s: State) {
    exists run :: Exec(run) == Some(s)
  }

  lemma Then(s: State, a: Action) returns (t: State)
    requires Reachable(s) && Step(s, a).Some?
    ensures Reachable(t) && Step(s, a) == Some(t)
  {
    var run :| Exec(run) == Some(s);
    t := Step(s, a).value;
    var longer := run + [a];
    assert longer[..|longer| - 1] == run;
    assert Exec(longer) == Some(t);
  }

  // ----- an expired lock

  lemma FirstCreates() returns (s: State)
    ensures Reachable(s)
    ensures |s.procs| == 2 && s.procs[0].spawned == 0 && s.procs[0].pc == Reprobe && s.procs[0].lang == LockFile.Go
    ensures s.procs[1] == Proc(Python, 2, PORT, Probe, None, 0)
    ensures s.up == {} && s.now == 0.0 && s.dead == {}
    ensures s.file.Some? && s.file == s.procs[0].data
    ensures s.file.value.format == Some(FORMAT) && s.file.value.expiresAt == Some(10.0)
  {
    assert Exec([]) == Some(START);
    s := Then(START, Begin(LockFile.Go, 1, PORT));
    s := Then(s, Begin(Python, 2, PORT));
    s := Then(s, Go(0));
    s := Then(s, Go(0));
  }

  /** The first process has spawned a router and waits for it; a second one has just begun. */
  lemma FirstSpawns() returns (s: State)
    ensures Reachable(s)
    ensures |s.procs| == 2 && s.procs[0].spawned == 1 && s.procs[0].pc == AwaitReady
    ensures s.procs[1] == Proc(Python, 2, PORT, Probe, None, 0)
    ensures s.up == {} && s.now == 0.0 && s.dead == {}
    ensures s.file.Some? && s.file.value.format == Some(FORMAT) && s.file.value.expiresAt == Some(10.0)
  {
    s := FirstCreates();
    s := Then(s, Go(0));
    s := Then(s, Go(0));
    s := Then(s, Go(0));
  }

  /** The lock expires while its holder still waits, and the second process takes it over. */
  lemma SecondTakesOver() returns (s: State)
    ensures Reachable(s)
    ensures |s.procs| == 2 && s.procs[0].spawned == 1 && s.procs[0].pc == AwaitReady
    ensures s.procs[1].spawned == 0 && s.procs[1].pc == TryCreate && s.procs[1].lang == Python
    ensures s.up == {} && s.file.None?
  {
    s := FirstSpawns();
    s := Then(s, Tick(11.0));
    s := Then(s, Go(1));
    s := Then(s, Go(1));
    s := Then(s, Go(1));
    s := Then(s, Go(1));
  }

  /** Without the expiry assumption two routers are spawned, although nobody died or failed. */
  lemma ExpiryAllowsSecondSpawn() returns (s: State)
    ensures Reachable(s)
    ensures |s.procs| == 2 && s.procs[0].spawned == 1 && s.procs[1].spawned == 1
  {
    s := SecondTakesOver();
    s := Then(s, Go(1));
    s := Then(s, Go(1));
    s := Then(s, Go(1));
  }

  // ----- a lock removed by path

  predicate ProcFresh(proc: Proc) {
    Holding(proc.pc) ==> proc.data.Some? && proc.data.value.expiresAt == Some(10.0)
  }

  /** Three processes, no time passed, nobody dead, every held lock still good. */
  predicate Scene(s: State) {
    |s.procs| == 3 && s.now == 0.0 && s.dead == {} && forall p :: 0 <= p < 3 ==> ProcFresh(s.procs[p])
  }

  /** Some calm run on these ports leads to this scene. */
  ghost predicate Calmly(s: State, ports: set<real>) {
    exists run :: Exec(run) == Some(s) && CalmRun(run, ports)
  }

  lemma SceneIsHealthy(s: State)
    requires Scene(s)
    ensures Healthy(s)
  {
    forall p | 0 <= p < |s.procs|
      ensures HolderHealthy(s, p)
    {
      assert ProcFresh(s.procs[p]);
    }
  }

  lemma CalmThen(s: State, a: Action, ports: set<real>) returns (t: State)
    requires Calmly(s, ports) && Step(s, a).Some? && Calm(s, a, ports) && Healthy(Step(s, a).value)
    ensures Calmly(t, ports) && Step(s, a) == Some(t)
  {
    var run :| Exec(run) == Some(s) && CalmRun(run, ports);
    t := Step(s, a).value;
    var longer := run + [a];
    assert longer[..|longer| - 1] == run;
    assert Exec(longer) == Some(t) && CalmRun(longer, ports);
  }

  lemma MoveStaysFresh(s: State, p: nat)
    requires Scene(s) && p < 3 && Step(s, Go(p)).Some?
    ensures var t := Step(s, Go(p)).value;
            && |t.procs| == 3 && t.procs == s.procs[p := t.procs[p]]
            && ProcFresh(t.procs[p]) && t.procs[p].lang == s.procs[p].lang && t.procs[p].port == s.procs[p].port
            && t.now == s.now && t.dead == s.dead && t.up == s.up
  {
    assert ProcFresh(s.procs[p]);
  }

  lemma Turn(s: State, p: nat, ports: set<real>) returns (t: State)
    requires Calmly(s, ports) && Scene(s) && p < 3 && Step(s, Go(p)).Some?
    ensures Calmly(t, ports) && Scene(t) && Step(s, Go(p)) == Some(t)
    ensures t.procs == s.procs[p := t.procs[p]] && t.up == s.up
    ensures t.procs[p].lang == s.procs[p].lang && t.procs[p].port == s.procs[p].port
  {
    MoveStaysFresh(s, p);
    SceneIsHealthy(Step(s, Go(p)).value);
    t := CalmThen(s, Go(p), ports);
  }

  lemma ComesUp(s: State, port: real, ports: set<real>) returns (t: State)
    requires Calmly(s, ports) && Scene(s)
    ensures Calmly(t, ports) && Scene(t) && t == s.(up := s.up + {port})
  {
    SceneIsHealthy(s.(up := s.up + {port}));
    t := CalmThen(s, RouterUp(port), ports);
  }

  /** A PHP process on port a, a Rust and a JavaScript process on port b, at these points. */
  predicate Cast(s: State, a: real, b: real, pc0: Pc, pc1: Pc, pc2: Pc) {
    && Scene(s)
    && s.procs[0].lang == Php && s.procs[0].port == a && s.procs[0].pc == pc0
    && s.procs[1].lang == Rust && s.procs[1].port == b && s.procs[1].pc == pc1
    && s.procs[2].lang == JavaScript && s.procs[2].port == b && s.procs[2].pc == pc2
    && s.procs[1].spawned == 0 && s.procs[2].spawned == 0
  }

  lemma ThreeBegin(a: real, b: real) returns (s: State)
    requires FitsPort(a) && FitsPort(b)
    ensures Calmly(s, {a, b}) && Cast(s, a, b, Probe, Probe, Probe) && s.file.None? && s.up == {}
  {
    var ports := {a, b};
    assert Exec([]) == Some(START) && CalmRun([], ports);
    s := CalmThen(START, Begin(Php, 1, a), ports);
    s := CalmThen(s, Begin(Rust, 2, b), ports);
    s := CalmThen(s, Begin(JavaScript, 3, b), ports);
  }

  /** All three have found no router. */
  lemma NobodyFindsRouter(a: real, b: real) returns (s: State)
    requires FitsPort(a) && FitsPort(b)
    ensures Calmly(s, {a, b}) && Cast(s, a, b, TryCreate, TryCreate, TryCreate) && s.file.None? && s.up == {}
  {
    s := ThreeBegin(a, b);
    s := Turn(s, 0, {a, b});
    s := Turn(s, 1, {a, b});
    s := Turn(s, 2, {a, b});
  }

  /** The first has taken the lock; the second has found the file but not read it yet. */
  lemma SecondFindsLock(a: real, b: real) returns (s: State)
    requires FitsPort(a) && FitsPort(b)
    ensures Calmly(s, {a, b}) && Cast(s, a, b, Reprobe, EvaluateLock, TryCreate) && s.up == {}
  {
    s := NobodyFindsRouter(a, b);
    s := Turn(s, 0, {a, b});
    s := Turn(s, 1, {a, b});
  }

  /** A router comes up on the first one's port, which it finds out. */
  lemma FirstFindsRouter(a: real, b: real) returns (s: State)
    requires FitsPort(a) && FitsPort(b)
    ensures Calmly(s, {a, b}) && Cast(s, a, b, Release(true), EvaluateLock, TryCreate) && s.up == {a}
  {
    s := SecondFindsLock(a, b);
    s := ComesUp(s, a, {a, b});
    assert ProcFresh(s.procs[0]);
    s := Turn(s, 0, {a, b});
  }

  lemma FirstReleases(a: real, b: real) returns (s: State)
    requires FitsPort(a) && FitsPort(b)
    ensures Calmly(s, {a, b}) && Cast(s, a, b, Exited(true), EvaluateLock, TryCreate) && s.up == {a} && s.file.None?
  {
    s := FirstFindsRouter(a, b);
    assert ProcFresh(s.procs[0]);
    s := Turn(s, 0, {a, b});
  }

  /** The second has decided to remove a file it did not find, and the third has just created one. */
  lemma ThirdTakesLock(a: real, b: real) returns (s: State)
    requires FitsPort(a) && FitsPort(b)
    ensures Calmly(s, {a, b}) && Cast(s, a, b, Exited(true), Unlink, Reprobe) && s.up == {a}
  {
    s := FirstReleases(a, b);
    s := Turn(s, 1, {a, b});
    s := Turn(s, 2, {a, b});
  }

  /** Even in a calm run on one port two processes can hold the lock at once: the second removes the third's file. */
  lemma MutualExclusionIsLost() returns (s: State)
    ensures Calmly(s, {PORT})
    ensures |s.procs| == 3 && Holding(s.procs[1].pc) && Holding(s.procs[2].pc)
  {
    s := ThirdTakesLock(PORT, PORT);
    s := Turn(s, 1, {PORT, PORT});
    s := Turn(s, 1, {PORT, PORT});
    assert {PORT, PORT} == {PORT};
  }

  // ----- two ports under one lock

  /** With b not reachable the third spawns; the second still holds its decision to unlink. */
  lemma ThirdSpawns(a: real, b: real) returns (s: State)
    requires FitsPort(a) && FitsPort(b) && a != b
    ensures Calmly(s, {a, b}) && Scene(s) && s.up == {a}
    ensures s.procs[1].pc == Unlink && s.procs[1].spawned == 0 && s.procs[1].port == b && s.procs[1].lang == Rust
    ensures s.procs[2].port == b && s.procs[2].spawned == 1
  {
    s := ThirdTakesLock(a, b);
    assert ProcFresh(s.procs[2]);
    s := Turn(s, 2, {a, b});
    assert ProcFresh(s.procs[2]);
    s := Turn(s, 2, {a, b});
  }

  lemma SecondTakesLockToo(a: real, b: real) returns (s: State)
    requires FitsPort(a) && FitsPort(b) && a != b
    ensures Calmly(s, {a, b}) && Scene(s) && s.up == {a}
    ensures s.procs[1].pc == Reprobe && s.procs[1].spawned == 0 && s.procs[1].port == b && s.procs[1].data.Some?
    ensures s.procs[2].port == b && s.procs[2].spawned == 1
  {
    s := ThirdSpawns(a, b);
    s := Turn(s, 1, {a, b});
    s := Turn(s, 1, {a, b});
    assert ProcFresh(s.procs[1]);
  }

  /** A calm run in which two processes spawn a router for the same port, because a third used another port. */
  lemma MixedPortsSpawnTwice(a: real, b: real) returns (s: State)
    requires FitsPort(a) && FitsPort(b) && a != b
    ensures Calmly(s, {a, b})
    ensures |s.procs| == 3 && s.procs[1].port == s.procs[2].port == b
    ensures s.procs[1].spawned == 1 && s.procs[2].spawned == 1
  {
    s := SecondTakesLockToo(a, b);
    s := Turn(s, 1, {a, b});
    assert ProcFresh(s.procs[1]);
    s := Turn(s, 1, {a, b});
  }

  lemma TwoOnOnePort(procs: seq<Proc>, port: real)
    requires |procs| == 3 && procs[1].port == port && procs[2].port == port
    requires procs[1].spawned == 1 && procs[2].spawned == 1
    ensures SpawnsOn(procs, port) >= 2
  {
    var two := procs[..2];
    assert SpawnsOn(procs, port) == SpawnsOn(two, port) + 1;
    assert SpawnsOn(two, port) == SpawnsOn(two[..1], port) + 1;
  }

  /** Every calm run on these ports spawns at most one router for each of them. */
  ghost predicate OnePerPort(ports: set<real>) {
    forall run, port :: CalmRun(run, ports) && Exec(run).Some? ==> SpawnsOn(Exec(run).value.procs, port) <= 1
  }

  /** Spawn once per port is kept by calm runs exactly when all processes use one port. */
  lemma OnePerPortExactly(ports: set<real>)
    requires forall p :: p in ports ==> FitsPort(p)
    ensures OnePerPort(ports) <==> forall a, b :: a in ports && b in ports ==> a == b
  {
    if !(forall a, b :: a in ports && b in ports ==> a == b) {
      var a, b :| a in ports && b in ports && a != b;
      var s := MixedPortsSpawnTwice(a, b);
      var run :| Exec(run) == Some(s) && CalmRun(run, {a, b});
      CalmOnMorePorts(run, {a, b}, ports);
      TwoOnOnePort(s.procs, b);
      assert SpawnsOn(Exec(run).value.procs, b) >= 2;
    } else {
      var only := PORT;
      if p :| p in ports {
        only := p;
      }
      forall q | q in ports
        ensures q == only
      {
        assert only in ports;
      }
      forall run, port | CalmRun(run, ports) && Exec(run).Some?
        ensures SpawnsOn(Exec(run).value.procs, port) <= 1
      {
        CalmOnMorePorts(run, ports, {only});
        AtMostOneSpawn(run, only);
        SpawnsOnIsPart(Exec(run).value.procs, port);
      }
    }
  }
}
