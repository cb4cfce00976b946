/**
  * The bootstrap protocol: any number of processes, in any mix of bindings, race to start
  * the one router under the lock file. Every probe, every file operation and every spawn is
  * one step; reading the file and removing it are separate steps.
  */
module Bootstrap {
  import opened Wire
  import opened LockFile

  datatype Pc =
    | Probe
    | TryCreate
    | EvaluateLock
    | Unlink
    | PollOnly
    | Reprobe
    | Spawn
    | RecordPid(router: int)
    | AwaitReady
    | RecordReady
    | RecordFailed
    | Release(ok: bool)
    | Exited(ok: bool)

  /** A process; `data` is its in-memory copy of the record it created. */
  datatype Proc = Proc(lang: Lang, pid: int, port: real, pc: Pc, data: Option<Fields>, spawned: nat)

  /**
    * `file` is the record in the one lock file that all ports share, if it exists; `dead` are the pids that
    * have died, `up` the ports on which a router answers.
    */
  datatype State = State(file: Option<Fields>, procs: seq<Proc>, now: real, dead: set<int>, up: set<real>)

  const START := State(None, [], 0.0, {}, {})

  datatype Action =
    | Begin(lang: Lang, pid: int, port: real)
    | Move(p: nat, fails: bool, router: int, lifetime: real)
    | Tick(now: real)
    | Die(pid: int)
    | RouterUp(port: real)
    | RouterDown(port: real)

  function Alive(dead: set<int>): int -> bool {
    n => n !in dead
  }

  function ContentOf(file: Option<Fields>): Content {
    if file.None? then Unreadable else Object(file.value)
  }

  /** Rust, Go and JavaScript rewrite the file from memory; Python and PHP edit what they find. */
  function Rewrite(lang: Lang, file: Option<Fields>, data: Fields, change: Change): Option<Fields> {
    if lang.Python? || lang.Php?
    then (if file.Some? then Some(Apply(file.value, change)) else None)
    else Some(Apply(data, change))
  }

  /** A process probes the endpoint of its own port. */
  predicate FindsRouter(s: State, proc: Proc) {
    proc.port in s.up
  }

  function With(s: State, p: nat, proc: Proc): State
    requires p < |s.procs|
  {
    s.(procs := s.procs[p := proc])
  }

  function Goto(s: State, p: nat, pc: Pc): State
    requires p < |s.procs|
  {
    With(s, p, s.procs[p].(pc := pc))
  }

  function Record(s: State, p: nat, change: Change, pc: Pc): State
    requires p < |s.procs| && s.procs[p].data.Some?
  {
    var proc := s.procs[p];
    With(s, p, proc.(pc := pc, data := Some(Apply(proc.data.value, change))))
    .(file := Rewrite(proc.lang, s.file, proc.data.value, change))
  }

  /**
    * Waiting for the lock or for reachability may end in a timeout, here `fails`: PHP looks
    * at the clock before each create, Python after a failed one, the others after a wait verdict.
    */
  function MoveBeforeLock(s: State, p: nat, fails: bool, lifetime: real): Option<State>
    requires p < |s.procs|
  {
    var proc := s.procs[p];
    match proc.pc
    case Probe => Some(Goto(s, p, if FindsRouter(s, proc) then Exited(true) else TryCreate))
    case TryCreate =>
      if fails && proc.lang.Php? then Some(Goto(s, p, Exited(false)))
      else if s.file.None? then
        var record := Created(proc.lang, proc.pid, proc.port, s.now, lifetime);
        Some(With(s, p, proc.(pc := Reprobe, data := Some(record))).(file := Some(record)))
      else Some(Goto(s, p, if fails && proc.lang.Python? then Exited(false) else EvaluateLock))
    case EvaluateLock =>
      (match Evaluate(proc.lang, ContentOf(s.file), s.now, Alive(s.dead))
       case Reclaim => Some(Goto(s, p, Unlink))
       case SkipSpawn => Some(Goto(s, p, PollOnly))
       case Wait =>
         Some(Goto(s, p, if fails && !proc.lang.Php? && !proc.lang.Python? then Exited(false) else TryCreate))
       case Throws => Some(Goto(s, p, Exited(false))))
    case Unlink => Some(Goto(s.(file := None), p, TryCreate))
    case PollOnly =>
      if FindsRouter(s, proc) then Some(Goto(s, p, Exited(true)))
      else if fails then Some(Goto(s, p, Exited(false)))
      else None
    case _ => None
  }

  /** PHP releases after a successful re-probe without recording it; Rust after a failed spawn. */
  function MoveHoldingLock(s: State, p: nat, fails: bool, router: int): Option<State>
    requires p < |s.procs|
  {
    var proc := s.procs[p];
    if proc.data.None? then None
    else
      match proc.pc
      case Reprobe =>
        if !FindsRouter(s, proc) then Some(Goto(s, p, Spawn))
        else Some(Goto(s, p, if proc.lang.Php? then Release(true) else RecordReady))
      case Spawn =>
        if fails then Some(Goto(s, p, if proc.lang.Rust? then Release(false) else RecordFailed))
        else Some(With(s, p, proc.(pc := RecordPid(router), spawned := proc.spawned + 1)))
      case RecordPid(pid) => Some(Record(s, p, SetRouterPid(Some(pid)), AwaitReady))
      case AwaitReady =>
        if FindsRouter(s, proc) then Some(Goto(s, p, RecordReady))
        else if fails then Some(Goto(s, p, RecordFailed))
        else None
      case RecordReady => Some(Record(s, p, MarkReady, Release(true)))
      case RecordFailed => Some(Record(s, p, MarkFailed, Release(false)))
      case Release(ok) => Some(Goto(s.(file := None), p, Exited(ok)))
      case _ => None
  }

  predicate BeforeLock(pc: Pc) {
    pc.Probe? || pc.TryCreate? || pc.EvaluateLock? || pc.Unlink? || pc.PollOnly?
  }

  function Step(s: State, a: Action): Option<State> {
    match a
    case Begin(lang, pid, port) => Some(s.(procs := s.procs + [Proc(lang, pid, port, Probe, None, 0)]))
    case Move(p, fails, router, lifetime) =>
      if p >= |s.procs| then None
      else if BeforeLock(s.procs[p].pc) then MoveBeforeLock(s, p, fails, lifetime)
      else MoveHoldingLock(s, p, fails, router)
    case Tick(now) => if s.now <= now then Some(s.(now := now)) else None
    case Die(pid) => Some(s.(dead := s.dead + {pid}))
    case RouterUp(port) => Some(s.(up := s.up + {port}))
    case RouterDown(port) => Some(s.(up := s.up - {port}))
  }

  function Exec(run: seq<Action>): Option<State> {
    if run == [] then Some(START)
    else
      match Exec(run[..|run| - 1])
      case None => None
      case Some(s) => Step(s, run[|run| - 1])
  }

  function Spawns(procs: seq<Proc>): nat {
    if procs == [] then 0 else Spawns(procs[..|procs| - 1]) + procs[|procs| - 1].spawned
  }

  /** Of those, the ones for this port. */
  function SpawnsOn(procs: seq<Proc>, port: real): (n: nat) {
    if procs == [] then 0
    else
      var last := procs[|procs| - 1];
      SpawnsOn(procs[..|procs| - 1], port) + if last.port == port then last.spawned else 0
  }

  /** A holder's grip on the lock: its copy of the record and the file, both changed in place. */
  class LockGuard {
    const lang: Lang
    var data: Fields
    var file: Option<Fields>

    constructor Create(lang: Lang, pid: int, port: real, now: real, lifetime: real)
      ensures this.lang == lang
      ensures data == Created(lang, pid, port, now, lifetime) && file == Some(data)
      ensures IsPid(pid) ==> Written(data)
    {
      this.lang := lang;
      data := Created(lang, pid, port, now, lifetime);
      file := Some(data);
    }

    /** The holder's own copy changes; the file follows it, or is edited as found, by binding. */
    method Update(change: Change)
      modifies this
      ensures data == Apply(old(data), change) && file == Rewrite(lang, old(file), old(data), change)
      ensures file.Some? ==> file.value.status == data.status || change.SetRouterPid?
      ensures old(file) == Some(old(data)) ==> file == Some(data)
      ensures Written(old(data)) && OrdinaryChange(change) ==> Written(data)
    {
      if lang.Python? || lang.Php? {
        if file.Some? {
          file := Some(Apply(file.value, change));
        }
        data := Apply(data, change);
      } else {
        data := Apply(data, change);
        file := Some(data);
      }
    }

    /** Release is by path: the file goes, whoever wrote it. */
    method ReleaseLock()
      modifies this`file
      ensures file == None
    {
      file := None;
    }
  }
}
