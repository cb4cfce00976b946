/**
  * The bootstrap lock file: what the five bindings write into it and how each of them
  * judges one it finds.
  */
module LockFile {
  import opened Wire

  datatype Lang = Rust | Go | Python | JavaScript | Php

  /** A JSON member that may be missing or null. */
  datatype Member = Absent | Null | Value(n: int)

  /** The members of a lock object; a number without fraction is written as an integer. */
  datatype Fields = Fields(
    format: Option<string>,
    pid: Option<int>,
    routerPid: Member,
    port: Option<real>,
    createdAt: Option<real>,
    expiresAt: Option<real>,
    status: Option<string>,
    language: Option<string>)

  datatype Content = Unreadable | Unparseable | NullJson | NotAnObject | Object(fields: Fields)

  datatype Verdict = Reclaim | SkipSpawn | Wait | Throws

  const FORMAT := "v1"
  const FAILED := "failed"

  // ----- the five evaluators

  function EvaluateRust(c: Content, now: real, alive: int -> bool): Verdict {
    if !c.Object? then Reclaim
    else
      var f := c.fields;
      if f.format.None? || f.pid.None? || f.port.None? || f.createdAt.None? || f.expiresAt.None? || f.status.None?
      then Reclaim
      else if !(0 <= f.pid.value < 0x1_0000_0000) then Reclaim
      else if f.routerPid.Value? && !(0 <= f.routerPid.n < 0x1_0000_0000) then Reclaim
      else if !Whole(f.port.value) || !(0.0 <= f.port.value < 65536.0) then Reclaim
      else if f.format.value != FORMAT then Reclaim
      else if f.expiresAt.value < now then Reclaim
      else if f.pid.value == 0 || !alive(f.pid.value) then Reclaim
      else if f.status.value == FAILED then Reclaim
      else if f.routerPid.Value? && f.routerPid.n != 0 && alive(f.routerPid.n) then SkipSpawn
      else Wait
  }

  predicate FitsInt64(x: real) {
    Whole(x) && -9223372036854775808.0 <= x <= 9223372036854775807.0
  }

  function EvaluateGo(c: Content, now: real, alive: int -> bool): Verdict {
    if !c.Object? then Reclaim
    else
      var f := c.fields;
      if f.pid.Some? && !FitsInt64(f.pid.value as real) then Reclaim
      else if f.routerPid.Value? && !FitsInt64(f.routerPid.n as real) then Reclaim
      else if f.port.Some? && !FitsInt64(f.port.value) then Reclaim
      else if f.format != Some(FORMAT) then Reclaim
      else
        var expiresAt := if f.expiresAt.Some? then f.expiresAt.value else 0.0;
        var pid := if f.pid.Some? then f.pid.value else 0;
        if now > expiresAt then Reclaim
        else if pid <= 0 || !alive(pid) then Reclaim
        else if f.status == Some(FAILED) then Reclaim
        else if f.routerPid.Value? && f.routerPid.n > 0 && alive(f.routerPid.n) then SkipSpawn
        else Wait
  }

  function EvaluatePython(c: Content, now: real, alive: int -> bool): Verdict {
    if !c.Object? then Reclaim
    else
      var f := c.fields;
      var expiresAt := if f.expiresAt.Some? then f.expiresAt.value else 0.0;
      var pid := if f.pid.Some? then f.pid.value else 0;
      if f.format != Some(FORMAT) then Reclaim
      else if expiresAt < now then Reclaim
      else if pid <= 0 || !alive(pid) then Reclaim
      else if f.status == Some(FAILED) then Reclaim
      else if f.routerPid.Value? && f.routerPid.n > 0 && alive(f.routerPid.n) then SkipSpawn
      else Wait
  }

  /** A missing expiry compares as undefined, which is not less than anything. */
  function EvaluateJavaScript(c: Content, now: real, alive: int -> bool): Verdict {
    if c.NullJson? then Throws
    else if !c.Object? then Reclaim
    else
      var f := c.fields;
      if f.format != Some(FORMAT) then Reclaim
      else if f.expiresAt.Some? && f.expiresAt.value < now then Reclaim
      else if f.pid.None? || f.pid.value <= 0 || !alive(f.pid.value) then Reclaim
      else if f.status == Some(FAILED) then Reclaim
      else if f.routerPid.Value? && f.routerPid.n > 0 && alive(f.routerPid.n) then SkipSpawn
      else Wait
  }

  function EvaluatePhp(c: Content, now: real, alive: int -> bool): Verdict {
    if !c.Object? then Reclaim
    else
      var f := c.fields;
      if f.format != Some(FORMAT) then Reclaim
      else if f.expiresAt.Some? && f.expiresAt.value < now then Reclaim
      else if f.pid.None? || !FitsInt64(f.pid.value as real) then Reclaim
      else if f.pid.value <= 0 || !alive(f.pid.value) then Reclaim
      else if f.status == Some(FAILED) then Reclaim
      else if f.routerPid.Value? && FitsInt64(f.routerPid.n as real) && f.routerPid.n > 0 && alive(f.routerPid.n)
      then SkipSpawn
      else Wait
  }

  function Evaluate(lang: Lang, c: Content, now: real, alive: int -> bool): Verdict {
    match lang
    case Rust => EvaluateRust(c, now, alive)
    case Go => EvaluateGo(c, now, alive)
    case Python => EvaluatePython(c, now, alive)
    case JavaScript => EvaluateJavaScript(c, now, alive)
    case Php => EvaluatePhp(c, now, alive)
  }

  // ----- what the bindings write

  function LangName(lang: Lang): string {
    match lang
    case Rust => "rust"
    case Go => "go"
    case Python => "python"
    case JavaScript => "javascript"
    case Php => "php"
  }

  /** The record of the exclusive create; Rust leaves router_pid out, the others write null. */
  function Created(lang: Lang, pid: int, port: real, now: real, lifetime: real): Fields {
    Fields(Some(FORMAT), Some(pid), if lang.Rust? then Absent else Null, Some(port),
           Some(now), Some(now + lifetime), Some("starting"), Some(LangName(lang)))
  }

  /** What a fresh lock says: who holds it since when and until when, that it is starting, and no router yet, said by omission in Rust only. */
  lemma CreatedSays(lang: Lang, pid: int, port: real, now: real, lifetime: real)
    ensures var f := Created(lang, pid, port, now, lifetime);
            && f.format == Some("v1") && f.pid == Some(pid) && f.port == Some(port)
            && f.createdAt == Some(now) && f.expiresAt == Some(now + lifetime)
            && f.status == Some("starting")
            && !f.routerPid.Value? && (f.routerPid.Absent? <==> lang == Rust)
    ensures forall other :: Created(other, pid, port, now, lifetime).language == Created(lang, pid, port, now, lifetime).language
              ==> other == lang
  {
    assert |"rust"| == 4 && |"go"| == 2 && |"python"| == 6 && |"javascript"| == 10 && |"php"| == 3;
  }

  datatype Change = MarkReady | MarkFailed | SetRouterPid(router: Option<int>)

  function Apply(f: Fields, change: Change): Fields {
    match change
    case MarkReady => f.(status := Some("ready"))
    case MarkFailed => f.(status := Some(FAILED))
    case SetRouterPid(router) => f.(routerPid := if router.Some? then Value(router.value) else Null)
  }

  predicate IsPid(n: int) {
    0 < n < 0x1_0000_0000
  }

  predicate OrdinaryChange(change: Change) {
    change.SetRouterPid? && change.router.Some? ==> IsPid(change.router.value)
  }

  function ApplyAll(f: Fields, changes: seq<Change>): Fields
    decreases |changes|
  {
    if changes == [] then f else ApplyAll(Apply(f, changes[0]), changes[1..])
  }

  /** The shape every such record keeps. */
  predicate Written(f: Fields) {
    && f.format == Some(FORMAT)
    && f.pid.Some? && IsPid(f.pid.value)
    && (f.routerPid.Value? ==> IsPid(f.routerPid.n))
    && f.port.Some? && f.createdAt.Some? && f.expiresAt.Some? && f.language.Some?
    && (f.status == Some("starting") || f.status == Some("ready") || f.status == Some(FAILED))
  }

  lemma {:induction false} WrittenRecords(f: Fields, changes: seq<Change>)
    requires Written(f) && forall i :: 0 <= i < |changes| ==> OrdinaryChange(changes[i])
    ensures Written(ApplyAll(f, changes))
    ensures ApplyAll(f, changes).port == f.port && ApplyAll(f, changes).pid == f.pid
    decreases |changes|
  {
    if changes != [] {
      assert OrdinaryChange(changes[0]);
      WrittenRecords(Apply(f, changes[0]), changes[1..]);
    }
  }

  predicate FitsPort(x: real) {
    Whole(x) && 0.0 <= x < 65536.0
  }

  /** What a record is worth: stale when it has expired, its holder has died or it is marked failed. */
  predicate Stale(f: Fields, now: real, alive: int -> bool)
    requires Written(f)
  {
    f.expiresAt.value < now || !alive(f.pid.value) || f.status == Some("failed")
  }

  /**
    * The verdict of every binding on every record with an ordinary port: reclaim exactly when it is stale,
    * otherwise skip the spawn exactly when a live router is recorded, and otherwise wait.
    */
  lemma VerdictExactly(f: Fields, lang: Lang, now: real, alive: int -> bool)
    requires Written(f) && FitsPort(f.port.value)
    ensures Evaluate(lang, Object(f), now, alive) ==
            if Stale(f, now, alive) then Reclaim
            else if f.routerPid.Value? && alive(f.routerPid.n) then SkipSpawn
            else Wait
  {
    assert FitsInt64(f.pid.value as real);
    assert f.routerPid.Value? ==> FitsInt64(f.routerPid.n as real);
    assert FitsInt64(f.port.value);
  }

  /** What is no record of this format is reclaimed by everyone, except that JavaScript throws on a JSON null. */
  lemma GarbageIsReclaimed(c: Content, lang: Lang, now: real, alive: int -> bool)
    requires c.Object? ==> c.fields.format != Some("v1")
    ensures Evaluate(lang, c, now, alive) == if lang.JavaScript? && c.NullJson? then Throws else Reclaim
  {
  }

  /** A record of this format without a pid is reclaimed by everyone. */
  lemma NoPidIsReclaimed(f: Fields, lang: Lang, now: real, alive: int -> bool)
    requires f.format == Some("v1") && (f.pid.None? || f.pid.value <= 0)
    ensures Evaluate(lang, Object(f), now, alive) == Reclaim
  {
  }

  /** A missing expiry: Rust reclaims, Go and Python read it as long ago, JavaScript and PHP as never. */
  lemma NoExpiryExactly(f: Fields, lang: Lang, now: real, alive: int -> bool)
    requires Written(f) && FitsPort(f.port.value) && now > 0.0
    ensures Evaluate(lang, Object(f.(expiresAt := None)), now, alive) ==
            if lang.JavaScript? || lang.Php? then Evaluate(lang, Object(f.(expiresAt := Some(now))), now, alive)
            else Reclaim
  {
    assert FitsInt64(f.pid.value as real);
    assert f.routerPid.Value? ==> FitsInt64(f.routerPid.n as real);
    assert FitsInt64(f.port.value);
  }

  /** On a record with an ordinary port all five bindings reach the same verdict. */
  lemma OrdinaryPortAgrees(f: Fields, a: Lang, b: Lang, now: real, alive: int -> bool)
    requires Written(f) && FitsPort(f.port.value)
    ensures Evaluate(a, Object(f), now, alive) == Evaluate(b, Object(f), now, alive)
  {
    VerdictExactly(f, a, now, alive);
    VerdictExactly(f, b, now, alive);
  }

  /** On a record marked failed they all reclaim, whatever its port. */
  lemma FailedIsReclaimed(f: Fields, lang: Lang, now: real, alive: int -> bool)
    requires Written(f) && f.status == Some(FAILED)
    ensures Evaluate(lang, Object(f), now, alive) == Reclaim
  {
  }

  /** On any other port Rust always reclaims, while Python respects a live, unexpired record. */
  lemma OddPortDisagrees(f: Fields, alive: int -> bool)
    requires Written(f) && !FitsPort(f.port.value) && f.status != Some(FAILED) && alive(f.pid.value)
    ensures Evaluate(Rust, Object(f), f.expiresAt.value, alive) == Reclaim
    ensures Evaluate(Python, Object(f), f.expiresAt.value, alive) != Reclaim
  {
  }

  ghost predicate AllAgree(f: Fields) {
    forall a: Lang, b: Lang, now: real, alive: int -> bool ::
      Evaluate(a, Object(f), now, alive) == Evaluate(b, Object(f), now, alive)
  }

  lemma AgreementExactly(f: Fields)
    requires Written(f)
    ensures AllAgree(f) <==> FitsPort(f.port.value) || f.status == Some(FAILED)
  {
    if FitsPort(f.port.value) || f.status == Some(FAILED) {
      forall a: Lang, b: Lang, now: real, alive: int -> bool
        ensures Evaluate(a, Object(f), now, alive) == Evaluate(b, Object(f), now, alive)
      {
        if FitsPort(f.port.value) {
          OrdinaryPortAgrees(f, a, b, now, alive);
        } else {
          FailedIsReclaimed(f, a, now, alive);
          FailedIsReclaimed(f, b, now, alive);
        }
      }
    } else {
      OddPortDisagrees(f, (p: int) => true);
    }
  }

  /**
    * Lock decisions: on every record a binding can leave in the file, the five evaluators
    * agree for every clock and every liveness predicate exactly when the port fits in 16
    * bits or the record is marked failed. Every binding but Rust can write other ports.
    */
  lemma DecisionsAgreeExactly(lang: Lang, pid: int, port: real, now: real, lifetime: real, changes: seq<Change>)
    requires IsPid(pid) && forall i :: 0 <= i < |changes| ==> OrdinaryChange(changes[i])
    ensures var f := ApplyAll(Created(lang, pid, port, now, lifetime), changes);
            AllAgree(f) <==> FitsPort(port) || f.status == Some(FAILED)
  {
    WrittenRecords(Created(lang, pid, port, now, lifetime), changes);
    AgreementExactly(ApplyAll(Created(lang, pid, port, now, lifetime), changes));
  }
}
