/**
 * The JavaScript binding's pass over generic values before they go on the wire
 * (javascript/src/frame.ts, `sanitizeMsgpackValue`).
 */
module JsValues {
  import opened Wire
  import PortableValues

  const MAX_SAFE: int := 0x1f_ffff_ffff_ffff
  const PROTO: string := "__proto__"

  /** An object's prototype, as far as `isPlainObject` tells one from another. */
  datatype Prototype = ObjectPrototype | NullPrototype | Custom(parent: JsValue)

  /** `props` are the own enumerable properties in enumeration order; `Foreign` is any object that is neither an array nor a record. */
  datatype JsValue =
    | Null
    | Undefined
    | Bool(truth: bool)
    | Str(text: string)
    | Symbol(name: string)
    | Num(float: PortableValues.Float)
    | Big(number: int)
    | Arr(items: seq<JsValue>)
    | Obj(proto: Prototype, props: seq<Prop>)
    | Octets(bytes: Bytes)
    | Foreign(tag: string)

  datatype Prop = Prop(key: string, value: JsValue)

  datatype Result<+T> = Ok(value: T) | RangeError

  // ---- The sanitizer ----

  predicate Safe(r: real) {
    -(MAX_SAFE as real) <= r <= MAX_SAFE as real
  }

  predicate IsObject(v: JsValue) {
    v.Arr? || v.Obj? || v.Octets? || v.Foreign?
  }

  predicate IsPlain(v: JsValue) {
    v.Obj? && (v.proto.ObjectPrototype? || v.proto.NullPrototype?)
  }

  function Find(ps: seq<Prop>, key: string): (i: nat)
    ensures i <= |ps|
    ensures i < |ps| ==> ps[i].key == key
    ensures forall j :: 0 <= j < i ==> ps[j].key != key
  {
    if ps == [] then 0 else if ps[0].key == key then 0 else 1 + Find(ps[1..], key)
  }

  /**
   * `result[key] = value` on an object under construction. The key `__proto__` is an accessor inherited from
   * `Object.prototype`: it sets the prototype, or does nothing when the value is a primitive.
   */
  function Assign(o: JsValue, key: string, value: JsValue): (r: JsValue)
    requires o.Obj?
    ensures r.Obj?
  {
    if key == PROTO then
      if value.Null? then o.(proto := NullPrototype)
      else if IsObject(value) then o.(proto := Custom(value))
      else o
    else
      var i := Find(o.props, key);
      o.(props := if i < |o.props| then o.props[i := Prop(key, value)] else o.props + [Prop(key, value)])
  }

  function Sanitize(v: JsValue): (r: Result<JsValue>)
    decreases v
  {
    match v
    case Num(f) =>
      if !f.Finite? then Ok(Null)
      else if Whole(f.amount) && !Safe(f.amount) then RangeError
      else Ok(v)
    case Big(n) => if n < PortableValues.INT64_MIN || n > PortableValues.INT64_MAX then RangeError else Ok(v)
    case Arr(xs) =>
      (match SanitizeItems(xs)
       case RangeError => RangeError
       case Ok(out) => Ok(Arr(out)))
    case Obj(_, ps) => if IsPlain(v) then SanitizeProps(ps) else Ok(v)
    case _ => Ok(v)
  }

  function SanitizeItems(xs: seq<JsValue>): (r: Result<seq<JsValue>>)
    decreases xs
  {
    if xs == [] then Ok([])
    else
      match SanitizeItems(xs[..|xs| - 1])
      case RangeError => RangeError
      case Ok(done) =>
        match Sanitize(xs[|xs| - 1])
        case RangeError => RangeError
        case Ok(item) => Ok(done + [item])
  }

  function SanitizeProps(ps: seq<Prop>): (r: Result<JsValue>)
    ensures r.Ok? ==> r.value.Obj?
    decreases ps
  {
    if ps == [] then Ok(Obj(ObjectPrototype, []))
    else
      match SanitizeProps(ps[..|ps| - 1])
      case RangeError => RangeError
      case Ok(done) =>
        match SanitizeProp(ps[|ps| - 1])
        case RangeError => RangeError
        case Ok(p) => Ok(Assign(done, p.key, p.value))
  }

  function SanitizeProp(p: Prop): (r: Result<Prop>)
    decreases p
  {
    match Sanitize(p.value)
    case RangeError => RangeError
    case Ok(entry) => Ok(Prop(p.key, entry))
  }

  /** The same pass as the source runs it: a fresh object is filled entry by entry. */
  method SanitizeValue(v: JsValue) returns (r: Result<JsValue>)
    ensures r == Sanitize(v)
    decreases v
  {
    match v
    case Num(f) =>
      r := if !f.Finite? then Ok(Null) else if Whole(f.amount) && !Safe(f.amount) then RangeError else Ok(v);
    case Big(n) =>
      r := if n < PortableValues.INT64_MIN || n > PortableValues.INT64_MAX then RangeError else Ok(v);
    case Arr(xs) =>
      var mapped := MapItems(xs);
      r := if mapped.Ok? then Ok(Arr(mapped.value)) else RangeError;
    case Obj(_, ps) =>
      if IsPlain(v) { r := FillObject(ps); } else { r := Ok(v); }
    case _ => r := Ok(v);
  }

  method FillObject(ps: seq<Prop>) returns (r: Result<JsValue>)
    ensures r == SanitizeProps(ps)
    decreases ps
  {
    var result := Obj(ObjectPrototype, []);
    for i := 0 to |ps|
      invariant result.Obj? && SanitizeProps(ps[..i]) == Ok(result)
    {
      assert ps[..i + 1][..i] == ps[..i];
      var entry := SanitizeEntry(ps[i]);
      if entry.RangeError? {
        PropThrows(ps, i);
        return RangeError;
      }
      result := Assign(result, entry.value.key, entry.value.value);
    }
    assert ps[..|ps|] == ps;
    return Ok(result);
  }

  method SanitizeEntry(p: Prop) returns (r: Result<Prop>)
    ensures r == SanitizeProp(p)
    decreases p
  {
    var entry := SanitizeValue(p.value);
    return if entry.Ok? then Ok(Prop(p.key, entry.value)) else RangeError;
  }

  method MapItems(xs: seq<JsValue>) returns (r: Result<seq<JsValue>>)
    ensures r == SanitizeItems(xs)
    decreases xs
  {
    var mapped: seq<JsValue> := [];
    for i := 0 to |xs|
      invariant SanitizeItems(xs[..i]) == Ok(mapped)
    {
      assert xs[..i + 1][..i] == xs[..i];
      var item := SanitizeValue(xs[i]);
      if item.RangeError? {
        ItemThrows(xs, i);
        return RangeError;
      }
      mapped := mapped + [item.value];
    }
    assert xs[..|xs|] == xs;
    return Ok(mapped);
  }

  lemma {:induction false} PropThrows(ps: seq<Prop>, i: nat)
    requires i < |ps| && SanitizeProp(ps[i]).RangeError?
    ensures SanitizeProps(ps).RangeError?
    decreases |ps|
  {
    if i < |ps| - 1 {
      PropThrows(ps[..|ps| - 1], i);
    }
  }

  lemma {:induction false} ItemThrows(xs: seq<JsValue>, i: nat)
    requires i < |xs| && Sanitize(xs[i]).RangeError?
    ensures SanitizeItems(xs).RangeError?
    decreases |xs|
  {
    if i < |xs| - 1 {
      ItemThrows(xs[..|xs| - 1], i);
    }
  }

  // ---- The shape of a result ----

  /** No object has two own properties of one name: the language's own guarantee, one level deep. */
  predicate Distinct(ps: seq<Prop>) {
    forall i, j :: 0 <= i < j < |ps| ==> ps[i].key != ps[j].key
  }

  predicate Proper(v: JsValue)
    decreases v
  {
    match v
    case Arr(xs) => forall i :: 0 <= i < |xs| ==> Proper(xs[i])
    case Obj(_, ps) => Distinct(ps) && forall i :: 0 <= i < |ps| ==> ProperProp(ps[i])
    case _ => true
  }

  predicate ProperProp(p: Prop)
    decreases p
  {
    Proper(p.value)
  }

  /** The properties an ordinary assignment creates. */
  function Kept(ps: seq<Prop>): (r: seq<Prop>)
  {
    if ps == [] then []
    else
      var last := ps[|ps| - 1];
      Kept(ps[..|ps| - 1]) + if last.key == PROTO then [] else [last]
  }

  lemma {:induction false} KeptIsThere(ps: seq<Prop>, i: nat) returns (j: nat)
    requires i < |Kept(ps)|
    ensures j < |ps| && ps[j] == Kept(ps)[i] && ps[j].key != PROTO
    decreases |ps|
  {
    if i < |Kept(ps[..|ps| - 1])| {
      j := KeptIsThere(ps[..|ps| - 1], i);
    } else {
      j := |ps| - 1;
    }
  }

  lemma {:induction false} OthersAreKept(ps: seq<Prop>, j: nat) returns (i: nat)
    requires j < |ps| && ps[j].key != PROTO
    ensures i < |Kept(ps)| && Kept(ps)[i] == ps[j]
    decreases |ps|
  {
    if j < |ps| - 1 {
      i := OthersAreKept(ps[..|ps| - 1], j);
    } else {
      i := |Kept(ps[..|ps| - 1])|;
    }
  }

  lemma {:induction false} KeptIsDistinct(ps: seq<Prop>)
    requires Distinct(ps)
    ensures Distinct(Kept(ps))
    decreases |ps|
  {
    if ps != [] {
      var init := ps[..|ps| - 1];
      KeptIsDistinct(init);
      forall i | 0 <= i < |Kept(init)| ensures Kept(init)[i].key != ps[|ps| - 1].key {
        var j := KeptIsThere(init, i);
      }
    }
  }

  lemma {:induction false} KeptAll(ps: seq<Prop>)
    requires Find(ps, PROTO) == |ps|
    ensures Kept(ps) == ps
    decreases |ps|
  {
    if ps != [] {
      var init, last := ps[..|ps| - 1], ps[|ps| - 1];
      assert forall i :: 0 <= i < |init| ==> init[i] == ps[i];
      KeptAll(init);
      assert ps == init + [last];
    }
  }

  lemma {:induction false} KeptFewer(ps: seq<Prop>)
    ensures |Kept(ps)| <= |ps|
    ensures Find(ps, PROTO) < |ps| ==> |Kept(ps)| < |ps|
    decreases |ps|
  {
    if ps != [] {
      var init := ps[..|ps| - 1];
      KeptFewer(init);
      var i := Find(ps, PROTO);
      if i < |init| { assert init[i] == ps[i]; }
    }
  }

  /** The prototype left by the accessor, given the sanitized value stored under `__proto__`. */
  function PrototypeFrom(value: JsValue): (p: Prototype) {
    if value.Null? then NullPrototype else if IsObject(value) then Custom(value) else ObjectPrototype
  }

  /** The prototype of the filled object. */
  function FinalPrototype(ps: seq<Prop>): (p: Prototype) {
    var i := Find(ps, PROTO);
    if i < |ps| && SanitizeProp(ps[i]).Ok? then PrototypeFrom(SanitizeProp(ps[i]).value.value) else ObjectPrototype
  }

  lemma {:induction false} PropsShape(ps: seq<Prop>)
    requires Distinct(ps) && SanitizeProps(ps).Ok?
    ensures |SanitizeProps(ps).value.props| == |Kept(ps)|
    ensures forall i :: 0 <= i < |Kept(ps)| ==> SanitizeProp(Kept(ps)[i]) == Ok(SanitizeProps(ps).value.props[i])
    decreases |ps|
  {
    if ps != [] {
      var init, last := ps[..|ps| - 1], ps[|ps| - 1];
      PropsShape(init);
      var done := SanitizeProps(init).value;
      forall i | 0 <= i < |done.props| ensures done.props[i].key != last.key {
        var j := KeptIsThere(init, i);
        assert SanitizeProp(init[j]) == Ok(done.props[i]);
      }
      assert Find(done.props, last.key) == |done.props|;
    }
  }

  lemma {:induction false} PrototypeShape(ps: seq<Prop>)
    requires Distinct(ps) && SanitizeProps(ps).Ok?
    ensures SanitizeProps(ps).value.proto == FinalPrototype(ps)
    decreases |ps|
  {
    if ps != [] {
      PrototypeShape(ps[..|ps| - 1]);
      FindInPrefix(ps);
    }
  }

  lemma {:induction false} FindInPrefix(ps: seq<Prop>)
    requires ps != [] && Distinct(ps)
    ensures var init, last := ps[..|ps| - 1], ps[|ps| - 1];
      if last.key == PROTO then Find(ps, PROTO) == |init| == Find(init, PROTO)
      else if Find(init, PROTO) < |init| then Find(ps, PROTO) == Find(init, PROTO)
      else Find(ps, PROTO) == |ps|
  {
    var init, last := ps[..|ps| - 1], ps[|ps| - 1];
    var i, j := Find(ps, PROTO), Find(init, PROTO);
    if i < |init| { assert init[i] == ps[i]; }
    if j < |init| { assert init[j] == ps[j]; }
  }

  lemma {:induction false} ItemsShape(xs: seq<JsValue>)
    requires SanitizeItems(xs).Ok?
    ensures |SanitizeItems(xs).value| == |xs|
    ensures forall i :: 0 <= i < |xs| ==> Sanitize(xs[i]) == Ok(SanitizeItems(xs).value[i])
    decreases |xs|
  {
    if xs != [] {
      ItemsShape(xs[..|xs| - 1]);
    }
  }

  lemma {:induction false} ThrownByProp(ps: seq<Prop>) returns (i: nat)
    requires SanitizeProps(ps).RangeError?
    ensures i < |ps| && SanitizeProp(ps[i]).RangeError?
    decreases |ps|
  {
    if SanitizeProps(ps[..|ps| - 1]).RangeError? {
      i := ThrownByProp(ps[..|ps| - 1]);
    } else {
      i := |ps| - 1;
    }
  }

  lemma {:induction false} ThrownByItem(xs: seq<JsValue>) returns (i: nat)
    requires SanitizeItems(xs).RangeError?
    ensures i < |xs| && Sanitize(xs[i]).RangeError?
    decreases |xs|
  {
    if SanitizeItems(xs[..|xs| - 1]).RangeError? {
      i := ThrownByItem(xs[..|xs| - 1]);
    } else {
      i := |xs| - 1;
    }
  }

  // ---- When it throws ----

  /** `p` is `v` or is reached from it through arrays and plain objects, the values the sanitizer walks into. */
  predicate Within(v: JsValue, p: JsValue)
    decreases v
  {
    v == p ||
    match v
    case Arr(xs) => exists i :: 0 <= i < |xs| && Within(xs[i], p)
    case Obj(_, ps) => IsPlain(v) && exists i :: 0 <= i < |ps| && WithinProp(ps[i], p)
    case _ => false
  }

  predicate WithinProp(q: Prop, p: JsValue)
    decreases q
  {
    Within(q.value, p)
  }

  /** A whole number a double may not hold exactly, or a bigint that does not fit 64 bits. */
  predicate OutOfRange(p: JsValue) {
    || (p.Num? && p.float.Finite? && Whole(p.float.amount)
        && !(-9007199254740991.0 <= p.float.amount <= 9007199254740991.0))
    || (p.Big? && !(-0x8000_0000_0000_0000 <= p.number <= 0x7fff_ffff_ffff_ffff))
  }

  lemma {:induction false} ThrownIsReal(v: JsValue)
    requires Sanitize(v).RangeError?
    ensures exists p :: Within(v, p) && OutOfRange(p)
    decreases v
  {
    match v
    case Arr(xs) =>
      var i := ThrownByItem(xs);
      ThrownIsReal(xs[i]);
      var p :| Within(xs[i], p) && OutOfRange(p);
      assert Within(v, p);
    case Obj(_, ps) =>
      var i := ThrownByProp(ps);
      ThrownIsReal(ps[i].value);
      var p :| Within(ps[i].value, p) && OutOfRange(p);
      assert WithinProp(ps[i], p) && Within(v, p);
    case Num(_) => assert Within(v, v) && OutOfRange(v);
    case Big(_) => assert Within(v, v) && OutOfRange(v);
    case _ =>
  }

  lemma {:induction false} OutOfRangeThrows(v: JsValue, p: JsValue)
    requires Within(v, p) && OutOfRange(p)
    ensures Sanitize(v).RangeError?
    decreases v
  {
    if v != p {
      match v
      case Arr(xs) =>
        var i :| 0 <= i < |xs| && Within(xs[i], p);
        OutOfRangeThrows(xs[i], p);
        ItemThrows(xs, i);
      case Obj(_, ps) =>
        var i :| 0 <= i < |ps| && WithinProp(ps[i], p);
        OutOfRangeThrows(ps[i].value, p);
        PropThrows(ps, i);
      case _ =>
    }
  }

  /** The sanitizer throws exactly when it can reach a number it could not send exactly. */
  lemma {:induction false} ThrowsExactly(v: JsValue)
    ensures Sanitize(v).RangeError? <==> exists p :: Within(v, p) && OutOfRange(p)
  {
    if Sanitize(v).RangeError? {
      ThrownIsReal(v);
    } else if p :| Within(v, p) && OutOfRange(p) {
      OutOfRangeThrows(v, p);
    }
  }

  // ---- When it changes nothing ----

  /** Nothing about this one node makes the sanitizer change it. */
  predicate LeftAlone(p: JsValue) {
    && !OutOfRange(p)
    && (p.Num? ==> p.float.Finite?)
    && (IsPlain(p) ==> p.proto.ObjectPrototype? && Find(p.props, PROTO) == |p.props|)
  }

  lemma {:induction false} NothingThrows(ps: seq<Prop>)
    requires SanitizeProps(ps).Ok?
    ensures forall i :: 0 <= i < |ps| ==> SanitizeProp(ps[i]).Ok?
  {
    forall i | 0 <= i < |ps| ensures SanitizeProp(ps[i]).Ok? {
      if SanitizeProp(ps[i]).RangeError? { PropThrows(ps, i); }
    }
  }

  lemma {:induction false} FixedProps(ps: seq<Prop>)
    requires Distinct(ps) && SanitizeProps(ps).Ok? && SanitizeProps(ps).value.props == ps
    ensures SanitizeProps(ps).value.proto == ObjectPrototype && Find(ps, PROTO) == |ps|
    ensures forall i :: 0 <= i < |ps| ==> SanitizeProp(ps[i]) == Ok(ps[i])
  {
    PropsShape(ps);
    KeptFewer(ps);
    KeptAll(ps);
    PrototypeShape(ps);
  }

  lemma {:induction false} SettledProps(ps: seq<Prop>)
    requires Distinct(ps) && Find(ps, PROTO) == |ps|
    requires forall i :: 0 <= i < |ps| ==> SanitizeProp(ps[i]) == Ok(ps[i])
    ensures SanitizeProps(ps) == Ok(Obj(ObjectPrototype, ps))
  {
    if SanitizeProps(ps).RangeError? {
      var i := ThrownByProp(ps);
    } else {
      PropsShape(ps);
      PrototypeShape(ps);
      KeptAll(ps);
      assert SanitizeProps(ps).value.props == ps;
    }
  }

  lemma {:induction false} FixedIsLeftAlone(v: JsValue, p: JsValue)
    requires Proper(v) && Sanitize(v) == Ok(v) && Within(v, p)
    ensures LeftAlone(p)
    decreases v
  {
    match v
    case Arr(xs) =>
      if v != p {
        var i :| 0 <= i < |xs| && Within(xs[i], p);
        ItemsShape(xs);
        FixedIsLeftAlone(xs[i], p);
      }
    case Obj(_, ps) =>
      if IsPlain(v) {
        FixedProps(ps);
        if v != p {
          var i :| 0 <= i < |ps| && WithinProp(ps[i], p);
          assert ProperProp(ps[i]);
          FixedIsLeftAlone(ps[i].value, p);
        }
      }
    case _ =>
  }

  lemma {:induction false} LeftAloneIsFixed(v: JsValue)
    requires Proper(v)
    requires forall p :: Within(v, p) ==> LeftAlone(p)
    ensures Sanitize(v) == Ok(v)
    decreases v
  {
    assert Within(v, v);
    match v
    case Arr(xs) =>
      forall i | 0 <= i < |xs| ensures Sanitize(xs[i]) == Ok(xs[i]) {
        assert forall p :: Within(xs[i], p) ==> Within(v, p);
        LeftAloneIsFixed(xs[i]);
      }
      if SanitizeItems(xs).RangeError? {
        var i := ThrownByItem(xs);
      } else {
        ItemsShape(xs);
        assert SanitizeItems(xs).value == xs;
      }
    case Obj(_, ps) =>
      if IsPlain(v) {
        forall i | 0 <= i < |ps| ensures SanitizeProp(ps[i]) == Ok(ps[i]) {
          assert forall p :: Within(ps[i].value, p) ==> WithinProp(ps[i], p) && Within(v, p);
          assert ProperProp(ps[i]);
          LeftAloneIsFixed(ps[i].value);
        }
        SettledProps(ps);
      }
    case _ =>
  }

  /** A value goes through unchanged exactly when no reachable node asks for a change. */
  lemma {:induction false} UnchangedExactly(v: JsValue)
    requires Proper(v)
    ensures Sanitize(v) == Ok(v) <==> forall p :: Within(v, p) ==> LeftAlone(p)
  {
    if Sanitize(v) == Ok(v) {
      forall p | Within(v, p) ensures LeftAlone(p) { FixedIsLeftAlone(v, p); }
    } else if forall p :: Within(v, p) ==> LeftAlone(p) {
      LeftAloneIsFixed(v);
    }
  }

  // ---- A second pass ----

  /** What the accessor turns into a null prototype. */
  predicate BecomesNull(v: JsValue) {
    v.Null? || (v.Num? && !v.float.Finite?)
  }

  /** Some object in the result gets a null prototype, and is still plain enough to be walked again. */
  predicate LosesPrototype(v: JsValue)
    decreases v
  {
    match v
    case Arr(xs) => exists i :: 0 <= i < |xs| && LosesPrototype(xs[i])
    case Obj(_, ps) =>
      var k := Find(ps, PROTO);
      && IsPlain(v)
      && !(k < |ps| && IsObject(ps[k].value))
      && ((k < |ps| && BecomesNull(ps[k].value)) || SomeLoses(ps))
    case _ => false
  }

  predicate SomeLoses(ps: seq<Prop>)
    decreases ps
  {
    exists i :: 0 <= i < |ps| && ps[i].key != PROTO && PropLosesPrototype(ps[i])
  }

  predicate PropLosesPrototype(p: Prop)
    decreases p
  {
    LosesPrototype(p.value)
  }

  ghost predicate SecondPass(v: JsValue, out: JsValue) {
    Sanitize(out).Ok? && (Sanitize(out) == Ok(out) <==> !LosesPrototype(v))
  }

  lemma {:induction false} KindIsKept(v: JsValue)
    requires Sanitize(v).Ok?
    ensures IsObject(Sanitize(v).value) <==> IsObject(v)
    ensures Sanitize(v).value.Null? <==> BecomesNull(v)
  {
  }

  /** Sanitizing twice never throws, and changes nothing exactly when no null prototype was left behind. */
  lemma {:induction false} IdempotentExactly(v: JsValue)
    requires Proper(v) && Sanitize(v).Ok?
    ensures Sanitize(Sanitize(v).value).Ok?
    ensures Sanitize(Sanitize(v).value) == Sanitize(v) <==> !LosesPrototype(v)
    decreases v
  {
    match v
    case Arr(xs) =>
      ItemsShape(xs);
      var out := SanitizeItems(xs).value;
      forall i | 0 <= i < |xs| ensures SecondPass(xs[i], out[i]) { IdempotentExactly(xs[i]); }
      TwiceOverItems(xs, out);
    case Obj(_, ps) =>
      if IsPlain(v) {
        NothingThrows(ps);
        forall i | 0 <= i < |ps| ensures SecondPass(ps[i].value, SanitizeProp(ps[i]).value.value) {
          assert ProperProp(ps[i]);
          IdempotentExactly(ps[i].value);
        }
        TwiceOverProps(v);
      }
    case _ =>
  }

  lemma {:induction false} TwiceOverItems(xs: seq<JsValue>, out: seq<JsValue>)
    requires |out| == |xs|
    requires forall i :: 0 <= i < |xs| ==> SecondPass(xs[i], out[i])
    ensures SecondPass(Arr(xs), Arr(out))
  {
    if SanitizeItems(out).RangeError? {
      var i := ThrownByItem(out);
    } else {
      ItemsShape(out);
      var again := SanitizeItems(out).value;
      if LosesPrototype(Arr(xs)) {
        var i :| 0 <= i < |xs| && LosesPrototype(xs[i]);
        assert SecondPass(xs[i], out[i]);
        assert again[i] != out[i];
      } else {
        assert forall i :: 0 <= i < |xs| ==> SecondPass(xs[i], out[i]);
        assert again == out;
      }
    }
  }

  /** The properties of a filled object: distinct, none called `__proto__`. */
  lemma {:induction false} OutputProps(ps: seq<Prop>)
    requires Distinct(ps) && SanitizeProps(ps).Ok?
    ensures var out := SanitizeProps(ps).value;
      Distinct(out.props) && Find(out.props, PROTO) == |out.props| && Kept(out.props) == out.props
  {
    var out := SanitizeProps(ps).value;
    PropsShape(ps);
    KeptIsDistinct(ps);
    forall i | 0 <= i < |out.props| ensures out.props[i].key == Kept(ps)[i].key != PROTO {
      var j := KeptIsThere(ps, i);
      assert SanitizeProp(ps[j]) == Ok(out.props[i]);
    }
    KeptAll(out.props);
  }

  ghost predicate EachSettles(ps: seq<Prop>) {
    forall i :: 0 <= i < |ps| ==>
      SanitizeProp(ps[i]).Ok? && SecondPass(ps[i].value, SanitizeProp(ps[i]).value.value)
  }

  lemma {:induction false} TwiceOverProps(v: JsValue)
    requires IsPlain(v) && Distinct(v.props) && SanitizeProps(v.props).Ok?
    requires EachSettles(v.props)
    ensures SecondPass(v, SanitizeProps(v.props).value)
  {
    var ps, out := v.props, SanitizeProps(v.props).value;
    PrototypeOfOutput(ps);
    SecondOverOutput(ps);
  }

  lemma {:induction false} SecondOverOutput(ps: seq<Prop>)
    requires Distinct(ps) && SanitizeProps(ps).Ok?
    requires EachSettles(ps)
    ensures var qs := SanitizeProps(ps).value.props;
      && SanitizeProps(qs).Ok?
      && (SanitizeProps(qs) == Ok(Obj(ObjectPrototype, qs)) <==> !SomeLoses(ps))
      && SanitizeProps(qs).value.proto == ObjectPrototype
  {
    PropsShape(ps);
    OutputProps(ps);
    SecondOverProps(ps, SanitizeProps(ps).value.props);
    PrototypeShape(SanitizeProps(ps).value.props);
  }

  lemma {:induction false} PrototypeOfOutput(ps: seq<Prop>)
    requires Distinct(ps) && SanitizeProps(ps).Ok?
    ensures var proto, k := SanitizeProps(ps).value.proto, Find(ps, PROTO);
      && (proto.Custom? <==> k < |ps| && IsObject(ps[k].value))
      && (proto.NullPrototype? <==> k < |ps| && BecomesNull(ps[k].value))
  {
    PrototypeShape(ps);
    NothingThrows(ps);
    var k := Find(ps, PROTO);
    if k < |ps| { KindIsKept(ps[k].value); }
  }

  lemma {:induction false} SecondOverProps(ps: seq<Prop>, qs: seq<Prop>)
    requires Distinct(qs) && Find(qs, PROTO) == |qs| && Kept(qs) == qs && |qs| == |Kept(ps)|
    requires EachSettles(ps)
    requires forall i :: 0 <= i < |qs| ==> SanitizeProp(Kept(ps)[i]) == Ok(qs[i])
    ensures SanitizeProps(qs).Ok?
    ensures SanitizeProps(qs) == Ok(Obj(ObjectPrototype, qs)) <==> !SomeLoses(ps)
  {
    forall i | 0 <= i < |qs| ensures SecondPass(Kept(ps)[i].value, qs[i].value) {
      var j := KeptIsThere(ps, i);
    }
    if SanitizeProps(qs).RangeError? {
      var i := ThrownByProp(qs);
    } else {
      PropsShape(qs);
      PrototypeShape(qs);
      var again := SanitizeProps(qs).value.props;
      if SomeLoses(ps) {
        var j :| 0 <= j < |ps| && ps[j].key != PROTO && PropLosesPrototype(ps[j]);
        var i := OthersAreKept(ps, j);
        assert SecondPass(Kept(ps)[i].value, qs[i].value);
        assert again[i] != qs[i];
      } else {
        forall i | 0 <= i < |qs| ensures again[i] == qs[i] {
          assert SecondPass(Kept(ps)[i].value, qs[i].value);
          var j := KeptIsThere(ps, i);
          assert !PropLosesPrototype(Kept(ps)[i]);
        }
        assert again == qs;
      }
    }
  }

  /** `JSON.parse('{"__proto__": null}')` is such a value: the second pass gives the prototype back. */
  lemma {:induction false} SecondPassCanDiffer()
    ensures var v := Obj(ObjectPrototype, [Prop(PROTO, Null)]);
      && Proper(v)
      && Sanitize(v) == Ok(Obj(NullPrototype, []))
      && Sanitize(Obj(NullPrototype, [])) == Ok(Obj(ObjectPrototype, []))
  {
    var ps := [Prop(PROTO, Null)];
    assert ps[..0] == [];
    assert SanitizeProp(ps[0]) == Ok(ps[0]);
    assert SanitizeProps(ps) == Ok(Obj(NullPrototype, []));
  }
}
