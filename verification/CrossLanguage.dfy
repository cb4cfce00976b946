/** A value the Python binding may send, seen by the JavaScript binding that forwards or re-sends it. */
module CrossLanguage {
  import opened Wire
  import Py = PortableValues
  import Js = JsValues

  /**
   * The JavaScript value for a portable Python one. Which integers arrive as numbers and which as bigints is
   * the MessagePack library's choice, given as `asNumber`.
   */
  function ToJs(v: Py.Value, asNumber: int -> bool): (r: Js.JsValue)
    requires Py.Portable(v)
    decreases v
  {
    match v
    case Null => Js.Null
    case Str(s) => Js.Str(s)
    case Raw(bs) => Js.Octets(bs)
    case Bool(b) => Js.Bool(b)
    case Int(n) => if asNumber(n) then Js.Num(Py.Finite(n as real)) else Js.Big(n)
    case Flt(f) => Js.Num(f)
    case Mapping(es) =>
      Js.Obj(Js.ObjectPrototype, seq(|es|, i requires 0 <= i < |es| => ToProp(es[i], asNumber)))
    case List(xs) => Js.Arr(seq(|xs|, i requires 0 <= i < |xs| => ToJs(xs[i], asNumber)))
  }

  function ToProp(e: Py.Entry, asNumber: int -> bool): (p: Js.Prop)
    requires Py.PortableEntry(e)
    decreases e
  {
    Js.Prop(e.key.text, ToJs(e.value, asNumber))
  }

  /** This one node is one the sanitizer leaves as it is. */
  predicate CarriesOver(p: Py.Value, asNumber: int -> bool) {
    && (p.Int? && asNumber(p.number) ==> -9007199254740991 <= p.number <= 9007199254740991)
    && (p.Flt? && p.float.Finite? && Whole(p.float.amount) ==>
          -9007199254740991.0 <= p.float.amount <= 9007199254740991.0)
    && (p.Mapping? ==> forall i :: 0 <= i < |p.entries| ==> p.entries[i].key != Py.Str("__proto__"))
  }

  lemma {:induction false} PartsArePortable(v: Py.Value, p: Py.Value)
    requires Py.Portable(v) && Py.Within(v, p)
    ensures Py.Portable(p)
    decreases v
  {
    if v != p {
      match v
      case Mapping(es) =>
        var i :| 0 <= i < |es| && Py.WithinEntry(es[i], p);
        assert Py.PortableEntry(es[i]);
        PartsArePortable(es[i].value, p);
      case List(xs) =>
        var i :| 0 <= i < |xs| && Py.Within(xs[i], p);
        PartsArePortable(xs[i], p);
      case _ =>
    }
  }

  lemma {:induction false} ImageIsProper(v: Py.Value, asNumber: int -> bool)
    requires Py.Portable(v)
    ensures Js.Proper(ToJs(v, asNumber))
    decreases v
  {
    match v
    case Mapping(es) =>
      var ps := ToJs(v, asNumber).props;
      forall i | 0 <= i < |es| ensures Js.ProperProp(ps[i]) {
        assert Py.PortableEntry(es[i]);
        ImageIsProper(es[i].value, asNumber);
      }
      assert Js.Distinct(ps) by {
        forall i | 0 <= i < |es| ensures es[i].key == Py.Str(ps[i].key) {
          assert Py.PortableEntry(es[i]) && ps[i] == ToProp(es[i], asNumber);
        }
      }
    case List(xs) =>
      forall i | 0 <= i < |xs| ensures Js.Proper(ToJs(xs[i], asNumber)) {
        ImageIsProper(xs[i], asNumber);
      }
    case _ =>
  }

  lemma {:induction false} PartHasImage(v: Py.Value, p: Py.Value, asNumber: int -> bool)
    requires Py.Portable(v) && Py.Portable(p) && Py.Within(v, p)
    ensures Js.Within(ToJs(v, asNumber), ToJs(p, asNumber))
    decreases v
  {
    if v != p {
      var image := ToJs(v, asNumber);
      match v
      case Mapping(es) =>
        var i :| 0 <= i < |es| && Py.WithinEntry(es[i], p);
        assert Py.PortableEntry(es[i]);
        PartHasImage(es[i].value, p, asNumber);
        assert image.props[i] == ToProp(es[i], asNumber);
        assert Js.WithinProp(image.props[i], ToJs(p, asNumber));
      case List(xs) =>
        var i :| 0 <= i < |xs| && Py.Within(xs[i], p);
        PartHasImage(xs[i], p, asNumber);
        assert Js.Within(image.items[i], ToJs(p, asNumber));
      case _ =>
    }
  }

  lemma {:induction false} PartOfImage(v: Py.Value, q: Js.JsValue, asNumber: int -> bool) returns (p: Py.Value)
    requires Py.Portable(v) && Js.Within(ToJs(v, asNumber), q)
    ensures Py.Within(v, p) && Py.Portable(p) && ToJs(p, asNumber) == q
    decreases v
  {
    var image := ToJs(v, asNumber);
    p := v;
    if image != q {
      match v
      case Mapping(es) =>
        var i :| 0 <= i < |es| && Js.WithinProp(image.props[i], q);
        assert Py.PortableEntry(es[i]);
        assert image.props[i] == ToProp(es[i], asNumber);
        p := PartOfImage(es[i].value, q, asNumber);
        assert Py.WithinEntry(es[i], p);
      case List(xs) =>
        var i :| 0 <= i < |xs| && Js.Within(image.items[i], q);
        p := PartOfImage(xs[i], q, asNumber);
      case _ =>
    }
  }

  lemma WholeNumbers(n: int)
    ensures Whole(n as real)
    ensures Js.Safe(n as real) <==> -Js.MAX_SAFE <= n <= Js.MAX_SAFE
  {
  }

  lemma {:induction false} NodeCarriesOver(p: Py.Value, asNumber: int -> bool)
    requires Py.Portable(p)
    ensures Js.LeftAlone(ToJs(p, asNumber)) <==> CarriesOver(p, asNumber)
  {
    match p
    case Int(n) => WholeNumbers(n);
    case Mapping(es) =>
      var ps := ToJs(p, asNumber).props;
      var k := Js.Find(ps, Js.PROTO);
      forall i | 0 <= i < |es| ensures es[i].key == Py.Str(ps[i].key) {
        assert Py.PortableEntry(es[i]) && ps[i] == ToProp(es[i], asNumber);
      }
      if k < |ps| { assert es[k].key == Py.Str(Js.PROTO); }
    case _ =>
  }

  /** A portable value reaches JavaScript and leaves it unchanged exactly when each of its nodes carries over. */
  lemma SurvivesExactly(v: Py.Value, asNumber: int -> bool)
    requires Py.Portable(v)
    ensures Js.Sanitize(ToJs(v, asNumber)) == Js.Ok(ToJs(v, asNumber))
       <==> forall p :: Py.Within(v, p) ==> CarriesOver(p, asNumber)
  {
    var image := ToJs(v, asNumber);
    ImageIsProper(v, asNumber);
    Js.UnchangedExactly(image);
    if forall q :: Js.Within(image, q) ==> Js.LeftAlone(q) {
      forall p | Py.Within(v, p) ensures CarriesOver(p, asNumber) {
        PartsArePortable(v, p);
        PartHasImage(v, p, asNumber);
        NodeCarriesOver(p, asNumber);
      }
    }
    if forall p :: Py.Within(v, p) ==> CarriesOver(p, asNumber) {
      forall q | Js.Within(image, q) ensures Js.LeftAlone(q) {
        var p := PartOfImage(v, q, asNumber);
        NodeCarriesOver(p, asNumber);
      }
    }
  }

  /** From any Python value the normalizer accepts: what it sends survives JavaScript under the same condition. */
  lemma AcceptedSurvivesExactly(v: Py.Value, asNumber: int -> bool)
    requires Py.Normalize(v).Ok?
    ensures Py.Portable(Py.Normalize(v).value)
    ensures var w := Py.Normalize(v).value;
      Js.Sanitize(ToJs(w, asNumber)) == Js.Ok(ToJs(w, asNumber))
      <==> forall p :: Py.Within(w, p) ==> CarriesOver(p, asNumber)
  {
    Py.OutputIsPortable(v);
    SurvivesExactly(Py.Normalize(v).value, asNumber);
  }

  /** Small integers are not enough: a map key `__proto__` passes Python and vanishes in JavaScript. */
  lemma ProtoKeyIsLost()
    ensures var v := Py.Mapping([Py.Entry(Py.Str(Js.PROTO), Py.Int(1))]);
      && Py.Normalize(v) == Py.Ok(v)
      && Py.Portable(v)
      && Js.Sanitize(ToJs(v, n => true)) == Js.Ok(Js.Obj(Js.ObjectPrototype, []))
  {
    var e := Py.Entry(Py.Str(Js.PROTO), Py.Int(1));
    var v := Py.Mapping([e]);
    assert Py.PortableEntry(e);
    assert Py.Portable(v);
    Py.PortableIsFixed(v);
    WholeNumbers(1);
    var p := Js.Prop(Js.PROTO, Js.Num(Py.Finite(1 as real)));
    assert ToJs(v, n => true) == Js.Obj(Js.ObjectPrototype, [p]) by {
      assert ToProp(e, n => true) == p;
    }
    assert [p][..0] == [];
    assert Js.SanitizeProp(p) == Js.Ok(p);
    assert Js.SanitizeProps([p]) == Js.Ok(Js.Obj(Js.ObjectPrototype, []));
  }
}
