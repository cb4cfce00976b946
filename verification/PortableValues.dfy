/**
 * The Python binding's check on generic values before they go on the wire
 * (python/src/multifrost/frame.py, `_normalize_msgpack_value`).
 */
module PortableValues {
  import opened Wire

  const INT64_MIN: int := -0x8000_0000_0000_0000
  const INT64_MAX: int := 0x7fff_ffff_ffff_ffff

  datatype Float = Finite(amount: real) | Infinite(negative: bool) | NotANumber

  /**
   * A Python value, by the first branch of the normalizer that it meets. A mapping is the sequence of
   * pairs its `items()` yields; a key may be any value, and nothing stops a user-defined mapping
   * from yielding a key twice.
   */
  datatype Value =
    | Null
    | Str(text: string)
    | Raw(bytes: Bytes)
    | RawArray(bytes: Bytes)
    | Bool(truth: bool)
    | Int(number: int)
    | Flt(float: Float)
    | Mapping(entries: seq<Entry>)
    | List(items: seq<Value>)
    | Tuple(items: seq<Value>)
    | Record(toMapping: Value)
    | Enum(member: Value)
    | Unsupported(typeName: string)

  datatype Entry = Entry(key: Value, value: Value)

  datatype Fault = IntegerRange | NonFiniteFloat | KeyNotString | UnsupportedType

  datatype Result<+T> = Ok(value: T) | Err(fault: Fault)

  // ---- The normalizer ----

  /** Where a key sits, or the length when it does not. */
  function Find(es: seq<Entry>, key: Value): (i: nat)
    ensures i <= |es|
    ensures i < |es| ==> es[i].key == key
    ensures forall j :: 0 <= j < i ==> es[j].key != key
  {
    if es == [] then 0 else if es[0].key == key then 0 else 1 + Find(es[1..], key)
  }

  /** Assignment to a dictionary: a known key keeps its place, a new one goes last. */
  function Put(es: seq<Entry>, key: Value, value: Value): (r: seq<Entry>)
  {
    var i := Find(es, key);
    if i < |es| then es[i := Entry(key, value)] else es + [Entry(key, value)]
  }

  function Normalize(v: Value): (r: Result<Value>)
    decreases v
  {
    match v
    case Null | Str(_) | Raw(_) | Bool(_) => Ok(v)
    case RawArray(bs) => Ok(Raw(bs))
    case Int(n) => if n < INT64_MIN || n > INT64_MAX then Err(IntegerRange) else Ok(v)
    case Flt(f) => if !f.Finite? then Err(NonFiniteFloat) else Ok(v)
    case Mapping(es) =>
      (match NormalizeEntries(es)
       case Err(f) => Err(f)
       case Ok(out) => Ok(Mapping(out)))
    case List(xs) =>
      (match NormalizeItems(xs)
       case Err(f) => Err(f)
       case Ok(out) => Ok(List(out)))
    case Tuple(xs) =>
      (match NormalizeItems(xs)
       case Err(f) => Err(f)
       case Ok(out) => Ok(List(out)))
    case Record(m) => Normalize(m)
    case Enum(m) => Normalize(m)
    case Unsupported(_) => Err(UnsupportedType)
  }

  function NormalizeEntries(es: seq<Entry>): (r: Result<seq<Entry>>)
    decreases es
  {
    if es == [] then Ok([])
    else
      match NormalizeEntries(es[..|es| - 1])
      case Err(f) => Err(f)
      case Ok(done) =>
        match NormalizeEntry(es[|es| - 1])
        case Err(f) => Err(f)
        case Ok(e) => Ok(Put(done, e.key, e.value))
  }

  function NormalizeEntry(e: Entry): (r: Result<Entry>)
    decreases e
  {
    if !e.key.Str? then Err(KeyNotString)
    else match Normalize(e.value)
         case Err(f) => Err(f)
         case Ok(item) => Ok(Entry(e.key, item))
  }

  function NormalizeItems(xs: seq<Value>): (r: Result<seq<Value>>)
    decreases xs
  {
    if xs == [] then Ok([])
    else
      match NormalizeItems(xs[..|xs| - 1])
      case Err(f) => Err(f)
      case Ok(done) =>
        match Normalize(xs[|xs| - 1])
        case Err(f) => Err(f)
        case Ok(item) => Ok(done + [item])
  }

  /** The same check as the source runs it: the dictionary and the list are filled item by item. */
  method NormalizeValue(v: Value) returns (r: Result<Value>)
    ensures r == Normalize(v)
    decreases v
  {
    match v
    case Null | Str(_) | Raw(_) | Bool(_) => r := Ok(v);
    case RawArray(bs) => r := Ok(Raw(bs));
    case Int(n) => r := if n < INT64_MIN || n > INT64_MAX then Err(IntegerRange) else Ok(v);
    case Flt(f) => r := if !f.Finite? then Err(NonFiniteFloat) else Ok(v);
    case Mapping(es) =>
      var filled := FillDictionary(es);
      r := if filled.Ok? then Ok(Mapping(filled.value)) else Err(filled.fault);
    case List(xs) =>
      var filled := FillList(xs);
      r := if filled.Ok? then Ok(List(filled.value)) else Err(filled.fault);
    case Tuple(xs) =>
      var filled := FillList(xs);
      r := if filled.Ok? then Ok(List(filled.value)) else Err(filled.fault);
    case Record(m) => r := NormalizeValue(m);
    case Enum(m) => r := NormalizeValue(m);
    case Unsupported(_) => r := Err(UnsupportedType);
  }

  method FillDictionary(es: seq<Entry>) returns (r: Result<seq<Entry>>)
    ensures r == NormalizeEntries(es)
    decreases es
  {
    var normalized: seq<Entry> := [];
    for i := 0 to |es|
      invariant NormalizeEntries(es[..i]) == Ok(normalized)
    {
      assert es[..i + 1][..i] == es[..i];
      var item := NormalizeItem(es[i]);
      if item.Err? {
        StopsAt(es, i + 1);
        return Err(item.fault);
      }
      normalized := Put(normalized, item.value.key, item.value.value);
    }
    assert es[..|es|] == es;
    return Ok(normalized);
  }

  method NormalizeItem(e: Entry) returns (r: Result<Entry>)
    ensures r == NormalizeEntry(e)
    decreases e
  {
    if !e.key.Str? {
      return Err(KeyNotString);
    }
    var item := NormalizeValue(e.value);
    return if item.Ok? then Ok(Entry(e.key, item.value)) else Err(item.fault);
  }

  method FillList(xs: seq<Value>) returns (r: Result<seq<Value>>)
    ensures r == NormalizeItems(xs)
    decreases xs
  {
    var normalized: seq<Value> := [];
    for i := 0 to |xs|
      invariant NormalizeItems(xs[..i]) == Ok(normalized)
    {
      assert xs[..i + 1][..i] == xs[..i];
      var item := NormalizeValue(xs[i]);
      if item.Err? {
        ItemsStopAt(xs, i + 1);
        return Err(item.fault);
      }
      normalized := normalized + [item.value];
    }
    assert xs[..|xs|] == xs;
    return Ok(normalized);
  }

  /** A loop that failed on a prefix raises that failure whatever follows. */
  lemma {:induction false} StopsAt(es: seq<Entry>, i: nat)
    requires i <= |es| && NormalizeEntries(es[..i]).Err?
    ensures NormalizeEntries(es) == NormalizeEntries(es[..i])
    decreases |es|
  {
    if i == |es| {
      assert es[..i] == es;
    } else {
      assert es[..|es| - 1][..i] == es[..i];
      StopsAt(es[..|es| - 1], i);
    }
  }

  lemma {:induction false} ItemsStopAt(xs: seq<Value>, i: nat)
    requires i <= |xs| && NormalizeItems(xs[..i]).Err?
    ensures NormalizeItems(xs) == NormalizeItems(xs[..i])
    decreases |xs|
  {
    if i == |xs| {
      assert xs[..i] == xs;
    } else {
      assert xs[..|xs| - 1][..i] == xs[..i];
      ItemsStopAt(xs[..|xs| - 1], i);
    }
  }

  // ---- What a portable value is ----

  predicate Distinct(es: seq<Entry>) {
    forall i, j :: 0 <= i < j < |es| ==> es[i].key != es[j].key
  }

  predicate Portable(v: Value)
    decreases v
  {
    match v
    case Null | Str(_) | Raw(_) | Bool(_) => true
    case Int(n) => -0x8000_0000_0000_0000 <= n <= 0x7fff_ffff_ffff_ffff
    case Flt(f) => f.Finite?
    case Mapping(es) => Distinct(es) && forall i :: 0 <= i < |es| ==> PortableEntry(es[i])
    case List(xs) => forall i :: 0 <= i < |xs| ==> Portable(xs[i])
    case RawArray(_) | Tuple(_) | Record(_) | Enum(_) | Unsupported(_) => false
  }

  predicate PortableEntry(e: Entry)
    decreases e
  {
    e.key.Str? && Portable(e.value)
  }

  // ---- Where a value can go wrong ----

  /** `p` is `v` or is reached from it through items, mapped values, `to_mapping` and enum members. */
  predicate Within(v: Value, p: Value)
    decreases v
  {
    v == p ||
    match v
    case Mapping(es) => exists i :: 0 <= i < |es| && WithinEntry(es[i], p)
    case List(xs) => exists i :: 0 <= i < |xs| && Within(xs[i], p)
    case Tuple(xs) => exists i :: 0 <= i < |xs| && Within(xs[i], p)
    case Record(m) => Within(m, p)
    case Enum(m) => Within(m, p)
    case _ => false
  }

  predicate WithinEntry(e: Entry, p: Value)
    decreases e
  {
    Within(e.value, p)
  }

  /** A fault of this one node, whatever is below it. */
  predicate HasFault(p: Value, f: Fault) {
    match f
    case IntegerRange => p.Int? && !(-0x8000_0000_0000_0000 <= p.number <= 0x7fff_ffff_ffff_ffff)
    case NonFiniteFloat => p.Flt? && !p.float.Finite?
    case KeyNotString => p.Mapping? && exists i :: 0 <= i < |p.entries| && !p.entries[i].key.Str?
    case UnsupportedType => p.Unsupported?
  }

  ghost predicate Faulty(v: Value, f: Fault) {
    exists p :: Within(v, p) && HasFault(p, f)
  }

  /** Nothing else is ever raised: the fault reported sits somewhere in the value. */
  lemma {:induction false} RaisedIsReal(v: Value)
    requires Normalize(v).Err?
    ensures Faulty(v, Normalize(v).fault)
    decreases v
  {
    match v
    case Mapping(es) =>
      if i :| 0 <= i < |es| && !es[i].key.Str? && Normalize(v).fault == KeyNotString {
        assert Within(v, v) && HasFault(v, KeyNotString);
      } else {
        var i := RaisedInEntry(es);
        RaisedIsReal(es[i].value);
        var p :| Within(es[i].value, p) && HasFault(p, Normalize(v).fault);
        assert WithinEntry(es[i], p) && Within(v, p);
      }
    case List(xs) =>
      var i := RaisedInItem(xs);
      RaisedIsReal(xs[i]);
      var p :| Within(xs[i], p) && HasFault(p, Normalize(v).fault);
      assert Within(v, p);
    case Tuple(xs) =>
      var i := RaisedInItem(xs);
      RaisedIsReal(xs[i]);
      var p :| Within(xs[i], p) && HasFault(p, Normalize(v).fault);
      assert Within(v, p);
    case Record(m) =>
      RaisedIsReal(m);
      var p :| Within(m, p) && HasFault(p, Normalize(v).fault);
      assert Within(v, p);
    case Enum(m) =>
      RaisedIsReal(m);
      var p :| Within(m, p) && HasFault(p, Normalize(v).fault);
      assert Within(v, p);
    case Int(_) => assert Within(v, v) && HasFault(v, IntegerRange);
    case Flt(_) => assert Within(v, v) && HasFault(v, NonFiniteFloat);
    case Unsupported(_) => assert Within(v, v) && HasFault(v, UnsupportedType);
    case _ =>
  }

  lemma {:induction false} RaisedInEntry(es: seq<Entry>) returns (i: nat)
    requires NormalizeEntries(es).Err?
    ensures i < |es| && NormalizeEntry(es[i]) == Err(NormalizeEntries(es).fault)
    decreases |es|
  {
    if NormalizeEntries(es[..|es| - 1]).Err? {
      i := RaisedInEntry(es[..|es| - 1]);
    } else {
      i := |es| - 1;
    }
  }

  lemma {:induction false} RaisedInItem(xs: seq<Value>) returns (i: nat)
    requires NormalizeItems(xs).Err?
    ensures i < |xs| && Normalize(xs[i]) == Err(NormalizeItems(xs).fault)
    decreases |xs|
  {
    if NormalizeItems(xs[..|xs| - 1]).Err? {
      i := RaisedInItem(xs[..|xs| - 1]);
    } else {
      i := |xs| - 1;
    }
  }

  lemma {:induction false} EveryEntryNormalizes(es: seq<Entry>, i: nat)
    requires i < |es| && NormalizeEntries(es).Ok?
    ensures NormalizeEntry(es[i]).Ok?
    decreases |es|
  {
    if i < |es| - 1 {
      EveryEntryNormalizes(es[..|es| - 1], i);
    }
  }

  lemma {:induction false} EveryItemNormalizes(xs: seq<Value>, i: nat)
    requires i < |xs| && NormalizeItems(xs).Ok?
    ensures |NormalizeItems(xs).value| == |xs|
    ensures Normalize(xs[i]) == Ok(NormalizeItems(xs).value[i])
    decreases |xs|
  {
    if i < |xs| - 1 {
      EveryItemNormalizes(xs[..|xs| - 1], i);
    } else if |xs| > 1 {
      EveryItemNormalizes(xs[..|xs| - 1], 0);
    }
  }

  lemma {:induction false} AcceptedHasNoFault(v: Value, p: Value, f: Fault)
    requires Normalize(v).Ok? && Within(v, p)
    ensures !HasFault(p, f)
    decreases v
  {
    match v
    case Mapping(es) =>
      forall i | 0 <= i < |es| ensures NormalizeEntry(es[i]).Ok? { EveryEntryNormalizes(es, i); }
      if v != p {
        var i :| 0 <= i < |es| && WithinEntry(es[i], p);
        AcceptedHasNoFault(es[i].value, p, f);
      }
    case List(xs) =>
      if v != p {
        var i :| 0 <= i < |xs| && Within(xs[i], p);
        EveryItemNormalizes(xs, i);
        AcceptedHasNoFault(xs[i], p, f);
      }
    case Tuple(xs) =>
      if v != p {
        var i :| 0 <= i < |xs| && Within(xs[i], p);
        EveryItemNormalizes(xs, i);
        AcceptedHasNoFault(xs[i], p, f);
      }
    case Record(m) => if v != p { AcceptedHasNoFault(m, p, f); }
    case Enum(m) => if v != p { AcceptedHasNoFault(m, p, f); }
    case _ =>
  }

  /** The normalizer refuses a value exactly when some reachable leaf or key is not portable. */
  lemma RejectsExactly(v: Value)
    ensures Normalize(v).Err? <==> exists f :: Faulty(v, f)
    ensures Normalize(v).Err? ==> Faulty(v, Normalize(v).fault)
  {
    if Normalize(v).Err? {
      RaisedIsReal(v);
    } else if f :| Faulty(v, f) {
      var p :| Within(v, p) && HasFault(p, f);
      AcceptedHasNoFault(v, p, f);
    }
  }

  // ---- What it returns ----

  lemma PutKeepsDistinct(es: seq<Entry>, key: Value, value: Value)
    requires Distinct(es)
    ensures Distinct(Put(es, key, value))
    ensures forall e :: e in Put(es, key, value) ==> e in es || e == Entry(key, value)
  {
  }

  lemma {:induction false} OutputIsPortable(v: Value)
    requires Normalize(v).Ok?
    ensures Portable(Normalize(v).value)
    decreases v
  {
    match v
    case Mapping(es) => EntriesArePortable(es);
    case List(xs) => ItemsArePortable(xs);
    case Tuple(xs) => ItemsArePortable(xs);
    case Record(m) => OutputIsPortable(m);
    case Enum(m) => OutputIsPortable(m);
    case _ =>
  }

  lemma {:induction false} EntriesArePortable(es: seq<Entry>)
    requires NormalizeEntries(es).Ok?
    ensures Portable(Mapping(NormalizeEntries(es).value))
    decreases es
  {
    if es != [] {
      EntriesArePortable(es[..|es| - 1]);
      EntryIsPortable(es[|es| - 1]);
      var done := NormalizeEntries(es[..|es| - 1]).value;
      var e := NormalizeEntry(es[|es| - 1]).value;
      PutKeepsDistinct(done, e.key, e.value);
      var out := Put(done, e.key, e.value);
      forall i | 0 <= i < |out| ensures PortableEntry(out[i]) {
        assert out[i] in out;
      }
    }
  }

  lemma {:induction false} EntryIsPortable(e: Entry)
    requires NormalizeEntry(e).Ok?
    ensures PortableEntry(NormalizeEntry(e).value)
    decreases e
  {
    OutputIsPortable(e.value);
  }

  lemma {:induction false} ItemsArePortable(xs: seq<Value>)
    requires NormalizeItems(xs).Ok?
    ensures Portable(List(NormalizeItems(xs).value))
    decreases xs
  {
    if xs != [] {
      ItemsArePortable(xs[..|xs| - 1]);
      OutputIsPortable(xs[|xs| - 1]);
    }
  }

  /** A portable value goes through untouched. */
  lemma {:induction false} PortableIsFixed(v: Value)
    requires Portable(v)
    ensures Normalize(v) == Ok(v)
    decreases v
  {
    match v
    case Mapping(es) => PortableEntriesAreFixed(es);
    case List(xs) => PortableItemsAreFixed(xs);
    case _ =>
  }

  lemma {:induction false} PortableEntriesAreFixed(es: seq<Entry>)
    requires Portable(Mapping(es))
    ensures NormalizeEntries(es) == Ok(es)
    decreases es
  {
    if es != [] {
      var init, last := es[..|es| - 1], es[|es| - 1];
      PortableEntriesAreFixed(init);
      PortableEntryIsFixed(last);
      assert es == init + [last];
    }
  }

  lemma {:induction false} PortableEntryIsFixed(e: Entry)
    requires PortableEntry(e)
    ensures NormalizeEntry(e) == Ok(e)
    decreases e
  {
    PortableIsFixed(e.value);
  }

  lemma {:induction false} PortableItemsAreFixed(xs: seq<Value>)
    requires Portable(List(xs))
    ensures NormalizeItems(xs) == Ok(xs)
    decreases xs
  {
    if xs != [] {
      var init, last := xs[..|xs| - 1], xs[|xs| - 1];
      PortableItemsAreFixed(init);
      PortableIsFixed(last);
      assert xs == init + [last];
    }
  }

  /** Normalizing again changes nothing, and the fixed points are exactly the portable values. */
  lemma Idempotent(v: Value)
    ensures Normalize(v).Ok? ==> Normalize(Normalize(v).value) == Normalize(v)
    ensures Normalize(v) == Ok(v) <==> Portable(v)
  {
    if Normalize(v).Ok? {
      OutputIsPortable(v);
      PortableIsFixed(Normalize(v).value);
    }
    if Portable(v) {
      PortableIsFixed(v);
    }
  }

  // ---- What a value means, apart from how Python holds it ----

  datatype Plain =
    | NoValue
    | Text(text: string)
    | Octets(bytes: Bytes)
    | Truth(truth: bool)
    | Integer(number: int)
    | Amount(float: Float)
    | Table(rows: map<Value, Plain>)
    | Sequence(items: seq<Plain>)
    | Opaque(typeName: string)

  /** Lists and tuples are sequences, byte arrays are bytes, wrappers stand for what they wrap, and the last of two equal keys wins. */
  function Meaning(v: Value): (m: Plain)
    decreases v
  {
    match v
    case Null => NoValue
    case Str(s) => Text(s)
    case Raw(bs) => Octets(bs)
    case RawArray(bs) => Octets(bs)
    case Bool(b) => Truth(b)
    case Int(n) => Integer(n)
    case Flt(f) => Amount(f)
    case Mapping(es) => Table(Rows(es))
    case List(xs) => Sequence(seq(|xs|, i requires 0 <= i < |xs| => Meaning(xs[i])))
    case Tuple(xs) => Sequence(seq(|xs|, i requires 0 <= i < |xs| => Meaning(xs[i])))
    case Record(m) => Meaning(m)
    case Enum(m) => Meaning(m)
    case Unsupported(t) => Opaque(t)
  }

  function Rows(es: seq<Entry>): (rows: map<Value, Plain>)
    decreases es
  {
    if es == [] then map[] else Rows(es[..|es| - 1])[es[|es| - 1].key := RowValue(es[|es| - 1])]
  }

  function RowValue(e: Entry): (m: Plain)
    decreases e
  {
    Meaning(e.value)
  }

  lemma {:induction false} RowIsReplaced(es: seq<Entry>, i: nat, value: Value)
    requires Distinct(es) && i < |es|
    ensures Rows(es[i := Entry(es[i].key, value)]) == Rows(es)[es[i].key := Meaning(value)]
    decreases |es|
  {
    var e := Entry(es[i].key, value);
    var out := es[i := e];
    var init, last := es[..|es| - 1], es[|es| - 1];
    if i == |es| - 1 {
      assert out[..|es| - 1] == init;
    } else {
      assert out[..|es| - 1] == init[i := e];
      RowIsReplaced(init, i, value);
      assert last.key != e.key;
    }
  }

  lemma RowIsAdded(es: seq<Entry>, e: Entry)
    ensures Rows(es + [e]) == Rows(es)[e.key := RowValue(e)]
  {
    assert (es + [e])[..|es|] == es;
  }

  lemma {:induction false} PutSetsOneRow(es: seq<Entry>, key: Value, value: Value)
    requires Distinct(es)
    ensures Rows(Put(es, key, value)) == Rows(es)[key := Meaning(value)]
  {
    var i := Find(es, key);
    if i < |es| {
      RowIsReplaced(es, i, value);
    } else {
      RowIsAdded(es, Entry(key, value));
    }
  }

  /** What is sent means what was given. */
  lemma {:induction false} MeaningIsKept(v: Value)
    requires Normalize(v).Ok?
    ensures Meaning(Normalize(v).value) == Meaning(v)
    decreases v
  {
    match v
    case Mapping(es) => RowsAreKept(es);
    case List(xs) => ItemsAreKept(xs);
    case Tuple(xs) => ItemsAreKept(xs);
    case Record(m) => MeaningIsKept(m);
    case Enum(m) => MeaningIsKept(m);
    case _ =>
  }

  lemma {:induction false} RowsAreKept(es: seq<Entry>)
    requires NormalizeEntries(es).Ok?
    ensures Rows(NormalizeEntries(es).value) == Rows(es)
    decreases es
  {
    if es != [] {
      RowsAreKept(es[..|es| - 1]);
      RowIsKept(es[|es| - 1]);
      EntriesArePortable(es[..|es| - 1]);
      var e := NormalizeEntry(es[|es| - 1]).value;
      PutSetsOneRow(NormalizeEntries(es[..|es| - 1]).value, e.key, e.value);
    }
  }

  lemma {:induction false} RowIsKept(e: Entry)
    requires NormalizeEntry(e).Ok?
    ensures NormalizeEntry(e).value.key == e.key && RowValue(NormalizeEntry(e).value) == RowValue(e)
    decreases e
  {
    MeaningIsKept(e.value);
  }

  lemma {:induction false} ItemsAreKept(xs: seq<Value>)
    requires NormalizeItems(xs).Ok?
    ensures |NormalizeItems(xs).value| == |xs|
    ensures forall i :: 0 <= i < |xs| ==> Meaning(NormalizeItems(xs).value[i]) == Meaning(xs[i])
    decreases xs
  {
    if xs != [] {
      ItemsAreKept(xs[..|xs| - 1]);
      MeaningIsKept(xs[|xs| - 1]);
    }
  }
}
