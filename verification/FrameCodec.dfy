/** The frame layout: a big-endian 32-bit envelope length, the packed envelope, the body. */
module FrameCodec {
  import opened Wire

  const LENGTH_LIMIT: nat := 0x1_0000_0000

  function BigEndian(n: nat): (b: Bytes)
    requires n < LENGTH_LIMIT
    ensures |b| == 4
  {
    [(n / 0x100_0000) as byte, (n / 0x1_0000 % 0x100) as byte, (n / 0x100 % 0x100) as byte, (n % 0x100) as byte]
  }

  function FromBigEndian(b: Bytes): (n: nat)
    requires |b| == 4
    ensures n < LENGTH_LIMIT
  {
    b[0] as nat * 0x100_0000 + b[1] as nat * 0x1_0000 + b[2] as nat * 0x100 + b[3] as nat
  }

  lemma LengthRoundTrip(n: nat)
    requires n < LENGTH_LIMIT
    ensures FromBigEndian(BigEndian(n)) == n
  {
    var high, low := n / 0x1_0000, n % 0x1_0000;
    assert n / 0x100_0000 == high / 0x100;
    assert n / 0x100 % 0x100 == low / 0x100;
    assert n % 0x100 == low % 0x100;
  }

  lemma LengthBytesUnique(b: Bytes)
    requires |b| == 4
    ensures BigEndian(FromBigEndian(b)) == b
  {
    var b0, b1, b2, b3 := b[0] as nat, b[1] as nat, b[2] as nat, b[3] as nat;
    DigitsOf(b0, b1, b2, b3);
    assert b == [b[0], b[1], b[2], b[3]];
  }

  lemma DigitsOf(b0: nat, b1: nat, b2: nat, b3: nat)
    requires b0 < 0x100 && b1 < 0x100 && b2 < 0x100 && b3 < 0x100
    ensures var n := b0 * 0x100_0000 + b1 * 0x1_0000 + b2 * 0x100 + b3;
      n / 0x100_0000 == b0 && n / 0x1_0000 % 0x100 == b1 && n / 0x100 % 0x100 == b2 && n % 0x100 == b3
  {
    var n := b0 * 0x100_0000 + b1 * 0x1_0000 + b2 * 0x100 + b3;
    var high, low := b0 * 0x100 + b1, b2 * 0x100 + b3;
    assert n == high * 0x1_0000 + low;
    assert n / 0x1_0000 == high;
    assert n / 0x100 == high * 0x100 + b2;
  }

  /** The router's encoder. The length is cast to 32 bits, so it wraps. */
  function EncodeFrame(c: EnvelopeCodec, env: Envelope, body: Bytes): Bytes {
    var packed := c.pack(env);
    BigEndian(|packed| % LENGTH_LIMIT) + packed + body
  }

  /** The Python encoder refuses an envelope whose length does not fit. */
  function EncodeFramePython(c: EnvelopeCodec, env: Envelope, body: Bytes): Option<Bytes> {
    var packed := c.pack(env);
    if |packed| > 0xFFFF_FFFF then None else Some(BigEndian(|packed|) + packed + body)
  }

  datatype Parts = Parts(envelopeBytes: Bytes, bodyBytes: Bytes)

  /** Where a frame is cut, in exact arithmetic. */
  function SplitFrame(raw: Bytes): Option<Parts> {
    if |raw| < 4 then None
    else
      var n := FromBigEndian(raw[..4]);
      if |raw| < 4 + n then None else Some(Parts(raw[4..4 + n], raw[4 + n..]))
  }

  /** Where JavaScript cuts a frame: it also refuses a declared length of zero. */
  function SplitFrameJs(raw: Bytes): Option<Parts> {
    if |raw| < 4 then None
    else
      var n := FromBigEndian(raw[..4]);
      if n <= 0 then None
      else if |raw| < 4 + n then None
      else Some(Parts(raw[4..4 + n], raw[4 + n..]))
  }

  const HALF_WORD: nat := 0x8000_0000

  /** What cutting a frame can come to where machine words overflow. */
  datatype Cut = Refused | Parted(parts: Parts) | Panics

  function Exactly(split: Option<Parts>): (c: Cut) {
    if split.None? then Refused else Parted(split.value)
  }

  /** The two slices around this end; a slice that ends before it starts or beyond the frame panics. */
  function CutAt(raw: Bytes, end: int): (c: Cut) {
    if 4 <= end <= |raw| then Parted(Parts(raw[4..end], raw[end..])) else Panics
  }

  /** An integer as a signed 32-bit word. */
  function Signed32(i: int): (w: int) {
    (i + HALF_WORD) % LENGTH_LIMIT - HALF_WORD
  }

  /** Where Go cuts a frame: the length and its sum with 4 are signed machine words. */
  function SplitFrameGo(raw: Bytes, wide: bool): (c: Cut) {
    if |raw| < 4 then Refused
    else
      var declared := FromBigEndian(raw[..4]);
      var n := if wide then declared else Signed32(declared);
      var end := if wide then 4 + n else Signed32(4 + n);
      if n < 0 || |raw| < end then Refused else CutAt(raw, end)
  }

  /** Where Rust cuts a frame: the sum is an unsigned machine word; with overflow checks it panics at once. */
  function SplitFrameRust(raw: Bytes, wide: bool, checked: bool): (c: Cut) {
    if |raw| < 4 then Refused
    else
      var n := FromBigEndian(raw[..4]);
      if !wide && checked && 4 + n >= LENGTH_LIMIT then Panics
      else
        var end := if wide then 4 + n else (4 + n) % LENGTH_LIMIT;
        if |raw| < end then Refused else CutAt(raw, end)
  }

  /** Where PHP cuts a frame: the length is a signed machine word, a sum too large for one becomes a float. */
  function SplitFramePhp(raw: Bytes, wide: bool): (c: Cut) {
    if |raw| < 4 then Refused
    else
      var declared := FromBigEndian(raw[..4]);
      var n := if wide then declared else Signed32(declared);
      if n < 0 || |raw| < 4 + n then Refused else CutAt(raw, 4 + n)
  }

  /** A Python slice: bounds beyond the end are clamped. */
  function Slice(s: Bytes, from: nat, to: nat): (r: Bytes) {
    var low, high := if from < |s| then from else |s|, if to < |s| then to else |s|;
    if low <= high then s[low..high] else []
  }

  /** Where Python cuts a frame. */
  function SplitFramePython(raw: Bytes): Option<Parts> {
    if |raw| < 4 then None
    else
      var n := FromBigEndian(Slice(raw, 0, 4));
      if |raw| < 4 + n then None else Some(Parts(Slice(raw, 4, 4 + n), Slice(raw, 4 + n, |raw|)))
  }

  /** The router's decoder. */
  function DecodeFrame(c: EnvelopeCodec, raw: Bytes): Option<Frame> {
    match SplitFrame(raw)
    case None => None
    case Some(parts) =>
      match c.unpack(parts.envelopeBytes)
      case None => None
      case Some(env) => if env.v != PROTOCOL_VERSION then None else Some(Frame(env, parts.bodyBytes))
  }

  /** Splitting inverts the layout exactly: no byte string splits in any other way. */
  lemma SplitIsLayout(raw: Bytes, e: Bytes, b: Bytes)
    ensures SplitFrame(raw) == Some(Parts(e, b)) <==> |e| < LENGTH_LIMIT && raw == BigEndian(|e|) + e + b
  {
    if |e| < LENGTH_LIMIT && raw == BigEndian(|e|) + e + b {
      assert raw[..4] == BigEndian(|e|);
      LengthRoundTrip(|e|);
      assert raw[4..4 + |e|] == e && raw[4 + |e|..] == b;
    }
    if SplitFrame(raw) == Some(Parts(e, b)) {
      LengthBytesUnique(raw[..4]);
      assert raw == raw[..4] + e + b;
    }
  }

  /** The frame declares an envelope length in this range. */
  predicate Declares(raw: Bytes, low: nat, high: nat) {
    |raw| >= 4 && low <= FromBigEndian(raw[..4]) < high
  }

  /** With 64-bit words all bindings but JavaScript cut every frame at the same place, and nobody panics. */
  lemma BindingsSplitAlike(raw: Bytes, checked: bool)
    ensures SplitFrameGo(raw, true) == SplitFrameRust(raw, true, checked) == SplitFramePhp(raw, true) == Exactly(SplitFrame(raw))
    ensures SplitFramePython(raw) == SplitFrame(raw)
  {
    if |raw| >= 4 {
      var n := FromBigEndian(raw[..4]);
      assert Slice(raw, 0, 4) == raw[..4];
      assert |raw| >= 4 + n ==> Slice(raw, 4 + n, |raw|) == raw[4 + n..];
    }
  }

  /** JavaScript differs exactly on a frame that declares an empty envelope, which it refuses. */
  lemma JavaScriptSplitsAlike(raw: Bytes)
    ensures SplitFrameJs(raw) == SplitFrame(raw) || SplitFrameJs(raw) == None
    ensures SplitFrameJs(raw) != SplitFrame(raw) <==> |raw| >= 4 && raw[..4] == [0, 0, 0, 0]
  {
    if |raw| >= 4 {
      LengthBytesUnique(raw[..4]);
      assert BigEndian(0) == [0, 0, 0, 0];
      LengthRoundTrip(0);
    }
  }

  lemma Signed32Of(i: nat)
    requires i < LENGTH_LIMIT
    ensures Signed32(i) == if i < HALF_WORD then i else i - LENGTH_LIMIT
  {
  }

  /** With 32-bit words PHP still agrees on every frame such a machine can hold. */
  lemma NarrowPhpSplitsAlike(raw: Bytes)
    requires |raw| < HALF_WORD
    ensures SplitFramePhp(raw, false) == Exactly(SplitFrame(raw))
  {
    if |raw| >= 4 {
      Signed32Of(FromBigEndian(raw[..4]));
    }
  }

  /** Go panics there exactly on the four largest non-negative lengths, where adding 4 overflows; otherwise it agrees. */
  lemma NarrowGoSplitsExactly(raw: Bytes)
    requires |raw| < HALF_WORD
    ensures SplitFrameGo(raw, false) ==
      if Declares(raw, HALF_WORD - 4, HALF_WORD) then Panics else Exactly(SplitFrame(raw))
  {
    if |raw| >= 4 {
      var n := FromBigEndian(raw[..4]);
      Signed32Of(n);
      if n < HALF_WORD {
        Signed32Of(4 + n);
      }
    }
  }

  /** Rust panics there exactly on the four largest lengths of all, with and without overflow checks; otherwise it agrees. */
  lemma NarrowRustSplitsExactly(raw: Bytes, checked: bool)
    requires |raw| < HALF_WORD
    ensures SplitFrameRust(raw, false, checked) ==
      if Declares(raw, LENGTH_LIMIT - 4, LENGTH_LIMIT) then Panics else Exactly(SplitFrame(raw))
  {
    if |raw| >= 4 {
      var n := FromBigEndian(raw[..4]);
      assert 4 + n < LENGTH_LIMIT ==> (4 + n) % LENGTH_LIMIT == 4 + n;
      assert 4 + n >= LENGTH_LIMIT ==> (4 + n) % LENGTH_LIMIT == 4 + n - LENGTH_LIMIT;
    }
  }

  /** Four bytes are enough to make Go panic on a 32-bit machine, where every other binding refuses them. */
  lemma GoPanicsOnNarrowWords()
    ensures var raw := [0x7f, 0xff, 0xff, 0xfc];
      && SplitFrameGo(raw, false) == Panics
      && SplitFrame(raw) == None
      && SplitFramePhp(raw, false) == Refused
  {
    var raw: Bytes := [0x7f, 0xff, 0xff, 0xfc];
    assert raw[..4] == raw;
    assert FromBigEndian(raw) == HALF_WORD - 4;
    NarrowGoSplitsExactly(raw);
    NarrowPhpSplitsAlike(raw);
  }

  lemma UnwrappedLayout(c: EnvelopeCodec, env: Envelope, body: Bytes)
    requires |c.pack(env)| < LENGTH_LIMIT
    ensures EncodeFrame(c, env, body) == BigEndian(|c.pack(env)|) + c.pack(env) + body
  {
    assert |c.pack(env)| % LENGTH_LIMIT == |c.pack(env)|;
  }

  /** A frame cuts back into its parts exactly when the envelope length fits in 32 bits. */
  lemma EncodedSplits(c: EnvelopeCodec, env: Envelope, body: Bytes)
    ensures SplitFrame(EncodeFrame(c, env, body)) == Some(Parts(c.pack(env), body))
       <==> |c.pack(env)| < LENGTH_LIMIT
  {
    if |c.pack(env)| < LENGTH_LIMIT {
      UnwrappedLayout(c, env, body);
    }
    SplitIsLayout(EncodeFrame(c, env, body), c.pack(env), body);
  }

  /** A wrapped length cuts the frame too early, so the body comes out too long. */
  lemma WrappedLengthKeepsNoBody(c: EnvelopeCodec, env: Envelope, body: Bytes)
    requires |c.pack(env)| >= LENGTH_LIMIT
    ensures SplitFrame(EncodeFrame(c, env, body)).Some?
        ==> |SplitFrame(EncodeFrame(c, env, body)).value.bodyBytes| > |body|
  {
    var packed := c.pack(env);
    var raw := EncodeFrame(c, env, body);
    var declared := |packed| % LENGTH_LIMIT;
    assert raw[..4] == BigEndian(declared);
    LengthRoundTrip(declared);
  }

  /** Encoding then decoding gives back the pair exactly for version 5 and a length that fits in 32 bits. */
  lemma RoundTripExact(c: EnvelopeCodec, env: Envelope, body: Bytes)
    requires RoundTrips(c)
    ensures DecodeFrame(c, EncodeFrame(c, env, body)) == Some(Frame(env, body))
       <==> env.v == 5 && |c.pack(env)| < 0x1_0000_0000
  {
    EncodedSplits(c, env, body);
    if |c.pack(env)| >= LENGTH_LIMIT {
      WrappedLengthKeepsNoBody(c, env, body);
    }
  }

  /** Equal bytes of frames that fit mean equal envelopes and equal bodies. */
  lemma EncodeInjective(c: EnvelopeCodec, raw: Bytes, e1: Envelope, b1: Bytes, e2: Envelope, b2: Bytes)
    requires RoundTrips(c)
    requires |c.pack(e1)| < LENGTH_LIMIT && |c.pack(e2)| < LENGTH_LIMIT
    requires raw == EncodeFrame(c, e1, b1) && raw == EncodeFrame(c, e2, b2)
    ensures e1 == e2 && b1 == b2
  {
    EncodedSplits(c, e1, b1);
    EncodedSplits(c, e2, b2);
    assert c.unpack(c.pack(e1)) == Some(e1);
  }

  /** Python's guard refuses exactly the envelopes whose frame could not be cut back into its parts. */
  lemma PythonGuardExact(c: EnvelopeCodec, env: Envelope, body: Bytes)
    ensures EncodeFramePython(c, env, body).Some?
       <==> SplitFrame(EncodeFrame(c, env, body)) == Some(Parts(c.pack(env), body))
  {
    EncodedSplits(c, env, body);
  }

  /** Where Python does encode, it writes the same bytes as the router. */
  lemma PythonEncodesAlike(c: EnvelopeCodec, env: Envelope, body: Bytes)
    ensures EncodeFramePython(c, env, body).Some?
        ==> EncodeFramePython(c, env, body).value == EncodeFrame(c, env, body)
  {
    var n := |c.pack(env)|;
    if n <= 0xFFFF_FFFF {
      assert n % LENGTH_LIMIT == n;
    }
  }

  /**
    * JavaScript's encoder: a fresh buffer filled in place. Writing the length throws
    * when it does not fit, so that case has no frame.
    */
  method EncodeIntoBuffer(packed: Bytes, body: Bytes) returns (frame: array?<byte>)
    ensures frame == null <==> |packed| >= LENGTH_LIMIT
    ensures frame != null ==> SplitFrame(frame[..]) == Some(Parts(packed, body))
  {
    if |packed| >= LENGTH_LIMIT {
      return null;
    }
    var size := 4 + |packed| + |body|;
    var buffer := new byte[size];
    var length := BigEndian(|packed|);
    for i := 0 to 4
      invariant buffer[..i] == length[..i]
    {
      buffer[i] := length[i];
    }
    for i := 0 to |packed|
      invariant buffer[..4] == length
      invariant buffer[4..4 + i] == packed[..i]
    {
      buffer[4 + i] := packed[i];
    }
    assert packed[..|packed|] == packed;
    for i := 0 to |body|
      invariant buffer[..4] == length
      invariant buffer[4..4 + |packed|] == packed
      invariant buffer[4 + |packed|..4 + |packed| + i] == body[..i]
    {
      buffer[4 + |packed| + i] := body[i];
    }
    assert body[..|body|] == body;
    assert buffer[..] == length + packed + body;
    SplitIsLayout(buffer[..], packed, body);
    frame := buffer;
  }
}
