/** The v5 wire vocabulary shared by the router and every client binding. */
module Wire {

  datatype Option<+T> = None | Some(value: T)

  newtype byte = b: int | 0 <= b < 256

  type Bytes = seq<byte>

  /** A number without a fractional part. */
  predicate Whole(x: real) {
    x == x.Floor as real
  }

  /** A peer's class, fixed by the body of its register frame. */
  datatype PeerClass = Service | Caller

  /** The envelope kinds the router knows; `Other` is any string that is none of them. */
  datatype Kind =
    | KindRegister
    | KindQuery
    | KindCall
    | KindResponse
    | KindError
    | KindHeartbeat
    | KindDisconnect
    | KindOther(name: string)

  const PROTOCOL_VERSION: nat := 5
  const ROUTER_PEER_ID: string := "router"

  /** The bit pattern of a 64-bit float; time is only ever copied, never computed with. */
  type Timestamp = bits: nat | bits < 0x1_0000_0000_0000_0000

  datatype Envelope = Envelope(
    v: nat,
    kind: Kind,
    msgId: string,
    from: string,
    to: string,
    ts: Timestamp)

  datatype Frame = Frame(envelope: Envelope, body: Bytes)

  datatype RegisterBody = RegisterBody(peerId: string, peerClass: PeerClass)

  datatype QueryBody = PeerExists(peerId: string) | PeerGet(peerId: string)

  /** The bodies the router itself builds. */
  datatype RouterBody =
    | AckBody(accepted: bool)
    | ErrorBody(code: string)
    | PresenceBody(peerId: string, found: bool, peerClass: Option<PeerClass>, connected: bool)

  /** The MessagePack library, seen only through what it does to envelopes. */
  datatype EnvelopeCodec = EnvelopeCodec(pack: Envelope -> Bytes, unpack: Bytes -> Option<Envelope>)

  /** The library reads back what it wrote. */
  ghost predicate RoundTrips(c: EnvelopeCodec) {
    forall e: Envelope :: c.unpack(c.pack(e)) == Some(e)
  }

  /** Everything the router reads out of bytes: a whole frame, and the two bodies it looks into. */
  datatype Codec = Codec(
    decodeFrame: Bytes -> Option<Frame>,
    unpackRegister: Bytes -> Option<RegisterBody>,
    unpackQuery: Bytes -> Option<QueryBody>)
}
