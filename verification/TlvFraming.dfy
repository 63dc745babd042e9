/**
 The TLV a data event travels in: a 16-bit tag, a 16-bit length and the payload.
 The consumer records the true size beside the TLV, because the length field
 keeps only the low 16 bits of the payload's length.
 */
module TlvFraming {
  import opened Wrappers
  import opened Notify

  newtype byte = x: int | 0 <= x < 256

  const HEADER_SIZE: nat := 4
  const LENGTH_MODULUS: nat := 0x1_0000

  /** tlv_ctx: the allocated TLV and the size it was allocated with. */
  datatype TlvContext = TlvContext(tag: Tag, len: nat, data: seq<byte>, size: nat)

  function BuildTlv(tag: Tag, data: seq<byte>): TlvContext {
    TlvContext(tag, |data| % LENGTH_MODULUS, data, HEADER_SIZE + |data|)
  }

  /** The comms thread's cross-check of the recorded size against the length field. */
  predicate SizeAgrees(ctx: TlvContext) {
    ctx.size == ctx.len + HEADER_SIZE
  }

  /** Splits a 16-bit number in host (little-endian) byte order. */
  function U16(x: nat): seq<byte>
    requires x < LENGTH_MODULUS
  {
    [(x % 256) as byte, (x / 256) as byte]
  }

  function FromU16(lo: byte, hi: byte): (x: nat)
    ensures x < LENGTH_MODULUS
  {
    lo as nat + 256 * hi as nat
  }

  /** The datagram handed to sendto() for a TLV whose tag has the given code. */
  function Wire(code: nat, len: nat, data: seq<byte>): seq<byte>
    requires code < LENGTH_MODULUS && len < LENGTH_MODULUS
  {
    U16(code) + U16(len) + data
  }

  /** Reads a datagram back: the payload must be exactly as long as the length field says. */
  function Parse(b: seq<byte>): Option<(nat, seq<byte>)> {
    if |b| < HEADER_SIZE then None
    else if |b| != HEADER_SIZE + FromU16(b[2], b[3]) then None
    else Some((FromU16(b[0], b[1]), b[HEADER_SIZE..]))
  }

  lemma SizeCrossCheckIffPayloadFits(tag: Tag, data: seq<byte>)
    ensures BuildTlv(tag, data) == TlvContext(tag, |data| % 0x1_0000, data, 4 + |data|)
    ensures SizeAgrees(BuildTlv(tag, data)) <==> |data| < 0x1_0000
  {
  }

  /** Tag and length in little-endian byte order, two bytes each, then the payload. */
  lemma WireLayout(code: nat, len: nat, data: seq<byte>)
    requires code < LENGTH_MODULUS && len < LENGTH_MODULUS
    ensures var w := Wire(code, len, data);
            && |w| == 4 + |data| && w[4..] == data
            && w[0] as nat + 256 * w[1] as nat == code && w[2] as nat + 256 * w[3] as nat == len
  {
  }

  lemma WireRoundTrip(code: nat, data: seq<byte>)
    requires code < LENGTH_MODULUS && |data| < LENGTH_MODULUS
    ensures Parse(Wire(code, |data|, data)) == Some((code, data))
  {
  }

  /** Conversely, a datagram that parses is the frame of exactly one tag code and payload. */
  lemma ParseInvertsWire(b: seq<byte>)
    requires Parse(b).Some?
    ensures var (code, data) := Parse(b).value;
            code < LENGTH_MODULUS && |data| < LENGTH_MODULUS && b == Wire(code, |data|, data)
  {
  }
}
