/** Fixed-width unsigned integers and network byte order (section 3.1 of
    RFC 9293: multi-octet header fields are sent most significant octet first). */
module Ints {

  type u8 = x: int | 0 <= x < 0x100
  type u16 = x: int | 0 <= x < 0x1_0000
  type u32 = x: int | 0 <= x < 0x1_0000_0000

  /** C++ unsigned 32-bit arithmetic: the result is reduced modulo 2^32. */
  function Wrap32(x: int): (r: u32)
    ensures 0 <= x < 0x1_0000_0000 ==> r == x
    ensures (x - r) % 0x1_0000_0000 == 0
  {
    x % 0x1_0000_0000
  }

  /** A truncating cast to uint16_t. */
  function Wrap16(x: int): (r: u16)
    ensures 0 <= x < 0x1_0000 ==> r == x
    ensures (x - r) % 0x1_0000 == 0
  {
    x % 0x1_0000
  }

  /** ntohs / EXTRACT_16BITS: two octets, most significant first. */
  function DecodeBE16(b: seq<u8>): u16
    requires |b| == 2
  {
    (b[0] as int) * 0x100 + (b[1] as int)
  }

  /** ntohl: four octets, most significant first. */
  function DecodeBE32(b: seq<u8>): u32
    requires |b| == 4
  {
    (DecodeBE16(b[..2]) as int) * 0x1_0000 + (DecodeBE16(b[2..]) as int)
  }

  function EncodeBE16(v: u16): (b: seq<u8>)
    ensures |b| == 2
  {
    [v / 0x100, v % 0x100]
  }

  function EncodeBE32(v: u32): (b: seq<u8>)
    ensures |b| == 4
  {
    EncodeBE16(v / 0x1_0000) + EncodeBE16(v % 0x1_0000)
  }

  lemma DecodeEncode16(v: u16)
    ensures DecodeBE16(EncodeBE16(v)) == v
  {
  }

  lemma EncodeDecode16(b: seq<u8>)
    requires |b| == 2
    ensures EncodeBE16(DecodeBE16(b)) == b
  {
  }

  lemma DecodeEncode32(v: u32)
    ensures DecodeBE32(EncodeBE32(v)) == v
  {
  }

  lemma EncodeDecode32(b: seq<u8>)
    requires |b| == 4
    ensures EncodeBE32(DecodeBE32(b)) == b
  {
  }
}
