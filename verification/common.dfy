/**
 * Values shared by the DNS, HTTP/2 and embedding models: octets, the
 * fixed-width unsigned integers of the C++ code, big-endian field access
 * as RFC 1035 (section 2.3.2) prescribes, address families, and an Option.
 */
module Common {

  /** One octet of a message (`uint8_t`). */
  type Byte = x: int | 0 <= x < 0x100

  /** `uint16_t`, `uint32_t` and `uint64_t` as bounded integers. */
  type U16 = x: int | 0 <= x < 0x1_0000
  type U32 = x: int | 0 <= x < 0x1_0000_0000
  type U64 = x: int | 0 <= x < 0x1_0000_0000_0000_0000

  datatype Option<T> = None | Some(value: T)

  /** The socket address families the resolver distinguishes (AF_UNSPEC, AF_INET, AF_INET6). */
  datatype Family = Unspec | Inet | Inet6

  /**
   * An address-text parser in the manner of `uv_inet_pton`: true when `text`
   * is a valid address of the given family. It is a foreign function, so the
   * models take it as a parameter and assume nothing about it.
   */
  type AddressParser = (Family, string) -> bool

  /**
   * An address printer in the manner of `uv_inet_ntop`: the text form of the
   * address octets of the given family. Foreign as well, so a parameter.
   */
  type AddressPrinter = (Family, seq<Byte>) -> string

  /** The big-endian encoding of a 16-bit value: high octet first. */
  function U16Bytes(v: U16): (b: seq<Byte>)
    ensures |b| == 2
  {
    [v / 0x100, v % 0x100]
  }

  /** The big-endian encoding of a 32-bit value. */
  function U32Bytes(v: U32): (b: seq<Byte>)
    ensures |b| == 4
  {
    U16Bytes(v / 0x1_0000) + U16Bytes(v % 0x1_0000)
  }

  /** `readU16`: the 16-bit value stored big-endian at `data[at]`, `data[at + 1]`. */
  function ReadU16(data: seq<Byte>, at: nat): U16
    requires at + 2 <= |data|
  {
    (data[at] as int) * 0x100 + data[at + 1]
  }

  /** `readU32`: the 32-bit value stored big-endian at `data[at..at + 4]`. */
  function ReadU32(data: seq<Byte>, at: nat): U32
    requires at + 4 <= |data|
  {
    ReadU16(data, at) * 0x1_0000 + ReadU16(data, at + 2)
  }

  /** The value `readU16` returns is the one whose encoding sits at `at`. */
  lemma ReadU16Encodes(data: seq<Byte>, at: nat)
    requires at + 2 <= |data|
    ensures U16Bytes(ReadU16(data, at)) == data[at..at + 2]
  {
  }

  /** The value `readU32` returns is the one whose encoding sits at `at`. */
  lemma ReadU32Encodes(data: seq<Byte>, at: nat)
    requires at + 4 <= |data|
    ensures U32Bytes(ReadU32(data, at)) == data[at..at + 4]
  {
    var hi: int, lo: int := ReadU16(data, at), ReadU16(data, at + 2);
    assert (hi * 0x1_0000 + lo) / 0x1_0000 == hi;
    assert (hi * 0x1_0000 + lo) % 0x1_0000 == lo;
    ReadU16Encodes(data, at);
    ReadU16Encodes(data, at + 2);
  }

  /** Reading back a 16-bit field gives the value that was written. */
  lemma ReadU16OfBytes(prefix: seq<Byte>, v: U16, suffix: seq<Byte>)
    ensures ReadU16(prefix + U16Bytes(v) + suffix, |prefix|) == v
  {
    var data := prefix + U16Bytes(v) + suffix;
    assert data[|prefix|..|prefix| + 2] == U16Bytes(v);
    ReadU16Encodes(data, |prefix|);
    U16BytesInjective(ReadU16(data, |prefix|), v);
  }

  /** Two values with the same big-endian encoding are equal. */
  lemma U16BytesInjective(a: U16, b: U16)
    requires U16Bytes(a) == U16Bytes(b)
    ensures a == b
  {
    assert a / 0x100 == U16Bytes(a)[0] == U16Bytes(b)[0] == b / 0x100;
    assert a % 0x100 == U16Bytes(a)[1] == U16Bytes(b)[1] == b % 0x100;
  }

  /** Reading back a 32-bit field gives the value that was written. */
  lemma ReadU32OfBytes(prefix: seq<Byte>, v: U32, suffix: seq<Byte>)
    ensures ReadU32(prefix + U32Bytes(v) + suffix, |prefix|) == v
  {
    var data := prefix + U32Bytes(v) + suffix;
    var r := ReadU32(data, |prefix|);
    assert data[|prefix|..|prefix| + 4] == U32Bytes(v);
    ReadU32Encodes(data, |prefix|);
    assert U32Bytes(r) == U32Bytes(v);
    assert U16Bytes(r / 0x1_0000) == U32Bytes(r)[..2] == U32Bytes(v)[..2] == U16Bytes(v / 0x1_0000);
    assert U16Bytes(r % 0x1_0000) == U32Bytes(r)[2..] == U32Bytes(v)[2..] == U16Bytes(v % 0x1_0000);
    U16BytesInjective(r / 0x1_0000, v / 0x1_0000);
    U16BytesInjective(r % 0x1_0000, v % 0x1_0000);
  }
}
