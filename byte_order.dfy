/**
 * Byte-order converters of MrsWatson's platform layer
 * (source/PlatformUtilities.c).
 *
 * Words are unsigned bit-vectors (`unsigned short` as bv16, `unsigned int` as
 * bv32, `byte` as bv8). A word's meaning is fixed by its byte images: the
 * sequence of its bytes from least to most significant (little-endian
 * order), the reverse of that (big-endian order), and the order in which a
 * host of a given endianness lays the word out in memory. Every converter
 * is specified by an equation between such images.
 */
module ByteOrder {

  /** Byte order of the host CPU; the C code probes it at run time. */
  datatype Endianness = LittleEndian | BigEndian

  /** A C `float` as the four bytes of its representation, in memory order. */
  type FloatBytes = b: seq<bv8> | |b| == 4 witness [0, 0, 0, 0]

  /** `s` backwards. */
  function Reverse(s: seq<bv8>): (r: seq<bv8>)
    ensures |r| == |s|
    ensures forall i :: 0 <= i < |s| ==> r[i] == s[|s| - 1 - i]
  {
    if |s| == 0 then [] else [s[|s| - 1]] + Reverse(s[..|s| - 1])
  }

  lemma ReverseInvolutive(s: seq<bv8>)
    ensures Reverse(Reverse(s)) == s
  {
  }

  lemma Reverse2(s: seq<bv8>)
    requires |s| == 2
    ensures Reverse(s) == [s[1], s[0]]
  {
  }

  lemma Reverse4(s: seq<bv8>)
    requires |s| == 4
    ensures Reverse(s) == [s[3], s[2], s[1], s[0]]
  {
  }

  // ---------------------------------------------------------------------------
  // Byte images of words

  /** The bytes of a 16-bit word, least significant first. */
  function LittleEndianBytes16(v: bv16): (b: seq<bv8>)
    ensures |b| == 2
  {
    [(v & 0xFF) as bv8, (v >> 8) as bv8]
  }

  /** The bytes of a 16-bit word, most significant first. */
  function BigEndianBytes16(v: bv16): (b: seq<bv8>)
    ensures |b| == 2
  {
    Reverse(LittleEndianBytes16(v))
  }

  /** The bytes of a 32-bit word, least significant first. */
  function LittleEndianBytes32(v: bv32): (b: seq<bv8>)
    ensures |b| == 4
  {
    [(v & 0xFF) as bv8, ((v >> 8) & 0xFF) as bv8, ((v >> 16) & 0xFF) as bv8, (v >> 24) as bv8]
  }

  /** The bytes of a 32-bit word, most significant first. */
  function BigEndianBytes32(v: bv32): (b: seq<bv8>)
    ensures |b| == 4
  {
    Reverse(LittleEndianBytes32(v))
  }

  /** The bytes of a 16-bit word as `host` stores them, lowest address first. */
  function HostBytes16(host: Endianness, v: bv16): (b: seq<bv8>)
    ensures |b| == 2
  {
    if host == LittleEndian then LittleEndianBytes16(v) else BigEndianBytes16(v)
  }

  /** The bytes of a 32-bit word as `host` stores them, lowest address first. */
  function HostBytes32(host: Endianness, v: bv32): (b: seq<bv8>)
    ensures |b| == 4
  {
    if host == LittleEndian then LittleEndianBytes32(v) else BigEndianBytes32(v)
  }

  /** A 16-bit word is determined by its bytes. */
  lemma LittleEndianBytes16Injective(a: bv16, b: bv16)
    requires LittleEndianBytes16(a) == LittleEndianBytes16(b)
    ensures a == b
  {
  }

  /** A 32-bit word is determined by its bytes. */
  lemma LittleEndianBytes32Injective(a: bv32, b: bv32)
    requires LittleEndianBytes32(a) == LittleEndianBytes32(b)
    ensures a == b
  {
  }

  lemma HostBytes16Injective(host: Endianness, a: bv16, b: bv16)
    requires HostBytes16(host, a) == HostBytes16(host, b)
    ensures a == b
  {
    if host == BigEndian {
      ReverseInvolutive(LittleEndianBytes16(a));
      ReverseInvolutive(LittleEndianBytes16(b));
    }
    LittleEndianBytes16Injective(a, b);
  }

  lemma HostBytes32Injective(host: Endianness, a: bv32, b: bv32)
    requires HostBytes32(host, a) == HostBytes32(host, b)
    ensures a == b
  {
    if host == BigEndian {
      ReverseInvolutive(LittleEndianBytes32(a));
      ReverseInvolutive(LittleEndianBytes32(b));
    }
    LittleEndianBytes32Injective(a, b);
  }

  // ---------------------------------------------------------------------------
  // The host probe

  /**
   * `_isHostLittleEndian`: store the `int` 1 and test whether the byte at the
   * lowest address is 1.
   */
  function IsHostLittleEndian(host: Endianness): (r: bool)
    ensures r <==> host == LittleEndian
  {
    HostBytes32(host, 1)[0] == 1
  }

  // ---------------------------------------------------------------------------
  // Word converters

  /**
   * The two-byte swap of `convertBigEndianShortToPlatform`. The operands are
   * promoted to `int` and the return truncates to 16 bits.
   */
  function SwapBytes16(value: bv16): (r: bv16)
    ensures LittleEndianBytes16(r) == Reverse(LittleEndianBytes16(value))
  {
    Reverse2(LittleEndianBytes16(value));
    var wide := ((value as bv32) << 8) | ((value as bv32) >> 8);
    (wide & 0xFFFF) as bv16
  }

  /**
   * `convertBigEndianShortToPlatform`: `value` was read from big-endian
   * storage straight into host memory; the result is the number whose
   * big-endian encoding is those memory bytes.
   */
  function ConvertBigEndianShortToPlatform(host: Endianness, value: bv16): (r: bv16)
    ensures BigEndianBytes16(r) == HostBytes16(host, value)
  {
    if IsHostLittleEndian(host) then
      ReverseInvolutive(LittleEndianBytes16(value));
      SwapBytes16(value)
    else
      value
  }

  /**
   * The byte reversal both 32-bit converters apply when they swap: byte 0
   * with byte 3 and byte 1 with byte 2, not a rotation.
   */
  function SwapBytes32(value: bv32): (r: bv32)
    ensures LittleEndianBytes32(r) == Reverse(LittleEndianBytes32(value))
  {
    Reverse4(LittleEndianBytes32(value));
    (value << 24) | ((value << 8) & 0x00ff0000) | ((value >> 8) & 0x0000ff00) | (value >> 24)
  }

  /**
   * `convertBigEndianIntToPlatform`: the number whose big-endian encoding is
   * the memory image of `value`.
   */
  function ConvertBigEndianIntToPlatform(host: Endianness, value: bv32): (r: bv32)
    ensures BigEndianBytes32(r) == HostBytes32(host, value)
  {
    if IsHostLittleEndian(host) then
      ReverseInvolutive(LittleEndianBytes32(value));
      SwapBytes32(value)
    else
      value
  }

  /**
   * `convertLittleEndianIntToPlatform`: the number whose little-endian
   * encoding is the memory image of `value`.
   */
  function ConvertLittleEndianIntToPlatform(host: Endianness, value: bv32): (r: bv32)
    ensures LittleEndianBytes32(r) == HostBytes32(host, value)
  {
    if !IsHostLittleEndian(host) then
      SwapBytes32(value)
    else
      value
  }

  /** The 16-bit converter is a two-byte swap on a little-endian host and the identity otherwise. */
  lemma BigEndianShortEquation(host: Endianness, v: bv16)
    ensures host == LittleEndian ==> ConvertBigEndianShortToPlatform(host, v) == ((v & 0xFF) << 8) | (v >> 8)
    ensures host == BigEndian ==> ConvertBigEndianShortToPlatform(host, v) == v
  {
  }

  /** Converting a 16-bit value twice gives it back, on either host. */
  lemma BigEndianShortInvolutive(host: Endianness, v: bv16)
    ensures ConvertBigEndianShortToPlatform(host, ConvertBigEndianShortToPlatform(host, v)) == v
  {
    if host == LittleEndian {
      ReverseInvolutive(LittleEndianBytes16(v));
      LittleEndianBytes16Injective(SwapBytes16(SwapBytes16(v)), v);
    }
  }

  /** Converting a 32-bit value twice gives it back, on either host. */
  lemma BigEndianIntInvolutive(host: Endianness, v: bv32)
    ensures ConvertBigEndianIntToPlatform(host, ConvertBigEndianIntToPlatform(host, v)) == v
  {
    if host == LittleEndian {
      ReverseInvolutive(LittleEndianBytes32(v));
      LittleEndianBytes32Injective(SwapBytes32(SwapBytes32(v)), v);
    }
  }

  lemma LittleEndianIntInvolutive(host: Endianness, v: bv32)
    ensures ConvertLittleEndianIntToPlatform(host, ConvertLittleEndianIntToPlatform(host, v)) == v
  {
    if host == BigEndian {
      ReverseInvolutive(LittleEndianBytes32(v));
      LittleEndianBytes32Injective(SwapBytes32(SwapBytes32(v)), v);
    }
  }

  /**
   * On a given host one 32-bit converter is the identity and the other is
   * the full byte reversal (byte 0 with byte 3, byte 1 with byte 2).
   */
  lemma IntConvertersComplementary(host: Endianness, v: bv32)
    ensures host == LittleEndian ==>
      ConvertLittleEndianIntToPlatform(host, v) == v &&
      LittleEndianBytes32(ConvertBigEndianIntToPlatform(host, v)) == Reverse(LittleEndianBytes32(v))
    ensures host == BigEndian ==>
      ConvertBigEndianIntToPlatform(host, v) == v &&
      LittleEndianBytes32(ConvertLittleEndianIntToPlatform(host, v)) == Reverse(LittleEndianBytes32(v))
  {
  }

  ghost predicate BigEndianIntIsIdentity(host: Endianness) {
    forall v: bv32 :: ConvertBigEndianIntToPlatform(host, v) == v
  }

  ghost predicate LittleEndianIntIsIdentity(host: Endianness) {
    forall v: bv32 :: ConvertLittleEndianIntToPlatform(host, v) == v
  }

  /** For any fixed host exactly one of the two 32-bit converters leaves every value alone. */
  lemma ExactlyOneIntConverterIsIdentity(host: Endianness)
    ensures BigEndianIntIsIdentity(host) != LittleEndianIntIsIdentity(host)
    ensures BigEndianIntIsIdentity(host) <==> host == BigEndian
  {
    forall v: bv32 ensures host == LittleEndian ==> ConvertLittleEndianIntToPlatform(host, v) == v {
      IntConvertersComplementary(host, v);
    }
    forall v: bv32 ensures host == BigEndian ==> ConvertBigEndianIntToPlatform(host, v) == v {
      IntConvertersComplementary(host, v);
    }
    if host == LittleEndian {
      assert ConvertBigEndianIntToPlatform(host, 1) == 0x0100_0000;
    } else {
      assert ConvertLittleEndianIntToPlatform(host, 1) == 0x0100_0000;
    }
  }

  // ---------------------------------------------------------------------------
  // Byte-array assemblers

  /**
   * The C expression that assembles two bytes into an `unsigned short`,
   * `hi` in the high byte. It is computed on a promoted `int` and masked,
   * so narrowing it to 16 bits loses nothing.
   */
  function Assemble16(hi: bv8, lo: bv8): (r: bv16)
    ensures LittleEndianBytes16(r) == [lo, hi]
  {
    ((((hi as bv32) << 8) & 0x0000ff00) | lo as bv32) as bv16
  }

  /**
   * The C expression that assembles four bytes into an `unsigned int`,
   * `b3` in the most significant byte and `b0` in the least.
   */
  function Assemble32(b3: bv8, b2: bv8, b1: bv8, b0: bv8): (r: bv32)
    ensures LittleEndianBytes32(r) == [b0, b1, b2, b3]
  {
    (b3 as bv32 << 24) | ((b2 as bv32 << 16) & 0x00ff0000) |
    ((b1 as bv32 << 8) & 0x0000ff00) | b0 as bv32
  }

  /**
   * `convertByteArrayToUnsignedShort`: the 16-bit word whose memory image on
   * `host` is the first two bytes of `value`, assembled byte by byte.
   */
  function ConvertByteArrayToUnsignedShort(host: Endianness, value: seq<bv8>): (r: bv16)
    requires |value| >= 2
    ensures HostBytes16(host, r) == value[..2]
  {
    if IsHostLittleEndian(host) then
      Assemble16(value[1], value[0])
    else
      Reverse2([value[1], value[0]]);
      Assemble16(value[0], value[1])
  }

  /** The assembled short as a sum of its two bytes in 16-bit arithmetic. */
  lemma ByteArrayToUnsignedShortWord(host: Endianness, value: seq<bv8>)
    requires |value| >= 2
    ensures host == LittleEndian ==>
      ConvertByteArrayToUnsignedShort(host, value) == value[0] as bv16 + 256 * value[1] as bv16
    ensures host == BigEndian ==>
      ConvertByteArrayToUnsignedShort(host, value) == 256 * value[0] as bv16 + value[1] as bv16
  {
  }

  /**
   * The assembled short as an unbounded number: the sum cannot wrap, since
   * the largest is 255 + 256 * 255 = 0xFFFF.
   */
  lemma ByteArrayToUnsignedShortValue(host: Endianness, value: seq<bv8>)
    requires |value| >= 2
    ensures host == LittleEndian ==>
      ConvertByteArrayToUnsignedShort(host, value) as int == value[0] as int + 256 * value[1] as int
    ensures host == BigEndian ==>
      ConvertByteArrayToUnsignedShort(host, value) as int == 256 * value[0] as int + value[1] as int
  {
    ByteArrayToUnsignedShortWord(host, value);
  }

  /**
   * `convertByteArrayToUnsignedInt` as written: on a big-endian host the
   * lowest byte of the result is `value[0]` again and `value[3]` is never read.
   */
  function ConvertByteArrayToUnsignedIntAsWritten(host: Endianness, value: seq<bv8>): (r: bv32)
    requires |value| >= 4
    ensures host == LittleEndian ==> HostBytes32(host, r) == value[..4]
    ensures host == BigEndian ==> HostBytes32(host, r) == [value[0], value[1], value[2], value[0]]
  {
    if IsHostLittleEndian(host) then
      Assemble32(value[3], value[2], value[1], value[0])
    else
      Reverse4([value[0], value[2], value[1], value[0]]);
      Assemble32(value[0], value[1], value[2], value[0])
  }

  /**
   * `convertByteArrayToUnsignedInt` as evidently intended: the 32-bit word
   * whose memory image on `host` is the first four bytes of `value`.
   */
  function ConvertByteArrayToUnsignedInt(host: Endianness, value: seq<bv8>): (r: bv32)
    requires |value| >= 4
    ensures HostBytes32(host, r) == value[..4]
  {
    if IsHostLittleEndian(host) then
      Assemble32(value[3], value[2], value[1], value[0])
    else
      Reverse4([value[3], value[2], value[1], value[0]]);
      Assemble32(value[0], value[1], value[2], value[3])
  }

  /** Storing a word and assembling it again gives the word back. */
  lemma ByteArrayToUnsignedIntRoundTrip(host: Endianness, v: bv32)
    ensures ConvertByteArrayToUnsignedInt(host, HostBytes32(host, v)) == v
  {
    var b := HostBytes32(host, v);
    assert b[..4] == b;
    HostBytes32Injective(host, ConvertByteArrayToUnsignedInt(host, b), v);
  }

  lemma ByteArrayToUnsignedShortRoundTrip(host: Endianness, v: bv16)
    ensures ConvertByteArrayToUnsignedShort(host, HostBytes16(host, v)) == v
  {
    var b := HostBytes16(host, v);
    assert b[..2] == b;
    HostBytes16Injective(host, ConvertByteArrayToUnsignedShort(host, b), v);
  }

  lemma ByteArrayToUnsignedIntExample()
    ensures ConvertByteArrayToUnsignedInt(LittleEndian, [0x78, 0x56, 0x34, 0x12]) == 0x12345678
    ensures ConvertByteArrayToUnsignedInt(BigEndian, [0x12, 0x34, 0x56, 0x78]) == 0x12345678
  {
  }

  /** As written, the big-endian branch does not depend on the fourth byte. */
  lemma AsWrittenIgnoresFourthByte(value: seq<bv8>, x: bv8)
    requires |value| >= 4
    ensures ConvertByteArrayToUnsignedIntAsWritten(BigEndian, value) ==
            ConvertByteArrayToUnsignedIntAsWritten(BigEndian, value[3 := x])
  {
  }

  /** A concrete input on which the code as written and the intended result differ. */
  lemma AsWrittenMisreadsBigEndian()
    ensures ConvertByteArrayToUnsignedIntAsWritten(BigEndian, [0x12, 0x34, 0x56, 0x78]) == 0x12345612
    ensures ConvertByteArrayToUnsignedInt(BigEndian, [0x12, 0x34, 0x56, 0x78]) == 0x12345678
  {
  }

  /** On a little-endian host the code as written is already correct. */
  lemma AsWrittenCorrectOnLittleEndian(value: seq<bv8>)
    requires |value| >= 4
    ensures ConvertByteArrayToUnsignedIntAsWritten(LittleEndian, value) ==
            ConvertByteArrayToUnsignedInt(LittleEndian, value)
  {
  }

  // ---------------------------------------------------------------------------
  // Float converter

  /**
   * `convertBigEndianFloatToPlatform`: copies the representation bytes of
   * `value` into a zeroed result one at a time, in reverse order. There is
   * no test of the host's byte order.
   */
  method ConvertBigEndianFloatToPlatform(value: FloatBytes) returns (result: FloatBytes)
    ensures result == Reverse(value)
  {
    var floatResult := new bv8[4];
    floatResult[0] := value[3];
    floatResult[1] := value[2];
    floatResult[2] := value[1];
    floatResult[3] := value[0];
    result := floatResult[..];
  }

  /**
   * Byte for byte, the float converter does what the 32-bit big-endian
   * converter does on a little-endian host, but on a big-endian host the
   * integer converter keeps the bytes while the float converter still
   * reverses them.
   */
  lemma FloatAndIntConvertersOnHosts(host: Endianness, b: FloatBytes)
    ensures host == LittleEndian ==>
      HostBytes32(host, ConvertBigEndianIntToPlatform(host, ConvertByteArrayToUnsignedInt(host, b))) == Reverse(b)
    ensures host == BigEndian ==>
      HostBytes32(host, ConvertBigEndianIntToPlatform(host, ConvertByteArrayToUnsignedInt(host, b))) == b
  {
    var w := ConvertByteArrayToUnsignedInt(host, b);
    assert b[..4] == b;
    if host == LittleEndian {
      ReverseInvolutive(LittleEndianBytes32(ConvertBigEndianIntToPlatform(host, w)));
    }
  }
}
