/**
  The derived managed-vector layout of `ManagedStructWithBigUint { big_uint: BigUint, num: u32 }`:
  the big integer's 32-bit handle, big-endian, then `num`, big-endian, eight bytes in all.
*/
module StructWithBigUint {
  import opened Common
  import opened ManagedVecItem

  /** The struct as it sits in memory: the big integer is held by its handle. */
  datatype ManagedStructWithBigUint = ManagedStructWithBigUint(bigUint: i32, num: u32)

  /** The field kinds of the layout, in declaration order. */
  const StructLayout: seq<ItemKind> := [HandleKind, U32Kind]

  function StructItems(s: ManagedStructWithBigUint): (items: seq<Item>)
    ensures KindsOf(items) == StructLayout
  {
    [HandleItem(s.bigUint), U32Item(s.num)]
  }

  /** The derived `PAYLOAD_SIZE` is 8 and the derived `SKIPS_RESERIALIZATION` is false. */
  lemma DerivedConstants()
    ensures LayoutSize(StructLayout) == 8
    ensures !LayoutSkipsReserialization(StructLayout)
  {
    assert StructLayout[0] == HandleKind;
  }

  /** The 8 bytes the derived `to_byte_writer` hands to its writer. */
  function Encode(s: ManagedStructWithBigUint): (bytes: Bytes)
    ensures |bytes| == 8
    ensures bytes[..4] == ToBytes(HandleItem(s.bigUint))
    ensures bytes[4..] == ToBytes(U32Item(s.num))
  {
    var a, b := HandleItem(s.bigUint), U32Item(s.num);
    assert [a, b][1..] == [b] && [b][1..] == [];
    assert EncodeItems([b]) == ToBytes(b) + EncodeItems([]);
    assert EncodeItems([a, b]) == ToBytes(a) + EncodeItems([b]);
    EncodeItems(StructItems(s))
  }

  /** The struct the derived `from_byte_reader` builds from 8 bytes. */
  function Decode(bytes: Bytes): (s: ManagedStructWithBigUint)
    requires |bytes| == 8
    ensures StructItems(s) == [FromBytes(HandleKind, bytes[..4]), FromBytes(U32Kind, bytes[4..])]
  {
    var h, n := FromBytes(HandleKind, bytes[..4]), FromBytes(U32Kind, bytes[4..]);
    ManagedStructWithBigUint(h.handle, n.u)
  }

  /** Decoding the written bytes gives back a struct equal to the original. */
  lemma {:induction false} RoundTrip(s: ManagedStructWithBigUint)
    ensures Decode(Encode(s)) == s
  {
    ItemRoundTrip(HandleItem(s.bigUint));
    ItemRoundTrip(U32Item(s.num));
  }

  /** Every 8-byte payload is the encoding of the struct decoded from it. */
  lemma {:induction false} BytesRoundTrip8(bytes: Bytes)
    requires |bytes| == 8
    ensures Encode(Decode(bytes)) == bytes
  {
    BytesRoundTrip(HandleKind, bytes[..4]);
    BytesRoundTrip(U32Kind, bytes[4..]);
    assert bytes == bytes[..4] + bytes[4..];
  }

  /** Four big-endian bytes, spelled out. */
  lemma BigEndianFour(x: nat)
    requires x < 0x1_0000_0000
    ensures BigEndian(x, 4) == [x / 0x100_0000, x / 0x1_0000 % 0x100, x / 0x100 % 0x100, x % 0x100]
  {
    var a := x / 0x100;
    var b := a / 0x100;
    var c := b / 0x100;
    assert b == x / 0x1_0000;
    assert c == x / 0x100_0000;
    assert c / 0x100 == 0;
    assert BigEndian(c, 1) == BigEndian(c / 0x100, 0) + [c % 0x100];
    assert BigEndian(b, 2) == BigEndian(c, 1) + [b % 0x100];
    assert BigEndian(a, 3) == BigEndian(b, 2) + [a % 0x100];
    assert BigEndian(x, 4) == BigEndian(a, 3) + [x % 0x100];
  }

  /** The bytes the writer test expects for a struct with this handle and `num` 0x12345. */
  function ExpectedBytes(bigUint: i32): (bytes: Bytes)
    ensures |bytes| == 8
  {
    var handleBytes := ToBytes(HandleItem(bigUint));
    [0xff, 0xff, 0xff, handleBytes[3], 0x00, 0x01, 0x23, 0x45]
  }

  /** The first three bytes of a 32-bit big-endian word are `ff ff ff` exactly for the top 256 words. */
  lemma TopThreeBytes(x: nat)
    requires x < 0x1_0000_0000
    ensures BigEndian(x, 4)[..3] == [0xff, 0xff, 0xff] <==> x >= 0xffff_ff00
  {
    BigEndianFour(x);
    var a := x / 0x100;
    var b := a / 0x100;
    var c := b / 0x100;
    assert x / 0x1_0000 == b && x / 0x100_0000 == c;
    var top := BigEndian(x, 4)[..3];
    assert top == [c, b % 0x100, a % 0x100];
    if x >= 0xffff_ff00 {
      assert a == 0xff_ffff && b == 0xffff && c == 0xff;
    }
    if top == [0xff, 0xff, 0xff] {
      assert b == 0x100 * c + b % 0x100 == 0xffff;
      assert a == 0x100 * b + a % 0x100 == 0xff_ffff;
      assert x == 0x100 * a + x % 0x100;
    }
  }

  /** A handle's first three bytes are `ff ff ff` exactly for the 256 negative handles -256 .. -1. */
  lemma HandleTopBytes(h: i32)
    ensures ToBytes(HandleItem(h))[..3] == [0xff, 0xff, 0xff] <==> -256 <= h < 0
  {
    Pow256Values();
    TopThreeBytes(Unsigned32(h));
  }

  /**
    The writer test's expectation: `num` 0x12345 is written as `00 01 23 45`, and the handle's first
    three bytes are `ff ff ff` exactly when the handle is one of the 256 negative handles -256 .. -1.
  */
  lemma {:induction false} WriterMatchesExpected(s: ManagedStructWithBigUint)
    requires s.num == 0x12345
    ensures Encode(s)[4..] == [0x00, 0x01, 0x23, 0x45]
    ensures Encode(s) == ExpectedBytes(s.bigUint) <==> -256 <= s.bigUint < 0
  {
    BigEndianFour(0x12345);
    assert ToBytes(U32Item(s.num)) == BigEndian(0x12345, 4) == [0x00, 0x01, 0x23, 0x45];
    HandleTopBytes(s.bigUint);
    var e := Encode(s);
    var x := ExpectedBytes(s.bigUint);
    assert e[..4] == ToBytes(HandleItem(s.bigUint));
    assert e[4..] == x[4..] && e[3] == x[3];
    assert e == x <==> e[..3] == x[..3] by {
      if e[..3] == x[..3] {
        assert e == e[..3] + [e[3]] + e[4..];
        assert x == x[..3] + [x[3]] + x[4..];
      }
    }
  }

  /** The reader test: the expected bytes decode to a struct equal to the original. */
  lemma {:induction false} ReaderMatchesExpected(s: ManagedStructWithBigUint)
    requires s.num == 0x12345 && -256 <= s.bigUint < 0
    ensures Decode(ExpectedBytes(s.bigUint)) == s
  {
    WriterMatchesExpected(s);
    RoundTrip(s);
  }

  /** The derived `to_byte_writer`: fills a zeroed 8-byte array field by field. */
  method ToByteWriter(s: ManagedStructWithBigUint) returns (written: Bytes)
    ensures written == Encode(s)
  {
    var arr := new byte[8](_ => 0);
    var index := 0;
    index := ItemToSlice(arr, index, HandleItem(s.bigUint));
    index := ItemToSlice(arr, index, U32Item(s.num));
    written := arr[..];
    assert written == written[..4] + written[4..];
    assert Encode(s) == Encode(s)[..4] + Encode(s)[4..];
  }

  /** The derived `from_byte_reader`: the reader fills a zeroed 8-byte array, then the fields are read. */
  method FromByteReader(payload: Bytes) returns (s: ManagedStructWithBigUint)
    requires |payload| == 8
    ensures s == Decode(payload)
  {
    var arr := new byte[8](_ => 0);
    forall k | 0 <= k < 8 {
      arr[k] := payload[k];
    }
    assert arr[..] == payload;
    var index := 0;
    var bigUint, num;
    bigUint, index := ItemFromSlice(arr, index, HandleKind);
    num, index := ItemFromSlice(arr, index, U32Kind);
    s := ManagedStructWithBigUint(bigUint.handle, num.u);
    assert arr[0..4] == payload[..4] && arr[4..8] == payload[4..];
  }
}
