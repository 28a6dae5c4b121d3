/**
  The fixed-width byte layout of `ManagedVecItem` values.

  A managed vector stores each element as a fixed number of bytes (its payload size): an integer as its
  big-endian bytes, a managed value (big integer, buffer, identifier) as the big-endian bytes of its 32-bit
  handle. A struct lays its fields out one after the other, so its payload size is the sum of theirs.
  The two cursor helpers copy one item into, or out of, a byte array and advance the cursor past it.
*/
module ManagedVecItem {
  import opened Common

  function Pow256(n: nat): (r: nat)
    ensures r >= 1
  {
    if n == 0 then 1 else 256 * Pow256(n - 1)
  }

  /** `x` as `n` big-endian bytes (`to_be_bytes`). */
  function BigEndian(x: nat, n: nat): (r: Bytes)
    requires x < Pow256(n)
    ensures |r| == n
  {
    if n == 0 then [] else BigEndian(x / 256, n - 1) + [x % 256]
  }

  /** The number whose big-endian bytes are `s` (`from_be_bytes`). */
  function FromBigEndian(s: Bytes): (x: nat)
    ensures x < Pow256(|s|)
  {
    if s == [] then 0 else FromBigEndian(s[..|s| - 1]) * 256 + s[|s| - 1]
  }

  lemma {:induction false} BigEndianRoundTrip(x: nat, n: nat)
    requires x < Pow256(n)
    ensures FromBigEndian(BigEndian(x, n)) == x
  {
    if n > 0 {
      BigEndianRoundTrip(x / 256, n - 1);
      var s := BigEndian(x, n);
      assert s[..n - 1] == BigEndian(x / 256, n - 1);
    }
  }

  lemma {:induction false} FromBigEndianRoundTrip(s: Bytes)
    ensures BigEndian(FromBigEndian(s), |s|) == s
  {
    if s != [] {
      var p := s[..|s| - 1];
      FromBigEndianRoundTrip(p);
      var x := FromBigEndian(s);
      assert x / 256 == FromBigEndian(p);
      assert x % 256 == s[|s| - 1];
      assert s == p + [s[|s| - 1]];
    }
  }

  lemma Pow256Values()
    ensures Pow256(4) == 0x1_0000_0000
    ensures Pow256(8) == 0x1_0000_0000_0000_0000
  {
  }

  /** The bit pattern of a signed 32-bit handle read as unsigned (two's complement). */
  function Unsigned32(h: i32): (x: nat)
    ensures x < Pow256(4)
    ensures h >= 0 ==> x == h
    ensures h < 0 ==> x == h + 0x1_0000_0000
  {
    Pow256Values();
    if h < 0 then h + 0x1_0000_0000 else h
  }

  /** The signed 32-bit handle with bit pattern `x`. */
  function Signed32(x: nat): (h: i32)
    requires x < Pow256(4)
    ensures Unsigned32(h) == x
  {
    Pow256Values();
    if x >= 0x8000_0000 then x - 0x1_0000_0000 else x
  }

  /** The kinds of item a managed vector can hold, as far as this model needs them. */
  datatype ItemKind = U32Kind | U64Kind | HandleKind

  datatype Item = U32Item(u: u32) | U64Item(v: u64) | HandleItem(handle: i32)

  function KindOf(item: Item): ItemKind
  {
    match item
    case U32Item(_) => U32Kind
    case U64Item(_) => U64Kind
    case HandleItem(_) => HandleKind
  }

  /** `PAYLOAD_SIZE` of an item kind: a `u32` takes 4 bytes, a `u64` 8, a managed handle 4. */
  function PayloadSize(kind: ItemKind): nat
  {
    match kind
    case U32Kind => 4
    case U64Kind => 8
    case HandleKind => 4
  }

  /**
    `SKIPS_RESERIALIZATION` of an item kind: an integer is its own bytes, whereas a managed value is
    stored as a handle that has to be re-resolved.
  */
  function SkipsReserialization(kind: ItemKind): bool
  {
    kind != HandleKind
  }

  /** `to_byte_writer` of one item: the bytes it hands to the writer. */
  function ToBytes(item: Item): (r: Bytes)
    ensures |r| == PayloadSize(KindOf(item))
  {
    Pow256Values();
    match item
    case U32Item(u) => BigEndian(u, 4)
    case U64Item(v) => BigEndian(v, 8)
    case HandleItem(h) => BigEndian(Unsigned32(h), 4)
  }

  /** `from_byte_reader` of one item, from exactly its payload bytes. */
  function FromBytes(kind: ItemKind, s: Bytes): (r: Item)
    requires |s| == PayloadSize(kind)
    ensures KindOf(r) == kind
  {
    Pow256Values();
    match kind
    case U32Kind => U32Item(FromBigEndian(s))
    case U64Kind => U64Item(FromBigEndian(s))
    case HandleKind => HandleItem(Signed32(FromBigEndian(s)))
  }

  /** Reading back what was written gives the same item. */
  lemma ItemRoundTrip(item: Item)
    ensures FromBytes(KindOf(item), ToBytes(item)) == item
  {
    Pow256Values();
    match item
    case U32Item(u) => BigEndianRoundTrip(u, 4);
    case U64Item(v) => BigEndianRoundTrip(v, 8);
    case HandleItem(h) =>
      BigEndianRoundTrip(Unsigned32(h), 4);
      assert Unsigned32(Signed32(Unsigned32(h))) == Unsigned32(h);
  }

  /** Writing back what was read gives the same bytes: every payload is the image of some item. */
  lemma BytesRoundTrip(kind: ItemKind, s: Bytes)
    requires |s| == PayloadSize(kind)
    ensures ToBytes(FromBytes(kind, s)) == s
  {
    Pow256Values();
    FromBigEndianRoundTrip(s);
  }

  function KindsOf(items: seq<Item>): (kinds: seq<ItemKind>)
    ensures |kinds| == |items|
    ensures forall i :: 0 <= i < |items| ==> kinds[i] == KindOf(items[i])
  {
    seq(|items|, i requires 0 <= i < |items| => KindOf(items[i]))
  }

  /** The derived `PAYLOAD_SIZE` of a struct whose fields have these kinds, in declaration order. */
  function LayoutSize(kinds: seq<ItemKind>): nat
  {
    if kinds == [] then 0 else PayloadSize(kinds[0]) + LayoutSize(kinds[1..])
  }

  /** The derived `SKIPS_RESERIALIZATION` of such a struct: it holds only if it holds of every field. */
  function LayoutSkipsReserialization(kinds: seq<ItemKind>): (b: bool)
    ensures b <==> forall i :: 0 <= i < |kinds| ==> SkipsReserialization(kinds[i])
  {
    if kinds == [] then true
    else SkipsReserialization(kinds[0]) && LayoutSkipsReserialization(kinds[1..])
  }

  /** The payload of a struct: its fields' payloads, one after the other. */
  function EncodeItems(items: seq<Item>): (r: Bytes)
    ensures |r| == LayoutSize(KindsOf(items))
  {
    if items == [] then []
    else
      assert KindsOf(items)[1..] == KindsOf(items[1..]);
      ToBytes(items[0]) + EncodeItems(items[1..])
  }

  /** The fields of a struct read back from its payload, given their kinds. */
  function DecodeItems(kinds: seq<ItemKind>, s: Bytes): (r: seq<Item>)
    requires |s| == LayoutSize(kinds)
    ensures KindsOf(r) == kinds
  {
    if kinds == [] then []
    else
      var n := PayloadSize(kinds[0]);
      [FromBytes(kinds[0], s[..n])] + DecodeItems(kinds[1..], s[n..])
  }

  /** The payload of a three-field struct, spelled out. */
  lemma EncodeThreeItems(a: Item, b: Item, c: Item)
    ensures EncodeItems([a, b, c]) == ToBytes(a) + ToBytes(b) + ToBytes(c)
  {
    assert [a, b, c][1..] == [b, c];
    assert [b, c][1..] == [c];
    assert [c][1..] == [];
    assert EncodeItems([c]) == ToBytes(c) + EncodeItems([]);
    assert EncodeItems([b, c]) == ToBytes(b) + EncodeItems([c]);
    assert EncodeItems([a, b, c]) == ToBytes(a) + EncodeItems([b, c]);
  }

  /** The fields of a three-field struct read back from its payload, spelled out. */
  lemma DecodeThreeItems(k1: ItemKind, k2: ItemKind, k3: ItemKind, s: Bytes)
    requires |s| == PayloadSize(k1) + PayloadSize(k2) + PayloadSize(k3)
    ensures |s| == LayoutSize([k1, k2, k3])
    ensures var n1, n2 := PayloadSize(k1), PayloadSize(k2);
      DecodeItems([k1, k2, k3], s) == [FromBytes(k1, s[..n1]), FromBytes(k2, s[n1..n1 + n2]), FromBytes(k3, s[n1 + n2..])]
  {
    var n1, n2, n3 := PayloadSize(k1), PayloadSize(k2), PayloadSize(k3);
    assert [k1, k2, k3][1..] == [k2, k3];
    assert [k2, k3][1..] == [k3];
    assert [k3][1..] == [];
    assert LayoutSize([k3]) == n3 + LayoutSize([]);
    assert LayoutSize([k2, k3]) == n2 + LayoutSize([k3]);
    assert LayoutSize([k1, k2, k3]) == n1 + LayoutSize([k2, k3]);
    var t := s[n1..];
    assert t[..n2] == s[n1..n1 + n2];
    var u := t[n2..];
    assert u == s[n1 + n2..];
    assert u[..n3] == u;
    assert DecodeItems([k3], u) == [FromBytes(k3, u)] + DecodeItems([], u[n3..]);
    assert DecodeItems([k2, k3], t) == [FromBytes(k2, t[..n2])] + DecodeItems([k3], u);
    assert DecodeItems([k1, k2, k3], s) == [FromBytes(k1, s[..n1])] + DecodeItems([k2, k3], t);
  }

  lemma {:induction false} DecodeEncodeItems(items: seq<Item>)
    ensures DecodeItems(KindsOf(items), EncodeItems(items)) == items
  {
    if items != [] {
      var s := EncodeItems(items);
      var kinds := KindsOf(items);
      var rest := items[1..];
      var n := PayloadSize(kinds[0]);
      assert kinds[1..] == KindsOf(rest);
      assert s == ToBytes(items[0]) + EncodeItems(rest);
      assert s[..n] == ToBytes(items[0]) && s[n..] == EncodeItems(rest);
      ItemRoundTrip(items[0]);
      DecodeEncodeItems(rest);
      assert DecodeItems(kinds, s) == [FromBytes(kinds[0], s[..n])] + DecodeItems(kinds[1..], s[n..]);
      assert items == [items[0]] + rest;
    }
  }

  lemma {:induction false} EncodeDecodeItems(kinds: seq<ItemKind>, s: Bytes)
    requires |s| == LayoutSize(kinds)
    ensures EncodeItems(DecodeItems(kinds, s)) == s
  {
    if kinds != [] {
      var n := PayloadSize(kinds[0]);
      var r := DecodeItems(kinds, s);
      assert r[1..] == DecodeItems(kinds[1..], s[n..]);
      BytesRoundTrip(kinds[0], s[..n]);
      EncodeDecodeItems(kinds[1..], s[n..]);
      assert s == s[..n] + s[n..];
    }
  }

  /**
    `managed_vec_item_to_slice`: copies the item's payload into `arr` at the cursor and returns the
    cursor moved past it. Everything outside that window is left as it was.
  */
  method ItemToSlice(arr: array<byte>, index: nat, item: Item) returns (next: nat)
    requires index + PayloadSize(KindOf(item)) <= arr.Length
    modifies arr
    ensures next == index + PayloadSize(KindOf(item))
    ensures arr[..] == old(arr[..index]) + ToBytes(item) + old(arr[next..])
  {
    var bytes := ToBytes(item);
    forall k | 0 <= k < |bytes| {
      arr[index + k] := bytes[k];
    }
    next := index + |bytes|;
    assert arr[..] == old(arr[..index]) + bytes + old(arr[next..]);
  }

  /**
    `managed_vec_item_from_slice`: reads an item of the given kind from the payload bytes at the cursor
    and returns it with the cursor moved past them.
  */
  method ItemFromSlice(arr: array<byte>, index: nat, kind: ItemKind) returns (item: Item, next: nat)
    requires index + PayloadSize(kind) <= arr.Length
    ensures next == index + PayloadSize(kind)
    ensures item == FromBytes(kind, arr[index..next])
  {
    next := index + PayloadSize(kind);
    var bytes := arr[index..next];
    item := FromBytes(kind, bytes);
  }
}
