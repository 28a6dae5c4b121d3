/**
  `DctTokenPayment`: one token payment (type, identifier, nonce, amount), how `new` classifies its type,
  and its 16-byte managed-vector layout: identifier handle, nonce, amount handle.

  The payment's identifier and amount are managed values. The datatype is generic in how they are
  held: by value (`PaymentValue`, what a contract reads) or by 32-bit handle (`ManagedPayment`, what
  is laid out in a managed vector).
*/
module DctPayment {
  import opened Common
  import opened ManagedVecItem

  datatype DctTokenType = Fungible | NonFungible | SemiFungible | Invalid

  datatype DctTokenPayment<Id, Amount> =
    DctTokenPayment(tokenType: DctTokenType, tokenIdentifier: Id, tokenNonce: u64, amount: Amount)

  type PaymentValue = DctTokenPayment<TokenIdentifier, nat>

  type ManagedPayment = DctTokenPayment<i32, i32>

  /** `no_payment`: what a call without any payment amounts to. */
  function NoPayment(): (p: PaymentValue)
    ensures p.tokenType == Invalid && p.tokenIdentifier == MoaxIdentifier
    ensures p.tokenNonce == 0 && p.amount == 0
  {
    DctTokenPayment(Invalid, MoaxIdentifier, 0, 0)
  }

  /**
    `new`: stores identifier, nonce and amount unchanged and classifies the type. `isDct` is the
    identifier's `is_dct` test, whose body is not part of this model.
  */
  function New(tokenIdentifier: TokenIdentifier, tokenNonce: u64, amount: nat,
               isDct: TokenIdentifier -> bool): (p: PaymentValue)
    ensures p.tokenIdentifier == tokenIdentifier && p.tokenNonce == tokenNonce && p.amount == amount
    ensures p.tokenType == Invalid <==> amount == 0 || !isDct(tokenIdentifier)
    ensures p.tokenType == Fungible <==> amount != 0 && isDct(tokenIdentifier) && tokenNonce == 0
    ensures p.tokenType == NonFungible <==> amount == 1 && isDct(tokenIdentifier) && tokenNonce > 0
    ensures p.tokenType == SemiFungible <==> amount > 1 && isDct(tokenIdentifier) && tokenNonce > 0
  {
    var tokenType :=
      if amount != 0 && isDct(tokenIdentifier) then
        if tokenNonce == 0 then Fungible
        else if amount == 1 then NonFungible
        else SemiFungible
      else Invalid;
    DctTokenPayment(tokenType, tokenIdentifier, tokenNonce, amount)
  }

  /** A zero amount always makes the payment `Invalid`, so `no_payment` is `new` of zero MOAX. */
  lemma NoPaymentIsNewOfNothing(isDct: TokenIdentifier -> bool)
    ensures New(MoaxIdentifier, 0, 0, isDct) == NoPayment()
  {
  }

  /** The field kinds of the layout, in the order they are written: identifier, nonce, amount. */
  const PaymentLayout: seq<ItemKind> := [HandleKind, U64Kind, HandleKind]

  /** `PAYLOAD_SIZE` of a payment. */
  const PaymentPayloadSize: nat := 16

  /** `SKIPS_RESERIALIZATION` of a payment. */
  const PaymentSkipsReserialization: bool := false

  lemma PaymentConstantsMatchLayout()
    ensures LayoutSize(PaymentLayout) == PaymentPayloadSize
    ensures LayoutSkipsReserialization(PaymentLayout) == PaymentSkipsReserialization
  {
  }

  function PaymentItems(p: ManagedPayment): (items: seq<Item>)
    ensures KindsOf(items) == PaymentLayout
  {
    [HandleItem(p.tokenIdentifier), U64Item(p.tokenNonce), HandleItem(p.amount)]
  }

  /** The type a decoded payment gets: it is re-derived from the nonce alone. */
  function TypeFromNonce(tokenNonce: u64): DctTokenType
  {
    if tokenNonce > 0 then SemiFungible else Fungible
  }

  /** The 16 bytes `to_byte_writer` hands to its writer. The type is not written. */
  function Encode(p: ManagedPayment): (s: Bytes)
    ensures |s| == PaymentPayloadSize
    ensures s[..4] == ToBytes(HandleItem(p.tokenIdentifier))
    ensures s[4..12] == ToBytes(U64Item(p.tokenNonce))
    ensures s[12..] == ToBytes(HandleItem(p.amount))
  {
    var a, b, c := HandleItem(p.tokenIdentifier), U64Item(p.tokenNonce), HandleItem(p.amount);
    EncodeThreeItems(a, b, c);
    var s := ToBytes(a) + ToBytes(b) + ToBytes(c);
    assert s[..4] == ToBytes(a) && s[4..12] == ToBytes(b) && s[12..] == ToBytes(c);
    EncodeItems(PaymentItems(p))
  }

  /** The payment `from_byte_reader` builds from 16 bytes. */
  function Decode(s: Bytes): (p: ManagedPayment)
    requires |s| == PaymentPayloadSize
    ensures PaymentItems(p) == DecodeItems(PaymentLayout, s)
    ensures PaymentItems(p) == [FromBytes(HandleKind, s[..4]), FromBytes(U64Kind, s[4..12]), FromBytes(HandleKind, s[12..])]
    ensures p.tokenType == TypeFromNonce(p.tokenNonce)
  {
    var items := DecodeItems(PaymentLayout, s);
    assert KindsOf(items) == PaymentLayout;
    DecodeThreeItems(HandleKind, U64Kind, HandleKind, s);
    assert items == [FromBytes(HandleKind, s[..4]), FromBytes(U64Kind, s[4..12]), FromBytes(HandleKind, s[12..])];
    DctTokenPayment(TypeFromNonce(items[1].v), items[0].handle, items[1].v, items[2].handle)
  }

  /**
    Round trip: identifier, nonce and amount survive; the type is replaced by the one the nonce
    implies.
  */
  lemma DecodeEncode(p: ManagedPayment)
    ensures Decode(Encode(p)) == p.(tokenType := TypeFromNonce(p.tokenNonce))
  {
    DecodeEncodeItems(PaymentItems(p));
    assert PaymentItems(Decode(Encode(p))) == PaymentItems(p);
  }

  /** Every 16-byte payload is the encoding of the payment decoded from it. */
  lemma EncodeDecode(s: Bytes)
    requires |s| == PaymentPayloadSize
    ensures Encode(Decode(s)) == s
  {
    EncodeDecodeItems(PaymentLayout, s);
  }

  /**
    The type survives a round trip exactly for a fungible payment without nonce and a semi-fungible one
    with a nonce: `NonFungible` and `Invalid` never do.
  */
  lemma TypeSurvivesRoundTrip(p: ManagedPayment)
    ensures Decode(Encode(p)).tokenType == p.tokenType <==>
            (p.tokenType == Fungible && p.tokenNonce == 0) || (p.tokenType == SemiFungible && p.tokenNonce > 0)
  {
    DecodeEncode(p);
  }

  /**
    For a payment built by `new` whose amount and identifier make it valid, the round trip keeps its type
    unless it is a single unit with a nonce (`NonFungible`), which comes back `SemiFungible`.
  */
  lemma NewTypeAfterRoundTrip(p: ManagedPayment, identifier: TokenIdentifier, amount: nat,
                              isDct: TokenIdentifier -> bool)
    requires p.tokenType == New(identifier, p.tokenNonce, amount, isDct).tokenType
    requires amount != 0 && isDct(identifier)
    ensures Decode(Encode(p)).tokenType ==
            if p.tokenType == NonFungible then SemiFungible else p.tokenType
  {
    DecodeEncode(p);
  }

  /** `to_byte_writer`: fills a zeroed 16-byte array field by field and hands it to the writer. */
  method ToByteWriter(p: ManagedPayment) returns (written: Bytes)
    ensures written == Encode(p)
  {
    var arr := new byte[16](_ => 0);
    var index := 0;
    index := ItemToSlice(arr, index, HandleItem(p.tokenIdentifier));
    index := ItemToSlice(arr, index, U64Item(p.tokenNonce));
    index := ItemToSlice(arr, index, HandleItem(p.amount));
    written := arr[..];
    assert written[..4] == Encode(p)[..4];
    assert written[4..12] == Encode(p)[4..12];
    assert written[12..] == Encode(p)[12..];
    assert written == written[..4] + written[4..12] + written[12..];
    assert Encode(p) == Encode(p)[..4] + Encode(p)[4..12] + Encode(p)[12..];
  }

  /**
    `from_byte_reader`: lets the reader fill a zeroed 16-byte array with `payload`, then reads the
    three fields in order and derives the type from the nonce.
  */
  method FromByteReader(payload: Bytes) returns (p: ManagedPayment)
    requires |payload| == PaymentPayloadSize
    ensures p == Decode(payload)
  {
    var arr := new byte[16](_ => 0);
    forall k | 0 <= k < 16 {
      arr[k] := payload[k];
    }
    assert arr[..] == payload;
    var index := 0;
    var identifier, nonce, amount;
    identifier, index := ItemFromSlice(arr, index, HandleKind);
    nonce, index := ItemFromSlice(arr, index, U64Kind);
    amount, index := ItemFromSlice(arr, index, HandleKind);
    var tokenType := TypeFromNonce(nonce.v);
    p := DctTokenPayment(tokenType, identifier.handle, nonce.v, amount.handle);
    assert arr[0..4] == payload[..4] && arr[4..12] == payload[4..12] && arr[12..16] == payload[12..];
    assert PaymentItems(p) == PaymentItems(Decode(payload));
  }
}
