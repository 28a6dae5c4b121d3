/**
  `CallValueWrapper`: what a contract learns about the payment attached to the current call.

  The wrapper itself holds no state. It asks the host's call-value API, which is modelled by the record
  of its answers (`CallValueApi`), and it loads amounts and transfer lists into the reserved handles of
  the value arena. With no token transfer attached, the token-related answers fall back to the native
  currency: identifier `MOAX`, nonce 0, type fungible.
*/
module CallValue {
  import opened Common
  import opened DctPayment
  import opened Arena

  /** The answers of the host's call-value API for the current call. */
  datatype CallValueApi = CallValueApi(
    moaxValue: nat,                   // load_moax_value
    dctTransfers: seq<PaymentValue>,  // load_all_dct_transfers, in call order; its length is dct_num_transfers
    token: TokenIdentifier,           // the identifier behind the handle `token()` returns
    tokenNonce: u64,                  // dct_token_nonce
    tokenType: DctTokenType,          // dct_token_type
    singleDctValue: nat)              // load_single_dct_value

  function NumTransfers(api: CallValueApi): nat
  {
    |api.dctTransfers|
  }

  /**
    The host's single-transfer answers describe the first transfer, a fungible transfer has nonce 0, and
    a call carries MOAX or tokens but not both: the API reports 0 for the kind that is absent.
  */
  ghost predicate Consistent(api: CallValueApi)
  {
    && (NumTransfers(api) == 0 ==> api.singleDctValue == 0)
    && (NumTransfers(api) > 0 ==>
          var first := api.dctTransfers[0];
          && api.moaxValue == 0
          && api.token == first.tokenIdentifier
          && api.tokenNonce == first.tokenNonce
          && api.tokenType == first.tokenType
          && api.singleDctValue == first.amount
          && (first.tokenType == Fungible ==> first.tokenNonce == 0))
  }

  /** The message `require_moax` / `require_dct` signal the error with. */
  datatype CallValueError = NonPayableFuncDct | SingleDctExpected | BadTokenProvided

  /** `token`: the identifier of the payment. */
  function Token(api: CallValueApi): (id: TokenIdentifier)
    ensures NumTransfers(api) == 0 ==> id == MoaxIdentifier
    ensures NumTransfers(api) > 0 ==> id == api.token
    ensures Consistent(api) && NumTransfers(api) > 0 ==> id == api.dctTransfers[0].tokenIdentifier
  {
    if NumTransfers(api) == 0 then MoaxIdentifier else api.token
  }

  /** `dct_token_nonce`: the nonce of the received token, 0 for MOAX and for a fungible token. */
  function DctTokenNonce(api: CallValueApi): (nonce: u64)
    ensures NumTransfers(api) == 0 ==> nonce == 0
    ensures NumTransfers(api) > 0 ==> nonce == api.tokenNonce
    ensures Consistent(api) && NumTransfers(api) > 0 ==> nonce == api.dctTransfers[0].tokenNonce
    ensures Consistent(api) && TokenType(api) == Fungible ==> nonce == 0
  {
    if NumTransfers(api) > 0 then api.tokenNonce else 0
  }

  /** `dct_token_type`: the type of the received token, `Fungible` for MOAX. */
  function TokenType(api: CallValueApi): (t: DctTokenType)
    ensures NumTransfers(api) == 0 ==> t == Fungible
    ensures NumTransfers(api) > 0 ==> t == api.tokenType
    ensures Consistent(api) && NumTransfers(api) > 0 ==> t == api.dctTransfers[0].tokenType
  {
    if NumTransfers(api) > 0 then api.tokenType else Fungible
  }

  /** The reserved slot `payment_token_pair` and `payment` load the amount into. */
  function AmountSlot(api: CallValueApi): Handle
  {
    if NumTransfers(api) == 0 then Reserved(CallValueMoax) else Reserved(CallValueSingleDct)
  }

  /** The amount `payment_token_pair` and `payment` load. */
  function PaidAmount(api: CallValueApi): nat
  {
    if NumTransfers(api) == 0 then api.moaxValue else api.singleDctValue
  }

  /** The payment `payment` describes, with its amount by value. */
  function PaymentOf(api: CallValueApi, isDct: TokenIdentifier -> bool): PaymentValue
  {
    New(Token(api), DctTokenNonce(api), PaidAmount(api), isDct)
  }

  /** How `require_moax` ends: it aborts as soon as any token transfer is attached. */
  function RequireMoaxOutcome(api: CallValueApi): Result<Handle, CallValueError>
  {
    if NumTransfers(api) > 0 then Err(NonPayableFuncDct) else Ok(Reserved(CallValueMoax))
  }

  /** How `require_dct` ends: exactly one transfer, of the expected token. */
  function RequireDctOutcome(api: CallValueApi, token: TokenIdentifier): Result<Handle, CallValueError>
  {
    if NumTransfers(api) != 1 then Err(SingleDctExpected)
    else if api.token != token then Err(BadTokenProvided)
    else Ok(Reserved(CallValueSingleDct))
  }

  /** `moax_value`: loads the MOAX value into its reserved slot and returns that slot; 0 when tokens are attached. */
  method MoaxValue(api: CallValueApi, arena: ValueArena) returns (h: Handle)
    requires arena.Valid()
    modifies arena`values
    ensures arena.Valid()
    ensures h == Reserved(CallValueMoax)
    ensures arena.values == old(arena.values)[h := BigUintValue(api.moaxValue)]
    ensures Consistent(api) && NumTransfers(api) > 0 ==> arena.values[h] == BigUintValue(0)
  {
    h := Reserved(CallValueMoax);
    arena.Overwrite(h, BigUintValue(api.moaxValue));
  }

  /** `all_dct_transfers`: loads every transfer, in call order, into its reserved slot. */
  method AllDctTransfers(api: CallValueApi, arena: ValueArena) returns (h: Handle)
    requires arena.Valid()
    modifies arena`values
    ensures arena.Valid()
    ensures h == Reserved(CallValueMultiDct)
    ensures arena.values == old(arena.values)[h := PaymentVecValue(api.dctTransfers)]
  {
    h := Reserved(CallValueMultiDct);
    arena.Overwrite(h, PaymentVecValue(api.dctTransfers));
  }

  /**
    `dct_value`: loads the single token amount into its reserved slot and returns that slot; with only
    MOAX attached the slot holds 0.
  */
  method DctValue(api: CallValueApi, arena: ValueArena) returns (h: Handle)
    requires arena.Valid()
    modifies arena`values
    ensures arena.Valid()
    ensures h == Reserved(CallValueSingleDct)
    ensures arena.values == old(arena.values)[h := BigUintValue(api.singleDctValue)]
    ensures Consistent(api) && NumTransfers(api) == 0 ==> arena.values[h] == BigUintValue(0)
  {
    h := Reserved(CallValueSingleDct);
    arena.Overwrite(h, BigUintValue(api.singleDctValue));
  }

  /** `require_moax`: aborts with `NON_PAYABLE_FUNC_DCT` if a token is attached, else `moax_value`. */
  method RequireMoax(api: CallValueApi, arena: ValueArena) returns (r: Result<Handle, CallValueError>)
    requires arena.Valid()
    modifies arena`values
    ensures arena.Valid()
    ensures r == RequireMoaxOutcome(api)
    ensures r.Err? ==> arena.values == old(arena.values)
    ensures r.Ok? ==> arena.values == old(arena.values)[r.value := BigUintValue(api.moaxValue)]
  {
    if NumTransfers(api) > 0 {
      return Err(NonPayableFuncDct);
    }
    var h := MoaxValue(api, arena);
    r := Ok(h);
  }

  /**
    `require_dct`: writes the expected identifier into the temporary buffer, aborts with
    `SINGLE_DCT_EXPECTED` unless exactly one transfer is attached and with `BAD_TOKEN_PROVIDED` if its
    token is not the expected one, and otherwise loads the single amount.
  */
  method RequireDct(api: CallValueApi, arena: ValueArena, token: TokenIdentifier)
    returns (r: Result<Handle, CallValueError>)
    requires arena.Valid()
    modifies arena`values
    ensures arena.Valid()
    ensures r == RequireDctOutcome(api, token)
    ensures var written := old(arena.values)[Reserved(MbufTemporary1) := BufferValue(token)];
      arena.values == if r.Ok? then written[r.value := BigUintValue(api.singleDctValue)] else written
  {
    var expected := Reserved(MbufTemporary1);
    arena.Overwrite(expected, BufferValue(token));
    if NumTransfers(api) != 1 {
      return Err(SingleDctExpected);
    }
    if api.token != arena.values[expected].bytes {
      return Err(BadTokenProvided);
    }
    var h := DctValue(api, arena);
    r := Ok(h);
  }

  /** `payment_token_pair`: the loaded amount and the identifier, MOAX when no token is attached. */
  method PaymentTokenPair(api: CallValueApi, arena: ValueArena) returns (amount: Handle, token: TokenIdentifier)
    requires arena.Valid()
    modifies arena`values
    ensures arena.Valid()
    ensures amount == AmountSlot(api) && token == Token(api)
    ensures arena.values == old(arena.values)[amount := BigUintValue(PaidAmount(api))]
  {
    if NumTransfers(api) == 0 {
      amount := MoaxValue(api, arena);
      token := MoaxIdentifier;
    } else {
      amount := DctValue(api, arena);
      token := Token(api);
    }
  }

  /** `payment`: the attached payment, classified by `new`, with its amount loaded into a reserved slot. */
  method Payment(api: CallValueApi, arena: ValueArena, isDct: TokenIdentifier -> bool)
    returns (p: DctTokenPayment<TokenIdentifier, Handle>)
    requires arena.Valid()
    modifies arena`values
    ensures arena.Valid()
    ensures var v := PaymentOf(api, isDct);
      p == DctTokenPayment(v.tokenType, v.tokenIdentifier, v.tokenNonce, AmountSlot(api))
    ensures arena.values == old(arena.values)[p.amount := BigUintValue(PaidAmount(api))]
  {
    var value;
    var h;
    if NumTransfers(api) == 0 {
      h := MoaxValue(api, arena);
      value := New(MoaxIdentifier, 0, api.moaxValue, isDct);
    } else {
      var token := Token(api);
      var nonce := DctTokenNonce(api);
      h := DctValue(api, arena);
      value := New(token, nonce, api.singleDctValue, isDct);
    }
    p := DctTokenPayment(value.tokenType, value.tokenIdentifier, value.tokenNonce, h);
  }

  /** `payment_as_tuple`: `payment_token_pair` reordered, with the nonce in the middle. */
  method PaymentAsTuple(api: CallValueApi, arena: ValueArena) returns (token: TokenIdentifier, nonce: u64, amount: Handle)
    requires arena.Valid()
    modifies arena`values
    ensures arena.Valid()
    ensures token == Token(api) && nonce == DctTokenNonce(api) && amount == AmountSlot(api)
    ensures arena.values == old(arena.values)[amount := BigUintValue(PaidAmount(api))]
  {
    amount, token := PaymentTokenPair(api, arena);
    nonce := DctTokenNonce(api);
  }

  /** A call without token transfers is described uniformly as a MOAX payment of its MOAX value. */
  lemma NoTransfersPayMoax(api: CallValueApi, isDct: TokenIdentifier -> bool)
    requires NumTransfers(api) == 0
    ensures PaymentOf(api, isDct) == New(MoaxIdentifier, 0, api.moaxValue, isDct)
    ensures AmountSlot(api) == Reserved(CallValueMoax) && TokenType(api) == Fungible
  {
  }

  /** A call carrying nothing at all is `no_payment`. */
  lemma NothingAttachedIsNoPayment(api: CallValueApi, isDct: TokenIdentifier -> bool)
    requires NumTransfers(api) == 0 && api.moaxValue == 0
    ensures PaymentOf(api, isDct) == NoPayment()
  {
  }

  /**
    With token transfers attached and a consistent API, the payment is the first transfer's identifier,
    nonce and amount, reclassified by `new`; a first transfer that `new` built is returned as it is.
  */
  lemma TransfersPayFirst(api: CallValueApi, isDct: TokenIdentifier -> bool)
    requires Consistent(api) && NumTransfers(api) > 0
    ensures var first := api.dctTransfers[0];
      PaymentOf(api, isDct) == New(first.tokenIdentifier, first.tokenNonce, first.amount, isDct)
    ensures var first := api.dctTransfers[0];
      first == New(first.tokenIdentifier, first.tokenNonce, first.amount, isDct) ==> PaymentOf(api, isDct) == first
  {
  }

  /**
    `payment` classifies with `new`, `dct_token_type` reports the API's type: for a call without
    transfers they disagree whenever the MOAX identifier is not a DCT identifier (`Invalid` against
    `Fungible`); for a consistent call whose first transfer `new` built, they agree.
  */
  lemma PaymentTypeVersusTokenType(api: CallValueApi, isDct: TokenIdentifier -> bool)
    ensures NumTransfers(api) == 0 && !isDct(MoaxIdentifier) ==>
            PaymentOf(api, isDct).tokenType == Invalid && TokenType(api) == Fungible
    ensures Consistent(api) && NumTransfers(api) > 0 ==>
            var first := api.dctTransfers[0];
            first == New(first.tokenIdentifier, first.tokenNonce, first.amount, isDct) ==>
            PaymentOf(api, isDct).tokenType == TokenType(api)
  {
  }

  /**
    The native and the token acceptance policies never both pass: `require_moax` needs no transfer,
    `require_dct` exactly one.
  */
  lemma RequirePoliciesExclusive(api: CallValueApi, token: TokenIdentifier)
    ensures !(RequireMoaxOutcome(api).Ok? && RequireDctOutcome(api, token).Ok?)
  {
  }

  /**
    With a consistent API, `require_dct` passes exactly when the call carries one transfer, of the
    expected token, and what it loads is that transfer's amount.
  */
  lemma RequireDctAcceptsExpectedToken(api: CallValueApi, token: TokenIdentifier)
    requires Consistent(api)
    ensures RequireDctOutcome(api, token).Ok? <==>
            NumTransfers(api) == 1 && api.dctTransfers[0].tokenIdentifier == token
    ensures RequireDctOutcome(api, token).Ok? ==> api.singleDctValue == api.dctTransfers[0].amount
  {
  }
}
