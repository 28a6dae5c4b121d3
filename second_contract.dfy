/**
  The second contract of the token-contract pair: it remembers one token identifier, given at
  deployment, accepts a payment of that token and nothing else, and refuses every payment on its
  rejecting endpoint. Its only state is its storage; the payment endpoints read it and never write it.
*/
module SecondContract {
  import opened Common
  import opened CallValue

  /** The storage key `dctTokenName`. */
  const DctTokenNameKey: Bytes := [0x64, 0x63, 0x74, 0x54, 0x6F, 0x6B, 0x65, 0x6E, 0x4E, 0x61, 0x6D, 0x65]

  const WrongDctToken := "Wrong dct token"
  const Rejected := "Rejected"

  class Contract {
    var storage: map<Bytes, Bytes>

    /** The identifier stored under `dctTokenName`; an absent key reads as empty. */
    function StoredTokenName(): Bytes
      reads this
    {
      if DctTokenNameKey in storage then storage[DctTokenNameKey] else []
    }

    /** `init`: stores the given identifier under `dctTokenName`. */
    constructor Init(tokenIdentifier: TokenIdentifier)
      ensures storage == map[DctTokenNameKey := tokenIdentifier]
      ensures StoredTokenName() == tokenIdentifier
    {
      storage := map[DctTokenNameKey := tokenIdentifier];
    }

    /** The `getdctTokenName` view: the stored identifier. */
    method GetDctTokenName() returns (tokenIdentifier: TokenIdentifier)
      ensures tokenIdentifier == StoredTokenName()
      ensures DctTokenNameKey in storage ==> tokenIdentifier == storage[DctTokenNameKey]
    {
      tokenIdentifier := if DctTokenNameKey in storage then storage[DctTokenNameKey] else [];
    }

    /**
      `acceptDctPayment`: accepts any payment whose token, as the call value reports it, is the stored
      identifier; any other payment, MOAX included, aborts with "Wrong dct token".
    */
    method AcceptDctPayment(api: CallValueApi) returns (r: Result<(), Panic>)
      ensures r.Ok? <==> Token(api) == StoredTokenName()
      ensures r.Err? ==> r.error == Panic(WrongDctToken)
    {
      var actual := Token(api);
      var expected := GetDctTokenName();
      if actual != expected {
        return Err(Panic(WrongDctToken));
      }
      r := Ok(());
    }

    /** `rejectDctPayment`: always aborts with "Rejected". */
    method RejectDctPayment(api: CallValueApi) returns (r: Result<(), Panic>)
      ensures r == Err(Panic(Rejected))
    {
      r := Err(Panic(Rejected));
    }
  }

  /**
    A contract deployed with an identifier accepts a call exactly when it carries tokens and the first
    transfer is of that identifier (the MOAX identifier accepts the calls without transfers), and its
    stored identifier is the same after either payment endpoint, whatever they answered.
  */
  method DeployThenPay(tokenIdentifier: TokenIdentifier, api: CallValueApi)
    returns (accepted: bool, rejected: bool, stored: TokenIdentifier)
    requires Consistent(api)
    ensures accepted <==> if NumTransfers(api) == 0 then tokenIdentifier == MoaxIdentifier
                          else api.dctTransfers[0].tokenIdentifier == tokenIdentifier
    ensures rejected && stored == tokenIdentifier
  {
    var contract := new Contract.Init(tokenIdentifier);
    var accept := contract.AcceptDctPayment(api);
    var reject := contract.RejectDctPayment(api);
    accepted, rejected := accept.Ok?, reject.Err?;
    stored := contract.GetDctTokenName();
  }
}
