/**
  The debug blockchain's implementation of the contract-facing blockchain API: read-only lookups over
  the world's accounts and block fixtures, a few loaders that write into a handle of the value arena,
  and the materialisation of a token instance's data as new managed values.

  A query runs in the context of a call (`DebugApi`): the call's input names the contract (`to`) and
  the caller (`from`); the world supplies the accounts and the block fixtures. A Rust panic is an
  `Err(Panic(..))` outcome.
*/
module BlockchainApi {
  import opened Common
  import opened DctPayment
  import opened Arena
  import opened WorldMock

  /** The context a query runs in: the input of the current call and the world it reads. */
  datatype DebugApi = DebugApi(input: TxInput, world: World)

  /**
    `DctLocalRoleFlags`, a 64-bit flag word, as the set of its raised bits: `NONE` is the empty set and
    or-ing two words is the union of their sets.
  */
  type LocalRoleFlags = set<nat>

  const NoRoles: LocalRoleFlags := {}

  /**
    `DctTokenData`, generic in how its managed fields are held: `TokenDataValue` holds them by value,
    `ManagedTokenData` by arena handle.
  */
  datatype DctTokenData<Big, Buf, Vec> = DctTokenData(
    tokenType: DctTokenType,
    amount: Big,
    frozen: bool,
    hash: Buf,
    name: Buf,
    attributes: Buf,
    creator: Buf,
    royalties: Big,
    uris: Vec)

  type TokenDataValue = DctTokenData<nat, Bytes, seq<Bytes>>

  type ManagedTokenData = DctTokenData<Handle, Handle, Handle>

  /** `DctTokenData::default()` with the given type: zero amounts, empty buffers, the zero creator. */
  function DefaultTokenData(tokenType: DctTokenType): TokenDataValue
  {
    DctTokenData(tokenType, 0, false, [], [], [], ZeroAddress, 0, [])
  }

  const OwnerNotSet := "contract owner address not set"
  const ShardNotImplemented := "get_shard_of_address not implemented"
  const StateRootNotImplemented := "get_state_root_hash_legacy not yet implemented"
  const UnmanagedDeprecated := "get_dct_token_data_unmanaged is deprecated and should never be used in Rust tests"
  const BalanceOnlySelf := "get balance not yet implemented for accounts other than the contract itself"
  const NftNonceOnlySelf := "get_current_dct_nft_nonce not yet implemented for accounts other than the contract itself"
  const DctBalanceOnlySelf := "get_dct_balance not yet implemented for accounts other than the contract itself"

  /** `with_contract_account`: the account of the contract being called. */
  function ContractAccount(api: DebugApi): Result<AccountData, Panic>
  {
    if api.input.to in api.world.accounts then Ok(api.world.accounts[api.input.to]) else Err(AccountMissing)
  }

  function GetCallerLegacy(api: DebugApi): Address { api.input.from }
  function GetScAddressLegacy(api: DebugApi): Address { api.input.to }
  function GetTxHashLegacy(api: DebugApi): Bytes { api.input.txHash }
  function GetGasLeft(api: DebugApi): u64 { api.input.gasLimit }
  function GetBlockTimestamp(api: DebugApi): u64 { api.world.currentBlockInfo.blockTimestamp }
  function GetBlockNonce(api: DebugApi): u64 { api.world.currentBlockInfo.blockNonce }
  function GetBlockRound(api: DebugApi): u64 { api.world.currentBlockInfo.blockRound }
  function GetBlockEpoch(api: DebugApi): u64 { api.world.currentBlockInfo.blockEpoch }
  function GetBlockRandomSeedLegacy(api: DebugApi): Bytes { api.world.currentBlockInfo.blockRandomSeed }
  function GetPrevBlockTimestamp(api: DebugApi): u64 { api.world.previousBlockInfo.blockTimestamp }
  function GetPrevBlockNonce(api: DebugApi): u64 { api.world.previousBlockInfo.blockNonce }
  function GetPrevBlockRound(api: DebugApi): u64 { api.world.previousBlockInfo.blockRound }
  function GetPrevBlockEpoch(api: DebugApi): u64 { api.world.previousBlockInfo.blockEpoch }
  function GetPrevBlockRandomSeedLegacy(api: DebugApi): Bytes { api.world.previousBlockInfo.blockRandomSeed }

  /**
    The gas and block getters report the call's gas limit and the block fixtures as they are, and no
    account of the world affects them.
  */
  lemma GettersReadFixtures(api: DebugApi, accounts: map<Address, AccountData>)
    ensures GetGasLeft(api) == api.input.gasLimit
    ensures var b := api.world.currentBlockInfo;
      && GetBlockTimestamp(api) == b.blockTimestamp && GetBlockNonce(api) == b.blockNonce
      && GetBlockRound(api) == b.blockRound && GetBlockEpoch(api) == b.blockEpoch
      && GetBlockRandomSeedLegacy(api) == b.blockRandomSeed
    ensures var b := api.world.previousBlockInfo;
      && GetPrevBlockTimestamp(api) == b.blockTimestamp && GetPrevBlockNonce(api) == b.blockNonce
      && GetPrevBlockRound(api) == b.blockRound && GetPrevBlockEpoch(api) == b.blockEpoch
      && GetPrevBlockRandomSeedLegacy(api) == b.blockRandomSeed
    ensures var other := api.(world := api.world.(accounts := accounts));
      && GetGasLeft(other) == GetGasLeft(api)
      && GetBlockTimestamp(other) == GetBlockTimestamp(api) && GetBlockNonce(other) == GetBlockNonce(api)
      && GetBlockRound(other) == GetBlockRound(api) && GetBlockEpoch(other) == GetBlockEpoch(api)
      && GetPrevBlockTimestamp(other) == GetPrevBlockTimestamp(api)
      && GetPrevBlockNonce(other) == GetPrevBlockNonce(api)
      && GetPrevBlockRound(other) == GetPrevBlockRound(api)
      && GetPrevBlockEpoch(other) == GetPrevBlockEpoch(api)
  {
  }

  /** `get_owner_address_legacy`: the contract's owner; panics when none is recorded. */
  function GetOwnerAddressLegacy(api: DebugApi): (r: Result<Address, Panic>)
    ensures r.Ok? <==> api.input.to in api.world.accounts && api.world.accounts[api.input.to].contractOwner.Some?
    ensures r.Ok? ==> r.value == api.world.accounts[api.input.to].contractOwner.value
    ensures api.input.to in api.world.accounts && api.world.accounts[api.input.to].contractOwner.None? ==>
            r == Err(Panic(OwnerNotSet))
  {
    match ContractAccount(api)
    case Err(e) => Err(e)
    case Ok(account) =>
      if account.contractOwner.Some? then Ok(account.contractOwner.value) else Err(Panic(OwnerNotSet))
  }

  /** `get_shard_of_address_legacy` is not implemented by the debug blockchain. */
  function GetShardOfAddressLegacy(api: DebugApi, address: Address): (r: Result<u32, Panic>)
    ensures r.Err? && r.error.message == ShardNotImplemented
  {
    Err(Panic(ShardNotImplemented))
  }

  /** `get_state_root_hash_legacy` is not implemented by the debug blockchain. */
  function GetStateRootHashLegacy(api: DebugApi): (r: Result<Bytes, Panic>)
    ensures r.Err? && r.error.message == StateRootNotImplemented
  {
    Err(Panic(StateRootNotImplemented))
  }

  /** `get_dct_token_data_unmanaged` always panics: it is deprecated in tests. */
  function GetDctTokenDataUnmanaged(api: DebugApi, address: Address, token: TokenIdentifier, nonce: u64)
    : (r: Result<TokenDataValue, Panic>)
    ensures r.Err? && r.error.message == UnmanagedDeprecated
  {
    Err(Panic(UnmanagedDeprecated))
  }

  /**
    What `load_balance_legacy` loads: the contract's own MOAX balance. Any other address is refused
    before the account is looked up.
  */
  function LegacyBalance(api: DebugApi, address: Address): (r: Result<nat, Panic>)
    ensures r.Ok? <==> address == api.input.to && address in api.world.accounts
    ensures address != api.input.to ==> r == Err(Panic(BalanceOnlySelf))
    ensures r.Ok? ==> r.value == api.world.accounts[address].moaxBalance
  {
    if address != GetScAddressLegacy(api) then Err(Panic(BalanceOnlySelf))
    else match ContractAccount(api)
      case Err(e) => Err(e)
      case Ok(account) => Ok(account.moaxBalance)
  }

  /** `load_balance_legacy`: overwrites `dest` with the contract's MOAX balance. */
  method LoadBalanceLegacy(api: DebugApi, arena: ValueArena, dest: Handle, address: Address)
    returns (r: Result<(), Panic>)
    requires arena.Valid() && arena.Issued(dest)
    modifies arena`values
    ensures arena.Valid()
    ensures var out := LegacyBalance(api, address);
      && (out.Err? ==> r == Err(out.error) && arena.values == old(arena.values))
      && (out.Ok? ==> r.Ok? && arena.values == old(arena.values)[dest := BigUintValue(out.value)])
  {
    if address != GetScAddressLegacy(api) {
      return Err(Panic(BalanceOnlySelf));
    }
    var account := ContractAccount(api);
    if account.Err? {
      return Err(account.error);
    }
    arena.Overwrite(dest, BigUintValue(account.value.moaxBalance));
    r := Ok(());
  }

  /**
    What `get_current_dct_nft_nonce` returns: the last nonce the contract recorded for the token, 0 for
    a token it has no record of. Any other address is refused.
  */
  function GetCurrentDctNftNonce(api: DebugApi, address: Address, token: TokenIdentifier): (r: Result<u64, Panic>)
    ensures r.Ok? <==> address == api.input.to && address in api.world.accounts
    ensures address != api.input.to ==> r == Err(Panic(NftNonceOnlySelf))
    ensures r.Ok? && token in api.world.accounts[address].dct ==>
            r.value == api.world.accounts[address].dct[token].lastNonce
    ensures r.Ok? && token !in api.world.accounts[address].dct ==> r.value == 0
  {
    if address != GetScAddressLegacy(api) then Err(Panic(NftNonceOnlySelf))
    else match ContractAccount(api)
      case Err(e) => Err(e)
      case Ok(account) => Ok(GetByIdentifierOrDefault(account.dct, token).lastNonce)
  }

  /**
    What `load_dct_balance` loads: the contract's balance of one token instance, zero when it holds
    no such instance. Any other address is refused.
  */
  function DctBalance(api: DebugApi, address: Address, token: TokenIdentifier, nonce: u64): (r: Result<nat, Panic>)
    ensures r.Ok? <==> address == api.input.to && address in api.world.accounts
    ensures address != api.input.to ==> r == Err(Panic(DctBalanceOnlySelf))
    ensures r.Ok? ==> var dct := api.world.accounts[address].dct;
      r.value == if token in dct && nonce in dct[token].instances then dct[token].instances[nonce].balance else 0
  {
    if address != GetScAddressLegacy(api) then Err(Panic(DctBalanceOnlySelf))
    else match ContractAccount(api)
      case Err(e) => Err(e)
      case Ok(account) => Ok(GetDctBalance(account.dct, token, nonce))
  }

  /** `load_dct_balance`: overwrites `dest` with the contract's balance of one token instance. */
  method LoadDctBalance(api: DebugApi, arena: ValueArena, address: Address, token: TokenIdentifier, nonce: u64,
                        dest: Handle)
    returns (r: Result<(), Panic>)
    requires arena.Valid() && arena.Issued(dest)
    modifies arena`values
    ensures arena.Valid()
    ensures var out := DctBalance(api, address, token, nonce);
      && (out.Err? ==> r == Err(out.error) && arena.values == old(arena.values))
      && (out.Ok? ==> r.Ok? && arena.values == old(arena.values)[dest := BigUintValue(out.value)])
  {
    if address != GetScAddressLegacy(api) {
      return Err(Panic(DctBalanceOnlySelf));
    }
    var account := ContractAccount(api);
    if account.Err? {
      return Err(account.error);
    }
    arena.Overwrite(dest, BigUintValue(GetDctBalance(account.value.dct, token, nonce)));
    r := Ok(());
  }

  /**
    The data of an existing instance, by value: what `dct_token_data_from_instance` materialises.
    `basedOnTokenNonce` is `DctTokenType::based_on_token_nonce`, whose body is not part of this model.
  */
  function TokenDataFromInstance(token: TokenIdentifier, data: DctData, nonce: u64, instance: DctInstance,
                                 basedOnTokenNonce: u64 -> DctTokenType): TokenDataValue
  {
    var metadata := instance.metadata;
    DctTokenData(
      basedOnTokenNonce(nonce),
      instance.balance,
      data.frozen,
      if metadata.hash.Some? then metadata.hash.value else [],
      token,
      metadata.attributes,
      if metadata.creator.Some? then metadata.creator.value else ZeroAddress,
      metadata.royalties,
      metadata.uri)
  }

  /**
    The instance's fields land where the token data shows them: amount is the balance, `frozen` the
    token's flag, name the identifier, a missing hash empty, a missing creator the zero address, and
    the URIs in stored order.
  */
  lemma InstanceFieldMapping(token: TokenIdentifier, data: DctData, nonce: u64, instance: DctInstance,
                             basedOnTokenNonce: u64 -> DctTokenType)
    ensures var d := TokenDataFromInstance(token, data, nonce, instance, basedOnTokenNonce);
      && d.tokenType == basedOnTokenNonce(nonce)
      && d.amount == instance.balance && d.frozen == data.frozen && d.name == token
      && (instance.metadata.hash.None? ==> d.hash == [])
      && (instance.metadata.hash.Some? ==> d.hash == instance.metadata.hash.value)
      && (instance.metadata.creator.None? ==> d.creator == ZeroAddress)
      && (instance.metadata.creator.Some? ==> d.creator == instance.metadata.creator.value)
      && d.royalties == instance.metadata.royalties && d.attributes == instance.metadata.attributes
      && d.uris == instance.metadata.uri
  {
  }

  /**
    `get_dct_token_data`, by value: the instance's data if the account holds it; defaults typed by the
    nonce if the token is known but the nonce is not; defaults typed `Fungible` for an unknown token.
  */
  function GetDctTokenData(api: DebugApi, address: Address, token: TokenIdentifier, nonce: u64,
                           basedOnTokenNonce: u64 -> DctTokenType): (r: Result<TokenDataValue, Panic>)
    ensures r.Ok? <==> address in api.world.accounts
    ensures r.Ok? && token !in api.world.accounts[address].dct ==> r.value == DefaultTokenData(Fungible)
    ensures r.Ok? && token in api.world.accounts[address].dct ==>
            var data := api.world.accounts[address].dct[token];
            r.value == if nonce in data.instances
                       then TokenDataFromInstance(token, data, nonce, data.instances[nonce], basedOnTokenNonce)
                       else DefaultTokenData(basedOnTokenNonce(nonce))
  {
    if address !in api.world.accounts then Err(AccountMissing)
    else
      var account := api.world.accounts[address];
      if token in account.dct then
        var data := account.dct[token];
        if nonce in data.instances then Ok(TokenDataFromInstance(token, data, nonce, data.instances[nonce], basedOnTokenNonce))
        else Ok(DefaultTokenData(basedOnTokenNonce(nonce)))
      else Ok(DefaultTokenData(Fungible))
  }

  /**
    The type of the token data is `Fungible` only for an unknown token; for a known one it follows
    the nonce, whether or not the instance exists.
  */
  lemma TokenDataType(api: DebugApi, address: Address, token: TokenIdentifier, nonce: u64,
                      basedOnTokenNonce: u64 -> DctTokenType)
    requires address in api.world.accounts
    ensures GetDctTokenData(api, address, token, nonce, basedOnTokenNonce).value.tokenType ==
            if token in api.world.accounts[address].dct then basedOnTokenNonce(nonce) else Fungible
  {
  }

  /**
    For the contract's own account, the amount in the token data is the balance `load_dct_balance`
    loads, for known and unknown tokens and nonces alike.
  */
  lemma TokenDataAmountIsBalance(api: DebugApi, token: TokenIdentifier, nonce: u64,
                                 basedOnTokenNonce: u64 -> DctTokenType)
    requires api.input.to in api.world.accounts
    ensures GetDctTokenData(api, api.input.to, token, nonce, basedOnTokenNonce).Ok?
    ensures DctBalance(api, api.input.to, token, nonce).Ok?
    ensures GetDctTokenData(api, api.input.to, token, nonce, basedOnTokenNonce).value.amount ==
            DctBalance(api, api.input.to, token, nonce).value
  {
  }

  /** The handles of `d` hold the values of `v`. */
  ghost predicate Materialises(values: map<Handle, ManagedValue>, d: ManagedTokenData, v: TokenDataValue)
  {
    && d.tokenType == v.tokenType && d.frozen == v.frozen
    && Holds(values, d.amount, BigUintValue(v.amount))
    && Holds(values, d.hash, BufferValue(v.hash))
    && Holds(values, d.name, BufferValue(v.name))
    && Holds(values, d.attributes, BufferValue(v.attributes))
    && Holds(values, d.creator, BufferValue(v.creator))
    && Holds(values, d.royalties, BigUintValue(v.royalties))
    && d.uris in values && values[d.uris].HandleVecValue?
    && BuffersHold(values, values[d.uris].handles, v.uris)
  }

  /**
    The handles of `d` and the URI buffers `uriHandles` are new ones, handed out one after another from
    `start` in the order `dct_token_data_from_instance` allocates them: the creator, the URI vector, the
    URI buffers, then amount, hash, name, attributes and royalties.
  */
  ghost predicate AllocatedInOrder(d: ManagedTokenData, uriHandles: seq<Handle>, start: nat)
  {
    var n := |uriHandles|;
    && d.creator == Allocated(start)
    && d.uris == Allocated(start + 1)
    && (forall k :: 0 <= k < n ==> uriHandles[k] == Allocated(start + 2 + k))
    && d.amount == Allocated(start + 2 + n)
    && d.hash == Allocated(start + 3 + n)
    && d.name == Allocated(start + 4 + n)
    && d.attributes == Allocated(start + 5 + n)
    && d.royalties == Allocated(start + 6 + n)
  }

  /**
    Handles handed out in order are pairwise distinct, and none of them was in a table whose allocated
    handles all come before `start`: updating one of them leaves the others, and every value already in
    the table, as they were.
  */
  lemma {:induction false} AllocatedInOrderDistinct(d: ManagedTokenData, uriHandles: seq<Handle>, start: nat,
                                                    before: map<Handle, ManagedValue>)
    requires AllocatedInOrder(d, uriHandles, start)
    requires forall h :: h in before && h.Allocated? ==> h.index < start
    ensures d.creator !in before && d.uris !in before && d.amount !in before && d.hash !in before
    ensures d.name !in before && d.attributes !in before && d.royalties !in before
    ensures |{d.creator, d.uris, d.amount, d.hash, d.name, d.attributes, d.royalties}| == 7
    ensures forall k :: 0 <= k < |uriHandles| ==> uriHandles[k] !in before
    ensures forall k :: 0 <= k < |uriHandles| ==>
              uriHandles[k] !in {d.creator, d.uris, d.amount, d.hash, d.name, d.attributes, d.royalties}
    ensures forall k, l :: 0 <= k < l < |uriHandles| ==> uriHandles[k] != uriHandles[l]
  {
  }

  /**
    The URI vector of `dct_token_data_from_instance`: a new empty vector, then one new buffer per URI,
    pushed in order. Nothing already in the arena changes.
  */
  method NewUriVector(arena: ValueArena, uris: seq<Bytes>) returns (vec: Handle)
    requires arena.Valid()
    modifies arena
    ensures arena.Valid()
    ensures vec == Allocated(old(arena.nextIndex))
    ensures vec in arena.values && arena.values[vec].HandleVecValue?
    ensures BuffersHold(arena.values, arena.values[vec].handles, uris)
    ensures forall k :: 0 <= k < |uris| ==> arena.values[vec].handles[k] == Allocated(old(arena.nextIndex) + 1 + k)
    ensures arena.nextIndex == old(arena.nextIndex) + 1 + |uris|
    ensures Extends(old(arena.values), arena.values)
  {
    ghost var before := arena.values;
    vec := arena.InsertNew(HandleVecValue([]));
    var i := 0;
    while i < |uris|
      invariant 0 <= i <= |uris|
      invariant arena.Valid()
      invariant Extends(before, arena.values)
      invariant vec == Allocated(old(arena.nextIndex)) && arena.nextIndex > vec.index
      invariant vec in arena.values && arena.values[vec].HandleVecValue?
      invariant BuffersHold(arena.values, arena.values[vec].handles, uris[..i])
      invariant forall k :: 0 <= k < i ==> arena.values[vec].handles[k] == Allocated(old(arena.nextIndex) + 1 + k)
      invariant arena.nextIndex == old(arena.nextIndex) + 1 + i
    {
      ghost var handles := arena.values[vec].handles;
      ghost var mid := arena.values;
      var h := arena.InsertNew(BufferValue(uris[i]));
      BuffersHoldExtends(mid, arena.values, handles, uris[..i]);
      ghost var inserted := arena.values;
      arena.PushHandle(vec, h);
      assert arena.values[vec].handles == handles + [h];
      assert forall k :: 0 <= k < |handles| ==> handles[k] != vec by {
        forall k | 0 <= k < |handles|
          ensures handles[k] != vec
        {
          assert inserted[handles[k]].BufferValue?;
        }
      }
      assert uris[..i + 1] == uris[..i] + [uris[i]];
      i := i + 1;
    }
    assert uris[..i] == uris;
  }

  /**
    The five values `dct_token_data_from_instance` allocates after the URI vector, each under a new
    handle, in the source's order: amount, hash, name, attributes, royalties.
  */
  method InsertScalarFields(arena: ValueArena, balance: nat, hash: Bytes, name: Bytes, attributes: Bytes,
                            royalties: nat)
    returns (amountH: Handle, hashH: Handle, nameH: Handle, attributesH: Handle, royaltiesH: Handle)
    requires arena.Valid()
    modifies arena
    ensures arena.Valid()
    ensures Extends(old(arena.values), arena.values)
    ensures arena.nextIndex == old(arena.nextIndex) + 5
    ensures amountH == Allocated(old(arena.nextIndex)) && Holds(arena.values, amountH, BigUintValue(balance))
    ensures hashH == Allocated(old(arena.nextIndex) + 1) && Holds(arena.values, hashH, BufferValue(hash))
    ensures nameH == Allocated(old(arena.nextIndex) + 2) && Holds(arena.values, nameH, BufferValue(name))
    ensures attributesH == Allocated(old(arena.nextIndex) + 3) && Holds(arena.values, attributesH, BufferValue(attributes))
    ensures royaltiesH == Allocated(old(arena.nextIndex) + 4) && Holds(arena.values, royaltiesH, BigUintValue(royalties))
  {
    amountH := arena.InsertNew(BigUintValue(balance));
    hashH := arena.InsertNew(BufferValue(hash));
    nameH := arena.InsertNew(BufferValue(name));
    attributesH := arena.InsertNew(BufferValue(attributes));
    royaltiesH := arena.InsertNew(BigUintValue(royalties));
  }

  /**
    `dct_token_data_from_instance`: materialises the instance's data as new managed values, in the
    source's order: the creator address, the URI vector and one buffer per URI, then amount, hash, name,
    attributes and royalties. Nothing already in the arena changes.
  */
  method DctTokenDataFromInstance(arena: ValueArena, token: TokenIdentifier, data: DctData, nonce: u64,
                                  instance: DctInstance, basedOnTokenNonce: u64 -> DctTokenType)
    returns (d: ManagedTokenData)
    requires arena.Valid()
    modifies arena
    ensures arena.Valid()
    ensures Materialises(arena.values, d, TokenDataFromInstance(token, data, nonce, instance, basedOnTokenNonce))
    ensures Extends(old(arena.values), arena.values)
    ensures |arena.values[d.uris].handles| == |instance.metadata.uri|
    ensures AllocatedInOrder(d, arena.values[d.uris].handles, old(arena.nextIndex))
    ensures arena.nextIndex == old(arena.nextIndex) + 7 + |instance.metadata.uri|
  {
    var metadata := instance.metadata;
    var creatorBytes := if metadata.creator.Some? then metadata.creator.value else ZeroAddress;
    var creator := arena.InsertNew(BufferValue(creatorBytes));
    var uris := NewUriVector(arena, metadata.uri);
    ghost var withUris := arena.values;
    ghost var uriHandles := withUris[uris].handles;
    assert |uriHandles| == |metadata.uri|;
    assert forall k :: 0 <= k < |uriHandles| ==> uriHandles[k] == Allocated(creator.index + 2 + k);
    var amount, hash, name, attributes, royalties :=
      InsertScalarFields(arena, instance.balance, if metadata.hash.Some? then metadata.hash.value else [],
                         token, metadata.attributes, metadata.royalties);
    BuffersHoldExtends(withUris, arena.values, uriHandles, metadata.uri);
    d := DctTokenData(basedOnTokenNonce(nonce), amount, data.frozen, hash, name, attributes, creator, royalties, uris);
    assert arena.values[d.uris].handles == uriHandles;
    assert AllocatedInOrder(d, uriHandles, creator.index);
  }

  /** The role flags of the role names, or-ed from first to last. */
  function RoleFlagsOf(roles: seq<Bytes>, roleFlag: Bytes -> LocalRoleFlags): LocalRoleFlags
  {
    if |roles| == 0 then NoRoles else RoleFlagsOf(roles[..|roles| - 1], roleFlag) + roleFlag(roles[|roles| - 1])
  }

  /**
    A bit is raised in the or-ed flags exactly when the flag of some role name raises it: every role
    counts, and nothing else is added.
  */
  lemma {:induction false} RoleFlagsMembership(roles: seq<Bytes>, roleFlag: Bytes -> LocalRoleFlags, bit: nat)
    ensures bit in RoleFlagsOf(roles, roleFlag) <==> exists i :: 0 <= i < |roles| && bit in roleFlag(roles[i])
  {
    if |roles| > 0 {
      var last := |roles| - 1;
      var prefix := roles[..last];
      RoleFlagsMembership(prefix, roleFlag, bit);
      if bit in RoleFlagsOf(prefix, roleFlag) {
        var i :| 0 <= i < |prefix| && bit in roleFlag(prefix[i]);
        assert prefix[i] == roles[i];
      } else if exists i :: 0 <= i < |roles| && bit in roleFlag(roles[i]) {
        var i :| 0 <= i < |roles| && bit in roleFlag(roles[i]);
      }
    }
  }

  /** What `get_dct_local_roles` returns for the contract: no roles for an unknown token. */
  function LocalRoles(api: DebugApi, token: TokenIdentifier, roleFlag: Bytes -> LocalRoleFlags)
    : (r: Result<LocalRoleFlags, Panic>)
    ensures r.Ok? <==> api.input.to in api.world.accounts
    ensures r.Ok? && token !in api.world.accounts[api.input.to].dct ==> r.value == NoRoles
    ensures r.Ok? && token in api.world.accounts[api.input.to].dct ==>
            r.value == RoleFlagsOf(api.world.accounts[api.input.to].dct[token].roles, roleFlag)
  {
    match ContractAccount(api)
    case Err(e) => Err(e)
    case Ok(account) =>
      if token in account.dct then Ok(RoleFlagsOf(account.dct[token].roles, roleFlag)) else Ok(NoRoles)
  }

  /**
    `get_dct_local_roles`: starts from `NONE` and ors in the flag of every role name the contract
    holds for the token. `roleFlag` is `DctLocalRole::from(name).to_flag()`, whose body is not part of
    this model.
  */
  method GetDctLocalRoles(api: DebugApi, token: TokenIdentifier, roleFlag: Bytes -> LocalRoleFlags)
    returns (r: Result<LocalRoleFlags, Panic>)
    ensures r == LocalRoles(api, token, roleFlag)
  {
    var account := ContractAccount(api);
    if account.Err? {
      return Err(account.error);
    }
    var result := NoRoles;
    if token in account.value.dct {
      var roles := account.value.dct[token].roles;
      var i := 0;
      while i < |roles|
        invariant 0 <= i <= |roles|
        invariant result == RoleFlagsOf(roles[..i], roleFlag)
      {
        assert roles[..i + 1][..i] == roles[..i];
        result := result + roleFlag(roles[i]);
        i := i + 1;
      }
      assert roles[..i] == roles;
    }
    r := Ok(result);
  }
}
