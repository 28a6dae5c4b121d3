/**
  The debug blockchain's world: accounts with their MOAX balance, nonce, storage and per-token records,
  the current and previous block's information, and the input of the call being executed.

  The lookups here (`GetByIdentifierOrDefault`, `GetDctBalance`) belong to the account record of the
  debug world; their bodies are not part of this model and are given the plain meaning their names
  state: the stored record or the default one, the stored balance or zero.
*/
module WorldMock {
  import opened Common

  /** The metadata of one token instance (one nonce). */
  datatype DctInstanceMetadata = DctInstanceMetadata(
    name: Bytes,
    creator: Option<Address>,
    royalties: u64,
    hash: Option<Bytes>,
    uri: seq<Bytes>,
    attributes: Bytes)

  datatype DctInstance = DctInstance(nonce: u64, balance: nat, metadata: DctInstanceMetadata)

  /** What an account holds of one token: its instances keyed by nonce, its role names and flags. */
  datatype DctData = DctData(
    tokenIdentifier: TokenIdentifier,
    instances: map<u64, DctInstance>,
    lastNonce: u64,
    roles: seq<Bytes>,
    frozen: bool)

  /** `DctData::default()`: no instances, last nonce 0, no roles, not frozen. */
  const DefaultDctData: DctData := DctData([], map[], 0, [], false)

  datatype AccountData = AccountData(
    address: Address,
    nonce: nat,
    moaxBalance: nat,
    dct: map<TokenIdentifier, DctData>,
    storage: map<Bytes, Bytes>,
    contractOwner: Option<Address>)

  /** The block fixtures; the 48-byte random seed is an uninterpreted byte string. */
  datatype BlockInfo = BlockInfo(
    blockTimestamp: u64,
    blockNonce: u64,
    blockRound: u64,
    blockEpoch: u64,
    blockRandomSeed: Bytes)

  /** One token transfer attached to a transaction. */
  datatype TxTokenTransfer = TxTokenTransfer(tokenIdentifier: TokenIdentifier, nonce: u64, value: nat)

  /** `TxInput`: the transaction being executed. */
  datatype TxInput = TxInput(
    from: Address,
    to: Address,
    moaxValue: nat,
    dctValues: seq<TxTokenTransfer>,
    funcName: Bytes,
    args: seq<Bytes>,
    gasLimit: u64,
    gasPrice: u64,
    txHash: Bytes)

  /** The state of the debug blockchain. */
  datatype World = World(
    accounts: map<Address, AccountData>,
    currentBlockInfo: BlockInfo,
    previousBlockInfo: BlockInfo)

  /** The message an account lookup fails with when the address has no account. */
  const AccountMissing: Panic := Panic("account not found")

  /** `get_by_identifier_or_default`: the token record, or the default record for an unknown token. */
  function GetByIdentifierOrDefault(dct: map<TokenIdentifier, DctData>, token: TokenIdentifier): DctData
  {
    if token in dct then dct[token] else DefaultDctData
  }

  /** `get_dct_balance`: the balance of one instance, zero when the token or the nonce is unknown. */
  function GetDctBalance(dct: map<TokenIdentifier, DctData>, token: TokenIdentifier, nonce: u64): nat
  {
    if token in dct && nonce in dct[token].instances then dct[token].instances[nonce].balance else 0
  }
}
