# Call values, token payments and the debug blockchain, in Dafny

This project models six components of the smart-contract framework and proves properties about them:

- **Call values (`CallValueWrapper`).** What a contract learns about the payment attached to the current
  call:
  - the token identifier, nonce and type, with MOAX, nonce 0 and `Fungible` standing in when no token
    transfer is attached;
  - the `require_moax` / `require_dct` acceptance policies and their error messages;
  - the reserved handles each loaded amount or transfer list is written to.
- **`DctTokenPayment`.** How `new` classifies a payment's type, and the payment's 16-byte
  managed-vector layout: identifier handle, nonce, amount handle, all big-endian. Decoding derives the
  type from the nonce alone.
- **A derived managed-vector layout.** The struct `{ big_uint: BigUint, num: u32 }`: its size
  constants, its 8-byte layout, the writer and reader tests' byte expectations, and the round trip.
- **The debug blockchain's API** (`BlockchainApiImpl for DebugApi`):
  - read-only lookups over the accounts of the debug world;
  - balance loaders that accept only the contract's own address;
  - token-data lookup with its two kinds of default;
  - local roles or-ed into a flag set;
  - materialisation of a token instance's data as new managed values.
- **Scenario steps.** A transfer step raises the sender's nonce before executing the call, then insists
  on success. A validator-reward step credits MOAX. Each records itself once in the trace.
- **The second contract of the token pair.** It stores one token identifier at deployment. It accepts
  payments in that token only, and its rejecting endpoint always aborts.

The managed values of the framework (big integers, buffers, vectors) live in a handle-indexed table.
Module `Arena` models that table abstractly:
- reserved slots are named;
- allocated handles come from an increasing counter;
- no concrete handle numbers are assumed.

Module `ManagedVecItem` holds the big-endian item layout that both fixed-width encodings build on.
Rust panics and `signal_error` aborts are `Err` outcomes of a `Result`.

Modules and files:

| module | file | models |
|---|---|---|
| `Common` | common.dfy | scalar types, `Option`, `Result`, `Panic` |
| `ManagedVecItem` | managed_vec_item.dfy | item payloads, layouts, the cursor helpers |
| `DctPayment` | dct_token_payment.dfy | `DctTokenPayment` |
| `StructWithBigUint` | struct_with_biguint.dfy | the derived-layout tests |
| `Arena` | arena.dfy | the managed-value handle table |
| `CallValue` | call_value.dfy | `CallValueWrapper` |
| `WorldMock` | world_mock.dfy | accounts, token records, block info, call input |
| `BlockchainApi` | blockchain_api.dfy | `BlockchainApiImpl for DebugApi` |
| `Transfer` | transfer.dfy | `denali_transfer`, `denali_validator_reward`, `execute` |
| `SecondContract` | second_contract.dfy | the second contract |

Functions the source calls but whose bodies are outside this model are parameters of the members that
use them:

| parameter | stands for |
|---|---|
| `isDct` | `TokenIdentifier::is_dct` |
| `basedOnTokenNonce` | `DctTokenType::based_on_token_nonce` |
| `roleFlag` | `DctLocalRole::from(name).to_flag()` |
| `exec` | `execute_sc_call` |

Four helpers of the debug world are given the plain meaning their names state:
- `get_dct_balance` is the stored balance, or 0 for an unknown token or nonce;
- `get_by_identifier_or_default` is the stored record, or the default one;
- `increase_account_nonce` adds one to the nonce;
- `increase_validator_reward` adds the reward to the MOAX balance.

Each account lookup panics when the account is missing.

## Model

| member | source | states |
|---|---|---|
| ManagedVecItem.BigEndianRoundTrip | dharitri-wasm-debug/tests/derive_managed_vec_item_biguint_test.rs:45-46 | reading back the n big-endian bytes of a number below 256^n gives the number |
| ManagedVecItem.FromBigEndianRoundTrip | dharitri-wasm-debug/tests/derive_managed_vec_item_biguint_test.rs:65-66 | writing back the number read from big-endian bytes gives the same bytes |
| ManagedVecItem.Unsigned32 | dharitri-wasm-debug/tests/derive_managed_vec_item_biguint_test.rs:45 | a handle's bit pattern is the handle for non-negative handles and handle + 2^32 for negative ones, always below 2^32 |
| ManagedVecItem.Signed32 | dharitri-wasm-debug/tests/derive_managed_vec_item_biguint_test.rs:68-74 | the signed handle read from a 32-bit pattern has that bit pattern |
| ManagedVecItem.ItemRoundTrip | dharitri-wasm/src/types/managed/wrapped/dct_token_payment.rs:88-90 | an item read back from the bytes it wrote is the same item |
| ManagedVecItem.BytesRoundTrip | dharitri-wasm/src/types/managed/wrapped/dct_token_payment.rs:116-118 | the bytes an item read from a payload writes are that payload |
| ManagedVecItem.LayoutSkipsReserialization | dharitri-wasm-debug/tests/derive_managed_vec_item_biguint_test.rs:29-31 | a struct skips reserialization exactly when every field does |
| ManagedVecItem.DecodeEncodeItems | dharitri-wasm/src/types/managed/wrapped/dct_token_payment.rs:83-121 | reading fields back from the bytes written for them gives the same fields, in order |
| ManagedVecItem.EncodeDecodeItems | dharitri-wasm/src/types/managed/wrapped/dct_token_payment.rs:83-121 | writing the fields read from a payload of the layout's size gives the payload back |
| ManagedVecItem.ItemToSlice | dharitri-wasm/src/types/managed/wrapped/dct_token_payment.rs:67-76 | the item's payload is copied at the cursor, the cursor advances by the payload size, and nothing else in the array changes |
| ManagedVecItem.ItemFromSlice | dharitri-wasm/src/types/managed/wrapped/dct_token_payment.rs:56-65 | the item is read from the payload-size window at the cursor, and the cursor advances by that size |
| DctPayment.NoPayment | dharitri-wasm/src/types/managed/wrapped/dct_token_payment.rs:20-27 | type `Invalid`, the MOAX identifier, nonce 0, amount 0 |
| DctPayment.New | dharitri-wasm/src/types/managed/wrapped/dct_token_payment.rs:29-48 | identifier, nonce and amount are kept. Each type is characterised both ways: `Invalid` iff the amount is 0 or the identifier is not a DCT; `Fungible` iff nonce 0; `NonFungible` iff amount 1 with a nonce; `SemiFungible` iff amount > 1 with a nonce |
| DctPayment.NoPaymentIsNewOfNothing | dharitri-wasm/src/types/managed/wrapped/dct_token_payment.rs:20-40 | `new` of zero MOAX is `no_payment` |
| DctPayment.PaymentConstantsMatchLayout | dharitri-wasm/src/types/managed/wrapped/dct_token_payment.rs:79-80 | `PAYLOAD_SIZE` 16 is the sum of the field sizes; `SKIPS_RESERIALIZATION` false agrees with the fields |
| DctPayment.Encode | dharitri-wasm/src/types/managed/wrapped/dct_token_payment.rs:112-121 | exactly 16 bytes: identifier handle in bytes 0-3, nonce in 4-11, amount handle in 12-15 |
| DctPayment.Decode | dharitri-wasm/src/types/managed/wrapped/dct_token_payment.rs:83-104 | the three fields are read from the same windows in the same order; the type is `SemiFungible` for a non-zero nonce, else `Fungible` |
| DctPayment.DecodeEncode | dharitri-wasm/src/types/managed/wrapped/dct_token_payment.rs:83-121 | a round trip keeps identifier, nonce and amount and replaces the type by the one the nonce implies |
| DctPayment.EncodeDecode | dharitri-wasm/src/types/managed/wrapped/dct_token_payment.rs:83-121 | every 16-byte payload is the encoding of what it decodes to |
| DctPayment.TypeSurvivesRoundTrip | dharitri-wasm/src/types/managed/wrapped/dct_token_payment.rs:92-96 | the type survives a round trip iff it is `Fungible` with nonce 0 or `SemiFungible` with a nonce; `NonFungible` and `Invalid` never survive |
| DctPayment.NewTypeAfterRoundTrip | dharitri-wasm/src/types/managed/wrapped/dct_token_payment.rs:92-96 | a valid payment classified by `new` keeps its type through a round trip, except `NonFungible`, which comes back `SemiFungible` |
| DctPayment.ToByteWriter | dharitri-wasm/src/types/managed/wrapped/dct_token_payment.rs:112-121 | filling a zeroed 16-byte array field by field hands `Encode(p)` to the writer |
| DctPayment.FromByteReader | dharitri-wasm/src/types/managed/wrapped/dct_token_payment.rs:83-104 | reading the three fields with the cursor yields `Decode(payload)` |
| StructWithBigUint.DerivedConstants | dharitri-wasm-debug/tests/derive_managed_vec_item_biguint_test.rs:23-32 | the derived `PAYLOAD_SIZE` is 8 and `SKIPS_RESERIALIZATION` is false |
| StructWithBigUint.Encode | dharitri-wasm-debug/tests/derive_managed_vec_item_biguint_test.rs:48-55 | 8 bytes: the handle's 4 big-endian bytes, then `num`'s 4 |
| StructWithBigUint.Decode | dharitri-wasm-debug/tests/derive_managed_vec_item_biguint_test.rs:68-74 | the handle is read from bytes 0-3 and `num` from bytes 4-7 |
| StructWithBigUint.RoundTrip | dharitri-wasm-debug/tests/derive_managed_vec_item_biguint_test.rs:58-76 | decoding the written bytes gives a struct equal to the original |
| StructWithBigUint.BytesRoundTrip8 | dharitri-wasm-debug/tests/derive_managed_vec_item_biguint_test.rs:68-75 | every 8-byte payload is the encoding of the struct read from it |
| StructWithBigUint.HandleTopBytes | dharitri-wasm-debug/tests/derive_managed_vec_item_biguint_test.rs:45-46 | a handle's first three bytes are `ff ff ff` iff the handle is in -256 .. -1 |
| StructWithBigUint.WriterMatchesExpected | dharitri-wasm-debug/tests/derive_managed_vec_item_biguint_test.rs:34-56 | `num` 0x12345 is written `00 01 23 45`; the written bytes equal the test's expected array iff the handle is in -256 .. -1 |
| StructWithBigUint.ReaderMatchesExpected | dharitri-wasm-debug/tests/derive_managed_vec_item_biguint_test.rs:58-76 | for such a handle, the test's array decodes to a struct equal to the original |
| StructWithBigUint.ToByteWriter | dharitri-wasm-debug/tests/derive_managed_vec_item_biguint_test.rs:42-55 | filling a zeroed 8-byte array field by field yields `Encode(s)` |
| StructWithBigUint.FromByteReader | dharitri-wasm-debug/tests/derive_managed_vec_item_biguint_test.rs:66-75 | reading both fields with the cursor yields `Decode(payload)` |
| Arena.ValueArena.InsertNew | dharitri-wasm-debug/src/api/blockchain_api_mock.rs:246 | the value is stored under a handle not in the table before; every other handle keeps its value |
| Arena.ValueArena.Overwrite | dharitri-wasm-debug/src/api/blockchain_api_mock.rs:55 | only the given handle changes, and it now holds the value |
| Arena.ValueArena.PushHandle | dharitri-wasm-debug/src/api/blockchain_api_mock.rs:241 | the vector gains the handle at its end; nothing else changes |
| CallValue.Token | dharitri-wasm/src/contract_base/wrappers/call_value_wrapper.rs:59-66 | MOAX without transfers, else the API's token; for a consistent API, the first transfer's identifier |
| CallValue.DctTokenNonce | dharitri-wasm/src/contract_base/wrappers/call_value_wrapper.rs:71-78 | 0 without transfers, else the API's nonce; for a consistent API, the first transfer's nonce, and 0 whenever `dct_token_type` is `Fungible` |
| CallValue.TokenType | dharitri-wasm/src/contract_base/wrappers/call_value_wrapper.rs:83-90 | `Fungible` without transfers, else the API's type; for a consistent API, the first transfer's type |
| CallValue.MoaxValue | dharitri-wasm/src/contract_base/wrappers/call_value_wrapper.rs:32-35 | returns `CALL_VALUE_MOAX`, which now holds the MOAX value (0 for a consistent call that carries a token transfer); nothing else changes |
| CallValue.AllDctTransfers | dharitri-wasm/src/contract_base/wrappers/call_value_wrapper.rs:40-43 | returns `CALL_VALUE_MULTI_DCT`, which now holds the transfer list in order; nothing else changes |
| CallValue.DctValue | dharitri-wasm/src/contract_base/wrappers/call_value_wrapper.rs:48-51 | returns `CALL_VALUE_SINGLE_DCT`, which now holds the single DCT value (0 for a consistent call with only MOAX attached); nothing else changes |
| CallValue.RequireMoax | dharitri-wasm/src/contract_base/wrappers/call_value_wrapper.rs:92-99 | aborts with `NON_PAYABLE_FUNC_DCT` iff a transfer is attached, writing nothing; otherwise it behaves as `moax_value` |
| CallValue.RequireDct | dharitri-wasm/src/contract_base/wrappers/call_value_wrapper.rs:101-116 | writes the expected identifier into `MBUF_TEMPORARY_1`. It aborts with `SINGLE_DCT_EXPECTED` unless exactly one transfer is attached, or with `BAD_TOKEN_PROVIDED` if its token differs; otherwise it loads the single value |
| CallValue.PaymentTokenPair | dharitri-wasm/src/contract_base/wrappers/call_value_wrapper.rs:121-128 | (MOAX value slot, MOAX) without transfers, else (single value slot, token), with the slot loaded |
| CallValue.Payment | dharitri-wasm/src/contract_base/wrappers/call_value_wrapper.rs:130-137 | `new` of (MOAX, 0, MOAX value) without transfers, else of (token, nonce, DCT value); the amount is held by its loaded reserved slot |
| CallValue.PaymentAsTuple | dharitri-wasm/src/contract_base/wrappers/call_value_wrapper.rs:139-144 | `payment_token_pair` reordered, with `dct_token_nonce` in the middle |
| CallValue.NoTransfersPayMoax | dharitri-wasm/src/contract_base/wrappers/call_value_wrapper.rs:130-133 | without transfers the payment is `new` of MOAX, nonce 0 and the MOAX value, held in the MOAX slot |
| CallValue.NothingAttachedIsNoPayment | dharitri-wasm/src/contract_base/wrappers/call_value_wrapper.rs:130-133 | a call with neither transfers nor MOAX has `no_payment` as its payment |
| CallValue.TransfersPayFirst | dharitri-wasm/src/contract_base/wrappers/call_value_wrapper.rs:134-136 | with a consistent API, the payment is `new` of the first transfer's fields, and is that transfer if `new` built it |
| CallValue.PaymentTypeVersusTokenType | dharitri-wasm/src/contract_base/wrappers/call_value_wrapper.rs:83-137 | without transfers and with MOAX not a DCT identifier, the payment's type is `Invalid` while `dct_token_type` says `Fungible`. With a consistent API whose first transfer `new` built, the two agree |
| CallValue.RequirePoliciesExclusive | dharitri-wasm/src/contract_base/wrappers/call_value_wrapper.rs:92-116 | `require_moax` and `require_dct` never both pass for the same call |
| CallValue.RequireDctAcceptsExpectedToken | dharitri-wasm/src/contract_base/wrappers/call_value_wrapper.rs:101-116 | with a consistent API, `require_dct` passes iff there is exactly one transfer, of the expected token, and it loads that transfer's amount |
| BlockchainApi.GettersReadFixtures | dharitri-wasm-debug/src/api/blockchain_api_mock.rs:66-114 | gas left is the input's gas limit; the block getters return the current and previous block fields unchanged; no account affects them |
| BlockchainApi.GetOwnerAddressLegacy | dharitri-wasm-debug/src/api/blockchain_api_mock.rs:32-39 | the recorded owner if there is one; "contract owner address not set" if the contract has none |
| BlockchainApi.GetShardOfAddressLegacy | dharitri-wasm-debug/src/api/blockchain_api_mock.rs:41-43 | always panics, "not implemented" |
| BlockchainApi.GetStateRootHashLegacy | dharitri-wasm-debug/src/api/blockchain_api_mock.rs:58-60 | always panics, "not yet implemented" |
| BlockchainApi.GetDctTokenDataUnmanaged | dharitri-wasm-debug/src/api/blockchain_api_mock.rs:196-203 | always panics, "deprecated" |
| BlockchainApi.LegacyBalance | dharitri-wasm-debug/src/api/blockchain_api_mock.rs:49-56 | succeeds iff the address is the contract's own and it has an account, giving its MOAX balance; any other address panics |
| BlockchainApi.LoadBalanceLegacy | dharitri-wasm-debug/src/api/blockchain_api_mock.rs:49-56 | on success only `dest` changes, to that balance; on a panic nothing changes |
| BlockchainApi.GetCurrentDctNftNonce | dharitri-wasm-debug/src/api/blockchain_api_mock.rs:116-133 | only for the contract's own address; the token's `last_nonce`, or 0 for a token it has no record of |
| BlockchainApi.DctBalance | dharitri-wasm-debug/src/api/blockchain_api_mock.rs:135-157 | only for the contract's own address; the instance's balance, or 0 for an unknown token or nonce |
| BlockchainApi.LoadDctBalance | dharitri-wasm-debug/src/api/blockchain_api_mock.rs:135-157 | on success only `dest` changes, to that balance; on a panic nothing changes |
| BlockchainApi.GetDctTokenData | dharitri-wasm-debug/src/api/blockchain_api_mock.rs:159-194 | an unknown token gives defaults typed `Fungible`; a known token without the nonce gives defaults typed by the nonce; an existing instance gives its data |
| BlockchainApi.TokenDataType | dharitri-wasm-debug/src/api/blockchain_api_mock.rs:179-191 | the type is `Fungible` for an unknown token and the nonce's type for a known one, instance or not |
| BlockchainApi.TokenDataAmountIsBalance | dharitri-wasm-debug/src/api/blockchain_api_mock.rs:135-194 | for the contract's own account, the token data's amount equals what `load_dct_balance` loads, in every case |
| BlockchainApi.InstanceFieldMapping | dharitri-wasm-debug/src/api/blockchain_api_mock.rs:226-263 | amount is the balance, `frozen` is the token's flag, name is the identifier. A missing hash is empty and a missing creator is the zero address. Royalties, attributes and the URIs in order are copied |
| BlockchainApi.NewUriVector | dharitri-wasm-debug/src/api/blockchain_api_mock.rs:239-242 | a new vector whose k-th handle is the (k+1)-th handle allocated after it, holding the k-th URI; so every URI buffer is new and no two are the same; nothing already in the table changes |
| BlockchainApi.DctTokenDataFromInstance | dharitri-wasm-debug/src/api/blockchain_api_mock.rs:226-263 | the creator, the URI vector, one buffer per URI, then amount, hash, name, attributes and royalties are allocated one after another in that order, each under a new handle; each holds the instance's data as `InstanceFieldMapping` states it; nothing already in the table changes |
| BlockchainApi.AllocatedInOrderDistinct | dharitri-wasm-debug/src/api/blockchain_api_mock.rs:233-261 | handles allocated in that order are pairwise distinct: the seven fields' handles and every URI buffer; none of them was in the table before |
| BlockchainApi.RoleFlagsMembership | dharitri-wasm-debug/src/api/blockchain_api_mock.rs:215-217 | a flag bit is in the or-ed result iff the flag of some role name has it |
| BlockchainApi.LocalRoles | dharitri-wasm-debug/src/api/blockchain_api_mock.rs:205-222 | `NONE` for a token the contract has no record of, else the or of its role names' flags; panics without a contract account |
| BlockchainApi.GetDctLocalRoles | dharitri-wasm-debug/src/api/blockchain_api_mock.rs:205-222 | the loop that ors in one role flag at a time returns `LocalRoles` |
| Transfer.TransferTxInput | dharitri-wasm-debug/src/denali_step/transfer.rs:32-42 | from, to, MOAX value, DCT values, gas limit and price are copied; the function name and arguments are empty; the hash is 32 zero bytes |
| Transfer.IncreaseAccountNonce | dharitri-wasm-debug/src/denali_step/transfer.rs:44-45 | the sender's nonce goes up by one, and nothing else changes |
| Transfer.IncreaseValidatorReward | dharitri-wasm-debug/src/denali_step/transfer.rs:20-23 | the recipient's MOAX balance goes up by the reward, and nothing else changes in this model |
| Transfer.Execute | dharitri-wasm-debug/src/denali_step/transfer.rs:31-50 | the executor receives the transfer's input and the world with the nonce raised; a result that is not OK is a panic, else its world is the outcome |
| Transfer.NonceRaisedOnceBeforeExecution | dharitri-wasm-debug/src/denali_step/transfer.rs:44-47 | with an executor that succeeds and changes nothing, the transfer raises the sender's nonce by exactly one and changes nothing else |
| Transfer.ExecutorSeesRaisedNonce | dharitri-wasm-debug/src/denali_step/transfer.rs:44-48 | the executor is handed the raised nonce whether or not it then fails, and a failed call panics |
| Transfer.ValidatorRewardKeepsNonces | dharitri-wasm-debug/src/denali_step/transfer.rs:16-28 | a validator reward changes no nonce and credits exactly the reward; this follows from the meaning given here to `increase_validator_reward` |
| Transfer.BlockchainMock.DenaliTransfer | dharitri-wasm-debug/src/denali_step/transfer.rs:10-14 | the world becomes the outcome of `execute`, and exactly one `Transfer` step is appended to the trace |
| Transfer.BlockchainMock.DenaliValidatorReward | dharitri-wasm-debug/src/denali_step/transfer.rs:16-28 | the reward is credited, and exactly one `ValidatorReward` step is appended to the trace |
| SecondContract.Contract.Init | contracts/feature-tests/composability/dct-contract-pair/second-contract/src/lib.rs:8-10 | storage holds exactly the given identifier under `dctTokenName` |
| SecondContract.Contract.GetDctTokenName | contracts/feature-tests/composability/dct-contract-pair/second-contract/src/lib.rs:33-35 | returns the identifier stored under `dctTokenName` |
| SecondContract.Contract.AcceptDctPayment | contracts/feature-tests/composability/dct-contract-pair/second-contract/src/lib.rs:12-20 | succeeds iff the payment token is the stored identifier, else aborts with "Wrong dct token"; it writes nothing |
| SecondContract.Contract.RejectDctPayment | contracts/feature-tests/composability/dct-contract-pair/second-contract/src/lib.rs:22-26 | always aborts with "Rejected"; it writes nothing |
| SecondContract.DeployThenPay | contracts/feature-tests/composability/dct-contract-pair/second-contract/src/lib.rs:8-26 | after deployment with an identifier, a consistent call is accepted iff its first transfer is of that identifier (MOAX for calls without transfers). Rejection always aborts, and the stored identifier is unchanged |

## Left out

- Handle numbers are abstract. Reserved slots are named, not numbered, and allocated handles are an increasing counter. So the model cannot say which concrete handle value the writer test's `big_uint` receives. `WriterMatchesExpected` states the condition on the handle under which the test's expectation holds.
- `is_dct`, `DctTokenType::based_on_token_nonce`, `DctLocalRole::from(..).to_flag()` and `execute_sc_call` are not part of this model; they are parameters.
- `tx_dct_transfers_from_denali` is not part of this model: a transfer step's token transfers are taken as already converted.
- The call-value API is a record of its answers. `Consistent` states what the host guarantees about them: the single-transfer answers describe the first transfer, a fungible transfer has nonce 0, and the value of the absent kind (MOAX or DCT) is 0. Members that need this relation require it or state their promise under it.
- The transfer list loaded into `CALL_VALUE_MULTI_DCT` is a list of payments by value, not the 16-byte records of a managed vector.
- Address and token-identifier arguments passed by handle (`address_handle`, `token_id_handle`) are taken by value; resolving a handle to its bytes is not modelled.
- BlockchainApi.GetDctTokenData: its two default branches are modelled by value. The handles that `Default::default()` would allocate for them are not modelled; for an existing instance the allocation is `DctTokenDataFromInstance`.
- The messages with which a missing account, a failed `assert_ok` and the other unseen helpers panic are stand-ins (`account not found`, `tx failed`). Success is modelled as status 0.
- `increase_validator_reward` is modelled as a credit to the MOAX balance; any other bookkeeping it does is not part of this model.
- `is_smart_contract_legacy` is not modelled: `is_smart_contract_address` is not part of this model.
- `get_caller_legacy`, `get_sc_address_legacy` and `get_tx_hash_legacy` return input fields. They are plain functions without a contract of their own.
- Block random seeds are opaque byte strings; their 48-byte length is not constrained.
- Account nonces are unbounded naturals, so the model does not capture a `u64` nonce overflowing.
- `DctLocalRoleFlags`, a 64-bit flag word, is modelled as the set of its raised bits, with or as union.
- After a step panics, the source's scenario stops and the mock's state is not observed further. The model leaves the mock unchanged in that case.
- Reading `dctTokenName` before `init` is modelled as the empty identifier.
- The `#[payable("*")]` wrapper and argument injection of the second contract are not shown. The `#[payment_token]` argument is taken to be `token()` of the call value.
- Concurrency and the shared borrowing of the mock blockchain are not modelled; access is sequential.
