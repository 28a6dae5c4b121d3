/**
  The transfer and validator-reward steps of a scenario, run against the debug blockchain.

  A transfer builds a call input with no function and no arguments, raises the sender's nonce, hands
  input and world to the executor and insists that the call succeeded. A validator reward credits MOAX
  to its recipient. Either step is then recorded, once, in the scenario trace.

  The executor (`execute_sc_call`) is not part of this model: it is the parameter `exec`, a function
  from the call input and the world to the call's result and the world after it.
*/
module Transfer {
  import opened Common
  import opened WorldMock

  /** A transaction of a transfer step, with its token transfers already converted for execution. */
  datatype TxTransfer = TxTransfer(
    from: Address,
    to: Address,
    moaxValue: nat,
    dctValue: seq<TxTokenTransfer>,
    gasLimit: u64,
    gasPrice: u64)

  datatype TxValidatorReward = TxValidatorReward(to: Address, moaxValue: nat)

  datatype TransferStep = TransferStep(txId: Bytes, tx: TxTransfer)

  datatype ValidatorRewardStep = ValidatorRewardStep(txId: Bytes, tx: TxValidatorReward)

  /** The steps this model records in the scenario trace. */
  datatype Step = Transfer(transferStep: TransferStep) | ValidatorReward(validatorRewardStep: ValidatorRewardStep)

  /** The result of executing a call: status 0 is success. */
  datatype TxResult = TxResult(resultStatus: nat, resultMessage: Bytes)

  /** What `assert_ok` insists on. */
  predicate IsOk(result: TxResult)
  {
    result.resultStatus == 0
  }

  const TxFailed: Panic := Panic("tx failed")

  /** `H256::zero()`: the 32-byte all-zero transaction hash. */
  const ZeroHash: Bytes :=
    [0, 0, 0, 0, 0, 0, 0, 0, 0, 0, 0, 0, 0, 0, 0, 0,
     0, 0, 0, 0, 0, 0, 0, 0, 0, 0, 0, 0, 0, 0, 0, 0]

  /** The call input of a transfer: the transaction's fields, no function, no arguments, a zero hash. */
  function TransferTxInput(tx: TxTransfer): (input: TxInput)
    ensures input.from == tx.from && input.to == tx.to && input.moaxValue == tx.moaxValue
    ensures input.dctValues == tx.dctValue && input.gasLimit == tx.gasLimit && input.gasPrice == tx.gasPrice
    ensures input.funcName == [] && input.args == [] && input.txHash == ZeroHash && |input.txHash| == 32
  {
    TxInput(tx.from, tx.to, tx.moaxValue, tx.dctValue, [], [], tx.gasLimit, tx.gasPrice, ZeroHash)
  }

  /** `increase_account_nonce`: the account's nonce goes up by one; no account, a panic. */
  function IncreaseAccountNonce(w: World, address: Address): (r: Result<World, Panic>)
    ensures r.Ok? <==> address in w.accounts
    ensures r.Ok? ==> r.value.accounts.Keys == w.accounts.Keys
    ensures r.Ok? ==> r.value.accounts[address] == w.accounts[address].(nonce := w.accounts[address].nonce + 1)
    ensures r.Ok? ==> forall a :: a in w.accounts && a != address ==> r.value.accounts[a] == w.accounts[a]
    ensures r.Ok? ==> r.value.currentBlockInfo == w.currentBlockInfo && r.value.previousBlockInfo == w.previousBlockInfo
  {
    if address in w.accounts then
      var account := w.accounts[address];
      Ok(w.(accounts := w.accounts[address := account.(nonce := account.nonce + 1)]))
    else Err(AccountMissing)
  }

  /**
    `increase_validator_reward`: the recipient's MOAX balance goes up by the reward; its nonce and
    everything else stay. No account, a panic.
  */
  function IncreaseValidatorReward(w: World, address: Address, value: nat): (r: Result<World, Panic>)
    ensures r.Ok? <==> address in w.accounts
    ensures r.Ok? ==> r.value.accounts.Keys == w.accounts.Keys
    ensures r.Ok? ==> r.value.accounts[address].moaxBalance == w.accounts[address].moaxBalance + value
    ensures r.Ok? ==> r.value.accounts[address] == w.accounts[address].(moaxBalance := r.value.accounts[address].moaxBalance)
    ensures r.Ok? ==> forall a :: a in w.accounts && a != address ==> r.value.accounts[a] == w.accounts[a]
    ensures r.Ok? ==> r.value.currentBlockInfo == w.currentBlockInfo && r.value.previousBlockInfo == w.previousBlockInfo
  {
    if address in w.accounts then
      var account := w.accounts[address];
      Ok(w.(accounts := w.accounts[address := account.(moaxBalance := account.moaxBalance + value)]))
    else Err(AccountMissing)
  }

  /**
    `execute`: the world the executor is handed, with the sender's nonce already raised, whatever the
    call then does.
  */
  function ExecutionWorld(w: World, tx: TxTransfer): Result<World, Panic>
  {
    IncreaseAccountNonce(w, tx.from)
  }

  /** `execute`: the world after a transfer; a failed call is a panic. */
  function Execute(w: World, tx: TxTransfer, exec: (TxInput, World) -> (TxResult, World)): (r: Result<World, Panic>)
    ensures tx.from !in w.accounts ==> r.Err?
    ensures tx.from in w.accounts ==>
            var (result, after) := exec(TransferTxInput(tx), ExecutionWorld(w, tx).value);
            r == if IsOk(result) then Ok(after) else Err(TxFailed)
  {
    var prepared := ExecutionWorld(w, tx);
    if prepared.Err? then Err(prepared.error)
    else
      var (result, after) := exec(TransferTxInput(tx), prepared.value);
      if IsOk(result) then Ok(after) else Err(TxFailed)
  }

  /**
    The sender's nonce is raised once, before the executor runs: an executor that succeeds without
    touching the world leaves exactly that raise behind.
  */
  lemma NonceRaisedOnceBeforeExecution(w: World, tx: TxTransfer, exec: (TxInput, World) -> (TxResult, World))
    requires tx.from in w.accounts
    requires forall input, world :: exec(input, world) == (TxResult(0, []), world)
    ensures Execute(w, tx, exec).Ok?
    ensures var after := Execute(w, tx, exec).value;
      && after.accounts[tx.from].nonce == w.accounts[tx.from].nonce + 1
      && after.accounts[tx.from].moaxBalance == w.accounts[tx.from].moaxBalance
      && forall a :: a in w.accounts && a != tx.from ==> a in after.accounts && after.accounts[a] == w.accounts[a]
  {
  }

  /** The executor sees the transfer's input and the raised nonce, and a call that fails is a panic. */
  lemma ExecutorSeesRaisedNonce(w: World, tx: TxTransfer, exec: (TxInput, World) -> (TxResult, World))
    requires tx.from in w.accounts
    ensures ExecutionWorld(w, tx).Ok?
    ensures ExecutionWorld(w, tx).value.accounts[tx.from].nonce == w.accounts[tx.from].nonce + 1
    ensures !IsOk(exec(TransferTxInput(tx), ExecutionWorld(w, tx).value).0) ==> Execute(w, tx, exec) == Err(TxFailed)
  {
  }

  /**
    A validator reward changes no nonce and credits exactly the reward. This holds of the meaning given
    here to `increase_validator_reward`, whose body is not part of this model.
  */
  lemma ValidatorRewardKeepsNonces(w: World, address: Address, value: nat)
    requires address in w.accounts
    ensures var after := IncreaseValidatorReward(w, address, value).value;
      && (forall a :: a in w.accounts ==> a in after.accounts && after.accounts[a].nonce == w.accounts[a].nonce)
      && after.accounts[address].moaxBalance - w.accounts[address].moaxBalance == value
  {
  }

  /** `BlockchainMock`: the world and the trace of the steps run so far. */
  class BlockchainMock {
    var world: World
    var trace: seq<Step>

    constructor (w: World)
      ensures world == w && trace == []
    {
      world := w;
      trace := [];
    }

    /**
      `denali_transfer`: runs the transfer and records it. If the step panics, the scenario stops; the
      mock is then left as it was.
    */
    method DenaliTransfer(step: TransferStep, exec: (TxInput, World) -> (TxResult, World))
      returns (r: Result<(), Panic>)
      modifies this
      ensures var out := Execute(old(world), step.tx, exec);
        && (out.Ok? ==> r.Ok? && world == out.value && trace == old(trace) + [Transfer(step)])
        && (out.Err? ==> r == Err(out.error) && world == old(world) && trace == old(trace))
    {
      var out := Execute(world, step.tx, exec);
      if out.Err? {
        return Err(out.error);
      }
      world := out.value;
      trace := trace + [Transfer(step)];
      r := Ok(());
    }

    /** `denali_validator_reward`: credits the reward and records the step. */
    method DenaliValidatorReward(step: ValidatorRewardStep) returns (r: Result<(), Panic>)
      modifies this
      ensures var out := IncreaseValidatorReward(old(world), step.tx.to, step.tx.moaxValue);
        && (out.Ok? ==> r.Ok? && world == out.value && trace == old(trace) + [ValidatorReward(step)])
        && (out.Err? ==> r == Err(out.error) && world == old(world) && trace == old(trace))
    {
      var out := IncreaseValidatorReward(world, step.tx.to, step.tx.moaxValue);
      if out.Err? {
        return Err(out.error);
      }
      world := out.value;
      trace := trace + [ValidatorReward(step)];
      r := Ok(());
    }
  }
}
