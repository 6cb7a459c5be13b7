/** The staking records, and which token calls a deposit or a withdrawal makes. */
module Pool {
  import opened Words
  import opened Ledger

  datatype UserInfo = UserInfo(amount: u256, debt: u256)

  datatype StakePool = StakePool(
    id: u64,
    last: u64,
    stakingToken: Hash32,
    rewardToken: Hash32,
    start: u64,
    end: u64,
    precision: u64,
    owner: Hash32,
    totalReward: u256,
    acc: u256,
    totalStaked: u256
  )

  datatype DepositScenario = NothingPending | PendingGreater | PendingLesser | ClaimAndDeposit

  datatype WithdrawScenario = NothingOwed | EqualTokens | DifferentTokens

  function GetDepositScenario(pending: u256, amount: u256, rewardToken: Hash32, stakingToken: Hash32): DepositScenario {
    if pending == 0 then NothingPending
    else if pending > amount && rewardToken == stakingToken then PendingGreater
    else if !(pending > amount) && rewardToken == stakingToken then PendingLesser
    else ClaimAndDeposit
  }

  function GetWithdrawScenario(pending: u256, rewardToken: Hash32, stakingToken: Hash32): WithdrawScenario {
    if pending == 0 then NothingOwed
    else if rewardToken == stakingToken then EqualTokens
    else DifferentTokens
  }

  /** The token calls of a deposit by a user who already has stake. */
  function DepositCalls(l: Tokens, pool: StakePool, caller: Hash32, pending: u256, amount: u256): Result<Tokens> {
    match GetDepositScenario(pending, amount, pool.rewardToken, pool.stakingToken)
    case NothingPending => l.TransferFrom(pool.stakingToken, caller, amount)
    case PendingGreater => l.Transfer(pool.stakingToken, caller, pending - amount)
    case PendingLesser => l.TransferFrom(pool.stakingToken, caller, amount - pending)
    case ClaimAndDeposit =>
      var paid :- l.Transfer(pool.rewardToken, caller, pending);
      paid.TransferFrom(pool.stakingToken, caller, amount)
  }

  /** The token calls of a withdrawal. */
  function WithdrawCalls(l: Tokens, pool: StakePool, caller: Hash32, pending: u256, amount: u256): Result<Tokens> {
    match GetWithdrawScenario(pending, pool.rewardToken, pool.stakingToken)
    case NothingOwed => l.Transfer(pool.stakingToken, caller, amount)
    case EqualTokens =>
      var both :- Add256(pending, amount);
      l.Transfer(pool.stakingToken, caller, both)
    case DifferentTokens =>
      var paid :- l.Transfer(pool.rewardToken, caller, pending);
      paid.Transfer(pool.stakingToken, caller, amount)
  }
}
