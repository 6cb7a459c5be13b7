/** Netting is faithful: whatever the scenario, a deposit or withdrawal moves exactly what the plain
    form "pay the pending reward, then move the stake" would move. */
module Netting {
  import opened Words
  import opened Ledger
  import opened Pool

  function PlainDeposit(l: Tokens, pool: StakePool, caller: Hash32, pending: u256, amount: u256): Result<Tokens> {
    var paid :- l.Transfer(pool.rewardToken, caller, pending);
    paid.TransferFrom(pool.stakingToken, caller, amount)
  }

  function PlainWithdraw(l: Tokens, pool: StakePool, caller: Hash32, pending: u256, amount: u256): Result<Tokens> {
    var paid :- l.Transfer(pool.rewardToken, caller, pending);
    paid.Transfer(pool.stakingToken, caller, amount)
  }

  /** Net amount of `token` that leaves `This` when `pending` is paid and `stakeOut` of the stake leaves. */
  function NetOut(pool: StakePool, token: Hash32, pending: int, stakeOut: int): int {
    (if pool.rewardToken == token then pending else 0) + (if pool.stakingToken == token then stakeOut else 0)
  }

  /** `after` is `before` with `NetOut` moved from `This` to the caller and nothing else moved. */
  ghost predicate Moved(before: Tokens, after: Tokens, pool: StakePool, caller: Hash32, pending: int, stakeOut: int) {
    forall token: Hash32, holder: Holder ::
      after.Balance(token, holder) ==
      before.Balance(token, holder)
      + (if holder == This then -NetOut(pool, token, pending, stakeOut)
         else if holder == Account(caller) then NetOut(pool, token, pending, stakeOut)
         else 0)
  }

  lemma ShiftsCompose(a: Tokens, b: Tokens, c: Tokens, pool: StakePool, caller: Hash32, pending: int, stakeOut: int)
    requires Shifted(a, b, pool.rewardToken, caller, pending)
    requires Shifted(b, c, pool.stakingToken, caller, stakeOut)
    ensures Moved(a, c, pool, caller, pending, stakeOut)
  {
  }

  lemma PlainDepositMoves(l: Tokens, pool: StakePool, caller: Hash32, pending: u256, amount: u256)
    requires PlainDeposit(l, pool, caller, pending, amount).Ok?
    ensures Moved(l, PlainDeposit(l, pool, caller, pending, amount).value, pool, caller, pending, 0 - amount)
  {
    var paid := l.Transfer(pool.rewardToken, caller, pending).value;
    TransferShifts(l, pool.rewardToken, caller, pending);
    TransferFromShifts(paid, pool.stakingToken, caller, amount);
    ShiftsCompose(l, paid, PlainDeposit(l, pool, caller, pending, amount).value, pool, caller, pending, 0 - amount);
  }

  lemma PlainWithdrawMoves(l: Tokens, pool: StakePool, caller: Hash32, pending: u256, amount: u256)
    requires PlainWithdraw(l, pool, caller, pending, amount).Ok?
    ensures Moved(l, PlainWithdraw(l, pool, caller, pending, amount).value, pool, caller, pending, amount)
  {
    var paid := l.Transfer(pool.rewardToken, caller, pending).value;
    TransferShifts(l, pool.rewardToken, caller, pending);
    TransferShifts(paid, pool.stakingToken, caller, amount);
    ShiftsCompose(l, paid, PlainWithdraw(l, pool, caller, pending, amount).value, pool, caller, pending, amount);
  }

  /** The netted deposit moves the pending reward out and the stake in. */
  lemma DepositMoves(l: Tokens, pool: StakePool, caller: Hash32, pending: u256, amount: u256)
    requires DepositCalls(l, pool, caller, pending, amount).Ok?
    ensures Moved(l, DepositCalls(l, pool, caller, pending, amount).value, pool, caller, pending, 0 - amount)
  {
    match GetDepositScenario(pending, amount, pool.rewardToken, pool.stakingToken)
    case NothingPending => TransferFromShifts(l, pool.stakingToken, caller, amount);
    case PendingGreater => TransferShifts(l, pool.stakingToken, caller, pending - amount);
    case PendingLesser => TransferFromShifts(l, pool.stakingToken, caller, amount - pending);
    case ClaimAndDeposit => PlainDepositMoves(l, pool, caller, pending, amount);
  }

  /** The netted withdrawal moves the pending reward and the stake out. */
  lemma WithdrawMoves(l: Tokens, pool: StakePool, caller: Hash32, pending: u256, amount: u256)
    requires WithdrawCalls(l, pool, caller, pending, amount).Ok?
    ensures Moved(l, WithdrawCalls(l, pool, caller, pending, amount).value, pool, caller, pending, amount)
  {
    match GetWithdrawScenario(pending, pool.rewardToken, pool.stakingToken)
    case NothingOwed => TransferShifts(l, pool.stakingToken, caller, amount);
    case EqualTokens => TransferShifts(l, pool.stakingToken, caller, pending + amount);
    case DifferentTokens => PlainWithdrawMoves(l, pool, caller, pending, amount);
  }

  lemma PlainDepositSucceeds(l: Tokens, pool: StakePool, caller: Hash32, pending: u256, amount: u256)
    ensures PlainDeposit(l, pool, caller, pending, amount).Ok? <==>
            && l.Balance(pool.rewardToken, This) >= pending
            && l.Balance(pool.stakingToken, Account(caller)) + (if pool.rewardToken == pool.stakingToken then pending else 0) >= amount
            && l.Allowance(pool.stakingToken, caller) >= amount
  {
  }

  lemma NettedAllowance(l: Tokens, pool: StakePool, caller: Hash32, pending: u256, amount: u256)
    requires DepositCalls(l, pool, caller, pending, amount).Ok?
    ensures DepositCalls(l, pool, caller, pending, amount).value.Allowance(pool.stakingToken, caller) ==
            l.Allowance(pool.stakingToken, caller)
            - if pool.rewardToken != pool.stakingToken then amount else if pending > amount then 0 else amount - pending
  {
  }

  /** The plain deposit goes through exactly when the netted one does and the two full amounts are
      available; then both leave the same balances, and netting draws the smaller allowance. */
  lemma DepositNettingFaithful(l: Tokens, pool: StakePool, caller: Hash32, pending: u256, amount: u256)
    ensures var netted := DepositCalls(l, pool, caller, pending, amount);
            var plain := PlainDeposit(l, pool, caller, pending, amount);
            && (plain.Ok? <==>
                netted.Ok? && l.Balance(pool.rewardToken, This) >= pending && l.Allowance(pool.stakingToken, caller) >= amount)
            && (plain.Ok? ==> SameBalances(netted.value, plain.value))
            && (netted.Ok? ==>
                netted.value.Allowance(pool.stakingToken, caller) ==
                l.Allowance(pool.stakingToken, caller)
                - if pool.rewardToken != pool.stakingToken then amount else if pending > amount then 0 else amount - pending)
  {
    var netted := DepositCalls(l, pool, caller, pending, amount);
    if netted.Ok? {
      DepositMoves(l, pool, caller, pending, amount);
      NettedAllowance(l, pool, caller, pending, amount);
    }
    PlainDepositSucceeds(l, pool, caller, pending, amount);
    if PlainDeposit(l, pool, caller, pending, amount).Ok? {
      PlainDepositMoves(l, pool, caller, pending, amount);
    }
  }

  /** The netted withdrawal goes through exactly when the plain one does and the sum that netting forms for
      equal tokens fits a word; then both leave the same balances. */
  lemma WithdrawNettingFaithful(l: Tokens, pool: StakePool, caller: Hash32, pending: u256, amount: u256)
    ensures var netted := WithdrawCalls(l, pool, caller, pending, amount);
            var plain := PlainWithdraw(l, pool, caller, pending, amount);
            && (netted.Ok? <==> plain.Ok? && !(pool.rewardToken == pool.stakingToken && pending + amount >= TWO_256))
            && (netted.Ok? ==> SameBalances(netted.value, plain.value))
  {
    if l.Balance(pool.rewardToken, This) >= pending {
      TransferShifts(l, pool.rewardToken, caller, pending);
    }
    if WithdrawCalls(l, pool, caller, pending, amount).Ok? {
      WithdrawMoves(l, pool, caller, pending, amount);
    }
    if PlainWithdraw(l, pool, caller, pending, amount).Ok? {
      PlainWithdrawMoves(l, pool, caller, pending, amount);
    }
  }
}
