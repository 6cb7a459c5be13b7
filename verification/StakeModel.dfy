/** The staking contract's entry points as functions from state to state.
    A revert carries no state: the caller keeps the old one. */
module StakeModel {
  import opened Words
  import opened Arith
  import opened Ledger
  import opened Pool
  import opened StorageKeys

  /** A user record is stored under the pool id and the part of the caller's hash that goes into keys. */
  datatype UserKey = UserKey(id: u64, tag: Tag)

  function KeyOf(caller: Hash32, id: u64): UserKey {
    UserKey(id, TagOf(caller))
  }

  datatype State = State(
    pools: map<u64, StakePool>,
    users: map<UserKey, UserInfo>,
    index: u64,
    admin: Hash32,
    initialized: bool,
    tokens: Tokens
  )

  function IsIdValid(s: State, id: u64): Result<()> {
    if !s.initialized then Revert(MissingKey)
    else if s.index < id then Revert(InvalidArgument)
    else Ok(())
  }

  function GetPool(s: State, id: u64): Result<StakePool> {
    var _ :- IsIdValid(s, id);
    if id in s.pools then Ok(s.pools[id]) else Revert(User(7))
  }

  function GetUserInfo(s: State, caller: Hash32, id: u64): Result<UserInfo> {
    var _ :- IsIdValid(s, id);
    var key := KeyOf(caller, id);
    Ok(if key in s.users then s.users[key] else UserInfo(0, 0))
  }

  function UpdateStorage(s: State, caller: Hash32, id: u64, pool: StakePool, user: UserInfo): State {
    s.(pools := s.pools[id := pool], users := s.users[KeyOf(caller, id) := user])
  }

  // ----- the accumulator -----

  predicate Accrues(pool: StakePool, now: u64) {
    now > pool.last && pool.totalStaked != 0 && pool.start <= now && pool.last <= pool.end
  }

  predicate SkipsTo(pool: StakePool, now: u64) {
    now > pool.last && (pool.totalStaked == 0 || pool.start > now)
  }

  function Unlocked(pool: StakePool, now: u64): u64 {
    Sub64(Min(now, pool.end), Max(pool.start, pool.last))
  }

  /** The share of the emission that `[last, now]` unlocks, rounded down. */
  function IntervalReward(pool: StakePool, now: u64): nat {
    var duration := Sub64(pool.end, pool.start);
    if duration == 0 then 0 else MulDiv(Unlocked(pool, now), pool.totalReward, duration)
  }

  function UpdatePool(pool: StakePool, now: u64): Result<StakePool> {
    if now <= pool.last then Ok(pool)
    else if pool.totalStaked == 0 || pool.start > now then Ok(pool.(last := now))
    else if pool.last > pool.end then Ok(pool)
    else
      var precision :- TenTo(pool.precision);
      var product :- Mul256(Unlocked(pool, now), pool.totalReward);
      var rewards :- Div256(product, Sub64(pool.end, pool.start));
      var scaled :- Mul256(rewards, precision);
      var gain :- Div256(scaled, pool.totalStaked);
      var acc :- Add256(pool.acc, gain);
      Ok(pool.(acc := acc, last := now))
  }

  /** The up-to-date pool that an entry point works on. */
  function CurrentPool(s: State, now: u64, id: u64): Result<StakePool> {
    var pool :- GetPool(s, id);
    UpdatePool(pool, now)
  }

  /** `floor(amount * acc / 10^precision)`. */
  function Earned(pool: StakePool, amount: u256): Result<u256> {
    var precision :- TenTo(pool.precision);
    var product :- Mul256(amount, pool.acc);
    Div256(product, precision)
  }

  // ----- entry points -----

  /** `init` works once: it creates the dictionaries and the counter that the other entry points need. */
  function InitTx(s: State): Result<State> {
    if s.initialized then Revert(PermissionDenied)
    else Ok(s.(pools := map[], users := map[], index := 0, initialized := true))
  }

  function AddPoolTx(s: State, now: u64, caller: Hash32, stakingToken: Hash32, rewardToken: Hash32,
                     start: u64, end: u64, precision: u64, totalReward: u256): Result<State>
  {
    if start < now || end < now then Revert(InvalidArgument)
    else if totalReward == 0 then Revert(InvalidArgument)
    else if !(18 <= precision <= 36) then Revert(InvalidArgument)
    else if !s.initialized then Revert(NoneError)
    else
      var pool := StakePool(s.index, 0, stakingToken, rewardToken, start, end, precision, caller, totalReward, 0, 0);
      var tokens :- s.tokens.TransferFrom(rewardToken, caller, totalReward);
      Ok(s.(pools := s.pools[s.index := pool], tokens := tokens, index := Add64(s.index, 1)))
  }

  function DepositTx(s: State, now: u64, caller: Hash32, amount: u256, id: u64): Result<State> {
    if amount == 0 then Revert(InvalidArgument)
    else
      var pool :- CurrentPool(s, now, id);
      if pool.end < now then Revert(InvalidArgument)
      else
        var user :- GetUserInfo(s, caller, id);
        var newAmount :- Add256(amount, user.amount);
        var earned :- Earned(pool, user.amount);
        var pending :- Sub256(earned, if user.amount == 0 then 0 else user.debt);
        var staked :- Add256(pool.totalStaked, amount);
        var debt :- Earned(pool, newAmount);
        var tokens :- DepositCalls(s.tokens, pool, caller, pending, amount);
        Ok(UpdateStorage(s.(tokens := tokens), caller, id, pool.(totalStaked := staked), UserInfo(newAmount, debt)))
  }

  function WithdrawTx(s: State, now: u64, caller: Hash32, amount: u256, id: u64): Result<State> {
    if amount == 0 then Revert(InvalidArgument)
    else
      var user :- GetUserInfo(s, caller, id);
      var pool :- CurrentPool(s, now, id);
      if user.amount == 0 then Revert(InvalidArgument)
      else
        var newAmount :- Sub256(user.amount, amount);
        var earned :- Earned(pool, user.amount);
        var pending :- Sub256(earned, user.debt);
        var staked :- Sub256(pool.totalStaked, amount);
        var debt :- Earned(pool, newAmount);
        var tokens :- WithdrawCalls(s.tokens, pool, caller, pending, amount);
        Ok(UpdateStorage(s.(tokens := tokens), caller, id, pool.(totalStaked := staked), UserInfo(newAmount, debt)))
  }

  /** What `stop_reward` hands back to the owner. */
  function Refund(pool: StakePool, now: u64): Result<u256> {
    var product :- Mul256(Sub64(pool.end, Max(now, pool.start)), pool.totalReward);
    Div256(product, Sub64(pool.end, pool.start))
  }

  function StopRewardTx(s: State, now: u64, caller: Hash32, id: u64): Result<State> {
    var pool :- CurrentPool(s, now, id);
    if pool.owner != caller then Revert(InvalidPurse)
    else if pool.end <= now then Revert(InvalidArgument)
    else
      var refund :- Refund(pool, now);
      var tokens :- s.tokens.Transfer(pool.stakingToken, caller, refund);
      Ok(s.(tokens := tokens, pools := s.pools[id := pool.(end := now)]))
  }

  function EmergencyWithdrawTx(s: State, caller: Hash32, id: u64): Result<State> {
    var pool :- GetPool(s, id);
    var user :- GetUserInfo(s, caller, id);
    if user.amount == 0 then Revert(InvalidArgument)
    else
      var staked :- Sub256(pool.totalStaked, user.amount);
      var tokens :- s.tokens.Transfer(pool.stakingToken, caller, user.amount);
      Ok(UpdateStorage(s.(tokens := tokens), caller, id, pool.(totalStaked := staked), UserInfo(0, 0)))
  }

  function SaveMeTx(s: State, caller: Hash32, token: Hash32, amount: u256): Result<State> {
    if caller != s.admin then Revert(InvalidPurse)
    else
      var tokens :- s.tokens.Transfer(token, caller, amount);
      Ok(s.(tokens := tokens))
  }

  function SetAdminTx(s: State, caller: Hash32, account: Hash32): Result<State> {
    if caller != s.admin then Revert(InvalidPurse) else Ok(s.(admin := account))
  }
}
