/** What every entry point of the staking contract does, to whom, and exactly when it goes through. */
module StakeEffects {
  import opened Words
  import opened Arith
  import opened Ledger
  import opened Pool
  import opened Netting
  import opened StakeModel
  import opened StakeHistory
  import opened PoolBooks
  import opened StakeRuns
  import opened StorageKeys
  import opened TokenConservation
  import opened NoPanic
  import opened StopTheorems

  /** Besides the ledger, the users and the counter, at most the pool `id` changed. */
  ghost predicate OnlyPool(s: State, s': State, id: u64) {
    && id in s'.pools && s'.pools == s.pools[id := s'.pools[id]]
    && s'.admin == s.admin && s'.initialized == s.initialized
  }

  // ----- init and administration -----

  lemma InitExactly(s: State, e: Event)
    requires e.call.Init?
    ensures Respond(s, e) ==
            if s.initialized then Revert(PermissionDenied)
            else Ok(State(map[], map[], 0, s.admin, true, s.tokens))
  {
  }

  /** Only the admin can take tokens out or name another admin, and gets exactly the amount. */
  lemma AdminExactly(s: State, e: Event)
    requires e.call.SaveMe? || e.call.SetAdmin?
    ensures Respond(s, e).Ok? <==>
            e.caller == s.admin && (e.call.SaveMe? ==> s.tokens.Balance(e.call.token, This) >= e.call.amount)
    ensures e.caller != s.admin ==> Respond(s, e) == Revert(InvalidPurse)
    ensures Respond(s, e).Ok? ==>
              var s' := Respond(s, e).value;
              && s'.pools == s.pools && s'.users == s.users && s'.index == s.index && s'.initialized == s.initialized
              && s'.admin == (if e.call.SetAdmin? then e.call.account else s.admin)
              && s'.tokens.allowances == s.tokens.allowances
              && if e.call.SaveMe? then Shifted(s.tokens, s'.tokens, e.call.token, e.caller, e.call.amount)
                 else s'.tokens == s.tokens
  {
    if e.call.SaveMe? && s.tokens.Transfer(e.call.token, e.caller, e.call.amount).Ok? {
      TransferShifts(s.tokens, e.call.token, e.caller, e.call.amount);
    }
  }

  /** Reading: a pool that was made can be read, a missing record reads as empty, and every other id is refused with
      the error for the reason. */
  lemma AccessExactly(s: State, caller: Hash32, id: u64)
    ensures s.initialized && id <= s.index && id in s.pools ==> GetPool(s, id) == Ok(s.pools[id])
    ensures s.initialized && id <= s.index && id !in s.pools ==> GetPool(s, id) == Revert(User(7))
    ensures s.initialized && id <= s.index ==> GetUserInfo(s, caller, id) == Ok(RecordOf(s.users, KeyOf(caller, id)))
    ensures s.initialized && s.index < id ==> GetPool(s, id) == Revert(InvalidArgument) && GetUserInfo(s, caller, id) == Revert(InvalidArgument)
    ensures !s.initialized ==> GetPool(s, id) == Revert(MissingKey) && GetUserInfo(s, caller, id) == Revert(MissingKey)
  {
    hide TagOf;
  }

  // ----- add_pool -----

  /** When a pool can be made: neither start nor end in the past, some reward, a precision from 18 to 36, and the
      caller holds the reward and lets the contract draw it. */
  lemma AddPoolExactly(s: State, e: Event)
    requires e.call.AddPool?
    ensures var c := e.call;
            && (Respond(s, e).Ok? <==>
                && e.now <= c.start && e.now <= c.end && c.totalReward > 0 && 18 <= c.precision <= 36 && s.initialized
                && s.tokens.Balance(c.rewardToken, Account(e.caller)) >= c.totalReward
                && s.tokens.Allowance(c.rewardToken, e.caller) >= c.totalReward)
            && (c.start < e.now || c.end < e.now || c.totalReward == 0 || !(18 <= c.precision <= 36) ==>
                  Respond(s, e) == Revert(InvalidArgument))
  {
  }

  /** A new pool is the one asked for, belongs to the caller, and is paid by the caller; nothing else changes. */
  lemma AddPoolEffect(w: World, e: Event)
    requires w.state.index + 1 < TWO_64
    requires e.call.AddPool? && Respond(w.state, e).Ok?
    ensures var s, s', c, id := w.state, Exec(w, e).state, e.call, w.state.index;
            && OnlyPool(s, s', id) && s'.users == s.users && s'.index == id + 1
            && s'.pools[id] == StakePool(id, 0, c.stakingToken, c.rewardToken, c.start, c.end, c.precision, e.caller, c.totalReward, 0, 0)
            && Shifted(s.tokens, s'.tokens, c.rewardToken, e.caller, 0 - c.totalReward)
            && Drawn(s.tokens, s'.tokens, c.rewardToken, e.caller, c.totalReward)
  {
    hide Tokens.TransferFrom, Shifted, Drawn;
    TransferFromShifts(w.state.tokens, e.call.rewardToken, e.caller, e.call.totalReward);
  }

  // ----- deposit -----

  predicate DepositFits(pool: StakePool, user: UserInfo, amount: u256) {
    && user.amount + amount < TWO_256 && pool.totalStaked + amount < TWO_256
    && (user.amount + amount) * pool.acc < TWO_256
  }

  /** The balances and the allowance that the netted deposit needs. */
  predicate DepositPayable(l: Tokens, pool: StakePool, caller: Hash32, pending: nat, amount: nat) {
    if pool.rewardToken == pool.stakingToken && pending > amount then l.Balance(pool.stakingToken, This) >= pending - amount
    else
      var drawn := if pool.rewardToken == pool.stakingToken then amount - pending else amount;
      && (pool.rewardToken == pool.stakingToken || l.Balance(pool.rewardToken, This) >= pending)
      && l.Balance(pool.stakingToken, Account(caller)) >= drawn
      && l.Allowance(pool.stakingToken, caller) >= drawn
  }

  lemma DepositCallsExactly(l: Tokens, pool: StakePool, caller: Hash32, pending: u256, amount: u256)
    ensures DepositCalls(l, pool, caller, pending, amount).Ok? <==> DepositPayable(l, pool, caller, pending, amount)
  {
  }

  lemma DepositDraws(l: Tokens, pool: StakePool, caller: Hash32, pending: u256, amount: u256)
    requires DepositCalls(l, pool, caller, pending, amount).Ok?
    ensures Drawn(l, DepositCalls(l, pool, caller, pending, amount).value, pool.stakingToken, caller,
                  if pool.rewardToken != pool.stakingToken then amount else if pending > amount then 0 else amount - pending)
  {
  }

  lemma KnownPool(w: World, id: u64)
    requires WorldInv(w) && id in w.state.pools
    ensures w.state.initialized && id <= w.state.index
  {
    hide PoolOk;
  }

  lemma EarnedExactly(pool: StakePool, amount: nat)
    requires amount < TWO_256 && Scale(pool) < TWO_256
    ensures Earned(pool, amount).Ok? <==> amount * pool.acc < TWO_256
    ensures Earned(pool, amount).Ok? ==> Earned(pool, amount).value == MulDiv(amount, pool.acc, Scale(pool))
  {
    hide Pow10;
    GainBound(amount, pool.acc, Scale(pool));
  }

  /** The pool that a call at `now` works on, with its invariant. */
  lemma CurrentFacts(w: World, now: u64, caller: Hash32, id: u64)
    requires WorldInv(w) && w.clock <= now && id in w.state.pools
    ensures CurrentPool(w.state, now, id) == UpdatePool(w.state.pools[id], now)
    ensures UpdatePool(w.state.pools[id], now).Ok? ==>
              var pool, user := UpdatePool(w.state.pools[id], now).value, UserOf(w.state, caller, id);
              && 10 <= Scale(pool) < TWO_256
              && user.amount <= pool.totalStaked && Pending(pool, user) >= 0
              && (user.amount == 0 ==> user.debt == 0 && Pending(pool, user) == 0)
              && GetUserInfo(w.state, caller, id) == Ok(user)
              && pool == w.state.pools[id].(acc := pool.acc, last := pool.last)
  {
    hide PoolInv, UpdatePool, ObserveUpdate, UsersOf, TagOf, MulDiv, Pow10;
    KnownPool(w, id);
    assert PoolOk(w, id);
    if UpdatePool(w.state.pools[id], now).Ok? {
      var pool, us, t := UpdatePool(w.state.pools[id], now).value, UsersOf(w.state.users, id), ObserveUpdate(w.tallies[id], w.state.pools[id], now);
      UpdateKeeps(w.state.pools[id], us, w.tallies[id], w.clock, now);
      UpdateKeepsTerms(w.state.pools[id], now);
      RecordIs(w.state, caller, id);
      UserFacts(pool, us, t, now, KeyOf(caller, id));
      ScaleFits(pool, us, t, now);
      ZeroShare(pool.acc, Scale(pool));
    }
  }

  /** When a deposit goes through: some amount, a pool that can be brought up to date and has not ended, numbers
      that fit a word, and the tokens that the netted transfer needs. */
  lemma DepositExactly(w: World, e: Event)
    requires WorldInv(w) && w.clock <= e.now && e.call.Deposit?
    ensures e.call.amount == 0 ==> Respond(w.state, e) == Revert(InvalidArgument)
    ensures e.call.amount > 0 && e.call.id !in w.state.pools ==> Respond(w.state, e) == Revert(GetPool(w.state, e.call.id).error)
    ensures e.call.amount > 0 && e.call.id in w.state.pools && UpdatePool(w.state.pools[e.call.id], e.now).Revert? ==> Respond(w.state, e) == Revert(Panic)
    ensures e.call.id in w.state.pools && UpdatePool(w.state.pools[e.call.id], e.now).Ok? ==>
              var pool, user := UpdatePool(w.state.pools[e.call.id], e.now).value, UserOf(w.state, e.caller, e.call.id);
              && Pending(pool, user) >= 0
              && (Respond(w.state, e).Ok? <==>
                  && e.call.amount > 0 && e.now <= pool.end && DepositFits(pool, user, e.call.amount)
                  && DepositPayable(w.state.tokens, pool, e.caller, Pending(pool, user), e.call.amount))
              && (e.call.amount > 0 && pool.end < e.now ==> Respond(w.state, e) == Revert(InvalidArgument))
  {
    hide PoolOk, UpdatePool, Earned, DepositCalls, DepositPayable, Pow10, UserOf;
    var s, id, amount := w.state, e.call.id, e.call.amount;
    AccessExactly(s, e.caller, id);
    if id in s.pools {
      OnlyPanics(s.pools[id], e.now);
      CurrentFacts(w, e.now, e.caller, id);
      if UpdatePool(s.pools[id], e.now).Ok? {
        var pool, user := UpdatePool(s.pools[id], e.now).value, UserOf(s, e.caller, id);
        if user.amount + amount < TWO_256 {
          MulMono(user.amount, user.amount + amount, pool.acc);
          EarnedExactly(pool, user.amount);
          EarnedExactly(pool, user.amount + amount);
          if Earned(pool, user.amount).Ok? {
            DepositCallsExactly(s.tokens, pool, e.caller, Pending(pool, user), amount);
          }
        }
      }
    }
  }

  /** A deposit adds the amount to the caller's stake and the pool's, resets the debt, pays the caller what was
      pending and takes the amount from the caller; nothing else changes. */
  lemma DepositEffect(w: World, e: Event)
    requires WorldInv(w) && w.clock <= e.now
    requires e.call.Deposit? && Respond(w.state, e).Ok?
    ensures e.call.id in w.state.pools && UpdatePool(w.state.pools[e.call.id], e.now).Ok? && e.call.id in w.tallies && e.call.id in Exec(w, e).tallies
    ensures var s, s', id, amount := w.state, Exec(w, e).state, e.call.id, e.call.amount;
            var pool, user := UpdatePool(s.pools[id], e.now).value, UserOf(s, e.caller, id);
            var user' := UserOf(s', e.caller, id);
            && OnlyPool(s, s', id) && s'.index == s.index && s'.users == s.users[KeyOf(e.caller, id) := user']
            && s'.pools[id] == pool.(totalStaked := s'.pools[id].totalStaked) && s'.pools[id].totalStaked == pool.totalStaked + amount
            && user'.amount == user.amount + amount && user'.debt == MulDiv(user'.amount, pool.acc, Scale(pool))
            && Exec(w, e).tallies[id].paid - w.tallies[id].paid == Pending(pool, user)
            && Moved(s.tokens, s'.tokens, s.pools[id], e.caller, Pending(pool, user), 0 - amount)
            && Drawn(s.tokens, s'.tokens, pool.stakingToken, e.caller,
                     if pool.rewardToken != pool.stakingToken then amount
                     else if Pending(pool, user) > amount then 0 else amount - Pending(pool, user))
  {
    hide PoolOk, UpdatePool, Earned, DepositCalls, Moved, Drawn, Pow10, MulDiv, ObserveUpdate, Pending, TagOf;
    var s, id := w.state, e.call.id;
    DepositPays(w, e, id);
    DepositDid(s, e.now, e.caller, e.call.amount, id);
    CurrentFacts(w, e.now, e.caller, id);
    var pool, user := UpdatePool(s.pools[id], e.now).value, UserOf(s, e.caller, id);
    ObserveUpdateMoney(w.tallies[id], s.pools[id], e.now);
    EarnedIs(pool, user.amount + e.call.amount);
    DepositDraws(s.tokens, pool, e.caller, Pending(pool, user), e.call.amount);
  }

  // ----- withdraw -----

  lemma WithdrawDraws(l: Tokens, pool: StakePool, caller: Hash32, pending: u256, amount: u256)
    requires WithdrawCalls(l, pool, caller, pending, amount).Ok?
    ensures WithdrawCalls(l, pool, caller, pending, amount).value.allowances == l.allowances
  {
  }

  lemma WithdrawCallsPay(l: Tokens, pool: StakePool, caller: Hash32, pending: u256, amount: u256)
    ensures WithdrawCalls(l, pool, caller, pending, amount).Ok? <==>
            Payable(l, pool, pending, amount) && (pool.rewardToken == pool.stakingToken ==> pending + amount < TWO_256)
  {
  }

  /** When a withdrawal goes through: some amount within the caller's stake, a pool that can be brought up to date,
      a product that fits a word, and the tokens in the contract. */
  lemma WithdrawExactly(w: World, e: Event)
    requires WorldInv(w) && w.clock <= e.now && e.call.Withdraw?
    ensures e.call.amount == 0 ==> Respond(w.state, e) == Revert(InvalidArgument)
    ensures e.call.amount > 0 && e.call.id !in w.state.pools ==> Respond(w.state, e) == Revert(GetPool(w.state, e.call.id).error)
    ensures e.call.amount > 0 && e.call.id in w.state.pools && UpdatePool(w.state.pools[e.call.id], e.now).Revert? ==> Respond(w.state, e) == Revert(Panic)
    ensures e.call.id in w.state.pools && UpdatePool(w.state.pools[e.call.id], e.now).Ok? ==>
              var pool, user := UpdatePool(w.state.pools[e.call.id], e.now).value, UserOf(w.state, e.caller, e.call.id);
              && Pending(pool, user) >= 0
              && (Respond(w.state, e).Ok? <==>
                  && 0 < e.call.amount <= user.amount && user.amount * pool.acc < TWO_256
                  && Payable(w.state.tokens, pool, Pending(pool, user), e.call.amount)
                  && (pool.rewardToken == pool.stakingToken ==> Pending(pool, user) + e.call.amount < TWO_256))
              && (user.amount == 0 ==> Respond(w.state, e) == Revert(InvalidArgument))
  {
    hide PoolOk, UpdatePool, Earned, WithdrawCalls, Payable, Pow10, UserOf;
    var s, id, amount := w.state, e.call.id, e.call.amount;
    AccessExactly(s, e.caller, id);
    if id in s.pools {
      OnlyPanics(s.pools[id], e.now);
      CurrentFacts(w, e.now, e.caller, id);
      if UpdatePool(s.pools[id], e.now).Ok? {
        var pool, user := UpdatePool(s.pools[id], e.now).value, UserOf(s, e.caller, id);
        EarnedExactly(pool, user.amount);
        if amount <= user.amount && Earned(pool, user.amount).Ok? {
          MulMono(user.amount - amount, user.amount, pool.acc);
          EarnedExactly(pool, user.amount - amount);
          WithdrawCallsPay(s.tokens, pool, e.caller, Pending(pool, user), amount);
        }
      }
    }
  }

  /** A withdrawal takes the amount from the caller's stake and the pool's, resets the debt, and pays the caller the
      amount and what was pending; nothing else changes. */
  lemma WithdrawEffect(w: World, e: Event)
    requires WorldInv(w) && w.clock <= e.now
    requires e.call.Withdraw? && Respond(w.state, e).Ok?
    ensures e.call.id in w.state.pools && UpdatePool(w.state.pools[e.call.id], e.now).Ok? && e.call.id in w.tallies && e.call.id in Exec(w, e).tallies
    ensures var s, s', id, amount := w.state, Exec(w, e).state, e.call.id, e.call.amount;
            var pool, user := UpdatePool(s.pools[id], e.now).value, UserOf(s, e.caller, id);
            var user' := UserOf(s', e.caller, id);
            && OnlyPool(s, s', id) && s'.index == s.index && s'.users == s.users[KeyOf(e.caller, id) := user']
            && s'.pools[id] == pool.(totalStaked := s'.pools[id].totalStaked) && s'.pools[id].totalStaked == pool.totalStaked - amount
            && user'.amount == user.amount - amount && user'.debt == MulDiv(user'.amount, pool.acc, Scale(pool))
            && Exec(w, e).tallies[id].paid - w.tallies[id].paid == Pending(pool, user)
            && Moved(s.tokens, s'.tokens, s.pools[id], e.caller, Pending(pool, user), amount)
            && s'.tokens.allowances == s.tokens.allowances
  {
    hide PoolOk, UpdatePool, Earned, WithdrawCalls, Moved, Pow10, MulDiv, ObserveUpdate, Pending, TagOf;
    var s, id := w.state, e.call.id;
    WithdrawPays(w, e, id);
    WithdrawDid(s, e.now, e.caller, e.call.amount, id);
    CurrentFacts(w, e.now, e.caller, id);
    var pool, user := UpdatePool(s.pools[id], e.now).value, UserOf(s, e.caller, id);
    ObserveUpdateMoney(w.tallies[id], s.pools[id], e.now);
    EarnedIs(pool, user.amount - e.call.amount);
    WithdrawDraws(s.tokens, pool, e.caller, Pending(pool, user), e.call.amount);
  }

  // ----- stop_reward -----

  /** The part of the reward that lies after `now`, in proportion to time and rounded down. */
  function Remaining(pool: StakePool, now: u64): nat
    requires pool.start != pool.end
  {
    MulDiv(Sub64(pool.end, Max(now, pool.start)), pool.totalReward, Sub64(pool.end, pool.start))
  }

  lemma RefundExactly(pool: StakePool, now: u64)
    ensures Refund(pool, now).Ok? <==>
            pool.start != pool.end && Sub64(pool.end, Max(now, pool.start)) * pool.totalReward < TWO_256
    ensures Refund(pool, now).Ok? ==> Refund(pool, now).value == Remaining(pool, now)
  {
    if pool.start != pool.end {
      var d := Sub64(pool.end, pool.start);
      assert d > 0;
      GainBound(Sub64(pool.end, Max(now, pool.start)), pool.totalReward, d);
    }
  }

  /** When a stop goes through: for the owner, before the end, of a pool that can be brought up to date, if the
      refund can be computed and the contract holds it in the staking token. */
  lemma StopExactly(w: World, e: Event)
    requires WorldInv(w) && w.clock <= e.now && e.call.StopReward?
    ensures e.call.id !in w.state.pools ==> Respond(w.state, e) == Revert(GetPool(w.state, e.call.id).error)
    ensures e.call.id in w.state.pools && UpdatePool(w.state.pools[e.call.id], e.now).Revert? ==> Respond(w.state, e) == Revert(Panic)
    ensures e.call.id in w.state.pools && UpdatePool(w.state.pools[e.call.id], e.now).Ok? ==>
              var pool := UpdatePool(w.state.pools[e.call.id], e.now).value;
              && (Respond(w.state, e).Ok? <==>
                  && e.caller == pool.owner && e.now < pool.end && pool.start != pool.end
                  && Sub64(pool.end, Max(e.now, pool.start)) * pool.totalReward < TWO_256
                  && w.state.tokens.Balance(pool.stakingToken, This) >= Remaining(pool, e.now))
              && (e.caller != pool.owner ==> Respond(w.state, e) == Revert(InvalidPurse))
              && (e.caller == pool.owner && pool.end <= e.now ==> Respond(w.state, e) == Revert(InvalidArgument))
  {
    hide PoolOk, UpdatePool, Refund, Remaining;
    var s, id := w.state, e.call.id;
    AccessExactly(s, e.caller, id);
    if id in s.pools {
      OnlyPanics(s.pools[id], e.now);
      KnownPool(w, id);
      if UpdatePool(s.pools[id], e.now).Ok? {
        RefundExactly(UpdatePool(s.pools[id], e.now).value, e.now);
      }
    }
  }

  /** A stop ends the pool now and pays the owner the remaining reward in the staking token; nothing else changes. */
  lemma StopEffect(w: World, e: Event)
    requires WorldInv(w) && w.clock <= e.now
    requires e.call.StopReward? && Respond(w.state, e).Ok?
    ensures e.call.id in w.state.pools && UpdatePool(w.state.pools[e.call.id], e.now).Ok? && e.call.id in w.tallies && e.call.id in Exec(w, e).tallies
    ensures UpdatePool(w.state.pools[e.call.id], e.now).value.start != UpdatePool(w.state.pools[e.call.id], e.now).value.end
    ensures var s, s', id := w.state, Exec(w, e).state, e.call.id;
            var pool := UpdatePool(s.pools[id], e.now).value;
            && e.caller == s.pools[id].owner
            && OnlyPool(s, s', id) && s'.index == s.index && s'.users == s.users
            && s'.pools[id] == pool.(end := e.now)
            && Exec(w, e).tallies[id].refund - w.tallies[id].refund == Remaining(pool, e.now)
            && Shifted(s.tokens, s'.tokens, s.pools[id].stakingToken, e.caller, Remaining(pool, e.now))
            && s'.tokens.allowances == s.tokens.allowances
  {
    hide PoolOk, UpdatePool, Refund, Remaining, ObserveUpdate, Shifted;
    var s, id := w.state, e.call.id;
    StopDid(s, e.now, e.caller, id);
    var pool := UpdatePool(s.pools[id], e.now).value;
    UpdateKeepsTerms(s.pools[id], e.now);
    RefundExactly(pool, e.now);
    ObserveUpdateMoney(w.tallies[id], s.pools[id], e.now);
    TransferShifts(s.tokens, pool.stakingToken, e.caller, Refund(pool, e.now).value);
  }

  // ----- emergency_withdraw -----

  /** An emergency withdrawal hands the caller, and nobody else, exactly the caller's stake and empties the record;
      the pool is not brought up to date and nothing else changes. */
  lemma EmergencyEffect(w: World, e: Event)
    requires WorldInv(w) && w.clock <= e.now
    requires e.call.EmergencyWithdraw? && Respond(w.state, e).Ok?
    ensures e.call.id in w.state.pools
    ensures var s, s', id, had := w.state, Exec(w, e).state, e.call.id, UserOf(w.state, e.caller, e.call.id).amount;
            && had > 0
            && OnlyPool(s, s', id) && s'.index == s.index && s'.users == s.users[KeyOf(e.caller, id) := UserInfo(0, 0)]
            && s'.pools[id] == s.pools[id].(totalStaked := s'.pools[id].totalStaked) && s'.pools[id].totalStaked == s.pools[id].totalStaked - had
            && Moved(s.tokens, s'.tokens, s.pools[id], e.caller, 0, had)
            && s'.tokens.allowances == s.tokens.allowances
  {
    hide PoolOk, UpdatePool, Moved, TagOf;
    var s, id := w.state, e.call.id;
    EmergencyDone(s, e.caller, id);
    var had := UserOf(s, e.caller, id).amount;
    TransferMoves(s.tokens, s.pools[id], e.caller, had);
    TransferShifts(s.tokens, s.pools[id].stakingToken, e.caller, had);
  }

  lemma EmergencyDone(s: State, caller: Hash32, id: u64)
    requires EmergencyWithdrawTx(s, caller, id).Ok?
    ensures id in s.pools
    ensures var had := UserOf(s, caller, id).amount;
            && 0 < had <= s.pools[id].totalStaked
            && s.tokens.Transfer(s.pools[id].stakingToken, caller, had).Ok?
            && EmergencyWithdrawTx(s, caller, id).value ==
               UpdateStorage(s.(tokens := s.tokens.Transfer(s.pools[id].stakingToken, caller, had).value), caller, id,
                             s.pools[id].(totalStaked := s.pools[id].totalStaked - had), UserInfo(0, 0))
  {
    hide TagOf;
  }

  // ----- every token of everybody -----

  function Side(holder: Holder, caller: Hash32, amount: int): int {
    if holder == This then 0 - amount else if holder == Account(caller) then amount else 0
  }

  /** What a successful event adds to the balance of `holder`: rewards and refunds as the history records them,
      stakes as the calls name them. */
  function Flow(w: World, e: Event, token: Hash32, holder: Holder): int {
    if Respond(w.state, e).Revert? then 0
    else if e.call.AddPool? && token == e.call.rewardToken then Side(holder, e.caller, 0 - e.call.totalReward)
    else if e.call.SaveMe? && token == e.call.token then Side(holder, e.caller, e.call.amount)
    else if e.call.Drift? && token == e.call.token && holder == e.call.holder then e.call.balance - w.state.tokens.Balance(token, holder)
    else if OnPool(e.call) && e.call.id in w.state.pools && e.call.id in w.tallies && e.call.id in Exec(w, e).tallies then
      var id, t, t' := e.call.id, w.tallies[e.call.id], Exec(w, e).tallies[e.call.id];
      var stakeOut := if e.call.Deposit? then 0 - e.call.amount else if e.call.Withdraw? then e.call.amount
                      else if e.call.EmergencyWithdraw? then UserOf(w.state, e.caller, id).amount else t'.refund - t.refund;
      Side(holder, e.caller, NetOut(w.state.pools[id], token, t'.paid - t.paid, stakeOut))
    else 0
  }

  lemma OutsideFlow(w: World, e: Event, token: Hash32, holder: Holder)
    requires Respond(w.state, e).Revert? || e.call.Init? || e.call.SetAdmin? || e.call.Drift? || e.call.Approve?
    ensures Exec(w, e).state.tokens.Balance(token, holder) == w.state.tokens.Balance(token, holder) + Flow(w, e, token, holder)
  {
    hide DepositTx, WithdrawTx, StopRewardTx, EmergencyWithdrawTx, AddPoolTx, ObserveAll, ObserveExternal;
  }

  lemma MoneyOf(w: World, e: Event)
    requires e.call.StopReward? || e.call.EmergencyWithdraw?
    requires WorldInv(w) && Respond(w.state, e).Ok? && e.call.id in w.state.pools
    ensures e.call.id in w.tallies && e.call.id in Exec(w, e).tallies
    ensures Exec(w, e).tallies[e.call.id].paid == w.tallies[e.call.id].paid
  {
    hide PoolOk, CurrentPool, Refund, Respond;
  }

  lemma FlowStep(w: World, e: Event, token: Hash32, holder: Holder)
    requires WorldInv(w) && w.clock <= e.now && w.state.index + 1 < TWO_64
    ensures Exec(w, e).state.tokens.Balance(token, holder) == w.state.tokens.Balance(token, holder) + Flow(w, e, token, holder)
  {
    hide WorldInv, Exec, Respond, UpdatePool, Drawn, Pending, Remaining, Tokens.Balance;
    if Respond(w.state, e).Revert? {
      OutsideFlow(w, e, token, holder);
    } else if e.call.AddPool? {
      AddPoolEffect(w, e);
    } else if e.call.Deposit? {
      DepositEffect(w, e);
    } else if e.call.Withdraw? {
      WithdrawEffect(w, e);
    } else if e.call.StopReward? {
      StopEffect(w, e);
      MoneyOf(w, e);
    } else if e.call.EmergencyWithdraw? {
      EmergencyEffect(w, e);
      MoneyOf(w, e);
    } else if e.call.SaveMe? {
      AdminExactly(w.state, e);
      SavedState(w, e);
    } else {
      OutsideFlow(w, e, token, holder);
    }
  }

  lemma SavedState(w: World, e: Event)
    requires Respond(w.state, e).Ok?
    ensures Exec(w, e).state == Respond(w.state, e).value
  {
    hide Respond, ObserveAll, ObserveExternal;
  }

  function Flows(w: World, es: seq<Event>, token: Hash32, holder: Holder): int
    decreases |es|
  {
    if es == [] then 0 else Flow(w, es[0], token, holder) + Flows(Exec(w, es[0]), es[1..], token, holder)
  }

  /** Over every run, every balance of every holder is what the calls moved between their callers and the contract,
      rewards and refunds as recorded, and what the outside world did. */
  lemma {:induction false} LedgerOverRuns(w: World, es: seq<Event>, token: Hash32, holder: Holder)
    requires WorldInv(w) && InOrder(w.clock, es) && w.state.index + |es| < TWO_64
    ensures Run(w, es).state.tokens.Balance(token, holder) == w.state.tokens.Balance(token, holder) + Flows(w, es, token, holder)
    decreases |es|
  {
    hide WorldInv, Exec, Flow;
    if es != [] {
      FlowStep(w, es[0], token, holder);
      ExecKeeps(w, es[0]);
      LedgerOverRuns(Exec(w, es[0]), es[1..], token, holder);
    }
  }

  // ----- what a user brought -----

  predicate ActsOn(w: World, e: Event, key: UserKey) {
    OnPool(e.call) && KeyOf(e.caller, e.call.id) == key && Respond(w.state, e).Ok?
  }

  /** What is left of the deposits of `key` after one more event, withdrawals and emergencies taken off. */
  function Brought(w: World, e: Event, key: UserKey, before: int): int {
    if !ActsOn(w, e, key) then before
    else if e.call.Deposit? then before + e.call.amount
    else if e.call.Withdraw? then before - e.call.amount
    else if e.call.EmergencyWithdraw? then 0
    else before
  }

  function BroughtAll(w: World, es: seq<Event>, key: UserKey, before: int): int
    decreases |es|
  {
    if es == [] then before else BroughtAll(Exec(w, es[0]), es[1..], key, Brought(w, es[0], key, before))
  }

  function StakeOf(w: World, key: UserKey): nat {
    RecordOf(w.state.users, key).amount
  }

  lemma OthersStay(w: World, e: Event, key: UserKey)
    requires WorldInv(w) && w.state.index + 1 < TWO_64
    requires Respond(w.state, e).Revert? || !OnPool(e.call) || e.call.StopReward?
    ensures StakeOf(Exec(w, e), key) == StakeOf(w, key)
  {
    hide PoolOk, DepositTx, WithdrawTx, EmergencyWithdrawTx, ObserveAll, CurrentPool, Refund;
  }

  lemma BroughtStep(w: World, e: Event, key: UserKey)
    requires WorldInv(w) && w.clock <= e.now && w.state.index + 1 < TWO_64
    ensures StakeOf(Exec(w, e), key) == Brought(w, e, key, StakeOf(w, key))
  {
    hide WorldInv, Exec, Respond, UpdatePool, Drawn, Pending, Moved, TagOf, MulDiv, OnlyPool;
    if Respond(w.state, e).Revert? || !OnPool(e.call) || e.call.StopReward? {
      OthersStay(w, e, key);
    } else if e.call.Deposit? {
      DepositEffect(w, e);
    } else if e.call.Withdraw? {
      WithdrawEffect(w, e);
    } else {
      EmergencyEffect(w, e);
    }
  }

  /** Over every run, a record's stake is what its deposits brought, less what its withdrawals and emergencies took. */
  lemma {:induction false} StakeIsBrought(w: World, es: seq<Event>, key: UserKey)
    requires WorldInv(w) && InOrder(w.clock, es) && w.state.index + |es| < TWO_64
    ensures StakeOf(Run(w, es), key) == BroughtAll(w, es, key, StakeOf(w, key))
    decreases |es|
  {
    hide WorldInv, Exec, Brought, StakeOf;
    if es != [] {
      BroughtStep(w, es[0], key);
      ExecKeeps(w, es[0]);
      StakeIsBrought(Exec(w, es[0]), es[1..], key);
    }
  }

  /** After every run from deployment, a successful emergency withdrawal moves to its caller, for all tokens and
      holders, exactly what the caller's deposits brought and no withdrawal took. */
  lemma EmergencyReturnsStake(admin: Hash32, es: seq<Event>, e: Event)
    requires InOrder(0, es) && |es| < TWO_64 && Run(Genesis(admin), es).clock <= e.now
    requires e.call.EmergencyWithdraw? && Respond(Run(Genesis(admin), es).state, e).Ok?
    ensures e.call.id in Run(Genesis(admin), es).state.pools
    ensures var w := Run(Genesis(admin), es);
            Moved(w.state.tokens, Exec(w, e).state.tokens, w.state.pools[e.call.id], e.caller, 0,
                  BroughtAll(Genesis(admin), es, KeyOf(e.caller, e.call.id), 0))
  {
    hide WorldInv, Exec, Respond, Run, BroughtAll, Moved, TagOf;
    HoldsAfterEveryRun(admin, es);
    GenesisOk(admin);
    StakeIsBrought(Genesis(admin), es, KeyOf(e.caller, e.call.id));
    EmergencyEffect(Run(Genesis(admin), es), e);
  }

  lemma GenesisOk(admin: Hash32)
    ensures WorldInv(Genesis(admin))
  {
  }
}
