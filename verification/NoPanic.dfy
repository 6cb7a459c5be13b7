/** The 256-bit guards are redundant: within the stated size of a pool no arithmetic panics. */
module NoPanic {
  import opened Words
  import opened Arith
  import opened Ledger
  import opened Pool
  import opened StakeModel
  import opened StakeHistory
  import opened PoolBooks
  import opened StakeRuns
  import opened StakeTheorems
  import opened UpdateSplitting

  /** `staked` of stake, the total reward and the precision fit a word together. */
  predicate Sized(pool: StakePool, staked: nat) {
    && staked * (pool.totalReward * Scale(pool)) < TWO_256
    && pool.totalReward * TWO_64 < TWO_256
  }

  lemma SizedBelow(staked: nat, r: nat, p: nat, a: nat, x: nat)
    requires staked * (r * p) < TWO_256
    requires a <= staked && x <= r * p
    ensures a * x < TWO_256
  {
    MulMono(a, staked, x);
    MulMono(x, r * p, staked);
  }

  /** The one case in which an update divides by zero: an accrual of a pool whose start and end agree. */
  predicate Stuck(pool: StakePool, now: u64) {
    Accrues(pool, now) && pool.start == pool.end
  }

  /** The accumulator after an accrual is within the scaled total reward. */
  lemma AccruedWithin(pool: StakePool, us: map<UserKey, UserInfo>, t: Tally, clock: u64, now: u64)
    requires PoolInv(pool, us, t, clock) && Accrues(pool, now) && !Stuck(pool, now)
    ensures IntervalReward(pool, now) <= pool.totalReward
    ensures pool.acc + MulDiv(IntervalReward(pool, now), Scale(pool), pool.totalStaked) <= pool.totalReward * Scale(pool)
  {
    hide Balanced, AllMarked, MulDiv, Pow10, Emitted, IntervalReward, Unlocked;
    var pool' := pool.(last := now);
    var t' := ObserveUpdate(t, pool, now);
    var p := Scale(pool);
    UpdateKeepsEmission(pool, pool', t, now);
    EmittedWithin(pool', t');
    LogGrows(t.log, Accrual(IntervalReward(pool, now), pool.totalStaked), p);
    AccOfBound(t'.log, p);
    MulMono(Rewards(t'.log), pool.totalReward, p);
  }

  /** A sized update panics only when the pool is stuck. */
  lemma UpdateNeverPanics(pool: StakePool, us: map<UserKey, UserInfo>, t: Tally, clock: u64, now: u64, staked: nat)
    requires PoolInv(pool, us, t, clock)
    requires Sized(pool, staked) && pool.totalStaked <= staked
    ensures UpdatePool(pool, now).Ok? <==> !Stuck(pool, now)
    ensures Stuck(pool, now) ==> UpdatePool(pool, now) == Revert(Panic)
  {
    hide UpdatePool, PoolInv, MulDiv, Pow10, IntervalReward, Unlocked;
    if Stuck(pool, now) {
      NoDuration(pool, now);
    } else if Accrues(pool, now) {
      var p, r, u := Scale(pool), pool.totalReward, Unlocked(pool, now);
      ScaleFits(pool, us, t, clock);
      AccruedWithin(pool, us, t, clock, now);
      IntervalRewardIs(pool, now);
      MulMono(u, TWO_64, r);
      SizedBelow(staked, r, p, 1, r * p);
      MulMono(IntervalReward(pool, now), r, p);
      UpdateSucceeds(pool, now);
    } else {
      NoAccrual(pool, now);
    }
  }

  lemma IntervalRewardIs(pool: StakePool, now: u64)
    requires pool.start != pool.end
    ensures IntervalReward(pool, now) == MulDiv(Unlocked(pool, now), pool.totalReward, Sub64(pool.end, pool.start))
  {
  }

  lemma EarnedFits(pool: StakePool, staked: nat, amount: u256)
    requires Sized(pool, staked) && amount <= staked && pool.totalReward > 0
    requires pool.acc <= pool.totalReward * Scale(pool)
    ensures amount > 0 ==> Scale(pool) < TWO_256
    ensures Scale(pool) < TWO_256 ==> Earned(pool, amount).Ok?
    ensures Earned(pool, amount).Ok? ==> Earned(pool, amount).value <= amount * pool.totalReward
  {
    hide Pow10;
    var p, r := Scale(pool), pool.totalReward;
    SizedBelow(staked, r, p, amount, pool.acc);
    if amount > 0 {
      SizedBelow(staked, r, p, 1, r * p);
      MulMono(1, r, p);
    }
    QuotientWithin(amount * pool.acc, p);
    MulMono(pool.acc, r * p, amount);
    assert amount * pool.acc <= (amount * r) * p;
    if Earned(pool, amount).Ok? {
      EarnedIs(pool, amount);
      MulDivBounds(amount, pool.acc, p);
      MulCancel(MulDiv(amount, pool.acc, p), amount * r, p);
    }
  }

  /** The current pool of a sized deposit or withdrawal is within bounds, unless it is stuck. */
  lemma CurrentWithin(w: World, id: u64, now: u64, staked: nat)
    requires WorldInv(w) && w.clock <= now && id in w.state.pools
    requires Sized(w.state.pools[id], staked) && w.state.pools[id].totalStaked <= staked
    ensures w.state.initialized && id <= w.state.index
    ensures CurrentPool(w.state, now, id) == UpdatePool(w.state.pools[id], now)
    ensures Stuck(w.state.pools[id], now) ==> CurrentPool(w.state, now, id) == Revert(Panic)
    ensures !Stuck(w.state.pools[id], now) ==>
            && CurrentPool(w.state, now, id).Ok?
            && var pool := CurrentPool(w.state, now, id).value;
            && pool == w.state.pools[id].(acc := pool.acc, last := pool.last)
            && pool.totalReward > 0 && Scale(pool) >= 10
            && pool.acc <= pool.totalReward * Scale(pool)
            && PoolInv(pool, UsersOf(w.state.users, id), ObserveUpdate(w.tallies[id], w.state.pools[id], now), now)
  {
    hide UpdatePool, PoolInv, MulDiv, Pow10, ObserveUpdate, UsersOf, Stuck;
    assert PoolOk(w, id);
    var stored, us, t := w.state.pools[id], UsersOf(w.state.users, id), w.tallies[id];
    UpdateNeverPanics(stored, us, t, w.clock, now, staked);
    if !Stuck(stored, now) {
      UpdateKeeps(stored, us, t, w.clock, now);
      UpdateKeepsTerms(stored, now);
      var pool := UpdatePool(stored, now).value;
      ScaleFits(pool, us, ObserveUpdate(t, stored, now), now);
      PoolEmissionBound(pool, us, ObserveUpdate(t, stored, now), now);
    }
  }

  /** What a settlement of `user` pays; nothing on a first deposit. */
  function Owed(pool: StakePool, user: UserInfo): int {
    if user.amount == 0 then 0 else Pending(pool, user)
  }

  /** A sized deposit is refused only by a stuck pool, for its lateness, or by the tokens. */
  lemma DepositNeverPanics(w: World, e: Event, id: u64, amount: u256)
    requires WorldInv(w) && w.clock <= e.now
    requires e.call == Deposit(amount, id) && amount > 0
    requires id in w.state.pools
    requires Sized(w.state.pools[id], w.state.pools[id].totalStaked + amount)
    ensures var stored := w.state.pools[id];
            && (Stuck(stored, e.now) ==> Respond(w.state, e) == Revert(Panic))
            && (!Stuck(stored, e.now) && stored.end < e.now ==> Respond(w.state, e) == Revert(InvalidArgument))
            && (!Stuck(stored, e.now) && e.now <= stored.end ==>
                  && CurrentPool(w.state, e.now, id).Ok?
                  && var pool, user := CurrentPool(w.state, e.now, id).value, UserOf(w.state, e.caller, id);
                  && 0 <= Owed(pool, user) < TWO_256
                  && var calls := DepositCalls(w.state.tokens, pool, e.caller, Owed(pool, user), amount);
                  && (Respond(w.state, e).Ok? <==> calls.Ok?)
                  && (calls.Revert? ==> Respond(w.state, e) == Revert(TokenFailure)))
  {
    hide UpdatePool, PoolInv, MulDiv, Pow10, Sized, Earned, PoolOk, Stuck, DepositCalls;
    var s, staked := w.state, w.state.pools[id].totalStaked + amount;
    CurrentWithin(w, id, e.now, staked);
    if !Stuck(s.pools[id], e.now) {
      var pool, us, key := CurrentPool(s, e.now, id).value, UsersOf(s.users, id), KeyOf(e.caller, id);
      assert Sized(pool, staked) by { SameSize(s.pools[id], pool, staked); }
      RecordIs(s, e.caller, id);
      UserFacts(pool, us, ObserveUpdate(w.tallies[id], s.pools[id], e.now), e.now, key);
      var user := UserOf(s, e.caller, id);
      SizedStake(pool, staked);
      EarnedFits(pool, staked, user.amount + amount);
      EarnedFits(pool, staked, user.amount);
      EarnedIs(pool, user.amount);
      ZeroShare(pool.acc, Scale(pool));
      DepositCallsFailure(s.tokens, pool, e.caller, Owed(pool, user), amount);
    }
  }

  lemma SameSize(pool: StakePool, pool': StakePool, staked: nat)
    requires Sized(pool, staked) && pool' == pool.(acc := pool'.acc, last := pool'.last)
    ensures Sized(pool', staked)
  {
  }

  lemma SizedStake(pool: StakePool, staked: nat)
    requires Sized(pool, staked) && pool.totalReward > 0
    ensures staked < TWO_256
  {
    hide Pow10;
    MulMono(1, pool.totalReward, Scale(pool));
    SizedBelow(staked, pool.totalReward, Scale(pool), staked, 1);
  }

  lemma DepositCallsFailure(l: Tokens, pool: StakePool, caller: Hash32, pending: u256, amount: u256)
    ensures DepositCalls(l, pool, caller, pending, amount).Revert? ==> DepositCalls(l, pool, caller, pending, amount).error == TokenFailure
  {
  }

  /** The contract holds what a withdrawal hands out. */
  predicate Payable(l: Tokens, pool: StakePool, pending: nat, amount: nat) {
    if pool.rewardToken == pool.stakingToken then l.Balance(pool.stakingToken, This) >= pending + amount
    else l.Balance(pool.rewardToken, This) >= pending && l.Balance(pool.stakingToken, This) >= amount
  }

  lemma WithdrawCallsExactly(l: Tokens, pool: StakePool, caller: Hash32, pending: u256, amount: u256)
    requires pending + amount < TWO_256
    ensures WithdrawCalls(l, pool, caller, pending, amount).Ok? <==> Payable(l, pool, pending, amount)
    ensures WithdrawCalls(l, pool, caller, pending, amount).Revert? ==> WithdrawCalls(l, pool, caller, pending, amount).error == TokenFailure
  {
  }

  /** A sized withdrawal within the caller's stake goes through exactly when the pool is not stuck and the
      contract holds the tokens. */
  lemma WithdrawNeverPanics(w: World, e: Event, id: u64, amount: u256)
    requires WorldInv(w) && w.clock <= e.now
    requires e.call == Withdraw(amount, id) && 0 < amount <= UserOf(w.state, e.caller, id).amount
    requires id in w.state.pools
    requires Sized(w.state.pools[id], w.state.pools[id].totalStaked)
    ensures var stored := w.state.pools[id];
            && (Stuck(stored, e.now) ==> Respond(w.state, e) == Revert(Panic))
            && (!Stuck(stored, e.now) ==>
                  && CurrentPool(w.state, e.now, id).Ok?
                  && var pool, user := CurrentPool(w.state, e.now, id).value, UserOf(w.state, e.caller, id);
                  && Pending(pool, user) >= 0
                  && (Respond(w.state, e).Ok? <==> Payable(w.state.tokens, pool, Pending(pool, user), amount))
                  && (Respond(w.state, e).Revert? ==> Respond(w.state, e) == Revert(TokenFailure)))
  {
    hide UpdatePool, PoolInv, MulDiv, Pow10, Sized, Earned, PoolOk, Stuck, WithdrawCalls, Payable;
    var s, staked := w.state, w.state.pools[id].totalStaked;
    CurrentWithin(w, id, e.now, staked);
    if !Stuck(s.pools[id], e.now) {
      var pool, us, key := CurrentPool(s, e.now, id).value, UsersOf(s.users, id), KeyOf(e.caller, id);
      assert Sized(pool, staked) by { SameSize(s.pools[id], pool, staked); }
      RecordIs(s, e.caller, id);
      UserFacts(pool, us, ObserveUpdate(w.tallies[id], s.pools[id], e.now), e.now, key);
      var user := UserOf(s, e.caller, id);
      EarnedFits(pool, staked, user.amount);
      EarnedFits(pool, staked, user.amount - amount);
      EarnedIs(pool, user.amount);
      PayoutFits(pool, staked, user.amount);
      WithdrawCallsExactly(s.tokens, pool, e.caller, Pending(pool, user), amount);
    }
  }

  lemma PayoutFits(pool: StakePool, staked: nat, a: nat)
    requires Sized(pool, staked) && a <= staked && pool.totalReward > 0 && Scale(pool) >= 10
    ensures a * pool.totalReward + a < TWO_256
  {
    hide Pow10;
    var r, p := pool.totalReward, Scale(pool);
    MulMono(2, p, r);
    SizedBelow(staked, r, p, a, r + 1);
    assert a * (r + 1) == a * r + a;
  }
}
