/** How far the contract's tokens cover what its stakers can take out. */
module StakeCover {
  import opened Words
  import opened Sums
  import opened Ledger
  import opened Pool
  import opened StakeModel
  import opened StakeHistory
  import opened PoolBooks
  import opened StakeRuns
  import opened StakeTheorems
  import opened TokenConservation
  import opened NoPanic

  /** `stop_reward` pays its refund in the staking token. Unless that is the reward token too and the pool still
      holds the reward not shared out, the refund comes out of the stakes. */
  function RefundFromStakes(pool: StakePool, t: Tally, token: Hash32): nat {
    if pool.stakingToken == token && !(Regular(pool) && pool.rewardToken == token) then t.refund else 0
  }

  /** What rounding and refunds can leave short in one pool. */
  function Gap(pool: StakePool, t: Tally, token: Hash32): nat {
    (if pool.rewardToken == token then t.raised else 0) + RefundFromStakes(pool, t, token)
  }

  /** What the users of one pool are owed of `token`: their stakes and their pending rewards. */
  ghost function OwedBy(pool: StakePool, us: map<UserKey, UserInfo>, token: Hash32): int {
    (if pool.stakingToken == token then pool.totalStaked else 0)
    + (if pool.rewardToken == token then Pendings(pool, us) else 0)
  }

  ghost function AllOwed(w: World, token: Hash32, n: nat): int
    requires n < TWO_64
  {
    if n == 0 then 0
    else
      AllOwed(w, token, n - 1)
      + if n - 1 in w.state.pools then OwedBy(w.state.pools[n - 1], UsersOf(w.state.users, n - 1), token) else 0
  }

  ghost function AllGaps(w: World, token: Hash32, n: nat): nat
    requires n < TWO_64
  {
    if n == 0 then 0
    else
      AllGaps(w, token, n - 1)
      + if n - 1 in w.state.pools && n - 1 in w.tallies then Gap(w.state.pools[n - 1], w.tallies[n - 1], token) else 0
  }

  lemma PoolCovered(w: World, id: u64, token: Hash32)
    requires WorldInv(w) && id in w.state.pools
    ensures var pool, t := w.state.pools[id], w.tallies[id];
            PoolHolds(pool, t, token) >= OwedBy(pool, UsersOf(w.state.users, id), token) - Gap(pool, t, token)
  {
    hide PoolOk, Rewards, Liability, Pendings, UsersOf;
    Solvency(w, id);
    EmissionBound(w, id);
  }

  lemma {:induction false} PoolsCover(w: World, token: Hash32, n: nat)
    requires WorldInv(w) && n <= w.state.index
    ensures PoolsHold(w, token, n) >= AllOwed(w, token, n) - AllGaps(w, token, n)
  {
    hide PoolOk, PoolHolds, OwedBy, Gap;
    if n > 0 {
      PoolsCover(w, token, n - 1);
      PoolCovered(w, n - 1, token);
    }
  }

  /** The contract's balance of every token covers all stakes and all pending rewards in it, up to one unit for
      each debt reset that raised a remainder, the refunds that came out of stakes, and what left outside the
      contract's accounting. */
  lemma StakesCovered(w: World, token: Hash32)
    requires WorldInv(w) && Conserved(w, token)
    ensures w.state.tokens.Balance(token, This) >=
            AllOwed(w, token, w.state.index) - AllGaps(w, token, w.state.index) + External(w, token)
  {
    hide WorldInv, PoolsHold, AllOwed, AllGaps, External;
    PoolsCover(w, token, w.state.index);
  }

  /** An emergency withdrawal depends on one thing: the contract's balance of the staking token. */
  lemma EmergencyGoesThrough(w: World, e: Event, id: u64)
    requires WorldInv(w) && w.clock <= e.now
    requires e.call == EmergencyWithdraw(id) && id in w.state.pools
    ensures var stake, held := UserOf(w.state, e.caller, id).amount, w.state.tokens.Balance(w.state.pools[id].stakingToken, This);
            && (Respond(w.state, e).Ok? <==> stake > 0 && held >= stake)
            && (stake == 0 ==> Respond(w.state, e) == Revert(InvalidArgument))
            && (stake > 0 && held < stake ==> Respond(w.state, e) == Revert(TokenFailure))
  {
    hide PoolInv, UsersOf;
    assert PoolOk(w, id);
    RecordIs(w.state, e.caller, id);
    UserFacts(w.state.pools[id], UsersOf(w.state.users, id), w.tallies[id], w.clock, KeyOf(e.caller, id));
  }

  lemma OwedNonNegative(w: World, id: u64, token: Hash32)
    requires WorldInv(w) && id in w.state.pools
    ensures OwedBy(w.state.pools[id], UsersOf(w.state.users, id), token) >=
            if w.state.pools[id].stakingToken == token then w.state.pools[id].totalStaked else 0
  {
    hide PoolInv;
    assert PoolOk(w, id);
    var pool, us := w.state.pools[id], UsersOf(w.state.users, id);
    forall key | key in us
      ensures Pending(pool, us[key]) >= 0
    {
      UserFacts(pool, us, w.tallies[id], w.clock, key);
    }
    SumNonNegative(us, user => Pending(pool, user));
  }

  /** What one pool owes is part of what all pools owe. */
  lemma {:induction false} OneOwed(w: World, id: u64, token: Hash32, n: nat)
    requires WorldInv(w) && id in w.state.pools && n <= w.state.index
    ensures AllOwed(w, token, n) >= if id < n then OwedBy(w.state.pools[id], UsersOf(w.state.users, id), token) else 0
  {
    hide PoolOk, OwedBy, UsersOf;
    if n > 0 {
      OneOwed(w, id, token, n - 1);
      OwedNonNegative(w, n - 1, token);
    }
  }

  /** So every staker can leave by emergency as long as what came from outside makes up for the gaps; in
      particular when no refund came out of stakes of that token and no settlement raised a remainder. */
  lemma EmergencyCovered(w: World, e: Event, id: u64)
    requires WorldInv(w) && w.clock <= e.now
    requires e.call == EmergencyWithdraw(id) && id in w.state.pools && UserOf(w.state, e.caller, id).amount > 0
    requires var token := w.state.pools[id].stakingToken;
             Conserved(w, token) && External(w, token) >= AllGaps(w, token, w.state.index)
    ensures Respond(w.state, e).Ok?
  {
    hide PoolOk, UsersOf, AllOwed, AllGaps, OwedBy, Conserved, External;
    var token := w.state.pools[id].stakingToken;
    EmergencyGoesThrough(w, e, id);
    StakesCovered(w, token);
    OneOwed(w, id, token, w.state.index);
    OwedNonNegative(w, id, token);
    StakeWithin(w, e.caller, id);
  }

  lemma StakeWithin(w: World, caller: Hash32, id: u64)
    requires WorldInv(w) && id in w.state.pools
    ensures UserOf(w.state, caller, id).amount <= w.state.pools[id].totalStaked
  {
    hide PoolInv, UsersOf;
    assert PoolOk(w, id);
    RecordIs(w.state, caller, id);
    UserFacts(w.state.pools[id], UsersOf(w.state.users, id), w.tallies[id], w.clock, KeyOf(caller, id));
  }

  // ----- leaving with the reward -----

  /** The world with pool `id` brought up to date. */
  function Refreshed(w: World, id: u64, now: u64): World
    requires id in w.state.pools && id in w.tallies && UpdatePool(w.state.pools[id], now).Ok?
  {
    World(w.state.(pools := w.state.pools[id := UpdatePool(w.state.pools[id], now).value]),
          w.tallies[id := ObserveUpdate(w.tallies[id], w.state.pools[id], now)], w.external, now)
  }

  lemma RefreshedKeeps(w: World, id: u64, now: u64)
    requires WorldInv(w) && w.clock <= now && id in w.state.pools && UpdatePool(w.state.pools[id], now).Ok?
    ensures WorldInv(Refreshed(w, id, now))
  {
    hide PoolInv, UsersOf, UpdatePool, ObserveUpdate;
    assert PoolOk(w, id);
    UpdateKeeps(w.state.pools[id], UsersOf(w.state.users, id), w.tallies[id], w.clock, now);
    LocalStep(w, Refreshed(w, id, now), id, KeyOf(w.state.admin, id));
  }

  /** An update changes neither what a pool should hold nor its gap. */
  lemma RefreshedSame(w: World, id: u64, now: u64, token: Hash32)
    requires id in w.state.pools && id in w.tallies && UpdatePool(w.state.pools[id], now).Ok?
    ensures var w', pool, t := Refreshed(w, id, now), w.state.pools[id], w.tallies[id];
            && PoolHolds(w'.state.pools[id], w'.tallies[id], token) == PoolHolds(pool, t, token)
            && Gap(w'.state.pools[id], w'.tallies[id], token) == Gap(pool, t, token)
  {
    hide UpdatePool;
    UpdateKeepsTerms(w.state.pools[id], now);
  }

  lemma {:induction false} GapsSame(w: World, id: u64, now: u64, token: Hash32, n: nat)
    requires id in w.state.pools && id in w.tallies && UpdatePool(w.state.pools[id], now).Ok? && n < TWO_64
    ensures AllGaps(Refreshed(w, id, now), token, n) == AllGaps(w, token, n)
  {
    hide UpdatePool, ObserveUpdate, Gap;
    if n > 0 {
      GapsSame(w, id, now, token, n - 1);
      RefreshedSame(w, id, now, token);
    }
  }

  /** The balance of a token covers what pool `id` owes at `now`, as long as what came from outside makes up for
      the gaps. */
  lemma RefreshedCovered(w: World, id: u64, now: u64, token: Hash32)
    requires WorldInv(w) && w.clock <= now && id in w.state.pools && UpdatePool(w.state.pools[id], now).Ok?
    requires Conserved(w, token) && External(w, token) >= AllGaps(w, token, w.state.index)
    ensures w.state.tokens.Balance(token, This) >=
            OwedBy(UpdatePool(w.state.pools[id], now).value, UsersOf(w.state.users, id), token)
  {
    hide PoolOk, UsersOf, UpdatePool, ObserveUpdate, OwedBy, AllOwed, AllGaps, PoolsHold, PoolHolds, External;
    var w' := Refreshed(w, id, now);
    RefreshedKeeps(w, id, now);
    RefreshedSame(w, id, now, token);
    PoolsHoldLocal(w, w', token, id, w.state.index);
    GapsSame(w, id, now, token, w.state.index);
    assert External(w', token) == External(w, token) by { SameExternal(w, w', token); }
    StakesCovered(w', token);
    OneOwed(w', id, token, w.state.index);
  }

  lemma SameExternal(w: World, w': World, token: Hash32)
    requires w'.external == w.external
    ensures External(w', token) == External(w, token)
  {
  }

  /** One user's stake and pending reward are part of what the pool owes. */
  lemma UserIsOwed(pool: StakePool, us: map<UserKey, UserInfo>, t: Tally, clock: u64, key: UserKey)
    requires PoolInv(pool, us, t, clock) && key in us
    ensures us[key].amount <= pool.totalStaked && 0 <= Pending(pool, us[key]) <= Pendings(pool, us)
  {
    hide PoolInv;
    forall k | k in us
      ensures Pending(pool, us[k]) >= 0 && us[k].amount <= pool.totalStaked
    {
      UserFacts(pool, us, t, clock, k);
    }
    SumAtLeast(us, key, user => Pending(pool, user));
  }

  /** Every staker of a sized pool that is not stuck can leave with stake and reward, all or part of it, as long
      as what came from outside makes up for the gaps in both tokens. */
  lemma WithdrawCovered(w: World, e: Event, id: u64, amount: u256)
    requires WorldInv(w) && w.clock <= e.now
    requires e.call == Withdraw(amount, id) && 0 < amount <= UserOf(w.state, e.caller, id).amount
    requires id in w.state.pools && !Stuck(w.state.pools[id], e.now)
    requires Sized(w.state.pools[id], w.state.pools[id].totalStaked)
    requires forall token :: token == w.state.pools[id].stakingToken || token == w.state.pools[id].rewardToken ==>
               Conserved(w, token) && External(w, token) >= AllGaps(w, token, w.state.index)
    ensures Respond(w.state, e).Ok?
  {
    hide PoolInv, UsersOf, UpdatePool, ObserveUpdate, Pendings, AllGaps, Conserved, External, Stuck, Sized, Respond, Pending, Scale;
    var stored, us, user := w.state.pools[id], UsersOf(w.state.users, id), UserOf(w.state, e.caller, id);
    CurrentWithin(w, id, e.now, stored.totalStaked);
    var pool := UpdatePool(stored, e.now).value;
    WithdrawNeverPanics(w, e, id, amount);
    RefreshedCovered(w, id, e.now, pool.stakingToken);
    RefreshedCovered(w, id, e.now, pool.rewardToken);
    RecordIs(w.state, e.caller, id);
    UserIsOwed(pool, us, ObserveUpdate(w.tallies[id], stored, e.now), e.now, KeyOf(e.caller, id));
  }
}
