/** The invariant of the whole staking contract, kept over every run. */
module StakeRuns {
  import opened Words
  import opened Arith
  import opened Sums
  import opened Pool
  import opened StakeModel
  import opened StakeHistory
  import opened PoolBooks

  ghost predicate PoolOk(w: World, id: u64)
    requires id in w.state.pools && id in w.tallies
  {
    PoolInv(w.state.pools[id], UsersOf(w.state.users, id), w.tallies[id], w.clock)
  }

  /** Ids are exactly the ones the counter has handed out, every pool's books are in order, and there is
      nothing before `init`. */
  ghost predicate WorldInv(w: World) {
    && (forall id: u64 :: id in w.state.pools <==> id < w.state.index)
    && w.tallies.Keys == w.state.pools.Keys
    && (forall key :: key in w.state.users ==> key.id < w.state.index)
    && (forall id :: id in w.state.pools ==> PoolOk(w, id))
    && (!w.state.initialized ==> w.state.index == 0)
  }

  // ----- what a successful call did -----

  lemma EarnedIs(pool: StakePool, amount: u256)
    requires Earned(pool, amount).Ok?
    ensures Earned(pool, amount).value == MulDiv(amount, pool.acc, Scale(pool))
  {
  }

  /** The record a settlement leaves behind. */
  function Settled(pool: StakePool, amount: u256): UserInfo
    requires Earned(pool, amount).Ok?
  {
    UserInfo(amount, Earned(pool, amount).value)
  }

  lemma DepositDid(s: State, now: u64, caller: Hash32, amount: u256, id: u64)
    requires DepositTx(s, now, caller, amount, id).Ok?
    ensures id in s.pools && UpdatePool(s.pools[id], now).Ok?
    ensures var pool := UpdatePool(s.pools[id], now).value;
            var user := UserOf(s, caller, id);
            var s' := DepositTx(s, now, caller, amount, id).value;
            && now <= pool.end
            && user.amount + amount < TWO_256 && pool.totalStaked + amount < TWO_256
            && Earned(pool, user.amount + amount).Ok?
            && (user.amount == 0 || 0 <= Pending(pool, user) < TWO_256)
            && var pending := if user.amount == 0 then 0 else Pending(pool, user);
            && DepositCalls(s.tokens, pool, caller, pending, amount).Ok?
            && s' == UpdateStorage(s.(tokens := DepositCalls(s.tokens, pool, caller, pending, amount).value), caller, id,
                                   pool.(totalStaked := pool.totalStaked + amount), Settled(pool, user.amount + amount))
  {
    hide UpdatePool, DepositCalls;
    var pool := UpdatePool(s.pools[id], now).value;
    var user := UserOf(s, caller, id);
    EarnedIs(pool, user.amount);
    if user.amount == 0 {
      ZeroShare(pool.acc, Scale(pool));
    }
  }

  lemma WithdrawDid(s: State, now: u64, caller: Hash32, amount: u256, id: u64)
    requires WithdrawTx(s, now, caller, amount, id).Ok?
    ensures id in s.pools && UpdatePool(s.pools[id], now).Ok?
    ensures var pool := UpdatePool(s.pools[id], now).value;
            var user := UserOf(s, caller, id);
            var s' := WithdrawTx(s, now, caller, amount, id).value;
            && 0 < amount <= user.amount && amount <= pool.totalStaked
            && Earned(pool, user.amount - amount).Ok?
            && 0 <= Pending(pool, user) < TWO_256
            && WithdrawCalls(s.tokens, pool, caller, Pending(pool, user), amount).Ok?
            && s' == UpdateStorage(s.(tokens := WithdrawCalls(s.tokens, pool, caller, Pending(pool, user), amount).value), caller, id,
                                   pool.(totalStaked := pool.totalStaked - amount), Settled(pool, user.amount - amount))
  {
    hide UpdatePool, WithdrawCalls;
    EarnedIs(UpdatePool(s.pools[id], now).value, UserOf(s, caller, id).amount);
  }

  lemma StopDid(s: State, now: u64, caller: Hash32, id: u64)
    requires StopRewardTx(s, now, caller, id).Ok?
    ensures id in s.pools && UpdatePool(s.pools[id], now).Ok?
    ensures var pool := UpdatePool(s.pools[id], now).value;
            && pool.owner == caller && now < pool.end && Refund(pool, now).Ok?
            && s.tokens.Transfer(pool.stakingToken, caller, Refund(pool, now).value).Ok?
            && StopRewardTx(s, now, caller, id).value ==
               s.(tokens := s.tokens.Transfer(pool.stakingToken, caller, Refund(pool, now).value).value,
                  pools := s.pools[id := pool.(end := now)])
  {
  }

  lemma UpdateKeepsTerms(pool: StakePool, now: u64)
    requires UpdatePool(pool, now).Ok?
    ensures var pool' := UpdatePool(pool, now).value; pool' == pool.(acc := pool'.acc, last := pool'.last)
  {
  }

  // ----- keeping the invariant -----

  lemma UsersOfUpdate(users: map<UserKey, UserInfo>, key: UserKey, user: UserInfo, id: u64)
    ensures UsersOf(users[key := user], id) == if key.id == id then UsersOf(users, id)[key := user] else UsersOf(users, id)
  {
  }

  lemma RecordIs(s: State, caller: Hash32, id: u64)
    ensures RecordOf(UsersOf(s.users, id), KeyOf(caller, id)) == UserOf(s, caller, id)
    ensures forall k :: k in UsersOf(s.users, id) ==> k.id == id
  {
  }

  lemma TimePasses(pool: StakePool, us: map<UserKey, UserInfo>, t: Tally, clock: u64, now: u64)
    requires PoolInv(pool, us, t, clock) && clock <= now
    ensures PoolInv(pool, us, t, now)
  {
  }

  /** A step that rewrites one pool, and at most one user of that pool, keeps the invariant
      as soon as it keeps that pool's. */
  lemma LocalStep(w: World, w': World, id: u64, key: UserKey)
    requires WorldInv(w) && id in w.state.pools
    requires w.clock <= w'.clock
    requires w'.state.index == w.state.index && w'.state.initialized == w.state.initialized
    requires id in w'.state.pools && w'.state.pools == w.state.pools[id := w'.state.pools[id]]
    requires id in w'.tallies && w'.tallies == w.tallies[id := w'.tallies[id]]
    requires w'.state.users == w.state.users ||
             (key.id == id && key in w'.state.users && w'.state.users == w.state.users[key := w'.state.users[key]])
    requires PoolOk(w', id)
    ensures WorldInv(w')
  {
    hide PoolInv, UsersOf;
    forall other | other in w'.state.pools && other != id
      ensures PoolOk(w', other)
    {
      assert PoolOk(w, other);
      if w'.state.users != w.state.users {
        UsersOfUpdate(w.state.users, key, w'.state.users[key], other);
      }
      TimePasses(w.state.pools[other], UsersOf(w.state.users, other), w.tallies[other], w.clock, w'.clock);
    }
  }

  lemma NewPoolInv(pool: StakePool, clock: u64)
    requires pool.last == 0 && pool.acc == 0 && pool.totalStaked == 0
    requires 18 <= pool.precision <= 36 && pool.totalReward > 0
    ensures PoolInv(pool, map[], NewTally(pool.start, pool.end), clock)
  {
    hide Balanced, Emitted, AllMarked, Pow10, SumBy;
    SumEmpty<UserKey, UserInfo>(AmountOf);
    SumEmpty<UserKey, UserInfo>(DebtOf);
    NewBooks(Scale(pool), pool);
    NewEmission(pool);
  }

  lemma NewBooks(p: nat, pool: StakePool)
    requires p > 0
    ensures Balanced(p, 0, 0, 0, NewTally(pool.start, pool.end))
    ensures AllMarked(map[], [], map[], p) && AccOf([], p) == 0
  {
  }

  lemma NewEmission(pool: StakePool)
    requires pool.last == 0
    ensures Emitted(pool, NewTally(pool.start, pool.end))
  {
  }

  lemma AddPoolKeeps(w: World, e: Event)
    requires WorldInv(w) && w.clock <= e.now && w.state.index + 1 < TWO_64
    requires e.call.AddPool? && Respond(w.state, e).Ok?
    ensures WorldInv(Exec(w, e))
  {
    hide PoolInv, UsersOf;
    var w' := Exec(w, e);
    var added := w.state.index;
    forall id | id in w'.state.pools
      ensures PoolOk(w', id)
    {
      if id == added {
        NoUsers(w.state.users, id);
        NewPoolInv(w'.state.pools[added], e.now);
      } else {
        assert PoolOk(w, id);
        TimePasses(w.state.pools[id], UsersOf(w.state.users, id), w.tallies[id], w.clock, e.now);
      }
    }
  }

  lemma NoUsers(users: map<UserKey, UserInfo>, id: u64)
    requires forall key :: key in users ==> key.id < id
    ensures UsersOf(users, id) == map[]
  {
  }

  lemma DepositKeeps(w: World, e: Event)
    requires WorldInv(w) && w.clock <= e.now
    requires e.call.Deposit? && Respond(w.state, e).Ok?
    ensures WorldInv(Exec(w, e))
  {
    hide PoolInv, UsersOf, UpdatePool, ObserveUpdate, DepositCalls, Residue, Pending, MulDiv, Pow10;
    var s, w', id := w.state, Exec(w, e), e.call.id;
    DepositDid(s, e.now, e.caller, e.call.amount, id);
    assert PoolOk(w, id);
    var pool := UpdatePool(s.pools[id], e.now).value;
    var us, key, t := UsersOf(s.users, id), KeyOf(e.caller, id), ObserveUpdate(w.tallies[id], s.pools[id], e.now);
    var after := Settled(pool, UserOf(s, e.caller, id).amount + e.call.amount);
    UpdateKeeps(s.pools[id], us, w.tallies[id], w.clock, e.now);
    RecordIs(s, e.caller, id);
    EarnedIs(pool, after.amount);
    SettlementKeeps(pool, us, t, e.now, key, after, pool.totalStaked + e.call.amount);
    UsersOfUpdate(s.users, key, after, id);
    LocalStep(w, w', id, KeyOf(e.caller, id));
  }

  lemma WithdrawKeeps(w: World, e: Event)
    requires WorldInv(w) && w.clock <= e.now
    requires e.call.Withdraw? && Respond(w.state, e).Ok?
    ensures WorldInv(Exec(w, e))
  {
    hide PoolInv, UsersOf, UpdatePool, ObserveUpdate, WithdrawCalls, Residue, Pending, MulDiv, Pow10;
    var s, w', id := w.state, Exec(w, e), e.call.id;
    WithdrawDid(s, e.now, e.caller, e.call.amount, id);
    assert PoolOk(w, id);
    var pool := UpdatePool(s.pools[id], e.now).value;
    var us, key, t := UsersOf(s.users, id), KeyOf(e.caller, id), ObserveUpdate(w.tallies[id], s.pools[id], e.now);
    var after := Settled(pool, UserOf(s, e.caller, id).amount - e.call.amount);
    UpdateKeeps(s.pools[id], us, w.tallies[id], w.clock, e.now);
    RecordIs(s, e.caller, id);
    EarnedIs(pool, after.amount);
    SettlementKeeps(pool, us, t, e.now, key, after, pool.totalStaked - e.call.amount);
    UsersOfUpdate(s.users, key, after, id);
    LocalStep(w, w', id, KeyOf(e.caller, id));
  }

  lemma StopKeepsWorld(w: World, e: Event)
    requires WorldInv(w) && w.clock <= e.now
    requires e.call.StopReward? && Respond(w.state, e).Ok?
    ensures WorldInv(Exec(w, e))
  {
    hide PoolInv, UsersOf, UpdatePool, ObserveUpdate, Refund;
    var s, w', id := w.state, Exec(w, e), e.call.id;
    StopDid(s, e.now, e.caller, id);
    assert PoolOk(w, id);
    var pool := UpdatePool(s.pools[id], e.now).value;
    var us := UsersOf(s.users, id);
    UpdateKeepsTerms(s.pools[id], e.now);
    UpdateKeeps(s.pools[id], us, w.tallies[id], w.clock, e.now);
    UpdateReachesNow(s.pools[id], us, w.tallies[id], w.clock, e.now);
    StopKeeps(pool, us, ObserveUpdate(w.tallies[id], s.pools[id], e.now), e.now);
    LocalStep(w, w', id, KeyOf(e.caller, id));
  }

  lemma EmergencyKeepsWorld(w: World, e: Event)
    requires WorldInv(w) && w.clock <= e.now
    requires e.call.EmergencyWithdraw? && Respond(w.state, e).Ok?
    ensures WorldInv(Exec(w, e))
  {
    hide PoolInv, UsersOf, UpdatePool;
    var s, w', id := w.state, Exec(w, e), e.call.id;
    assert PoolOk(w, id);
    var us, key := UsersOf(s.users, id), KeyOf(e.caller, id);
    RecordIs(s, e.caller, id);
    TimePasses(s.pools[id], us, w.tallies[id], w.clock, e.now);
    EmergencyKeeps(s.pools[id], us, w.tallies[id], e.now, key);
    UsersOfUpdate(s.users, key, UserInfo(0, 0), id);
    LocalStep(w, w', id, KeyOf(e.caller, id));
  }

  /** A refused call, and everything that touches no pool, keeps the invariant. */
  lemma OutsideKeeps(w: World, e: Event)
    requires WorldInv(w) && w.clock <= e.now
    requires Respond(w.state, e).Revert? || (!e.call.AddPool? && !OnPool(e.call))
    ensures WorldInv(Exec(w, e))
  {
    hide PoolInv, UsersOf, AddPoolTx, DepositTx, WithdrawTx, StopRewardTx, EmergencyWithdrawTx;
    var w' := Exec(w, e);
    assert w'.state.pools == w.state.pools && w'.state.users == w.state.users && w'.tallies == w.tallies;
    forall id | id in w.state.pools
      ensures PoolOk(w', id)
    {
      assert PoolOk(w, id);
      TimePasses(w.state.pools[id], UsersOf(w.state.users, id), w.tallies[id], w.clock, e.now);
    }
  }

  lemma ClockAndIndex(w: World, e: Event)
    requires w.state.index + 1 < TWO_64
    ensures Exec(w, e).clock == e.now
    ensures Exec(w, e).state.index <= w.state.index + 1
  {
    hide UpdatePool, Refund, Earned, DepositCalls, WithdrawCalls, ObserveAll;
  }

  /** Every event keeps the invariant. */
  lemma ExecKeeps(w: World, e: Event)
    requires WorldInv(w) && w.clock <= e.now
    requires w.state.index + 1 < TWO_64
    ensures WorldInv(Exec(w, e))
    ensures Exec(w, e).clock == e.now
    ensures Exec(w, e).state.index <= w.state.index + 1
  {
    hide WorldInv, Exec, Respond;
    ClockAndIndex(w, e);
    if Respond(w.state, e).Ok? && e.call.AddPool? {
      AddPoolKeeps(w, e);
    } else if Respond(w.state, e).Ok? && e.call.Deposit? {
      DepositKeeps(w, e);
    } else if Respond(w.state, e).Ok? && e.call.Withdraw? {
      WithdrawKeeps(w, e);
    } else if Respond(w.state, e).Ok? && e.call.StopReward? {
      StopKeepsWorld(w, e);
    } else if Respond(w.state, e).Ok? && e.call.EmergencyWithdraw? {
      EmergencyKeepsWorld(w, e);
    } else {
      OutsideKeeps(w, e);
    }
  }

  lemma {:induction false} RunKeeps(w: World, es: seq<Event>)
    requires WorldInv(w) && InOrder(w.clock, es)
    requires w.state.index + |es| < TWO_64
    ensures WorldInv(Run(w, es))
    decreases |es|
  {
    if es != [] {
      ExecKeeps(w, es[0]);
      RunKeeps(Exec(w, es[0]), es[1..]);
    }
  }

  /** The invariant holds after every run from deployment. */
  lemma HoldsAfterEveryRun(admin: Hash32, es: seq<Event>)
    requires InOrder(0, es) && |es| < TWO_64
    ensures WorldInv(Run(Genesis(admin), es))
  {
    RunKeeps(Genesis(admin), es);
  }
}
