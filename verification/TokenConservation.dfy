/** The contract's balance of every token is exactly what its pools account for. */
module TokenConservation {
  import opened Words
  import opened Ledger
  import opened Pool
  import opened Netting
  import opened StakeModel
  import opened StakeHistory
  import opened PoolBooks
  import opened StakeRuns

  /** What one pool should hold of `token`: unpaid reward, and stake less the refund. */
  function PoolHolds(pool: StakePool, t: Tally, token: Hash32): int {
    (if pool.rewardToken == token then pool.totalReward - t.paid else 0)
    + (if pool.stakingToken == token then pool.totalStaked - t.refund else 0)
  }

  /** The same, summed over the pools with ids below `n`. */
  ghost function PoolsHold(w: World, token: Hash32, n: nat): int
    requires n < TWO_64
  {
    if n == 0 then 0
    else
      PoolsHold(w, token, n - 1)
      + if n - 1 in w.state.pools && n - 1 in w.tallies then PoolHolds(w.state.pools[n - 1], w.tallies[n - 1], token) else 0
  }

  ghost predicate Conserved(w: World, token: Hash32) {
    w.state.tokens.Balance(token, This) == PoolsHold(w, token, w.state.index) + External(w, token)
  }

  lemma {:induction false} PoolsHoldLocal(w: World, w': World, token: Hash32, id: u64, n: nat)
    requires n < TWO_64
    requires id in w.state.pools && id in w.tallies && id in w'.state.pools && id in w'.tallies
    requires w'.state.pools == w.state.pools[id := w'.state.pools[id]]
    requires w'.tallies == w.tallies[id := w'.tallies[id]]
    ensures PoolsHold(w', token, n) == PoolsHold(w, token, n) +
            if id < n then PoolHolds(w'.state.pools[id], w'.tallies[id], token) - PoolHolds(w.state.pools[id], w.tallies[id], token) else 0
  {
    if n > 0 {
      PoolsHoldLocal(w, w', token, id, n - 1);
    }
  }

  lemma {:induction false} PoolsHoldSame(w: World, w': World, token: Hash32, n: nat)
    requires n < TWO_64
    requires w'.state.pools == w.state.pools && w'.tallies == w.tallies
    ensures PoolsHold(w', token, n) == PoolsHold(w, token, n)
  {
    if n > 0 {
      PoolsHoldSame(w, w', token, n - 1);
    }
  }

  /** A new entry at `id` does not show below `id`. */
  lemma {:induction false} PoolsHoldBelow(w: World, w': World, token: Hash32, id: u64, n: nat)
    requires n <= id
    requires id in w'.state.pools && w'.state.pools == w.state.pools[id := w'.state.pools[id]]
    requires id in w'.tallies && w'.tallies == w.tallies[id := w'.tallies[id]]
    ensures PoolsHold(w', token, n) == PoolsHold(w, token, n)
  {
    if n > 0 {
      PoolsHoldBelow(w, w', token, id, n - 1);
    }
  }

  /** Moving `pending` of the reward token and `stakeOut` of the staking token out of `This`
      keeps the balance in step with the pool. */
  lemma LocalConserved(w: World, w': World, id: u64, token: Hash32, caller: Hash32, pending: int, stakeOut: int)
    requires WorldInv(w) && Conserved(w, token)
    requires id in w.state.pools && id in w'.state.pools && id in w'.tallies
    requires w'.state.pools == w.state.pools[id := w'.state.pools[id]]
    requires w'.tallies == w.tallies[id := w'.tallies[id]]
    requires w'.state.index == w.state.index && w'.external == w.external
    requires var pool, pool' := w.state.pools[id], w'.state.pools[id];
             && pool'.rewardToken == pool.rewardToken && pool'.stakingToken == pool.stakingToken
             && pool'.totalReward == pool.totalReward
             && w'.tallies[id].paid == w.tallies[id].paid + pending
             && pool'.totalStaked - w'.tallies[id].refund == pool.totalStaked - w.tallies[id].refund - stakeOut
             && Moved(w.state.tokens, w'.state.tokens, pool, caller, pending, stakeOut)
    ensures Conserved(w', token)
  {
    hide PoolOk;
    PoolsHoldLocal(w, w', token, id, w.state.index);
  }

  /** A deposit moves to the caller exactly the reward that the books record as paid, and from the
      caller exactly the stake. */
  lemma DepositPays(w: World, e: Event, id: u64)
    requires WorldInv(w) && w.clock <= e.now
    requires e.call.Deposit? && Respond(w.state, e).Ok? && e.call.id == id
    ensures id in w.state.pools && id in Exec(w, e).tallies
    ensures Moved(w.state.tokens, Exec(w, e).state.tokens, w.state.pools[id], e.caller,
                  Exec(w, e).tallies[id].paid - w.tallies[id].paid, -(e.call.amount as int))
  {
    hide PoolInv, Earned, UpdatePool, DepositCalls, Moved, ObserveUpdate;
    var s, amount := w.state, e.call.amount;
    DepositDid(s, e.now, e.caller, amount, id);
    assert PoolOk(w, id);
    UpdateKeepsTerms(s.pools[id], e.now);
    ObserveUpdateMoney(w.tallies[id], s.pools[id], e.now);
    var pool, user := UpdatePool(s.pools[id], e.now).value, UserOf(s, e.caller, id);
    RecordIs(s, e.caller, id);
    UserFacts(s.pools[id], UsersOf(s.users, id), w.tallies[id], w.clock, KeyOf(e.caller, id));
    NothingPendingYet(pool, user);
    var stakeOut: int := -(amount as int);
    DepositMoves(s.tokens, pool, e.caller, Pending(pool, user), amount);
    MovedSame(s.tokens, Exec(w, e).state.tokens, pool, s.pools[id], e.caller, Pending(pool, user), stakeOut);
  }

  lemma DepositConserves(w: World, e: Event, token: Hash32)
    requires WorldInv(w) && w.clock <= e.now && Conserved(w, token)
    requires e.call.Deposit? && Respond(w.state, e).Ok?
    ensures Conserved(Exec(w, e), token)
  {
    hide PoolInv, Earned, UpdatePool, DepositCalls, Moved, PoolsHold, Conserved, ObserveUpdate, Pending;
    var s, id := w.state, e.call.id;
    DepositPays(w, e, id);
    DepositDid(s, e.now, e.caller, e.call.amount, id);
    UpdateKeepsTerms(s.pools[id], e.now);
    ObserveUpdateMoney(w.tallies[id], s.pools[id], e.now);
    LocalConserved(w, Exec(w, e), id, token, e.caller, Exec(w, e).tallies[id].paid - w.tallies[id].paid, -(e.call.amount as int));
  }

  lemma NothingPendingYet(pool: StakePool, user: UserInfo)
    ensures user.amount == 0 && user.debt == 0 ==> Pending(pool, user) == 0
  {
  }

  lemma MovedSame(l: Tokens, l': Tokens, pool: StakePool, pool': StakePool, caller: Hash32, pending: int, stakeOut: int)
    requires Moved(l, l', pool, caller, pending, stakeOut)
    requires pool.rewardToken == pool'.rewardToken && pool.stakingToken == pool'.stakingToken
    ensures Moved(l, l', pool', caller, pending, stakeOut)
  {
  }

  lemma ObserveUpdateMoney(t: Tally, pool: StakePool, now: u64)
    ensures ObserveUpdate(t, pool, now).paid == t.paid && ObserveUpdate(t, pool, now).refund == t.refund
  {
  }

  /** A withdrawal moves to the caller exactly the reward that the books record as paid, and the stake. */
  lemma WithdrawPays(w: World, e: Event, id: u64)
    requires WorldInv(w) && w.clock <= e.now
    requires e.call.Withdraw? && Respond(w.state, e).Ok? && e.call.id == id
    ensures id in w.state.pools && id in Exec(w, e).tallies
    ensures Moved(w.state.tokens, Exec(w, e).state.tokens, w.state.pools[id], e.caller,
                  Exec(w, e).tallies[id].paid - w.tallies[id].paid, e.call.amount)
  {
    hide PoolInv, Earned, UpdatePool, WithdrawCalls, Moved, ObserveUpdate, Pending;
    var s, amount := w.state, e.call.amount;
    WithdrawDid(s, e.now, e.caller, amount, id);
    UpdateKeepsTerms(s.pools[id], e.now);
    ObserveUpdateMoney(w.tallies[id], s.pools[id], e.now);
    var pool := UpdatePool(s.pools[id], e.now).value;
    var pending := Pending(pool, UserOf(s, e.caller, id));
    WithdrawMoves(s.tokens, pool, e.caller, pending, amount);
    MovedSame(s.tokens, Exec(w, e).state.tokens, pool, s.pools[id], e.caller, pending, amount);
  }

  lemma WithdrawConserves(w: World, e: Event, token: Hash32)
    requires WorldInv(w) && w.clock <= e.now && Conserved(w, token)
    requires e.call.Withdraw? && Respond(w.state, e).Ok?
    ensures Conserved(Exec(w, e), token)
  {
    hide PoolInv, Earned, UpdatePool, WithdrawCalls, Moved, PoolsHold, Conserved, ObserveUpdate, Pending;
    var s, id := w.state, e.call.id;
    WithdrawPays(w, e, id);
    WithdrawDid(s, e.now, e.caller, e.call.amount, id);
    UpdateKeepsTerms(s.pools[id], e.now);
    ObserveUpdateMoney(w.tallies[id], s.pools[id], e.now);
    LocalConserved(w, Exec(w, e), id, token, e.caller, Exec(w, e).tallies[id].paid - w.tallies[id].paid, e.call.amount);
  }

  lemma TransferMoves(l: Tokens, pool: StakePool, caller: Hash32, amount: nat)
    requires l.Transfer(pool.stakingToken, caller, amount).Ok?
    ensures Moved(l, l.Transfer(pool.stakingToken, caller, amount).value, pool, caller, 0, amount)
  {
  }

  lemma StopConserves(w: World, e: Event, token: Hash32)
    requires WorldInv(w) && w.clock <= e.now && Conserved(w, token)
    requires e.call.StopReward? && Respond(w.state, e).Ok?
    ensures Conserved(Exec(w, e), token)
  {
    hide PoolInv, Earned, UpdatePool, Moved, PoolsHold, Conserved, ObserveUpdate, Refund;
    var s, id := w.state, e.call.id;
    StopDid(s, e.now, e.caller, id);
    UpdateKeepsTerms(s.pools[id], e.now);
    ObserveUpdateMoney(w.tallies[id], s.pools[id], e.now);
    var refund := Refund(UpdatePool(s.pools[id], e.now).value, e.now).value;
    TransferMoves(s.tokens, s.pools[id], e.caller, refund);
    LocalConserved(w, Exec(w, e), id, token, e.caller, 0, refund);
  }

  lemma EmergencyConserves(w: World, e: Event, token: Hash32)
    requires WorldInv(w) && w.clock <= e.now && Conserved(w, token)
    requires e.call.EmergencyWithdraw? && Respond(w.state, e).Ok?
    ensures Conserved(Exec(w, e), token)
  {
    hide PoolInv, Moved, PoolsHold, Conserved, UpdatePool;
    var s, id := w.state, e.call.id;
    var amount := UserOf(s, e.caller, id).amount;
    TransferMoves(s.tokens, s.pools[id], e.caller, amount);
    LocalConserved(w, Exec(w, e), id, token, e.caller, 0, amount);
  }

  lemma AddPoolDid(w: World, e: Event)
    requires w.state.index + 1 < TWO_64
    requires e.call.AddPool? && Respond(w.state, e).Ok?
    ensures var s, s', c := w.state, Exec(w, e).state, e.call;
            && s.tokens.TransferFrom(c.rewardToken, e.caller, c.totalReward).Ok?
            && s'.tokens == s.tokens.TransferFrom(c.rewardToken, e.caller, c.totalReward).value
            && s'.index == s.index + 1 && s.index in s'.pools
            && s'.pools == s.pools[s.index := s'.pools[s.index]]
            && s'.pools[s.index].rewardToken == c.rewardToken && s'.pools[s.index].totalReward == c.totalReward
            && s'.pools[s.index].totalStaked == 0
            && Exec(w, e).tallies == w.tallies[s.index := NewTally(c.start, c.end)]
            && Exec(w, e).external == w.external
  {
  }

  lemma AddPoolConserves(w: World, e: Event, token: Hash32)
    requires WorldInv(w) && w.clock <= e.now && Conserved(w, token) && w.state.index + 1 < TWO_64
    requires e.call.AddPool? && Respond(w.state, e).Ok?
    ensures Conserved(Exec(w, e), token)
  {
    hide PoolOk, Exec, Respond, PoolsHold;
    var w' := Exec(w, e);
    AddPoolDid(w, e);
    PulledIn(w.state.tokens, e.call.rewardToken, e.caller, e.call.totalReward, token);
    PoolsHoldBelow(w, w', token, w.state.index, w.state.index);
    OneMorePool(w', token, w.state.index);
  }

  lemma PulledIn(l: Tokens, pulled: Hash32, caller: Hash32, amount: nat, token: Hash32)
    requires l.TransferFrom(pulled, caller, amount).Ok?
    ensures l.TransferFrom(pulled, caller, amount).value.Balance(token, This) ==
            l.Balance(token, This) + if token == pulled then amount else 0
  {
  }

  lemma OneMorePool(w: World, token: Hash32, id: u64)
    requires id + 1 < TWO_64 && id in w.state.pools && id in w.tallies
    ensures PoolsHold(w, token, id + 1) == PoolsHold(w, token, id) + PoolHolds(w.state.pools[id], w.tallies[id], token)
  {
  }

  lemma OutsideConserves(w: World, e: Event, token: Hash32)
    requires WorldInv(w) && Conserved(w, token)
    requires !e.call.Init? && !e.call.AddPool? && !OnPool(e.call) && Respond(w.state, e).Ok?
    ensures Conserved(Exec(w, e), token)
  {
    hide PoolOk, PoolsHold, DepositTx, WithdrawTx, StopRewardTx, EmergencyWithdrawTx, AddPoolTx, Observe;
    PoolsHoldSame(w, Exec(w, e), token, w.state.index);
    if e.call.SaveMe? {
      TransferShifts(w.state.tokens, e.call.token, e.caller, e.call.amount);
    }
  }

  /** Before `init` there is nothing to account for. */
  lemma InitConserves(w: World, e: Event, token: Hash32)
    requires WorldInv(w) && Conserved(w, token)
    requires e.call.Init? && Respond(w.state, e).Ok?
    ensures Conserved(Exec(w, e), token)
  {
  }

  lemma ExecConserves(w: World, e: Event, token: Hash32)
    requires WorldInv(w) && w.clock <= e.now && Conserved(w, token) && w.state.index + 1 < TWO_64
    ensures Conserved(Exec(w, e), token)
  {
    hide Conserved, PoolOk;
    if !Respond(w.state, e).Ok? {
      RevertConserves(w, e, token);
    } else {
      match e.call
      case Init => InitConserves(w, e, token);
      case AddPool(_, _, _, _, _, _) => AddPoolConserves(w, e, token);
      case Deposit(_, _) => DepositConserves(w, e, token);
      case Withdraw(_, _) => WithdrawConserves(w, e, token);
      case StopReward(_) => StopConserves(w, e, token);
      case EmergencyWithdraw(_) => EmergencyConserves(w, e, token);
      case SaveMe(_, _) => OutsideConserves(w, e, token);
      case SetAdmin(_) => OutsideConserves(w, e, token);
      case Drift(_, _, _) => OutsideConserves(w, e, token);
      case Approve(_, _) => OutsideConserves(w, e, token);
    }
  }

  lemma RevertConserves(w: World, e: Event, token: Hash32)
    requires Conserved(w, token) && Respond(w.state, e).Revert?
    ensures Conserved(Exec(w, e), token)
  {
    PoolsHoldSame(w, Exec(w, e), token, w.state.index);
  }

  lemma {:induction false} RunConserves(w: World, es: seq<Event>, token: Hash32)
    requires WorldInv(w) && InOrder(w.clock, es) && Conserved(w, token)
    requires w.state.index + |es| < TWO_64
    ensures Conserved(Run(w, es), token)
    decreases |es|
  {
    hide Conserved, PoolOk, Exec;
    if es != [] {
      ExecKeeps(w, es[0]);
      ExecConserves(w, es[0], token);
      RunConserves(Exec(w, es[0]), es[1..], token);
    }
  }

  /** Exact conservation, for every token, after every run from deployment. */
  lemma TokensConserved(admin: Hash32, es: seq<Event>, token: Hash32)
    requires InOrder(0, es) && |es| < TWO_64
    ensures Conserved(Run(Genesis(admin), es), token)
  {
    RunConserves(Genesis(admin), es, token);
  }
}
