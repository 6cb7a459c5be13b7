/** Fairness over whole runs: whatever a user did and others did, everything the user's record was paid, gave up
    and is still owed is the plain proportional split of every accrual, at the stake the record had at the time. */
module RunFairness {
  import opened Words
  import opened Arith
  import opened Pool
  import opened StakeModel
  import opened StakeHistory
  import opened PoolBooks
  import opened StakeRuns
  import opened Fairness
  import opened StorageKeys

  /** What a run did for one user record. `received`: rewards paid; `givenUp`: worth of the reward abandoned in
      emergencies; `share`: the plain split, accrual by accrual; `slack`: stake / p, summed over the accruals;
      `settlements`: deposits and withdrawals. */
  datatype Account = Account(received: int, givenUp: real, share: real, slack: real, settlements: nat)

  const NOTHING: Account := Account(0, 0.0, 0.0, 0.0, 0)

  function Add(a: Account, b: Account): Account {
    Account(a.received + b.received, a.givenUp + b.givenUp, a.share + b.share, a.slack + b.slack, a.settlements + b.settlements)
  }

  function RecordIn(w: World, key: UserKey): UserInfo {
    RecordOf(w.state.users, key)
  }

  /** What a record is owed before flooring: `amount * acc / p - debt`. */
  function Worth(pool: StakePool, user: UserInfo): real {
    Ratio(user.amount * pool.acc, Scale(pool)) - user.debt as real
  }

  function Open(w: World, key: UserKey): real {
    if key.id in w.state.pools then Worth(w.state.pools[key.id], RecordIn(w, key)) else 0.0
  }

  /** The owner of the record calls, and the call goes through. */
  predicate Acts(w: World, e: Event, key: UserKey) {
    OnPool(e.call) && !e.call.StopReward? && KeyOf(e.caller, e.call.id) == key && Respond(w.state, e).Ok?
  }

  /** What one event did, from the pool's history before and after. An accrual counts at the stake the record
      has when it happens. */
  function Booked(t: Tally, t': Tally, stake: nat, p: nat, settles: bool, abandoned: real): Account
    requires p > 0
  {
    var accrued := |t'.log| > |t.log| && t'.log[|t'.log| - 1].staked > 0;
    Account(if settles then t'.paid - t.paid else 0,
            abandoned,
            if accrued then Ratio(stake * t'.log[|t'.log| - 1].reward, t'.log[|t'.log| - 1].staked) else 0.0,
            if accrued then Ratio(stake, p) else 0.0,
            if settles then 1 else 0)
  }

  function Step(w: World, e: Event, key: UserKey): Account {
    var tallies := ObserveAll(w, e);
    if Respond(w.state, e).Revert? || key.id !in w.state.pools || key.id !in w.tallies || key.id !in tallies then NOTHING
    else
      Booked(w.tallies[key.id], tallies[key.id], RecordIn(w, key).amount, Scale(w.state.pools[key.id]),
             Acts(w, e, key) && !e.call.EmergencyWithdraw?,
             if Acts(w, e, key) && e.call.EmergencyWithdraw? then Open(w, key) else 0.0)
  }

  function Follow(w: World, es: seq<Event>, key: UserKey): Account
    decreases |es|
  {
    if es == [] then NOTHING else Add(Step(w, es[0], key), Follow(Exec(w, es[0]), es[1..], key))
  }

  /** Received, given up, and the change of what is open, against the share. */
  ghost predicate Fair(a: Account, before: real, after: real) {
    a.share - a.slack - a.settlements as real <= a.received as real + a.givenUp + after - before <= a.share + a.settlements as real
  }

  // ----- one event -----

  /** Bringing a pool up to date adds the share of its accrual to every record, less at most `stake / p`. */
  lemma UpdateIsFair(pool: StakePool, now: u64, user: UserInfo)
    requires UpdatePool(pool, now).Ok?
    ensures var gained := Worth(UpdatePool(pool, now).value, user) - Worth(pool, user);
            if Accrues(pool, now) then
              var share := Ratio(user.amount * IntervalReward(pool, now), pool.totalStaked);
              share - Ratio(user.amount, Scale(pool)) <= gained <= share
            else gained == 0.0
  {
    hide UpdatePool, Ratio, IntervalReward, MulDiv, Pow10;
    UpdateCases(pool, now);
    if Accrues(pool, now) {
      var q := MulDiv(IntervalReward(pool, now), Scale(pool), pool.totalStaked);
      GainIsFair(user.amount, IntervalReward(pool, now), Scale(pool), pool.totalStaked);
      RatioOfSum(user.amount, pool.acc, q, Scale(pool));
    }
  }

  /** A fresh debt leaves less than one unit open. */
  lemma FreshDebt(pool: StakePool, amount: u256, debt: u256)
    requires debt == MulDiv(amount, pool.acc, Scale(pool))
    ensures 0.0 <= Worth(pool, UserInfo(amount, debt)) < 1.0
  {
    hide Ratio, Pow10;
    var p := Scale(pool);
    MulDivBounds(amount, pool.acc, p);
    RatioIs(amount * pool.acc, p);
    RealProduct(debt, p);
    RealBelow(Ratio(amount * pool.acc, p), debt as real, p as real, (amount * pool.acc) as real, (debt * p) as real);
  }

  lemma RealBelow(x: real, d: real, m: real, xm: real, dm: real)
    requires m > 0.0 && x * m == xm && d * m == dm
    requires dm <= xm < dm + m
    ensures 0.0 <= x - d < 1.0
  {
    assert (d + 1.0) * m == dm + m;
    if x < d {
      ScaledOrder(d, x, m);
    } else if x >= d + 1.0 {
      ScaledOrder(x, d + 1.0, m);
    }
  }

  /** The pending reward is what is open, floored. */
  lemma PendingIsOpen(pool: StakePool, user: UserInfo)
    ensures Worth(pool, user) - 1.0 < Pending(pool, user) as real <= Worth(pool, user)
  {
    hide Ratio, Pow10;
    var p, e := Scale(pool), MulDiv(user.amount, pool.acc, Scale(pool));
    MulDivBounds(user.amount, pool.acc, p);
    RatioIs(user.amount * pool.acc, p);
    RealProduct(e, p);
    RealBelow(Ratio(user.amount * pool.acc, p), e as real, p as real, (user.amount * pool.acc) as real, (e * p) as real);
  }

  // ----- one event -----

  lemma SettlementDid(w: World, e: Event, key: UserKey)
    requires WorldInv(w) && w.clock <= e.now
    requires (e.call.Deposit? || e.call.Withdraw?) && Respond(w.state, e).Ok? && e.call.id == key.id
    ensures key.id in w.state.pools && key.id in w.tallies && UpdatePool(w.state.pools[key.id], e.now).Ok?
    ensures key.id in Exec(w, e).state.pools && key.id in ObserveAll(w, e)
    ensures var id, w', pool := key.id, Exec(w, e), UpdatePool(w.state.pools[key.id], e.now).value;
            var t' := ObserveUpdate(w.tallies[id], w.state.pools[id], e.now);
            && w'.state.pools[id].acc == pool.acc && Scale(w'.state.pools[id]) == Scale(pool) == Scale(w.state.pools[id])
            && ObserveAll(w, e)[id].log == t'.log
            && (if Acts(w, e, key) then
                  && ObserveAll(w, e)[id].paid == t'.paid + Pending(pool, RecordIn(w, key))
                  && RecordIn(w', key).debt == MulDiv(RecordIn(w', key).amount, pool.acc, Scale(pool))
                else RecordIn(w', key) == RecordIn(w, key))
  {
    hide PoolOk, UpdatePool, ObserveUpdate, Earned, DepositCalls, WithdrawCalls, Pending, Residue, TagOf, MulDiv, Pow10;
    var s := w.state;
    if e.call.Deposit? {
      DepositDid(s, e.now, e.caller, e.call.amount, key.id);
      EarnedIs(UpdatePool(s.pools[key.id], e.now).value, UserOf(s, e.caller, key.id).amount + e.call.amount);
    } else {
      WithdrawDid(s, e.now, e.caller, e.call.amount, key.id);
      EarnedIs(UpdatePool(s.pools[key.id], e.now).value, UserOf(s, e.caller, key.id).amount - e.call.amount);
    }
    UpdateKeepsTerms(s.pools[key.id], e.now);
  }

  lemma UpdateLogs(t: Tally, pool: StakePool, now: u64)
    ensures ObserveUpdate(t, pool, now).paid == t.paid
    ensures ObserveUpdate(t, pool, now).log ==
            if Accrues(pool, now) then t.log + [Accrual(IntervalReward(pool, now), pool.totalStaked)] else t.log
  {
  }

  /** Worth looks only at the accumulator and the scale. */
  lemma SameWorth(pool: StakePool, pool': StakePool, user: UserInfo)
    requires pool'.acc == pool.acc && Scale(pool') == Scale(pool)
    ensures Worth(pool', user) == Worth(pool, user)
  {
    hide Ratio, Pow10;
  }

  lemma SettlementIsFairStep(w: World, e: Event, key: UserKey)
    requires WorldInv(w) && w.clock <= e.now
    requires (e.call.Deposit? || e.call.Withdraw?) && Respond(w.state, e).Ok? && e.call.id == key.id
    ensures Fair(Step(w, e, key), Open(w, key), Open(Exec(w, e), key))
  {
    hide PoolOk, UpdatePool, ObserveUpdate, Pending, MulDiv, Pow10, Ratio, Worth, Exec, ObserveAll, Respond, IntervalReward, Scale;
    SettlementDid(w, e, key);
    var stored, t, user := w.state.pools[key.id], w.tallies[key.id], RecordIn(w, key);
    var pool, w' := UpdatePool(stored, e.now).value, Exec(w, e);
    UpdateLogs(t, stored, e.now);
    UpdateIsFair(stored, e.now, user);
    SameWorth(pool, w'.state.pools[key.id], RecordIn(w', key));
    if Acts(w, e, key) {
      PendingIsOpen(pool, user);
      FreshDebt(pool, RecordIn(w', key).amount, RecordIn(w', key).debt);
    }
  }

  lemma StopDidHere(w: World, e: Event, key: UserKey)
    requires WorldInv(w) && w.clock <= e.now
    requires e.call.StopReward? && Respond(w.state, e).Ok? && e.call.id == key.id
    ensures key.id in w.state.pools && key.id in w.tallies && UpdatePool(w.state.pools[key.id], e.now).Ok?
    ensures key.id in Exec(w, e).state.pools && key.id in ObserveAll(w, e)
    ensures var id, w', pool := key.id, Exec(w, e), UpdatePool(w.state.pools[key.id], e.now).value;
            && w'.state.pools[id].acc == pool.acc && Scale(w'.state.pools[id]) == Scale(pool) == Scale(w.state.pools[id])
            && ObserveAll(w, e)[id].log == ObserveUpdate(w.tallies[id], w.state.pools[id], e.now).log
            && RecordIn(w', key) == RecordIn(w, key)
  {
    hide PoolOk, UpdatePool, ObserveUpdate, Refund, Pow10;
    StopDid(w.state, e.now, e.caller, key.id);
    UpdateKeepsTerms(w.state.pools[key.id], e.now);
  }

  lemma StopIsFairStep(w: World, e: Event, key: UserKey)
    requires WorldInv(w) && w.clock <= e.now
    requires e.call.StopReward? && Respond(w.state, e).Ok? && e.call.id == key.id
    ensures Fair(Step(w, e, key), Open(w, key), Open(Exec(w, e), key))
  {
    hide PoolOk, UpdatePool, ObserveUpdate, Pow10, Ratio, Worth, Exec, ObserveAll, Respond, IntervalReward, Scale;
    StopDidHere(w, e, key);
    var stored, user := w.state.pools[key.id], RecordIn(w, key);
    UpdateLogs(w.tallies[key.id], stored, e.now);
    UpdateIsFair(stored, e.now, user);
    SameWorth(UpdatePool(stored, e.now).value, Exec(w, e).state.pools[key.id], user);
  }

  lemma NothingOpen(pool: StakePool)
    ensures Worth(pool, UserInfo(0, 0)) == 0.0
  {
    assert 0 * pool.acc == 0;
  }

  lemma EmergencyDid(w: World, e: Event, key: UserKey)
    requires WorldInv(w)
    requires e.call.EmergencyWithdraw? && Respond(w.state, e).Ok? && e.call.id == key.id
    ensures key.id in w.state.pools && key.id in w.tallies
    ensures key.id in Exec(w, e).state.pools && key.id in ObserveAll(w, e)
    ensures var id, w' := key.id, Exec(w, e);
            && w'.state.pools[id].acc == w.state.pools[id].acc && Scale(w'.state.pools[id]) == Scale(w.state.pools[id])
            && ObserveAll(w, e)[id].log == w.tallies[id].log
            && RecordIn(w', key) == if Acts(w, e, key) then UserInfo(0, 0) else RecordIn(w, key)
  {
    hide PoolOk, UpdatePool, Pow10, TagOf;
  }

  lemma EmergencyIsFairStep(w: World, e: Event, key: UserKey)
    requires WorldInv(w)
    requires e.call.EmergencyWithdraw? && Respond(w.state, e).Ok? && e.call.id == key.id
    ensures Fair(Step(w, e, key), Open(w, key), Open(Exec(w, e), key))
  {
    hide PoolOk, Pow10, Ratio, Worth, Exec, ObserveAll, Respond, Scale;
    EmergencyDid(w, e, key);
    SameWorth(w.state.pools[key.id], Exec(w, e).state.pools[key.id], RecordIn(w, key));
    NothingOpen(Exec(w, e).state.pools[key.id]);
  }

  lemma OtherPool(w: World, e: Event, key: UserKey)
    requires WorldInv(w) && OnPool(e.call) && e.call.id != key.id
    ensures RecordIn(Exec(w, e), key) == RecordIn(w, key)
    ensures key.id in w.state.pools ==>
              key.id in Exec(w, e).state.pools && Exec(w, e).state.pools[key.id] == w.state.pools[key.id]
    ensures key.id in w.state.pools && Respond(w.state, e).Ok? ==>
              key.id in w.tallies && key.id in ObserveAll(w, e) && ObserveAll(w, e)[key.id] == w.tallies[key.id]
    ensures key.id !in w.state.pools ==> RecordIn(w, key) == UserInfo(0, 0)
  {
    hide PoolOk, UpdatePool, Refund, Earned, DepositCalls, WithdrawCalls, Observe, TagOf, CurrentPool;
  }

  lemma NoPoolCall(w: World, e: Event, key: UserKey)
    requires WorldInv(w) && w.state.index + 1 < TWO_64
    requires Respond(w.state, e).Revert? || !OnPool(e.call)
    ensures RecordIn(Exec(w, e), key) == RecordIn(w, key)
    ensures key.id in w.state.pools ==>
              key.id in Exec(w, e).state.pools && Exec(w, e).state.pools[key.id] == w.state.pools[key.id]
    ensures key.id in w.state.pools && Respond(w.state, e).Ok? ==>
              key.id in w.tallies && key.id in ObserveAll(w, e) && ObserveAll(w, e)[key.id] == w.tallies[key.id]
    ensures key.id !in w.state.pools ==> RecordIn(w, key) == UserInfo(0, 0)
  {
    hide PoolOk, Observe, TagOf, NewTally, DepositTx, WithdrawTx, StopRewardTx, EmergencyWithdrawTx;
  }

  /** Everything else leaves the record alone; a new pool has no records. */
  lemma ElsewhereDid(w: World, e: Event, key: UserKey)
    requires WorldInv(w) && w.state.index + 1 < TWO_64
    requires Respond(w.state, e).Revert? || !OnPool(e.call) || e.call.id != key.id
    ensures RecordIn(Exec(w, e), key) == RecordIn(w, key)
    ensures key.id in w.state.pools ==>
              key.id in Exec(w, e).state.pools && Exec(w, e).state.pools[key.id] == w.state.pools[key.id]
    ensures key.id in w.state.pools && Respond(w.state, e).Ok? ==>
              key.id in w.tallies && key.id in ObserveAll(w, e) && ObserveAll(w, e)[key.id] == w.tallies[key.id]
    ensures key.id !in w.state.pools ==> RecordIn(w, key) == UserInfo(0, 0)
  {
    hide WorldInv, Exec, ObserveAll, Respond;
    if Respond(w.state, e).Ok? && OnPool(e.call) {
      OtherPool(w, e, key);
    } else {
      NoPoolCall(w, e, key);
    }
  }

  lemma ElsewhereIsFairStep(w: World, e: Event, key: UserKey)
    requires WorldInv(w) && w.state.index + 1 < TWO_64
    requires Respond(w.state, e).Revert? || !OnPool(e.call) || e.call.id != key.id
    ensures Fair(Step(w, e, key), Open(w, key), Open(Exec(w, e), key))
  {
    hide PoolOk, Pow10, Ratio, Worth, Exec, ObserveAll, Respond, Scale;
    ElsewhereDid(w, e, key);
    if key.id !in w.state.pools && key.id in Exec(w, e).state.pools {
      NothingOpen(Exec(w, e).state.pools[key.id]);
    }
  }

  lemma StepIsFair(w: World, e: Event, key: UserKey)
    requires WorldInv(w) && w.clock <= e.now && w.state.index + 1 < TWO_64
    ensures Fair(Step(w, e, key), Open(w, key), Open(Exec(w, e), key))
  {
    hide WorldInv, Fair, Step, Open, Exec, Respond;
    if Respond(w.state, e).Revert? || !OnPool(e.call) || e.call.id != key.id {
      ElsewhereIsFairStep(w, e, key);
    } else if e.call.StopReward? {
      StopIsFairStep(w, e, key);
    } else if e.call.EmergencyWithdraw? {
      EmergencyIsFairStep(w, e, key);
    } else {
      SettlementIsFairStep(w, e, key);
    }
  }

  // ----- whole runs -----

  lemma FairAdds(a: Account, b: Account, x: real, y: real, z: real)
    requires Fair(a, x, y) && Fair(b, y, z)
    ensures Fair(Add(a, b), x, z)
  {
  }

  lemma {:induction false} FollowIsFair(w: World, es: seq<Event>, key: UserKey)
    requires WorldInv(w) && InOrder(w.clock, es) && w.state.index + |es| < TWO_64
    ensures Fair(Follow(w, es, key), Open(w, key), Open(Run(w, es), key))
    decreases |es|
  {
    hide WorldInv, Fair, Step, Open, Exec, Add;
    if es == [] {
      assert Fair(NOTHING, Open(w, key), Open(w, key)) by { NothingIsFair(Open(w, key)); }
    } else {
      StepIsFair(w, es[0], key);
      ExecKeeps(w, es[0]);
      FollowIsFair(Exec(w, es[0]), es[1..], key);
      FairAdds(Step(w, es[0], key), Follow(Exec(w, es[0]), es[1..], key), Open(w, key), Open(Exec(w, es[0]), key),
               Open(Run(w, es), key));
    }
  }

  lemma NothingIsFair(x: real)
    ensures Fair(NOTHING, x, x)
  {
  }

  /** After every run from deployment, for every user record: what it was paid, what it gave up in emergencies and
      what it could still claim together are the plain proportional split of all accruals at the stake it had
      when each happened, to within one unit per settlement and one for the open claim, and `stake / p` per
      accrual. */
  lemma RunIsFair(admin: Hash32, es: seq<Event>, key: UserKey)
    requires InOrder(0, es) && |es| < TWO_64
    requires key.id in Run(Genesis(admin), es).state.pools
    ensures var w, a := Run(Genesis(admin), es), Follow(Genesis(admin), es, key);
            var total := a.received as real + a.givenUp + Pending(w.state.pools[key.id], RecordIn(w, key)) as real;
            a.share - a.slack - (a.settlements + 1) as real < total <= a.share + a.settlements as real
  {
    hide WorldInv, Follow, Worth, Pending, Run;
    HoldsAfterEveryRun(admin, es);
    GenesisOk(admin);
    FollowIsFair(Genesis(admin), es, key);
    var w := Run(Genesis(admin), es);
    PendingIsOpen(w.state.pools[key.id], RecordIn(w, key));
  }

  lemma GenesisOk(admin: Hash32)
    ensures WorldInv(Genesis(admin))
  {
  }
}
