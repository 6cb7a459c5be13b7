/** What the staking contract promises over every run, for every pool. `p` is 10^precision. */
module StakeTheorems {
  import opened Words
  import opened Arith
  import opened Sums
  import opened Pool
  import opened StakeModel
  import opened StakeHistory
  import opened PoolBooks
  import opened StakeRuns
  import opened StorageKeys

  // ----- solvency -----

  lemma ClaimStep(p: nat, acc: nat, a: nat, d: nat, e: nat, m: nat, amounts: int, debts: int, pendings: int, residues: int)
    requires e * p + m == a * acc
    requires p * pendings == acc * amounts - p * debts - residues
    ensures p * (e - d + pendings) == acc * (a + amounts) - p * (d + debts) - (m + residues)
  {
    assert p * (e - d + pendings) == e * p - p * d + p * pendings;
    assert acc * (a + amounts) == a * acc + acc * amounts;
    assert p * (d + debts) == p * d + p * debts;
  }

  /** What flooring every open claim separately drops, all users together. */
  ghost function Residues(pool: StakePool, us: map<UserKey, UserInfo>): int {
    SumBy(us, (user: UserInfo) => Residue(pool, user.amount))
  }

  ghost function Pendings(pool: StakePool, us: map<UserKey, UserInfo>): int {
    SumBy(us, user => Pending(pool, user))
  }

  /** The pending rewards are the scaled claims together, less what flooring each of them drops. */
  lemma {:induction false} PendingsAreClaims(us: map<UserKey, UserInfo>, pool: StakePool)
    ensures Scale(pool) * Pendings(pool, us) ==
            pool.acc * SumBy(us, AmountOf) - Scale(pool) * SumBy(us, DebtOf) - Residues(pool, us)
    ensures Residues(pool, us) >= 0
    decreases |us|
  {
    hide MulDiv, MulMod, Scale, SumBy;
    var p := Scale(pool);
    var pending, residue := user => Pending(pool, user), (user: UserInfo) => Residue(pool, user.amount);
    if us == map[] {
      SumEmpty<UserKey, UserInfo>(pending);
      SumEmpty<UserKey, UserInfo>(residue);
      SumEmpty<UserKey, UserInfo>(AmountOf);
      SumEmpty<UserKey, UserInfo>(DebtOf);
    } else {
      var key :| key in us;
      var rest, user := us - {key}, us[key];
      SumRemove(us, key, pending);
      SumRemove(us, key, residue);
      SumRemove(us, key, AmountOf);
      SumRemove(us, key, DebtOf);
      PendingsAreClaims(rest, pool);
      MulModIs(user.amount, pool.acc, p);
      ClaimStep(p, pool.acc, user.amount, user.debt, MulDiv(user.amount, pool.acc, p), MulMod(user.amount, pool.acc, p),
                SumBy(rest, AmountOf), SumBy(rest, DebtOf), SumBy(rest, pending), SumBy(rest, residue));
    }
  }

  /** What the pool has paid and owes, scaled and before flooring the open claims. */
  ghost function Liability(pool: StakePool, us: map<UserKey, UserInfo>, t: Tally): int {
    Scale(pool) * t.paid + (pool.acc * pool.totalStaked - Scale(pool) * SumBy(us, DebtOf))
  }

  lemma BooksAre(pool: StakePool, us: map<UserKey, UserInfo>, t: Tally, clock: u64)
    requires PoolInv(pool, us, t, clock)
    ensures Liability(pool, us, t) + t.forfeited == Scale(pool) * Rewards(t.log) + t.dust - Lost(t.log, Scale(pool))
    ensures 0 - (Scale(pool) - 1) * t.settlements <= t.dust <= (Scale(pool) - 1) * t.raised && t.raised <= t.resets
    ensures t.forfeited >= 0 && Lost(t.log, Scale(pool)) + |t.log| <= Stakes(t.log)
    ensures pool.totalStaked == SumBy(us, AmountOf)
  {
    hide Emitted, AllMarked, Pow10, Rewards, Lost, Stakes, SumBy;
    LostBound(t.log, Scale(pool));
  }

  /** `p * x <= p * y + (p - 1) * n` leaves `x` at most `y + n`. */
  lemma Unscaled(p: nat, x: int, y: nat, n: nat)
    requires p > 0
    requires p * x <= p * y + (p - 1) * n
    ensures x <= y + n
  {
    var z := y + n;
    assert p * z == p * y + (p - 1) * n + n;
    if x > z {
      assert p * x == p * z + p * (x - z);
      assert p * (x - z) >= p by { MulMono(1, x - z, p); }
      assert false;
    }
  }

  /** Solvency. The scaled books are exact. So what was paid plus everything still pending is covered by
      the rewards shared out, up to less than one unit for each debt reset that raised a remainder. */
  lemma Solvency(w: World, id: u64)
    requires WorldInv(w) && id in w.state.pools
    ensures var pool, us, t := w.state.pools[id], UsersOf(w.state.users, id), w.tallies[id];
            var p := Scale(pool);
            && Liability(pool, us, t) + t.forfeited == p * Rewards(t.log) + t.dust - Lost(t.log, p)
            && Liability(pool, us, t) <= p * Rewards(t.log) + (p - 1) * t.raised
            && t.paid + Pendings(pool, us) <= Rewards(t.log) + t.raised
            && t.raised <= t.resets
  {
    hide PoolInv, Scale, Pendings, Residues, SumBy, UsersOf;
    assert PoolOk(w, id);
    var pool, us, t := w.state.pools[id], UsersOf(w.state.users, id), w.tallies[id];
    var p := Scale(pool);
    BooksAre(pool, us, t, w.clock);
    PendingsAreClaims(us, pool);
    assert p * (t.paid + Pendings(pool, us)) == p * t.paid + p * Pendings(pool, us);
    Unscaled(p, t.paid + Pendings(pool, us), Rewards(t.log), t.raised);
  }

  // ----- strict solvency -----

  lemma ScaledOrder(p: nat, x: int, y: int)
    requires p > 0
    ensures p * x <= p * y <==> x <= y
  {
    assert p * y - p * x == p * (y - x);
    if x <= y {
      MulMono(0, y - x, p);
    } else {
      assert p * (x - y) >= p by { MulMono(1, x - y, p); }
    }
  }

  /** Exactly when nobody can be left unpaid for rounding: when the dust of all debt resets is covered by what
      the accruals lost, what was forfeited, and what flooring the open claims drops. */
  lemma StrictSolvencyExactly(w: World, id: u64)
    requires WorldInv(w) && id in w.state.pools
    ensures var pool, us, t := w.state.pools[id], UsersOf(w.state.users, id), w.tallies[id];
            t.paid + Pendings(pool, us) <= Rewards(t.log) <==>
            t.dust <= Lost(t.log, Scale(pool)) + t.forfeited + Residues(pool, us)
  {
    hide PoolInv, Scale, Pendings, Residues, SumBy, UsersOf;
    assert PoolOk(w, id);
    var pool, us, t := w.state.pools[id], UsersOf(w.state.users, id), w.tallies[id];
    var p := Scale(pool);
    BooksAre(pool, us, t, w.clock);
    PendingsAreClaims(us, pool);
    assert p * (t.paid + Pendings(pool, us)) == p * t.paid + p * Pendings(pool, us);
    ScaledOrder(p, t.paid + Pendings(pool, us), Rewards(t.log));
  }

  /** What a caller can compute before a deposit or withdrawal: whether the remainder of the stake's scaled
      earnings goes up. */
  predicate Raises(s: State, e: Event, id: u64) {
    && (e.call.Deposit? || e.call.Withdraw?) && e.call.id == id
    && Respond(s, e).Ok?
    && CurrentPool(s, e.now, id).Ok?
    && var pool, user := CurrentPool(s, e.now, id).value, UserOf(s, e.caller, id);
       Residue(pool, NewAmount(user, e.call)) > Residue(pool, user.amount)
  }

  lemma SettlementObserved(w: World, e: Event, id: u64)
    requires WorldInv(w) && w.clock <= e.now
    requires (e.call.Deposit? || e.call.Withdraw?) && Respond(w.state, e).Ok? && e.call.id == id
    ensures id in w.state.pools && id in w.tallies && CurrentPool(w.state, e.now, id).Ok?
    ensures id in Exec(w, e).state.pools && id in Exec(w, e).tallies
    ensures var pool, user := CurrentPool(w.state, e.now, id).value, UserOf(w.state, e.caller, id);
            && UpdatePool(w.state.pools[id], e.now) == Ok(pool)
            && Scale(Exec(w, e).state.pools[id]) == Scale(pool)
            && Exec(w, e).tallies[id] ==
               ObserveSettlement(ObserveUpdate(w.tallies[id], w.state.pools[id], e.now), pool, user,
                                 NewAmount(user, e.call), TagOf(e.caller))
  {
    hide PoolOk, UpdatePool, ObserveUpdate, ObserveSettlement, Earned, DepositCalls, WithdrawCalls, Pending;
    if e.call.Deposit? {
      DepositDid(w.state, e.now, e.caller, e.call.amount, id);
    } else {
      WithdrawDid(w.state, e.now, e.caller, e.call.amount, id);
    }
  }

  /** One settlement moves the scaled liability by exactly the change of the remainder; so it raises the
      liability exactly when it raises the remainder. */
  lemma SettlementMovesLiability(w: World, e: Event, id: u64)
    requires WorldInv(w) && w.clock <= e.now && w.state.index + 1 < TWO_64
    requires (e.call.Deposit? || e.call.Withdraw?) && Respond(w.state, e).Ok? && e.call.id == id
    ensures id in w.state.pools && CurrentPool(w.state, e.now, id).Ok?
    ensures id in Exec(w, e).state.pools && id in Exec(w, e).tallies
    ensures var w', pool, user := Exec(w, e), CurrentPool(w.state, e.now, id).value, UserOf(w.state, e.caller, id);
            var before := Liability(pool, UsersOf(w.state.users, id), w.tallies[id]);
            var after := Liability(w'.state.pools[id], UsersOf(w'.state.users, id), w'.tallies[id]);
            && after - before == Residue(pool, NewAmount(user, e.call)) - Residue(pool, user.amount)
            && (after > before <==> Raises(w.state, e, id))
  {
    hide PoolInv, UpdatePool, Scale, Residue, SumBy, Rewards, Lost, UsersOf, Exec, Respond, CurrentPool, UserOf;
    SettlementObserved(w, e, id);
    assert PoolOk(w, id);
    var us, t := UsersOf(w.state.users, id), w.tallies[id];
    UpdateKeeps(w.state.pools[id], us, t, w.clock, e.now);
    var pool, t1 := UpdatePool(w.state.pools[id], e.now).value, ObserveUpdate(t, w.state.pools[id], e.now);
    BooksAre(pool, us, t1, e.now);
    ExecKeeps(w, e);
    var w' := Exec(w, e);
    assert PoolOk(w', id);
    BooksAre(w'.state.pools[id], UsersOf(w'.state.users, id), w'.tallies[id], w'.clock);
  }

  function Raised(w: World, id: u64): nat {
    if id in w.tallies then w.tallies[id].raised else 0
  }

  lemma RaisedStep(w: World, e: Event, id: u64)
    requires WorldInv(w) && w.clock <= e.now
    ensures Raised(Exec(w, e), id) == Raised(w, id) + if Raises(w.state, e, id) then 1 else 0
  {
    hide PoolOk, UpdatePool, Earned, DepositCalls, WithdrawCalls, Pending, Residue, Refund;
    if (e.call.Deposit? || e.call.Withdraw?) && Respond(w.state, e).Ok? && e.call.id == id {
      SettlementObserved(w, e, id);
    }
  }

  /** No settlement of the run raises a remainder in pool `id`. */
  ghost predicate Careful(w: World, es: seq<Event>, id: u64)
    decreases |es|
  {
    es != [] ==> !Raises(w.state, es[0], id) && Careful(Exec(w, es[0]), es[1..], id)
  }

  lemma {:induction false} CarefulRun(w: World, es: seq<Event>, id: u64)
    requires WorldInv(w) && InOrder(w.clock, es) && w.state.index + |es| < TWO_64
    ensures Raised(Run(w, es), id) == Raised(w, id) <==> Careful(w, es, id)
    ensures Raised(Run(w, es), id) >= Raised(w, id)
    decreases |es|
  {
    hide WorldInv, Exec, Raised, Raises;
    if es != [] {
      RaisedStep(w, es[0], id);
      ExecKeeps(w, es[0]);
      CarefulRun(Exec(w, es[0]), es[1..], id);
    }
  }

  /** Over every run whose settlements all keep the remainder down, a pool is strictly solvent: payments and
      pending rewards together stay within the rewards shared out, and so within the pool's reward. */
  lemma CarefulIsSolvent(admin: Hash32, es: seq<Event>, id: u64)
    requires InOrder(0, es) && |es| < TWO_64
    requires Careful(Genesis(admin), es, id)
    requires id in Run(Genesis(admin), es).state.pools
    ensures id in Run(Genesis(admin), es).tallies
    ensures var w := Run(Genesis(admin), es);
            var pool, t := w.state.pools[id], w.tallies[id];
            t.paid + Pendings(pool, UsersOf(w.state.users, id)) <= Rewards(t.log) <= pool.totalReward
  {
    hide PoolOk, Run, Rewards, Pendings, UsersOf, Careful, Liability;
    HoldsAfterEveryRun(admin, es);
    CarefulRun(Genesis(admin), es, id);
    Solvency(Run(Genesis(admin), es), id);
    EmissionBound(Run(Genesis(admin), es), id);
  }

  // ----- emission -----

  lemma ReachedWithin(pool: StakePool, t: Tally)
    requires Regular(pool) && Emission(pool, t)
    ensures t.covered <= Reached(pool, pool.last) <= pool.end - pool.start <= t.span
  {
  }

  /** Emission is bounded by elapsed emission time, a stop after the start conserves it, and the accumulator
      stays within the scaled reward. A pool without a start before its end shares out all or nothing. */
  lemma EmissionBound(w: World, id: u64)
    requires WorldInv(w) && id in w.state.pools
    ensures var pool, t := w.state.pools[id], w.tallies[id];
            && Rewards(t.log) <= pool.totalReward && t.refund <= pool.totalReward
            && pool.acc <= Scale(pool) * Rewards(t.log) <= Scale(pool) * pool.totalReward
            && (Regular(pool) ==>
                  && Rewards(t.log) * t.span <= pool.totalReward * Reached(pool, pool.last)
                  && Rewards(t.log) + t.refund <= pool.totalReward)
            && (!Regular(pool) ==>
                  && (Rewards(t.log) == 0 || Rewards(t.log) == pool.totalReward)
                  && t.refund == if t.stopped then pool.totalReward else 0)
  {
    assert PoolOk(w, id);
    PoolEmissionBound(w.state.pools[id], UsersOf(w.state.users, id), w.tallies[id], w.clock);
  }

  lemma EmissionArith(r: nat, u: nat, covered: nat, reached: nat, lasted: nat, span: nat, refund: nat)
    requires span > 0
    requires u * span <= r * covered
    requires covered <= reached <= lasted <= span
    requires refund * span <= r * (span - lasted)
    ensures u * span <= r * reached
    ensures u + refund <= r
  {
    MulMono(covered, reached, r);
    MulMono(reached, lasted, r);
    assert (u + refund) * span == u * span + refund * span;
    assert r * lasted + r * (span - lasted) == r * span;
    MulCancel(u + refund, r, span);
  }

  lemma PoolEmissionBound(pool: StakePool, us: map<UserKey, UserInfo>, t: Tally, clock: u64)
    requires PoolInv(pool, us, t, clock)
    ensures Rewards(t.log) <= pool.totalReward && t.refund <= pool.totalReward
    ensures pool.acc <= Scale(pool) * Rewards(t.log) <= Scale(pool) * pool.totalReward
    ensures Regular(pool) ==>
              && Rewards(t.log) * t.span <= pool.totalReward * Reached(pool, pool.last)
              && Rewards(t.log) + t.refund <= pool.totalReward
    ensures !Regular(pool) ==>
              && (Rewards(t.log) == 0 || Rewards(t.log) == pool.totalReward)
              && t.refund == if t.stopped then pool.totalReward else 0
  {
    hide Balanced, AllMarked, MulDiv, Pow10;
    EmittedWithin(pool, t);
    AccOfBound(t.log, Scale(pool));
    MulMono(Rewards(t.log), pool.totalReward, Scale(pool));
  }

  lemma EmittedWithin(pool: StakePool, t: Tally)
    requires Emitted(pool, t)
    ensures Rewards(t.log) <= pool.totalReward && t.refund <= pool.totalReward
    ensures Regular(pool) ==>
              && Rewards(t.log) * t.span <= pool.totalReward * Reached(pool, pool.last)
              && Rewards(t.log) + t.refund <= pool.totalReward
  {
    hide Rewards;
    if Regular(pool) {
      ReachedWithin(pool, t);
      EmissionArith(pool.totalReward, Rewards(t.log), t.covered, Reached(pool, pool.last), pool.end - pool.start, t.span, t.refund);
    }
  }

  /** Only a stop of the pool touches its refund. */
  lemma RefundAfter(w: World, e: Event, id: u64)
    requires WorldInv(w) && id in w.state.pools
    ensures id in Exec(w, e).tallies
    ensures var t, t' := w.tallies[id], Exec(w, e).tallies[id];
            (t'.stopped == t.stopped && t'.refund == t.refund) || (e.call.StopReward? && Respond(w.state, e).Ok? && e.call.id == id)
  {
    hide Respond, CurrentPool, Refund, PoolOk, Residue, Pending, UserOf;
  }

  /** All an event can do to an existing pool: bring it up to date or not, change its stake, or stop it. */
  lemma PoolAfter(w: World, e: Event, id: u64)
    requires WorldInv(w) && id in w.state.pools
    ensures id in Exec(w, e).state.pools && id in Exec(w, e).tallies
    ensures var pool, after := w.state.pools[id], Exec(w, e).state.pools[id];
            || after == pool.(totalStaked := after.totalStaked)
            || (UpdatePool(pool, e.now).Ok? &&
                var current := UpdatePool(pool, e.now).value;
                || after == current.(totalStaked := after.totalStaked)
                || (e.call.StopReward? && e.now < current.end && after == current.(end := e.now)))
    ensures var t, t' := w.tallies[id], Exec(w, e).tallies[id];
            (t'.stopped == t.stopped && t'.refund == t.refund) || (e.call.StopReward? && Respond(w.state, e).Ok? && e.call.id == id)
  {
    hide Earned, Refund, DepositCalls, WithdrawCalls, UpdatePool, PoolOk, ObserveAll, Pending;
    RefundAfter(w, e, id);
    if Respond(w.state, e).Ok? && OnPool(e.call) && e.call.id == id {
      match e.call
      case Deposit(amount, _) => DepositDid(w.state, e.now, e.caller, amount, id);
      case Withdraw(amount, _) => WithdrawDid(w.state, e.now, e.caller, amount, id);
      case StopReward(_) => StopDid(w.state, e.now, e.caller, id);
      case EmergencyWithdraw(_) =>
    }
  }

  // ----- nothing is lost -----

  /** With no stake left there is no debt left. */
  lemma NobodyOwes(pool: StakePool, us: map<UserKey, UserInfo>, t: Tally, clock: u64)
    requires PoolInv(pool, us, t, clock) && pool.totalStaked == 0
    ensures SumBy(us, DebtOf) == 0
  {
    hide PoolInv;
    forall key | key in us
      ensures DebtOf(us[key]) == 0
    {
      UserFacts(pool, us, t, clock, key);
    }
    SumZero(us, DebtOf);
  }

  /** Nothing is lost beyond counted dust. Once everyone has left, payments and forfeits are exactly the rewards
      shared out, plus the resets' dust, less what the accruals lost; in a regular pool whose emission is over,
      rewards and refund make up the whole reward less the idle time's part. */
  lemma NothingLost(w: World, id: u64)
    requires WorldInv(w) && id in w.state.pools && w.state.pools[id].totalStaked == 0
    ensures var pool, t := w.state.pools[id], w.tallies[id];
            var p, k := Scale(pool), |t.log|;
            && p * t.paid + t.forfeited == p * Rewards(t.log) + t.dust - Lost(t.log, p)
            && p * (t.paid + t.settlements) + t.forfeited + Stakes(t.log) >= p * Rewards(t.log) + k
            && (Regular(pool) && pool.last >= pool.end ==>
                  && t.idle <= t.span
                  && (Rewards(t.log) + k + t.refund + (if t.stopped then 1 else 0)) * t.span >= pool.totalReward * (t.span - t.idle))
  {
    hide AllMarked, MulDiv, Pow10, UsersOf, Rewards, Lost, Stakes, SumBy, Balanced;
    assert PoolOk(w, id);
    var pool, us, t := w.state.pools[id], UsersOf(w.state.users, id), w.tallies[id];
    NobodyOwes(pool, us, t, w.clock);
    BooksAre(pool, us, t, w.clock);
    assert pool.acc * 0 == 0 && Scale(pool) * 0 == 0;
    PaidArith(Scale(pool), t.paid, t.settlements, t.forfeited, t.dust, Rewards(t.log), Lost(t.log, Scale(pool)), Stakes(t.log), |t.log|);
    if Regular(pool) && pool.last >= pool.end {
      ReachedWithin(pool, t);
      EmittedArith(pool.totalReward, Rewards(t.log), |t.log|, t.refund, t.covered, t.idle, pool.end - pool.start, t.span, t.stopped);
    }
  }

  lemma PaidArith(p: nat, paid: int, settlements: nat, forfeited: int, dust: int, rewards: nat, lost: nat, stakes: nat, k: nat)
    requires p > 0
    requires p * paid + forfeited == p * rewards + dust - lost
    requires 0 - (p - 1) * settlements <= dust && lost + k <= stakes
    ensures p * (paid + settlements) + forfeited + stakes >= p * rewards + k
  {
    assert p * (paid + settlements) == p * paid + (p - 1) * settlements + settlements;
  }

  lemma EmittedArith(r: nat, u: nat, k: nat, refund: nat, covered: nat, idle: nat, lasted: nat, span: nat, stopped: bool)
    requires span > 0 && covered + idle == lasted <= span
    requires r * covered <= u * span + k * (span - 1)
    requires if stopped then r * (span - lasted) < refund * span + span else lasted == span
    ensures (u + k + refund + (if stopped then 1 else 0)) * span >= r * (span - idle)
  {
    assert r * (span - idle) == r * covered + r * (span - lasted);
    assert k * span == k * (span - 1) + k;
    var one := if stopped then 1 else 0;
    assert (u + k + refund + one) * span == u * span + k * span + refund * span + one * span;
  }

  lemma {:induction false} StakesWithin(log: seq<Accrual>, p: nat)
    requires forall i :: 0 <= i < |log| ==> log[i].staked <= p
    ensures Stakes(log) <= |log| * p
    decreases |log|
  {
    if log != [] {
      StakesWithin(log[..|log| - 1], p);
      assert |log| * p == (|log| - 1) * p + p;
    }
  }

  /** The dust bound the live-scenario tests sample: with no idle time, stop or forfeit, and stakes
      within the precision, at most two units per accrual and one per settlement are not paid. In a pool without
      a start before its end, "no idle time" is "somebody was there for the one accrual". */
  lemma NoRewardLost(w: World, id: u64)
    requires WorldInv(w) && id in w.state.pools && w.state.pools[id].totalStaked == 0
    requires var pool, t := w.state.pools[id], w.tallies[id];
             && (if Regular(pool) then pool.last >= pool.end && t.idle == 0 else t.log != [])
             && !t.stopped && t.forfeited == 0
             && forall i :: 0 <= i < |t.log| ==> t.log[i].staked <= Scale(pool)
    ensures var t := w.tallies[id]; t.paid >= w.state.pools[id].totalReward - 2 * |t.log| - t.settlements
  {
    hide AllMarked, MulDiv, Pow10, Balanced, UsersOf, Rewards, Stakes, Lost;
    assert PoolOk(w, id);
    var pool, t := w.state.pools[id], w.tallies[id];
    NothingLost(w, id);
    StakesWithin(t.log, Scale(pool));
    if Regular(pool) {
      MulCancel(pool.totalReward, Rewards(t.log) + |t.log|, t.span);
    }
    LossArith(Scale(pool), pool.totalReward, Rewards(t.log), |t.log|, t.settlements, t.paid, Stakes(t.log));
  }

  lemma LossArith(p: nat, r: nat, u: nat, k: nat, m: nat, paid: nat, stakes: nat)
    requires p > 0
    requires u + k >= r
    requires p * (paid + m) + stakes >= p * u + k
    requires stakes <= k * p
    ensures paid >= r - 2 * k - m
  {
    assert p * (paid + m + k) == p * (paid + m) + k * p;
    MulCancel(u, paid + m + k, p);
  }

  // ----- records -----

  lemma AccStep(w: World, e: Event, id: u64)
    requires WorldInv(w) && id in w.state.pools
    ensures id in Exec(w, e).state.pools && w.state.pools[id].acc <= Exec(w, e).state.pools[id].acc
  {
    hide PoolOk, Exec, UpdatePool;
    PoolAfter(w, e, id);
    if UpdatePool(w.state.pools[id], e.now).Ok? {
      UpdateCases(w.state.pools[id], e.now);
    }
  }

  /** The accumulator never falls, whatever happens. */
  lemma {:induction false} AccNeverFalls(w: World, es: seq<Event>, id: u64)
    requires WorldInv(w) && InOrder(w.clock, es) && w.state.index + |es| < TWO_64
    requires id in w.state.pools
    ensures id in Run(w, es).state.pools && w.state.pools[id].acc <= Run(w, es).state.pools[id].acc
    decreases |es|
  {
    hide PoolOk, Exec;
    if es != [] {
      AccStep(w, es[0], id);
      ExecKeeps(w, es[0]);
      AccNeverFalls(Exec(w, es[0]), es[1..], id);
    }
  }

  /** Every stored record: the pool total is the sum of the stakes, a debt is the floored earnings
      at an earlier accumulator, and no stake means no debt. */
  lemma RecordsConsistent(w: World, key: UserKey)
    requires WorldInv(w) && key in w.state.users
    ensures key.id in w.state.pools && key.id in w.tallies
    ensures var pool, us, user, t := w.state.pools[key.id], UsersOf(w.state.users, key.id), w.state.users[key], w.tallies[key.id];
            && pool.totalStaked == SumBy(us, AmountOf)
            && user.amount <= pool.totalStaked
            && Pending(pool, user) >= 0
            && (user.amount == 0 ==> user.debt == 0)
            && exists m: nat :: m <= |t.log| && AccOf(t.log[..m], Scale(pool)) <= pool.acc
                                && user.debt == MulDiv(user.amount, AccOf(t.log[..m], Scale(pool)), Scale(pool))
  {
    assert PoolOk(w, key.id);
    var pool, us, t := w.state.pools[key.id], UsersOf(w.state.users, key.id), w.tallies[key.id];
    UserFacts(pool, us, t, w.clock, key);
    assert Marked(t.log, t.marks, Scale(pool), key.tag, us[key]);
    AccOfMonotone(t.log, t.marks[key.tag], Scale(pool));
  }

  // ----- over every run -----

  /** After every run from deployment, every pool is solvent up to dust and has shared out no more than its
      reward; a pool with a start before its end has not emitted and refunded more than that together. */
  lemma EveryRun(admin: Hash32, es: seq<Event>, id: u64)
    requires InOrder(0, es) && |es| < TWO_64
    requires id in Run(Genesis(admin), es).state.pools
    ensures id in Run(Genesis(admin), es).tallies
    ensures var w := Run(Genesis(admin), es);
            var pool, us, t := w.state.pools[id], UsersOf(w.state.users, id), w.tallies[id];
            && t.paid + Pendings(pool, us) <= Rewards(t.log) + t.raised
            && Rewards(t.log) <= pool.totalReward
            && (Regular(pool) ==> Rewards(t.log) + t.refund <= pool.totalReward)
  {
    hide PoolOk, Run, Rewards, UsersOf, Pendings, Liability;
    HoldsAfterEveryRun(admin, es);
    var w := Run(Genesis(admin), es);
    Solvency(w, id);
    EmissionBound(w, id);
  }
}
