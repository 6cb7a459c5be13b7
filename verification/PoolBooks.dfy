/** The invariant of one pool and its history, and the steps that keep it. */
module PoolBooks {
  import opened Words
  import opened Arith
  import opened Sums
  import opened Pool
  import opened StakeModel
  import opened StakeHistory
  import opened StorageKeys

  // ----- what a log of accruals adds up to -----

  /** The accumulator after `log`, at scale `p`. */
  ghost function AccOf(log: seq<Accrual>, p: nat): nat {
    if log == [] then 0
    else
      var one := log[|log| - 1];
      AccOf(log[..|log| - 1], p) + if one.staked == 0 then 0 else MulDiv(one.reward, p, one.staked)
  }

  /** Total reward shared out (U). */
  ghost function Rewards(log: seq<Accrual>): nat {
    if log == [] then 0 else Rewards(log[..|log| - 1]) + log[|log| - 1].reward
  }

  /** Total of the stakes shared over. */
  ghost function Stakes(log: seq<Accrual>): nat {
    if log == [] then 0 else Stakes(log[..|log| - 1]) + log[|log| - 1].staked
  }

  /** What rounding the accruals down kept from the stakers, at scale `p`. */
  ghost function Lost(log: seq<Accrual>, p: nat): nat {
    if log == [] then 0
    else
      var one := log[|log| - 1];
      Lost(log[..|log| - 1], p) + if one.staked == 0 then 0 else MulMod(one.reward, p, one.staked)
  }

  ghost predicate Positive(log: seq<Accrual>) {
    forall i :: 0 <= i < |log| ==> log[i].staked > 0
  }

  lemma {:induction false} AccOfMonotone(log: seq<Accrual>, m: nat, p: nat)
    requires m <= |log|
    ensures AccOf(log[..m], p) <= AccOf(log, p)
    decreases |log|
  {
    if m < |log| {
      AccOfMonotone(log[..|log| - 1], m, p);
      assert log[..|log| - 1][..m] == log[..m];
    } else {
      assert log[..m] == log;
    }
  }

  /** The accumulator never exceeds the scaled reward. */
  lemma {:induction false} AccOfBound(log: seq<Accrual>, p: nat)
    ensures AccOf(log, p) <= p * Rewards(log)
    decreases |log|
  {
    if log != [] {
      var one := log[|log| - 1];
      var front := log[..|log| - 1];
      AccOfBound(front, p);
      assert p * (Rewards(front) + one.reward) == p * Rewards(front) + p * one.reward;
      if one.staked > 0 {
        GainBound(one.reward, p, one.staked);
      }
    }
  }

  /** Each accrual loses less than its stake. */
  lemma {:induction false} LostBound(log: seq<Accrual>, p: nat)
    requires Positive(log)
    ensures Lost(log, p) + |log| <= Stakes(log)
    decreases |log|
  {
    if log != [] {
      LostBound(log[..|log| - 1], p);
    }
  }

  lemma GainBound(r: nat, p: nat, staked: nat)
    requires staked > 0
    ensures MulDiv(r, p, staked) <= p * r
  {
    MulDivBounds(r, p, staked);
    MulMono(1, staked, MulDiv(r, p, staked));
  }

  // ----- the invariant -----

  function AmountOf(user: UserInfo): int {
    user.amount
  }

  function DebtOf(user: UserInfo): int {
    user.debt
  }

  function UsersOf(users: map<UserKey, UserInfo>, id: u64): map<UserKey, UserInfo> {
    map key | key in users && key.id == id :: users[key]
  }

  /** `debt = floor(amount * accThen / p)` for the accumulator as it was at the user's mark. */
  ghost predicate Marked(log: seq<Accrual>, marks: map<Tag, nat>, p: nat, tag: Tag, user: UserInfo)
    requires p > 0
  {
    && tag in marks
    && marks[tag] <= |log|
    && user.debt == MulDiv(user.amount, AccOf(log[..marks[tag]], p), p)
  }

  ghost predicate AllMarked(us: map<UserKey, UserInfo>, log: seq<Accrual>, marks: map<Tag, nat>, p: nat)
    requires p > 0
  {
    forall key :: key in us ==> Marked(log, marks, p, key.tag, us[key])
  }

  /** The exact scaled books: payments, open claims and forfeits are the rewards shared out, plus the dust
      that debt resets rounded away, less what the accruals lost. Each reset that raised a remainder adds
      less than one unit of dust, each settlement takes less than one away. */
  ghost predicate Balanced(p: nat, acc: nat, staked: nat, debts: int, t: Tally)
    requires p > 0
  {
    && p * t.paid + acc * staked - p * debts + t.forfeited == p * Rewards(t.log) + t.dust - Lost(t.log, p)
    && 0 - (p - 1) * t.settlements <= t.dust <= (p - 1) * t.raised
    && t.raised <= t.resets
  }

  predicate Regular(pool: StakePool) {
    pool.start < pool.end
  }

  /** The emission accounts of a pool with a start before its end. */
  ghost predicate Emission(pool: StakePool, t: Tally)
    requires Regular(pool)
  {
    var r := pool.totalReward;
    && t.span > 0
    && t.covered + t.idle == Reached(pool, pool.last)
    && Rewards(t.log) * t.span <= r * t.covered <= Rewards(t.log) * t.span + |t.log| * (t.span - 1)
    && (!t.stopped ==> t.span == pool.end - pool.start && t.refund == 0)
    && (t.stopped ==>
          && pool.end < pool.start + t.span
          && pool.last >= pool.end
          && t.refund * t.span <= r * (pool.start + t.span - pool.end) < t.refund * t.span + t.span)
  }

  /** The emission accounts of any other pool, created that way or stopped at or before its start: it
      shares out nothing, or everything at once. */
  ghost predicate Lump(pool: StakePool, t: Tally) {
    && (Rewards(t.log) == 0 || (Rewards(t.log) == pool.totalReward && pool.last > pool.end))
    && t.refund == (if t.stopped then pool.totalReward else 0)
    && (t.stopped ==> pool.last >= pool.end)
    && (!t.stopped && t.log != [] ==> Rewards(t.log) == pool.totalReward)
  }

  ghost predicate Emitted(pool: StakePool, t: Tally) {
    if Regular(pool) then Emission(pool, t) else Lump(pool, t)
  }

  ghost predicate PoolInv(pool: StakePool, us: map<UserKey, UserInfo>, t: Tally, clock: u64) {
    var p := Scale(pool);
    && 18 <= pool.precision <= 36
    && pool.totalReward > 0
    && pool.last <= clock
    && t.paid >= 0 && t.forfeited >= 0
    && pool.acc == AccOf(t.log, p)
    && Positive(t.log)
    && pool.totalStaked == SumBy(us, AmountOf)
    && AllMarked(us, t.log, t.marks, p)
    && Balanced(p, pool.acc, pool.totalStaked, SumBy(us, DebtOf), t)
    && Emitted(pool, t)
  }

  // ----- an update keeps it -----

  /** The three ways an update can go. */
  lemma UpdateCases(pool: StakePool, now: u64)
    requires UpdatePool(pool, now).Ok?
    ensures UpdatePool(pool, now).value ==
            if Accrues(pool, now) then
              pool.(acc := pool.acc + MulDiv(IntervalReward(pool, now), Scale(pool), pool.totalStaked), last := now)
            else if SkipsTo(pool, now) then pool.(last := now)
            else pool
  {
  }

  lemma LogGrows(log: seq<Accrual>, one: Accrual, p: nat)
    requires one.staked > 0
    ensures AccOf(log + [one], p) == AccOf(log, p) + MulDiv(one.reward, p, one.staked)
    ensures Rewards(log + [one]) == Rewards(log) + one.reward
    ensures Stakes(log + [one]) == Stakes(log) + one.staked
    ensures Lost(log + [one], p) == Lost(log, p) + MulMod(one.reward, p, one.staked)
    ensures forall m :: 0 <= m <= |log| ==> (log + [one])[..m] == log[..m]
  {
  }

  /** Sharing `r` over `staked` raises the stakers' scaled claims by `p * r`, less the remainder. */
  lemma AccrualBalanced(p: nat, acc: nat, staked: nat, debts: int, t: Tally, t': Tally, r: nat)
    requires p > 0 && staked > 0
    requires Balanced(p, acc, staked, debts, t)
    requires t'.log == t.log + [Accrual(r, staked)]
    requires t' == t.(log := t'.log, covered := t'.covered)
    ensures Balanced(p, acc + MulDiv(r, p, staked), staked, debts, t')
  {
    hide MulDiv, MulMod, Rewards, Stakes, AccOf, Lost;
    LogGrows(t.log, Accrual(r, staked), p);
    MulModIs(r, p, staked);
    AccrualArith(p, acc, staked, MulDiv(r, p, staked), r, Rewards(t.log));
  }

  lemma AccrualArith(p: nat, acc: nat, staked: nat, q: nat, r: nat, rewards: nat)
    ensures (acc + q) * staked == acc * staked + q * staked
    ensures p * (rewards + r) == p * rewards + r * p
  {
  }

  lemma IdleBalanced(p: nat, acc: nat, staked: nat, debts: int, t: Tally, t': Tally)
    requires p > 0
    requires Balanced(p, acc, staked, debts, t)
    requires t' == t.(idle := t'.idle)
    ensures Balanced(p, acc, staked, debts, t')
  {
  }

  /** In a regular pool an accruing update unlocks exactly the emission time it passes. */
  lemma UnlockedIsPassed(pool: StakePool, now: u64)
    requires Regular(pool) && Accrues(pool, now)
    ensures Sub64(pool.end, pool.start) == pool.end - pool.start
    ensures Unlocked(pool, now) == Reached(pool, now) - Reached(pool, pool.last)
    ensures Unlocked(pool, now) == Min(now, pool.end) - Max(pool.start, pool.last)
  {
  }

  /** Rounding one interval's reward down keeps the two-sided emission bound. */
  lemma EmissionStep(total: nat, covered: nat, u: nat, rewards: nat, r: nat, span: nat, k: nat)
    requires span > 0
    requires rewards * span <= total * covered <= rewards * span + k * (span - 1)
    requires r * span <= u * total < r * span + span
    ensures (rewards + r) * span <= total * (covered + u) <= (rewards + r) * span + (k + 1) * (span - 1)
  {
    assert (rewards + r) * span == rewards * span + r * span;
    assert total * (covered + u) == total * covered + u * total;
    assert (k + 1) * (span - 1) == k * (span - 1) + (span - 1);
  }

  lemma AccrualKeepsEmission(pool: StakePool, t: Tally, now: u64)
    requires Regular(pool) && Emission(pool, t) && Accrues(pool, now)
    ensures var t' := ObserveUpdate(t, pool, now);
            Rewards(t'.log) * t.span <= pool.totalReward * t'.covered <= Rewards(t'.log) * t.span + |t'.log| * (t.span - 1)
  {
    var u := Unlocked(pool, now);
    var r := IntervalReward(pool, now);
    UnlockedIsPassed(pool, now);
    LogGrows(t.log, Accrual(r, pool.totalStaked), 1);
    if t.stopped {
      assert u == 0;
      ZeroShare(pool.totalReward, pool.end - pool.start);
      ZeroShare(pool.totalReward, t.span);
    } else {
      MulDivBounds(u, pool.totalReward, t.span);
    }
    EmissionStep(pool.totalReward, t.covered, u, Rewards(t.log), r, t.span, |t.log|);
  }

  lemma ZeroShare(b: nat, d: nat)
    requires d > 0
    ensures MulDiv(0, b, d) == 0
  {
  }

  /** In a pool that is not regular the unlocked time is the whole duration, both wrapped the same way. */
  lemma LumpShare(pool: StakePool, now: u64)
    requires pool.start > pool.end && Accrues(pool, now)
    ensures IntervalReward(pool, now) == pool.totalReward
  {
    var d := Sub64(pool.end, pool.start);
    assert Unlocked(pool, now) == d;
    assert d > 0;
    QuotientIs(d * pool.totalReward, d, pool.totalReward);
  }

  lemma LumpStep(pool: StakePool, pool': StakePool, t: Tally, now: u64)
    requires pool.start > pool.end && Lump(pool, t) && Accrues(pool, now)
    requires pool' == pool.(acc := pool'.acc, last := now)
    ensures Lump(pool', ObserveUpdate(t, pool, now))
  {
    LumpShare(pool, now);
    LogGrows(t.log, Accrual(IntervalReward(pool, now), pool.totalStaked), 1);
  }

  lemma UpdateKeepsEmission(pool: StakePool, pool': StakePool, t: Tally, now: u64)
    requires Emitted(pool, t)
    requires Accrues(pool, now) ==> pool.start != pool.end
    requires pool' == pool.(acc := pool'.acc, last := if Accrues(pool, now) || SkipsTo(pool, now) then now else pool.last)
    ensures Emitted(pool', ObserveUpdate(t, pool, now))
  {
    hide IntervalReward, Unlocked;
    if Accrues(pool, now) {
      if Regular(pool) {
        UnlockedIsPassed(pool, now);
        AccrualKeepsEmission(pool, t, now);
      } else {
        LumpStep(pool, pool', t, now);
      }
    }
  }

  /** A pool whose start and end agree cannot accrue: the division panics. */
  lemma NoDuration(pool: StakePool, now: u64)
    requires Accrues(pool, now) && pool.start == pool.end
    ensures UpdatePool(pool, now) == Revert(Panic)
  {
  }

  lemma MarksSurvive(us: map<UserKey, UserInfo>, log: seq<Accrual>, one: Accrual, marks: map<Tag, nat>, p: nat)
    requires p > 0
    requires AllMarked(us, log, marks, p)
    ensures AllMarked(us, log + [one], marks, p)
  {
    forall key | key in us
      ensures Marked(log + [one], marks, p, key.tag, us[key])
    {
      assert Marked(log, marks, p, key.tag, us[key]);
      assert (log + [one])[..marks[key.tag]] == log[..marks[key.tag]];
    }
  }

  lemma UpdateKeeps(pool: StakePool, us: map<UserKey, UserInfo>, t: Tally, clock: u64, now: u64)
    requires PoolInv(pool, us, t, clock)
    requires clock <= now
    requires UpdatePool(pool, now).Ok?
    ensures PoolInv(UpdatePool(pool, now).value, us, ObserveUpdate(t, pool, now), now)
  {
    hide Balanced, Emitted, UpdatePool, AllMarked, MulDiv, Pow10, IntervalReward, Unlocked, Reached;
    var pool' := UpdatePool(pool, now).value;
    var t' := ObserveUpdate(t, pool, now);
    var p := Scale(pool);
    UpdateCases(pool, now);
    if Accrues(pool, now) {
      var one := Accrual(IntervalReward(pool, now), pool.totalStaked);
      LogGrows(t.log, one, p);
      MarksSurvive(us, t.log, one, t.marks, p);
      AccrualBalanced(p, pool.acc, pool.totalStaked, SumBy(us, DebtOf), t, t', one.reward);
    } else {
      IdleBalanced(p, pool.acc, pool.totalStaked, SumBy(us, DebtOf), t, t');
    }
    if Accrues(pool, now) && pool.start == pool.end {
      NoDuration(pool, now);
    }
    UpdateKeepsEmission(pool, pool', t, now);
  }

  // ----- a settlement, an emergency withdrawal and a stop keep it -----

  /** The record of `caller`, or the empty one. */
  function RecordOf(us: map<UserKey, UserInfo>, key: UserKey): UserInfo {
    if key in us then us[key] else UserInfo(0, 0)
  }

  /** What the invariant says about one user: stake within the total, debt within the earnings,
      and no debt without stake. */
  lemma UserFacts(pool: StakePool, us: map<UserKey, UserInfo>, t: Tally, clock: u64, key: UserKey)
    requires PoolInv(pool, us, t, clock)
    ensures var user := RecordOf(us, key);
            && user.amount <= pool.totalStaked
            && user.debt <= MulDiv(user.amount, pool.acc, Scale(pool))
            && (user.amount == 0 ==> user.debt == 0)
  {
    var p := Scale(pool);
    if key in us {
      var user := us[key];
      SumAtLeast(us, key, AmountOf);
      var before := AccOf(t.log[..t.marks[key.tag]], p);
      AccOfMonotone(t.log, t.marks[key.tag], p);
      MulDivComm(user.amount, before, p);
      MulDivComm(user.amount, pool.acc, p);
      MulDivMono(before, pool.acc, user.amount, p);
    }
    ZeroShare(pool.acc, p);
  }

  lemma ScaleFits(pool: StakePool, us: map<UserKey, UserInfo>, t: Tally, clock: u64)
    requires PoolInv(pool, us, t, clock)
    ensures 10 <= Scale(pool) < TWO_256
    ensures pool.totalReward > 0
  {
    assert Scale(pool) == 10 * Pow10(pool.precision - 1);
    PowMono(pool.precision, 36);
    PowsOfTen();
  }

  lemma SettlementArith(p: nat, acc: nat, staked: nat, debts: int, a: nat, d: nat, a': nat, e: nat, e': nat, m: nat, m': nat, paid: int)
    requires e * p + m == a * acc && e' * p + m' == a' * acc
    ensures p * (paid + (e - d)) + acc * (staked - a + a') - p * (debts - d + e') ==
            p * paid + acc * staked - p * debts + (m' - m)
  {
    assert acc * (staked - a + a') == acc * staked - a * acc + a' * acc;
    assert p * (paid + (e - d)) == p * paid + e * p - p * d;
    assert p * (debts - d + e') == p * debts - p * d + e' * p;
  }

  /** A settlement moves the books by exactly the change of the remainder. */
  lemma SettlementBalanced(p: nat, acc: nat, staked: nat, debts: int, t: Tally, a: nat, d: nat, a': nat, t': Tally)
    requires p > 0 && a <= staked
    requires Balanced(p, acc, staked, debts, t)
    requires t' == t.(paid := t.paid + (MulDiv(a, acc, p) - d),
                      resets := t.resets + 1,
                      settlements := t.settlements + (if a > 0 then 1 else 0),
                      dust := t.dust + (MulMod(a', acc, p) - MulMod(a, acc, p)),
                      raised := t.raised + (if MulMod(a', acc, p) > MulMod(a, acc, p) then 1 else 0),
                      marks := t'.marks)
    ensures Balanced(p, acc, staked - a + a', debts - d + MulDiv(a', acc, p), t')
  {
    hide MulDiv, MulMod, Rewards, Lost;
    MulModIs(a, acc, p);
    MulModIs(a', acc, p);
    NothingDropped(acc, p);
    SettlementArith(p, acc, staked, debts, a, d, a', MulDiv(a, acc, p), MulDiv(a', acc, p),
                    MulMod(a, acc, p), MulMod(a', acc, p), t.paid);
    OneMore(p, t.raised);
    OneMore(p, t.settlements);
  }

  lemma NothingDropped(acc: nat, p: nat)
    requires p > 0
    ensures MulMod(0, acc, p) == 0
  {
  }

  lemma OneMore(p: nat, n: nat)
    requires p > 0
    ensures (p - 1) * (n + 1) == (p - 1) * n + (p - 1)
  {
  }

  /** Re-marking one user at the end of the log. */
  lemma Remarked(us: map<UserKey, UserInfo>, log: seq<Accrual>, marks: map<Tag, nat>, p: nat, key: UserKey, user: UserInfo)
    requires p > 0
    requires AllMarked(us, log, marks, p)
    requires forall k :: k in us ==> k.id == key.id
    requires user.debt == MulDiv(user.amount, AccOf(log, p), p)
    ensures AllMarked(us[key := user], log, marks[key.tag := |log|], p)
  {
    var us', marks' := us[key := user], marks[key.tag := |log|];
    assert log[..|log|] == log;
    forall k | k in us'
      ensures Marked(log, marks', p, k.tag, us'[k])
    {
      if k != key {
        assert k.tag != key.tag;
        assert Marked(log, marks, p, k.tag, us[k]);
      }
    }
  }

  /** The emission accounts look at neither stakes nor payments. */
  lemma EmissionFrame(pool: StakePool, pool': StakePool, t: Tally, t': Tally)
    requires Emitted(pool, t)
    requires pool' == pool.(totalStaked := pool'.totalStaked)
    requires t' == t.(marks := t'.marks, paid := t'.paid, resets := t'.resets, settlements := t'.settlements,
                      dust := t'.dust, raised := t'.raised, forfeited := t'.forfeited)
    ensures Emitted(pool', t')
  {
  }

  /** A user's settlement: the pool total follows the new amount, the debt is reset. */
  lemma SettlementKeeps(pool: StakePool, us: map<UserKey, UserInfo>, t: Tally, now: u64, key: UserKey, after: UserInfo, staked: u256)
    requires PoolInv(pool, us, t, now)
    requires forall k :: k in us ==> k.id == key.id
    requires staked == pool.totalStaked - RecordOf(us, key).amount + after.amount
    requires after.debt == MulDiv(after.amount, pool.acc, Scale(pool))
    ensures PoolInv(pool.(totalStaked := staked), us[key := after], ObserveSettlement(t, pool, RecordOf(us, key), after.amount, key.tag), now)
  {
    hide Balanced, Emitted, AllMarked, MulDiv, MulMod, Pow10;
    var user := RecordOf(us, key);
    var p := Scale(pool);
    var t' := ObserveSettlement(t, pool, user, after.amount, key.tag);
    UserFacts(pool, us, t, now, key);
    SumUpdate(us, key, after, AmountOf);
    SumUpdate(us, key, after, DebtOf);
    Remarked(us, t.log, t.marks, p, key, after);
    EmissionFrame(pool, pool.(totalStaked := staked), t, t');
    assert Balanced(p, pool.acc, staked, SumBy(us[key := after], DebtOf), t') by {
      SettlementBalanced(p, pool.acc, pool.totalStaked, SumBy(us, DebtOf), t, user.amount, user.debt, after.amount, t');
    }
  }

  lemma EmergencyBalanced(p: nat, acc: nat, staked: nat, debts: int, t: Tally, a: nat, d: nat, t': Tally)
    requires p > 0 && a <= staked
    requires Balanced(p, acc, staked, debts, t)
    requires t' == t.(forfeited := t.forfeited + (a * acc - p * d), marks := t'.marks)
    ensures Balanced(p, acc, staked - a, debts - d, t')
  {
    assert acc * (staked - a) == acc * staked - a * acc;
    assert p * (debts - d) == p * debts - p * d;
  }

  lemma ForfeitNonNegative(a: nat, acc: nat, p: nat, d: nat)
    requires p > 0 && d <= MulDiv(a, acc, p)
    ensures a * acc - p * d >= 0
  {
    MulDivBounds(a, acc, p);
    MulMono(d, MulDiv(a, acc, p), p);
  }

  lemma EmergencyKeeps(pool: StakePool, us: map<UserKey, UserInfo>, t: Tally, clock: u64, key: UserKey)
    requires PoolInv(pool, us, t, clock)
    requires forall k :: k in us ==> k.id == key.id
    requires RecordOf(us, key).amount <= pool.totalStaked
    ensures PoolInv(pool.(totalStaked := pool.totalStaked - RecordOf(us, key).amount), us[key := UserInfo(0, 0)],
                    ObserveEmergency(t, pool, RecordOf(us, key), key.tag), clock)
  {
    hide Balanced, Emitted, AllMarked, MulDiv, Pow10;
    var user := RecordOf(us, key);
    var p := Scale(pool);
    var t' := ObserveEmergency(t, pool, user, key.tag);
    var after := UserInfo(0, 0);
    UserFacts(pool, us, t, clock, key);
    ForfeitNonNegative(user.amount, pool.acc, p, user.debt);
    SumUpdate(us, key, after, AmountOf);
    SumUpdate(us, key, after, DebtOf);
    ZeroShare(pool.acc, p);
    Remarked(us, t.log, t.marks, p, key, after);
    EmissionFrame(pool, pool.(totalStaked := pool.totalStaked - user.amount), t, t');
    assert Balanced(p, pool.acc, pool.totalStaked - user.amount, SumBy(us[key := after], DebtOf), t') by {
      EmergencyBalanced(p, pool.acc, pool.totalStaked, SumBy(us, DebtOf), t, user.amount, user.debt, t');
    }
  }

  /** An update at block time leaves the pool's clock there, unless its emission is long over. */
  lemma UpdateReachesNow(pool: StakePool, us: map<UserKey, UserInfo>, t: Tally, clock: u64, now: u64)
    requires PoolInv(pool, us, t, clock)
    requires clock <= now < pool.end
    requires UpdatePool(pool, now).Ok?
    ensures UpdatePool(pool, now).value.last == now
  {
  }

  lemma RefundIs(pool: StakePool, now: u64)
    requires Refund(pool, now).Ok?
    ensures pool.start < now < pool.end ==> Refund(pool, now).value == MulDiv(pool.end - now, pool.totalReward, pool.end - pool.start)
  {
    if pool.start < now < pool.end {
      assert Sub64(pool.end, Max(now, pool.start)) == pool.end - now;
      assert Sub64(pool.end, pool.start) == pool.end - pool.start;
    }
  }

  lemma StopKeepsEmission(pool: StakePool, t: Tally, now: u64, refund: nat)
    requires Regular(pool) && Emission(pool, t)
    requires pool.last == now && pool.start < now < pool.end
    requires refund == MulDiv(pool.end - now, pool.totalReward, pool.end - pool.start)
    ensures Emission(pool.(end := now), ObserveStop(t, refund))
  {
    hide Rewards;
    MulDivBounds(pool.end - now, pool.totalReward, pool.end - pool.start);
  }

  /** A stop at or before the start refunds the whole reward. */
  lemma EarlyRefund(pool: StakePool, now: u64)
    requires now <= pool.start && Refund(pool, now).Ok?
    ensures Refund(pool, now).value == pool.totalReward
  {
    assert Max(now, pool.start) == pool.start;
    QuotientIs(Sub64(pool.end, pool.start) * pool.totalReward, Sub64(pool.end, pool.start), pool.totalReward);
  }

  lemma NothingEmitted(pool: StakePool, t: Tally)
    requires Regular(pool) && Emission(pool, t) && pool.last <= pool.start
    ensures Rewards(t.log) == 0 && !t.stopped
  {
    assert t.covered == 0;
    assert Rewards(t.log) * t.span <= 0;
    if Rewards(t.log) > 0 {
      MulMono(1, Rewards(t.log), t.span);
    }
  }

  lemma EarlyStopKeepsEmission(pool: StakePool, t: Tally, now: u64)
    requires Emitted(pool, t) && pool.last == now < pool.end
    requires now <= pool.start && Refund(pool, now).Ok?
    ensures Emitted(pool.(end := now), ObserveStop(t, Refund(pool, now).value))
  {
    hide Refund, Emission;
    EarlyRefund(pool, now);
    if Regular(pool) {
      NothingEmitted(pool, t);
      assert t.refund == 0 by { NeverRefunded(pool, t); }
    }
  }

  lemma NeverRefunded(pool: StakePool, t: Tally)
    requires Regular(pool) && Emission(pool, t) && !t.stopped
    ensures t.refund == 0
  {
  }

  lemma StopKeeps(pool: StakePool, us: map<UserKey, UserInfo>, t: Tally, now: u64)
    requires PoolInv(pool, us, t, now)
    requires pool.last == now < pool.end
    requires Refund(pool, now).Ok?
    ensures PoolInv(pool.(end := now), us, ObserveStop(t, Refund(pool, now).value), now)
  {
    hide Refund;
    if pool.start < now {
      RefundIs(pool, now);
      StopKeepsEmission(pool, t, now, Refund(pool, now).value);
    } else {
      EarlyStopKeepsEmission(pool, t, now);
    }
  }
}
