/** The one-number accumulator refines the plain rule: each accrual's reward is split among the
    stakers in proportion to their stake. */
module Fairness {
  import opened Words
  import opened Arith
  import opened Pool
  import opened StakeModel
  import opened StakeHistory
  import opened PoolBooks
  import opened StakeRuns
  import opened StorageKeys

  function Ratio(x: nat, d: nat): real
    requires d > 0
  {
    x as real / d as real
  }

  /** The plain rule, without rounding: what a constant stake of `a` is due from the accruals in `log`. */
  ghost function FairShare(a: nat, log: seq<Accrual>): real
    requires Positive(log)
  {
    if log == [] then 0.0
    else FairShare(a, log[..|log| - 1]) + Ratio(a * log[|log| - 1].reward, log[|log| - 1].staked)
  }

  lemma RatioIs(x: nat, d: nat)
    requires d > 0
    ensures Ratio(x, d) * d as real == x as real
  {
  }

  lemma RatioOrder(x: nat, d: nat, y: nat, c: nat)
    requires d > 0 && c > 0
    requires x * c <= y * d
    ensures Ratio(x, d) <= Ratio(y, c)
  {
    var u, v, rd, rc := Ratio(x, d), Ratio(y, c), d as real, c as real;
    RatioIs(x, d);
    RatioIs(y, c);
    assert (x * c) as real == x as real * rc;
    assert (y * d) as real == y as real * rd;
    assert u * (rd * rc) == (u * rd) * rc;
    assert v * (rd * rc) == (v * rc) * rd;
    if u > v {
      ScaledOrder(u, v, rd * rc);
    }
  }

  lemma ScaledOrder(u: real, v: real, m: real)
    requires u >= v && m > 0.0
    ensures u * m >= v * m
    ensures u > v ==> u * m > v * m
  {
    assert u > v ==> (u - v) * m > 0.0;
  }

  lemma RatioAdds(x: nat, y: nat, d: nat)
    requires d > 0
    ensures Ratio(x + y, d) == Ratio(x, d) + Ratio(y, d)
  {
  }

  /** One accrual: the scaled gain of a stake `a` is its fair part, less at most `a / p`. */
  lemma GainIsFair(a: nat, r: nat, p: nat, staked: nat)
    requires p > 0 && staked > 0
    ensures var q := MulDiv(r, p, staked);
            Ratio(a * r, staked) - Ratio(a, p) <= Ratio(a * q, p) <= Ratio(a * r, staked)
  {
    var q := MulDiv(r, p, staked);
    MulDivBounds(r, p, staked);
    assert (a * q) * staked <= (a * r) * p by {
      MulMono(q * staked, r * p, a);
      assert (a * q) * staked == (q * staked) * a;
      assert (a * r) * p == (r * p) * a;
    }
    RatioOrder(a * q, p, a * r, staked);
    assert (a * r) * p <= (a * q + a) * staked by {
      MulMono(r * p, q * staked + staked, a);
      assert (a * q + a) * staked == (q * staked + staked) * a;
      assert (a * r) * p == (r * p) * a;
    }
    RatioOrder(a * r, staked, a * q + a, p);
    RatioAdds(a * q, a, p);
  }

  lemma RatioOfSum(a: nat, x: nat, y: nat, p: nat)
    requires p > 0
    ensures Ratio(a * (x + y), p) == Ratio(a * x, p) + Ratio(a * y, p)
  {
    assert a * (x + y) == a * x + a * y;
    RatioAdds(a * x, a * y, p);
  }

  lemma RatioOfMore(n: nat, a: nat, p: nat)
    requires p > 0
    ensures Ratio((n + 1) * a, p) == Ratio(n * a, p) + Ratio(a, p)
  {
    assert (n + 1) * a == n * a + a;
    RatioAdds(n * a, a, p);
  }

  lemma NothingGrown(a: nat, p: nat)
    requires p > 0
    ensures Ratio(a * 0, p) == Ratio(0 * a, p) == 0.0
  {
  }

  /** Over any stretch of the log, the accumulator's growth times `a` is the fair share, less at
      most `a / p` per accrual. */
  lemma {:induction false} GrowthIsFair(log: seq<Accrual>, m: nat, a: nat, p: nat)
    requires p > 0 && m <= |log| && Positive(log)
    ensures AccOf(log[..m], p) <= AccOf(log, p)
    ensures var grown := Ratio(a * (AccOf(log, p) - AccOf(log[..m], p)), p);
            FairShare(a, log[m..]) - Ratio((|log| - m) * a, p) <= grown <= FairShare(a, log[m..])
    decreases |log|
  {
    hide Ratio, MulDiv;
    AccOfMonotone(log, m, p);
    if m == |log| {
      assert log[..m] == log;
      NothingGrown(a, p);
    } else {
      var n := |log| - 1;
      var front, one := log[..n], log[n];
      assert front[..m] == log[..m] && log[m..][..n - m] == front[m..];
      GrowthIsFair(front, m, a, p);
      GainIsFair(a, one.reward, p, one.staked);
      var q := MulDiv(one.reward, p, one.staked);
      var before := AccOf(front, p) - AccOf(log[..m], p);
      RatioOfSum(a, before, q, p);
      RatioOfMore(n - m, a, p);
      assert AccOf(log, p) - AccOf(log[..m], p) == before + q;
    }
  }

  lemma RealProduct(e: int, p: nat)
    ensures e as real * p as real == (e * p) as real
  {
  }

  lemma RealWithin(d: real, z: real, m: real, g: real)
    requires m > 0.0 && d * m == g
    requires g - m < z * m < g + m
    ensures d - 1.0 < z < d + 1.0
  {
    assert (d - 1.0) * m == g - m;
    assert (d + 1.0) * m == g + m;
    if d - 1.0 >= z {
      ScaledOrder(d - 1.0, z, m);
    } else if z >= d + 1.0 {
      ScaledOrder(z, d + 1.0, m);
    }
  }

  lemma NearRatio(gap: nat, e: int, p: nat)
    requires p > 0
    requires gap - p < e * p < gap + p
    ensures Ratio(gap, p) - 1.0 < e as real < Ratio(gap, p) + 1.0
  {
    hide Ratio;
    RatioIs(gap, p);
    RealProduct(e, p);
    RealWithin(Ratio(gap, p), e as real, p as real, gap as real);
  }

  /** Two floors differ from the exact difference by less than one. */
  lemma FloorsDiffer(a: nat, acc: nat, acc0: nat, p: nat)
    requires p > 0 && acc0 <= acc
    ensures var grown := Ratio(a * (acc - acc0), p);
            grown - 1.0 < (MulDiv(a, acc, p) - MulDiv(a, acc0, p)) as real < grown + 1.0
  {
    var e, e0 := MulDiv(a, acc, p), MulDiv(a, acc0, p);
    MulDivBounds(a, acc, p);
    MulDivBounds(a, acc0, p);
    assert a * (acc - acc0) == a * acc - a * acc0;
    assert (e - e0) * p == e * p - e0 * p;
    NearRatio(a * (acc - acc0), e - e0, p);
  }

  /** `paid` is within one unit, and `a / p` per accrual, of the fair share of `a` in `log[m..]`. */
  ghost predicate NearFair(paid: int, a: nat, log: seq<Accrual>, m: nat, p: nat)
    requires p > 0
  {
    && m <= |log|
    && Positive(log)
    && var share := FairShare(a, log[m..]);
    share - 1.0 - Ratio((|log| - m) * a, p) < paid as real < share + 1.0
  }

  /** The pending reward of a stored record against the plain rule applied since its last settlement. */
  lemma PendingIsFair(pool: StakePool, us: map<UserKey, UserInfo>, t: Tally, clock: u64, key: UserKey)
    requires PoolInv(pool, us, t, clock) && key in us
    ensures key.tag in t.marks
    ensures NearFair(Pending(pool, us[key]), us[key].amount, t.log, t.marks[key.tag], Scale(pool))
  {
    hide Balanced, Emitted, MulDiv, Pow10, Ratio, FairShare;
    var user, p := us[key], Scale(pool);
    assert Marked(t.log, t.marks, p, key.tag, user);
    var m := t.marks[key.tag];
    GrowthIsFair(t.log, m, user.amount, p);
    FloorsDiffer(user.amount, pool.acc, AccOf(t.log[..m], p), p);
  }

  /** Every settlement, in every reachable state: the tokens a returning user is paid are the
      proportional split of all accruals since the user's last settlement, to within one unit and
      `a / p` per accrual, whatever others did in between. */
  lemma SettlementIsFair(w: World, e: Event, id: u64, user: UserInfo)
    requires WorldInv(w) && w.clock <= e.now
    requires (e.call.Deposit? || e.call.Withdraw?) && Respond(w.state, e).Ok? && e.call.id == id
    requires KeyOf(e.caller, id) in w.state.users && user == w.state.users[KeyOf(e.caller, id)]
    ensures id in w.state.pools && id in w.tallies && id in Exec(w, e).tallies && TagOf(e.caller) in w.tallies[id].marks
    ensures NearFair(Exec(w, e).tallies[id].paid - w.tallies[id].paid,
                     user.amount, Exec(w, e).tallies[id].log, w.tallies[id].marks[TagOf(e.caller)], Scale(w.state.pools[id]))
  {
    hide NearFair, PoolInv, Pow10, UpdatePool, ObserveUpdate, Earned, DepositCalls, WithdrawCalls, Pending;
    var s := w.state;
    if e.call.Deposit? {
      DepositDid(s, e.now, e.caller, e.call.amount, id);
    } else {
      WithdrawDid(s, e.now, e.caller, e.call.amount, id);
    }
    assert PoolOk(w, id);
    var us, t := UsersOf(s.users, id), ObserveUpdate(w.tallies[id], s.pools[id], e.now);
    UpdateKeeps(s.pools[id], us, w.tallies[id], w.clock, e.now);
    UpdateKeepsTerms(s.pools[id], e.now);
    ObserveUpdateMarks(w.tallies[id], s.pools[id], e.now);
    PendingIsFair(UpdatePool(s.pools[id], e.now).value, us, t, e.now, KeyOf(e.caller, id));
  }

  lemma ObserveUpdateMarks(t: Tally, pool: StakePool, now: u64)
    ensures ObserveUpdate(t, pool, now).marks == t.marks && ObserveUpdate(t, pool, now).paid == t.paid
  {
  }
}
