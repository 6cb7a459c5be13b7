/** Updating more often never helps the stakers, and costs them only counted dust. */
module UpdateSplitting {
  import opened Words
  import opened Arith
  import opened Pool
  import opened StakeModel
  import opened StakeHistory
  import opened PoolBooks

  function Updates(pool: StakePool, times: seq<u64>): Result<StakePool>
    decreases |times|
  {
    if times == [] then Ok(pool)
    else
      var next :- UpdatePool(pool, times[0]);
      Updates(next, times[1..])
  }

  ghost predicate Ascending(times: seq<u64>) {
    forall i, j :: 0 <= i < j < |times| ==> times[i] <= times[j]
  }

  /** The accumulator's gain for `u` units of emission time. */
  function Gain(u: nat, reward: nat, duration: nat, p: nat, staked: nat): nat
    requires duration > 0 && staked > 0
  {
    MulDiv(MulDiv(u, reward, duration), p, staked)
  }

  lemma GainSplits(u: nat, u': nat, reward: nat, duration: nat, p: nat, staked: nat)
    requires duration > 0 && staked > 0
    ensures var split := Gain(u, reward, duration, p, staked) + Gain(u', reward, duration, p, staked);
            split <= Gain(u + u', reward, duration, p, staked) <= split + p / staked + 2
  {
    hide MulDiv;
    var r, r', s := MulDiv(u, reward, duration), MulDiv(u', reward, duration), MulDiv(u + u', reward, duration);
    MulDivSplit(u, u', reward, duration);
    MulDivSplit(r, r', p, staked);
    MulDivMono(r + r', s, p, staked);
    MulDivMono(s, r + r' + 1, p, staked);
    MulDivSplit(r + r', 1, p, staked);
    OneShare(p, staked);
  }

  lemma OneShare(p: nat, d: nat)
    requires d > 0
    ensures MulDiv(1, p, d) == p / d
  {
  }

  /** Whether the numbers of an accrual over `u` units of time fit a word. */
  predicate Fits(pool: StakePool, u: nat)
    requires pool.start != pool.end && pool.totalStaked > 0
  {
    var r := MulDiv(u, pool.totalReward, Sub64(pool.end, pool.start));
    && Scale(pool) < TWO_256
    && u * pool.totalReward < TWO_256
    && r * Scale(pool) < TWO_256
    && pool.acc + MulDiv(r, Scale(pool), pool.totalStaked) < TWO_256
  }

  /** When an accruing update goes through. */
  lemma UpdateSucceeds(pool: StakePool, now: u64)
    requires Accrues(pool, now)
    ensures UpdatePool(pool, now).Ok? <==> pool.start != pool.end && Fits(pool, Unlocked(pool, now))
  {
    if pool.start == pool.end {
      NoDuration(pool, now);
    } else {
      var d := Sub64(pool.end, pool.start);
      var u := Unlocked(pool, now);
      assert d > 0;
      var r := MulDiv(u, pool.totalReward, d);
      QuotientWithin(u * pool.totalReward, d);
      QuotientWithin(r * Scale(pool), pool.totalStaked);
    }
  }

  lemma QuotientWithin(x: nat, d: nat)
    requires d > 0
    ensures x / d <= x
  {
    QuotientBounds(x, d);
    MulMono(1, d, x / d);
  }

  lemma FitsLess(pool: StakePool, u: nat, u': nat)
    requires Regular(pool) && pool.totalStaked > 0
    requires u <= u' && Fits(pool, u')
    ensures Fits(pool, u)
  {
    hide Pow10, MulDiv;
    var d, p := pool.end - pool.start, Scale(pool);
    var r, r' := MulDiv(u, pool.totalReward, d), MulDiv(u', pool.totalReward, d);
    MulMono(u, u', pool.totalReward);
    MulDivMono(u, u', pool.totalReward, d);
    MulMono(r, r', p);
    MulDivMono(r, r', p, pool.totalStaked);
  }

  /** After the part `u` has been taken, the rest `u'` of a fitting interval still fits. */
  lemma FitsRest(pool: StakePool, u: nat, u': nat, last: u64)
    requires Regular(pool) && pool.totalStaked > 0
    requires Fits(pool, u + u')
    ensures pool.acc + Gain(u, pool.totalReward, pool.end - pool.start, Scale(pool), pool.totalStaked) < TWO_256
    ensures Fits(pool.(acc := pool.acc + Gain(u, pool.totalReward, pool.end - pool.start, Scale(pool), pool.totalStaked), last := last), u')
  {
    hide Pow10, MulDiv;
    FitsLess(pool, u, u + u');
    FitsLess(pool, u', u + u');
    GainSplits(u, u', pool.totalReward, pool.end - pool.start, Scale(pool), pool.totalStaked);
  }

  lemma SlackNonNegative(p: nat, staked: nat)
    requires staked > 0
    ensures p / staked >= 0
  {
  }

  /** The one way to lose more than dust: the start lies after the end with room in between, so that an update
      between the two moves the clock past the end before the whole reward, which can be shared out and is worth
      more than dust, has been. */
  predicate LosesAll(pool: StakePool)
    requires pool.totalStaked > 0
  {
    && pool.last <= pool.end && pool.end + 1 < pool.start
    && Fits(pool, Sub64(pool.end, pool.start))
    && MulDiv(pool.totalReward, Scale(pool), pool.totalStaked) > Scale(pool) / pool.totalStaked + 2
  }

  /** One extra update in between, wherever the two times lie relative to start and end. */
  lemma SplitOnce(pool: StakePool, early: u64, late: u64)
    requires pool.totalStaked > 0 && early <= late && !LosesAll(pool)
    requires UpdatePool(pool, late).Ok?
    ensures UpdatePool(pool, early).Ok?
    ensures var mid := UpdatePool(pool, early).value;
            && mid == pool.(acc := mid.acc, last := mid.last)
            && !LosesAll(mid)
            && UpdatePool(mid, late).Ok?
            && UpdatePool(mid, late).value.acc <= UpdatePool(pool, late).value.acc
                 <= UpdatePool(mid, late).value.acc + Scale(pool) / pool.totalStaked + 2
  {
    hide UpdatePool, MulDiv, Pow10, LosesAll;
    if Regular(pool) {
      SplitRegular(pool, early, late);
      RegularKeeps(UpdatePool(pool, early).value);
    } else {
      SplitLump(pool, early, late);
    }
  }

  lemma RegularKeeps(pool: StakePool)
    requires Regular(pool) && pool.totalStaked > 0
    ensures !LosesAll(pool)
  {
  }

  lemma LumpFits(pool: StakePool, now: u64)
    requires pool.start > pool.end && Accrues(pool, now)
    ensures UpdatePool(pool, now).Ok? <==> Fits(pool, Sub64(pool.end, pool.start))
    ensures UpdatePool(pool, now).Ok? ==>
              var pool' := UpdatePool(pool, now).value;
              && pool' == pool.(acc := pool'.acc, last := now)
              && pool'.acc == pool.acc + MulDiv(pool.totalReward, Scale(pool), pool.totalStaked)
  {
    hide UpdatePool, MulDiv, Pow10, Fits;
    assert Unlocked(pool, now) == Sub64(pool.end, pool.start);
    UpdateSucceeds(pool, now);
    if UpdatePool(pool, now).Ok? {
      UpdateCases(pool, now);
      LumpShare(pool, now);
    }
  }

  /** The clock of the pool does not matter for a lump, as long as it has not passed the end. */
  lemma LumpClock(pool: StakePool, last: u64, now: u64, now': u64)
    requires pool.start > pool.end && Accrues(pool, now) && Accrues(pool.(last := last), now')
    ensures UpdatePool(pool, now).Ok? <==> UpdatePool(pool.(last := last), now').Ok?
    ensures UpdatePool(pool, now).Ok? ==> UpdatePool(pool, now).value.acc == UpdatePool(pool.(last := last), now').value.acc
  {
    hide UpdatePool, MulDiv, Pow10;
    LumpFits(pool, now);
    LumpFits(pool.(last := last), now');
  }

  lemma LosesAllClock(pool: StakePool, last: u64)
    requires pool.totalStaked > 0 && !LosesAll(pool)
    requires pool.last <= last
    ensures !LosesAll(pool.(last := last))
  {
    hide MulDiv, Pow10;
  }

  lemma SplitLump(pool: StakePool, early: u64, late: u64)
    requires !Regular(pool) && pool.totalStaked > 0 && early <= late && !LosesAll(pool)
    requires UpdatePool(pool, late).Ok?
    ensures UpdatePool(pool, early).Ok?
    ensures var mid := UpdatePool(pool, early).value;
            && mid == pool.(acc := mid.acc, last := mid.last)
            && !LosesAll(mid)
            && UpdatePool(mid, late).Ok?
            && UpdatePool(mid, late).value.acc <= UpdatePool(pool, late).value.acc
                 <= UpdatePool(mid, late).value.acc + Scale(pool) / pool.totalStaked + 2
  {
    hide UpdatePool, MulDiv, Pow10, Fits, LosesAll;
    SlackNonNegative(Scale(pool), pool.totalStaked);
    if Accrues(pool, late) {
      if pool.start == pool.end {
        NoDuration(pool, late);
      }
      LumpFits(pool, late);
      if Accrues(pool, early) {
        LumpFits(pool, early);
        NoAccrual(UpdatePool(pool, early).value, late);
        PastTheEnd(UpdatePool(pool, early).value);
      } else {
        SkipThenLump(pool, early, late);
      }
    } else {
      NoAccrual(pool, early);
      NoAccrual(pool, late);
      var mid := UpdatePool(pool, early).value;
      NoAccrual(mid, late);
      LosesAllClock(pool, mid.last);
    }
  }

  lemma PastTheEnd(pool: StakePool)
    requires pool.totalStaked > 0 && pool.last > pool.end
    ensures !LosesAll(pool)
  {
  }

  lemma SkipThenLump(pool: StakePool, early: u64, late: u64)
    requires pool.start > pool.end && pool.totalStaked > 0 && early <= late && !LosesAll(pool)
    requires Accrues(pool, late) && !Accrues(pool, early) && UpdatePool(pool, late).Ok?
    ensures UpdatePool(pool, early).Ok?
    ensures var mid := UpdatePool(pool, early).value;
            && mid == pool.(last := mid.last)
            && !LosesAll(mid)
            && UpdatePool(mid, late).Ok?
            && UpdatePool(mid, late).value.acc <= UpdatePool(pool, late).value.acc
                 <= UpdatePool(mid, late).value.acc + Scale(pool) / pool.totalStaked + 2
  {
    hide UpdatePool, MulDiv, Pow10, Fits;
    SlackNonNegative(Scale(pool), pool.totalStaked);
    LumpFits(pool, late);
    NoAccrual(pool, early);
    var mid := UpdatePool(pool, early).value;
    if Accrues(mid, late) {
      LumpClock(pool, mid.last, late, late);
      LosesAllClock(pool, mid.last);
    } else {
      NoAccrual(mid, late);
      assert pool.end < early < pool.start;
    }
  }

  lemma SplitRegular(pool: StakePool, early: u64, late: u64)
    requires Regular(pool) && pool.totalStaked > 0 && early <= late
    requires UpdatePool(pool, late).Ok?
    ensures UpdatePool(pool, early).Ok?
    ensures var mid := UpdatePool(pool, early).value;
            && mid == pool.(acc := mid.acc, last := mid.last)
            && UpdatePool(mid, late).Ok?
            && UpdatePool(mid, late).value.acc <= UpdatePool(pool, late).value.acc
                 <= UpdatePool(mid, late).value.acc + Scale(pool) / pool.totalStaked + 2
  {
    hide UpdatePool, MulDiv, Pow10, Fits;
    SlackNonNegative(Scale(pool), pool.totalStaked);
    if !Accrues(pool, early) {
      NoAccrual(pool, early);
      if Accrues(pool, late) {
        SplitBeforeStart(pool, early, late);
      } else {
        NoAccrual(pool, late);
        NoAccrual(UpdatePool(pool, early).value, late);
      }
    } else {
      SplitAccruing(pool, early, late);
    }
  }

  lemma NoAccrual(pool: StakePool, now: u64)
    requires !Accrues(pool, now)
    ensures UpdatePool(pool, now) == Ok(pool.(last := if SkipsTo(pool, now) then now else pool.last))
  {
  }

  lemma SplitBeforeStart(pool: StakePool, early: u64, late: u64)
    requires Regular(pool) && pool.totalStaked > 0 && early <= late
    requires !Accrues(pool, early) && Accrues(pool, late)
    requires UpdatePool(pool, late).Ok?
    ensures var mid := pool.(last := if SkipsTo(pool, early) then early else pool.last);
            UpdatePool(mid, late) == UpdatePool(pool, late)
  {
  }

  lemma SplitAccruing(pool: StakePool, early: u64, late: u64)
    requires Regular(pool) && Accrues(pool, early) && early <= late
    requires UpdatePool(pool, late).Ok?
    ensures UpdatePool(pool, early).Ok?
    ensures var mid := UpdatePool(pool, early).value;
            && mid == pool.(acc := mid.acc, last := mid.last)
            && UpdatePool(mid, late).Ok?
            && UpdatePool(mid, late).value.acc <= UpdatePool(pool, late).value.acc
                 <= UpdatePool(mid, late).value.acc + Scale(pool) / pool.totalStaked + 2
  {
    hide UpdatePool, MulDiv, Pow10, Fits;
    SlackNonNegative(Scale(pool), pool.totalStaked);
    var u, whole := Unlocked(pool, early), Unlocked(pool, late);
    var d, p := pool.end - pool.start, Scale(pool);
    UnlockedIsPassed(pool, early);
    UnlockedIsPassed(pool, late);
    UpdateSucceeds(pool, early);
    UpdateSucceeds(pool, late);
    FitsLess(pool, u, whole);
    UpdateCases(pool, early);
    UpdateCases(pool, late);
    var mid := UpdatePool(pool, early).value;
    var rest := whole - u;
    GainSplits(u, rest, pool.totalReward, d, p, pool.totalStaked);
    if Accrues(mid, late) {
      UnlockedIsPassed(mid, late);
      assert Unlocked(mid, late) == rest;
      FitsRest(pool, u, rest, early);
      UpdateSucceeds(mid, late);
      UpdateCases(mid, late);
    } else {
      NoAccrual(mid, late);
      assert rest == 0;
    }
  }

  /** Splitting one update never gives more, and gives less by at most `(k - 1) * (p / staked + 2)`. */
  ghost predicate WithinDust(pool: StakePool, times: seq<u64>)
    requires pool.totalStaked > 0 && times != []
    requires UpdatePool(pool, times[|times| - 1]).Ok?
  {
    && Updates(pool, times).Ok?
    && Updates(pool, times).value.acc <= UpdatePool(pool, times[|times| - 1]).value.acc
         <= Updates(pool, times).value.acc + (|times| - 1) * (Scale(pool) / pool.totalStaked + 2)
  }

  /** Replacing one update at the last time by `k` updates up to it costs only dust; and if the single update
      goes through, so do all of them. */
  lemma {:induction false} SplittingCostsDust(pool: StakePool, times: seq<u64>)
    requires pool.totalStaked > 0 && !LosesAll(pool)
    requires times != [] && Ascending(times)
    requires UpdatePool(pool, times[|times| - 1]).Ok?
    ensures WithinDust(pool, times)
    decreases |times|
  {
    hide UpdatePool, Pow10, LosesAll;
    SlackNonNegative(Scale(pool), pool.totalStaked);
    var late := times[|times| - 1];
    if |times| == 1 {
      assert Updates(pool, times) == Updates(UpdatePool(pool, late).value, []);
    } else {
      SplitOnce(pool, times[0], late);
      var mid := UpdatePool(pool, times[0]).value;
      SplittingCostsDust(mid, times[1..]);
      var gap := Scale(pool) / pool.totalStaked + 2;
      assert (|times| - 1) * gap == (|times| - 2) * gap + gap;
    }
  }

  /** The condition is exact: a pool that meets it loses everything to one update between its end and its start. */
  lemma SplittingExactly(pool: StakePool)
    requires pool.totalStaked > 0
    ensures (forall times: seq<u64> ::
               times != [] && Ascending(times) && UpdatePool(pool, times[|times| - 1]).Ok? ==> WithinDust(pool, times))
            <==> !LosesAll(pool)
  {
    hide UpdatePool, Pow10, MulDiv, Fits;
    if LosesAll(pool) {
      LumpFits(pool, pool.start);
      var times := [pool.end + 1, pool.start];
      NoAccrual(pool, pool.end + 1);
      var mid := pool.(last := pool.end + 1);
      NoAccrual(mid, pool.start);
      assert times[1..] == [pool.start] && times[1..][1..] == [];
      assert Updates(mid, times[1..]) == Ok(mid);
      assert Updates(pool, times) == Ok(mid);
      assert !WithinDust(pool, times);
    } else {
      forall times: seq<u64> | times != [] && Ascending(times) && UpdatePool(pool, times[|times| - 1]).Ok?
        ensures WithinDust(pool, times)
      {
        SplittingCostsDust(pool, times);
      }
    }
  }
}
