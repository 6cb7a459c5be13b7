/** What `stop_reward` does to the rest of a pool's life. `p` is 10^precision. */
module StopTheorems {
  import opened Words
  import opened Arith
  import opened Pool
  import opened StakeModel
  import opened StakeHistory
  import opened PoolBooks
  import opened StakeRuns
  import opened StakeTheorems
  import opened UpdateSplitting

  // ----- a stop after the start -----

  /** Once stopped after its start, a pool never accrues again. */
  lemma StoppedUpdate(pool: StakePool, t: Tally, now: u64)
    requires Regular(pool) && Emission(pool, t) && t.stopped
    requires UpdatePool(pool, now).Ok?
    ensures UpdatePool(pool, now).value == pool.(last := UpdatePool(pool, now).value.last)
    ensures pool.end <= now || now <= pool.last
  {
    hide UpdatePool;
    UpdateCases(pool, now);
    if Accrues(pool, now) {
      UnlockedIsPassed(pool, now);
      ZeroShare(pool.totalReward, pool.end - pool.start);
      ZeroShare(Scale(pool), pool.totalStaked);
    }
  }

  lemma StoppedStep(w: World, e: Event, id: u64)
    requires WorldInv(w) && w.clock <= e.now
    requires id in w.state.pools && Regular(w.state.pools[id]) && w.tallies[id].stopped
    ensures var w' := Exec(w, e);
            && id in w'.state.pools && id in w'.tallies
            && w'.tallies[id].stopped
            && w'.tallies[id].refund == w.tallies[id].refund
            && w'.state.pools[id].acc == w.state.pools[id].acc
            && w'.state.pools[id].end == w.state.pools[id].end
            && w'.state.pools[id].start == w.state.pools[id].start
  {
    hide Balanced, AllMarked, UpdatePool, Emission, Exec;
    assert PoolOk(w, id);
    var pool := w.state.pools[id];
    if UpdatePool(pool, e.now).Ok? {
      StoppedUpdate(pool, w.tallies[id], e.now);
    }
    StoppedNotStopped(pool, w.tallies[id], w.clock);
    PoolAfter(w, e, id);
    if e.call.StopReward? && Respond(w.state, e).Ok? && e.call.id == id {
      StopDid(w.state, e.now, e.caller, id);
    }
  }

  lemma StoppedNotStopped(pool: StakePool, t: Tally, clock: u64)
    requires Regular(pool) && Emission(pool, t) && t.stopped && pool.last <= clock
    ensures pool.end <= clock
  {
  }

  lemma {:induction false} StoppedForever(w: World, es: seq<Event>, id: u64)
    requires WorldInv(w) && InOrder(w.clock, es) && w.state.index + |es| < TWO_64
    requires id in w.state.pools && Regular(w.state.pools[id]) && w.tallies[id].stopped
    ensures var w' := Run(w, es);
            && id in w'.state.pools && id in w'.tallies
            && w'.state.pools[id].acc == w.state.pools[id].acc
            && w'.state.pools[id].end == w.state.pools[id].end
            && w'.tallies[id].refund == w.tallies[id].refund
    decreases |es|
  {
    if es != [] {
      StoppedStep(w, es[0], id);
      ExecKeeps(w, es[0]);
      StoppedForever(Exec(w, es[0]), es[1..], id);
    }
  }

  // ----- when the stop comes -----

  /** The pool record as a stop at `now` leaves it, once `staked` of stake is in it. */
  function Stopped(pool: StakePool, now: u64, staked: u256): StakePool {
    pool.(end := now, totalStaked := staked)
  }

  /** What a later update makes of that record. */
  function AfterStop(pool: StakePool, now: u64, staked: u256, later: u64): Result<StakePool> {
    UpdatePool(Stopped(pool, now, staked), later)
  }

  /** No update that goes through after the stop changes the accumulator. */
  ghost predicate EmissionEnds(pool: StakePool, now: u64) {
    forall staked: u256, later: u64 ::
      AfterStop(pool, now, staked, later).Ok? ==> AfterStop(pool, now, staked, later).value.acc == pool.acc
  }

  ghost predicate UpdatesGoOn(pool: StakePool, now: u64) {
    forall staked: u256, later: u64 :: AfterStop(pool, now, staked, later).Ok?
  }

  /** Every later update with somebody in the pool panics; the others only move the clock. */
  ghost predicate UpdatesPanic(pool: StakePool, now: u64) {
    forall staked: u256, later: u64 ::
      AfterStop(pool, now, staked, later) ==
      if staked > 0 && later > now then Revert(Panic) else Ok(Stopped(pool, now, staked).(last := Max(now, later)))
  }

  /** Whether the whole reward can still be shared out once after a stop before the start: the wrapped duration
      and the scale, each times the reward, fit a word. */
  predicate CanLump(pool: StakePool, now: u64) {
    Sub64(now, pool.start) * pool.totalReward < TWO_256 && pool.totalReward * Scale(pool) < TWO_256
  }

  /** Which stops end the emission: those that do not come before the start, and earlier ones only if the reward
      is too large to be shared out.
      After the start every later update goes through and adds nothing. A stop exactly at the start leaves a
      pool whose accruing updates all panic. A stop before the start refunds the whole reward, if that can be
      computed, and still lets a later update share it out once more. */
  lemma StopEndsEmission(pool: StakePool, us: map<UserKey, UserInfo>, t: Tally, now: u64)
    requires PoolInv(pool, us, t, now) && Regular(pool) && pool.last == now < pool.end
    ensures EmissionEnds(pool, now) <==> pool.start <= now || !CanLump(pool, now)
    ensures pool.start < now ==> UpdatesGoOn(pool, now)
    ensures UpdatesPanic(pool, now) <==> pool.start == now || (pool.start == now + 1 && !CanLump(pool, now))
    ensures now < pool.start && CanLump(pool, now) ==>
              && pool.acc == 0
              && AfterStop(pool, now, 1, pool.start).Ok?
              && AfterStop(pool, now, 1, pool.start).value.acc == pool.totalReward * Scale(pool)
    ensures now <= pool.start ==>
              Refund(pool, now) ==
              if (pool.end - pool.start) * pool.totalReward < TWO_256 then Ok(pool.totalReward) else Revert(Panic)
  {
    hide PoolInv, Refund, AfterStop, Pow10, CanLump;
    if now <= pool.start {
      EarlyRefundFits(pool, now);
    }
    if now < pool.start {
      EarlyStop(pool, us, t, now);
    } else {
      forall staked: u256, later: u64 {
        LateStopEmitsNothing(pool, us, t, now, staked, later);
      }
      if pool.start < now {
        assert AfterStop(pool, now, 1, pool.end).Ok?;
      }
    }
  }

  lemma EarlyRefundFits(pool: StakePool, now: u64)
    requires Regular(pool) && now <= pool.start
    ensures Refund(pool, now) ==
            if (pool.end - pool.start) * pool.totalReward < TWO_256 then Ok(pool.totalReward) else Revert(Panic)
  {
    var d := pool.end - pool.start;
    assert Max(now, pool.start) == pool.start && Sub64(pool.end, pool.start) == d;
    QuotientIs(d * pool.totalReward, d, pool.totalReward);
  }

  lemma LateStopEmitsNothing(pool: StakePool, us: map<UserKey, UserInfo>, t: Tally, now: u64, staked: u256, later: u64)
    requires PoolInv(pool, us, t, now) && Regular(pool) && pool.last == now < pool.end && pool.start <= now
    ensures pool.start < now ==>
              AfterStop(pool, now, staked, later).Ok? && AfterStop(pool, now, staked, later).value.acc == pool.acc
    ensures now == pool.start ==>
              AfterStop(pool, now, staked, later) ==
              if staked > 0 && later > now then Revert(Panic) else Ok(Stopped(pool, now, staked).(last := Max(now, later)))
  {
    hide PoolInv, Pow10;
    ScaleFits(pool, us, t, now);
    var after := Stopped(pool, now, staked);
    if Accrues(after, later) {
      assert Unlocked(after, later) == 0;
      if pool.start == now {
        NoDuration(after, later);
      }
    }
  }

  /** After a stop before the start, an accruing update shares out the whole reward or panics. */
  lemma EarlyStopUpdate(pool: StakePool, us: map<UserKey, UserInfo>, t: Tally, now: u64, staked: u256, later: u64)
    requires PoolInv(pool, us, t, now) && Regular(pool) && pool.last == now < pool.start
    ensures pool.acc == 0 && pool.totalReward * Scale(pool) > 0
    ensures staked > 0 && later >= pool.start ==>
              AfterStop(pool, now, staked, later) ==
              if CanLump(pool, now) then
                Ok(Stopped(pool, now, staked).(acc := MulDiv(pool.totalReward, Scale(pool), staked), last := later))
              else Revert(Panic)
    ensures staked == 0 || later < pool.start ==>
              AfterStop(pool, now, staked, later) == Ok(Stopped(pool, now, staked).(last := Max(now, later)))
  {
    hide Pow10, AllMarked, Balanced, UpdatePool, MulDiv;
    ScaleFits(pool, us, t, now);
    NothingEmitted(pool, t);
    AccOfBound(t.log, Scale(pool));
    assert Scale(pool) * 0 == 0;
    MulMono(1, pool.totalReward, Scale(pool));
    var after := Stopped(pool, now, staked);
    if staked > 0 && later >= pool.start {
      GainBound(pool.totalReward, Scale(pool), staked);
      WholeShare(pool.totalReward, Sub64(now, pool.start));
      LumpFits(after, later);
      OnlyPanics(after, later);
    } else {
      NoAccrual(after, later);
    }
  }

  /** Every failing update is an overflow or a division by zero. */
  lemma OnlyPanics(pool: StakePool, now: u64)
    ensures UpdatePool(pool, now).Revert? ==> UpdatePool(pool, now) == Revert(Panic)
  {
    hide Pow10;
  }

  lemma WholeShare(r: nat, d: nat)
    requires d > 0
    ensures MulDiv(d, r, d) == r
  {
    QuotientIs(d * r, d, r);
  }

  lemma EarlyStop(pool: StakePool, us: map<UserKey, UserInfo>, t: Tally, now: u64)
    requires PoolInv(pool, us, t, now) && Regular(pool) && pool.last == now < pool.start
    ensures EmissionEnds(pool, now) <==> !CanLump(pool, now)
    ensures UpdatesPanic(pool, now) <==> pool.start == now + 1 && !CanLump(pool, now)
    ensures CanLump(pool, now) ==>
              && pool.acc == 0
              && AfterStop(pool, now, 1, pool.start).Ok?
              && AfterStop(pool, now, 1, pool.start).value.acc == pool.totalReward * Scale(pool)
  {
    hide PoolInv, AfterStop, Pow10, CanLump, MulDiv;
    EarlyStopUpdate(pool, us, t, now, 1, pool.start);
    WholeOfOne(pool.totalReward, Scale(pool));
    if !CanLump(pool, now) {
      forall staked: u256, later: u64 {
        EarlyStopUpdate(pool, us, t, now, staked, later);
      }
    }
    if pool.start != now + 1 {
      EarlyStopUpdate(pool, us, t, now, 1, now + 1);
      assert AfterStop(pool, now, 1, now + 1).Ok?;
    }
  }

  lemma WholeOfOne(r: nat, p: nat)
    ensures MulDiv(r, p, 1) == r * p
  {
  }

  // ----- a pool without duration -----

  /** A pool whose start and end agree, its clock not past them: created so, or stopped exactly at its start. */
  predicate Frozen(pool: StakePool) {
    pool.start == pool.end && pool.last <= pool.end
  }

  /** A successful stop freezes the pool exactly when it comes at the start. */
  lemma StopFreezes(w: World, e: Event)
    requires WorldInv(w) && w.clock <= e.now
    requires e.call.StopReward? && Respond(w.state, e).Ok?
    ensures e.call.id in w.state.pools && e.call.id in Exec(w, e).state.pools
    ensures Frozen(Exec(w, e).state.pools[e.call.id]) <==> w.state.pools[e.call.id].start == e.now
  {
    hide PoolInv, UsersOf, UpdatePool, Refund;
    var id := e.call.id;
    StopDid(w.state, e.now, e.caller, id);
    assert PoolOk(w, id);
    UpdateKeepsTerms(w.state.pools[id], e.now);
    UpdateReachesNow(w.state.pools[id], UsersOf(w.state.users, id), w.tallies[id], w.clock, e.now);
  }

  lemma FrozenStep(w: World, e: Event, id: u64)
    requires WorldInv(w) && w.clock <= e.now
    requires id in w.state.pools && Frozen(w.state.pools[id])
    ensures var w' := Exec(w, e);
            && id in w'.state.pools && Frozen(w'.state.pools[id])
            && w'.state.pools[id].acc == w.state.pools[id].acc && w'.state.pools[id].end == w.state.pools[id].end
  {
    hide PoolOk, UpdatePool, Earned, DepositCalls, WithdrawCalls, Refund, Observe;
    var pool := w.state.pools[id];
    if Respond(w.state, e).Ok? && OnPool(e.call) && e.call.id == id {
      if e.call.Deposit? {
        DepositDid(w.state, e.now, e.caller, e.call.amount, id);
        FrozenUpdate(pool, e.now);
      } else if e.call.Withdraw? {
        FrozenWithdraw(w, e, id);
      } else if e.call.StopReward? {
        FrozenStop(w, e, id);
      }
    }
  }

  lemma FrozenUpdate(pool: StakePool, now: u64)
    requires Frozen(pool) && UpdatePool(pool, now).Ok?
    ensures now > pool.end ==> pool.totalStaked == 0
    ensures UpdatePool(pool, now).value == pool.(last := Max(now, pool.last))
  {
  }

  /** Once the block time is past its end, no withdrawal from a frozen pool goes through. */
  lemma FrozenWithdraw(w: World, e: Event, id: u64)
    requires WorldInv(w) && w.clock <= e.now
    requires id in w.state.pools && Frozen(w.state.pools[id])
    requires e.call.Withdraw? && e.call.id == id && Respond(w.state, e).Ok?
    ensures e.now <= w.state.pools[id].end
    ensures id in Exec(w, e).state.pools && Frozen(Exec(w, e).state.pools[id])
    ensures Exec(w, e).state.pools[id].acc == w.state.pools[id].acc && Exec(w, e).state.pools[id].end == w.state.pools[id].end
  {
    hide PoolInv, Earned, WithdrawCalls, UpdatePool;
    WithdrawDid(w.state, e.now, e.caller, e.call.amount, id);
    FrozenUpdate(w.state.pools[id], e.now);
  }

  lemma FrozenStop(w: World, e: Event, id: u64)
    requires WorldInv(w)
    requires id in w.state.pools && Frozen(w.state.pools[id])
    requires e.call.StopReward? && e.call.id == id
    ensures Respond(w.state, e).Revert?
  {
    hide PoolOk, UpdatePool;
    if Respond(w.state, e).Ok? {
      StopDid(w.state, e.now, e.caller, id);
      FrozenUpdate(w.state.pools[id], e.now);
    }
  }

  /** A frozen pool stays frozen over every run; its accumulator never moves; and from its end on every deposit
      and every withdrawal is refused, so that its stakers can only leave by emergency. */
  lemma {:induction false} FrozenForever(w: World, es: seq<Event>, id: u64, e: Event)
    requires WorldInv(w) && InOrder(w.clock, es) && w.state.index + |es| < TWO_64
    requires id in w.state.pools && Frozen(w.state.pools[id])
    requires Run(w, es).clock <= e.now && e.now > w.state.pools[id].end
    requires (e.call.Deposit? || e.call.Withdraw?) && e.call.id == id
    ensures var w' := Run(w, es);
            && id in w'.state.pools && Frozen(w'.state.pools[id])
            && w'.state.pools[id].acc == w.state.pools[id].acc
            && Respond(w'.state, e).Revert?
    decreases |es|
  {
    hide WorldInv, Exec, Frozen;
    if es != [] {
      FrozenStep(w, es[0], id);
      ExecKeeps(w, es[0]);
      FrozenForever(Exec(w, es[0]), es[1..], id, e);
    } else {
      FrozenRefuses(w, e, id);
    }
  }

  lemma FrozenRefuses(w: World, e: Event, id: u64)
    requires WorldInv(w) && w.clock <= e.now
    requires id in w.state.pools && Frozen(w.state.pools[id]) && e.now > w.state.pools[id].end
    requires (e.call.Deposit? || e.call.Withdraw?) && e.call.id == id
    ensures Respond(w.state, e).Revert?
  {
    hide PoolInv, UpdatePool, Earned, DepositCalls, WithdrawCalls;
    if Respond(w.state, e).Ok? {
      if e.call.Deposit? {
        DepositDid(w.state, e.now, e.caller, e.call.amount, id);
        FrozenUpdate(w.state.pools[id], e.now);
      } else {
        FrozenWithdraw(w, e, id);
      }
    }
  }
}
