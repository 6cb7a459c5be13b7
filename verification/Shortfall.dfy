/** Four runs from deployment that show where a promise ends. In each, Ann stakes 2 at time 10 in a pool with a
    reward of 3; see `Cast` for the setup. */
module Shortfall {
  import opened Words
  import opened Arith
  import opened Ledger
  import opened Pool
  import opened StakeModel
  import opened StakeHistory
  import opened UpdateSplitting
  import opened StorageKeys
  import opened Cast

  const HALF: nat := 500_000_000_000_000_000

  lemma WholeUnits(amount: nat)
    ensures MulDiv(amount, UNIT, UNIT) == amount
  {
  }

  // ----- rounding alone -----

  /** Ben and Cat stake 1 each a third of the way in, when a stake of 1 has earned half a unit that flooring their
      debts forgets. At the end Ann is owed 2 and the other two 1 each. */
  const PLAIN: Terms := Terms(REWARD, 10, 13)

  function Joining(): seq<Event> {
    [By(10, ANN, Deposit(2, 0)), By(11, BEN, Deposit(1, 0)), By(11, CAT, Deposit(1, 0))]
  }

  function Leaving(): seq<Event> {
    [By(13, ANN, Withdraw(2, 0)), By(13, BEN, Withdraw(1, 0))]
  }

  function PlainPool(last: u64, acc: u256, staked: u256): StakePool {
    ThePool(PLAIN, last, acc, staked)
  }

  /** The updates of the run: a third of the reward over a stake of 2, the rest over a stake of 4. */
  lemma PlainUpdates()
    ensures UpdatePool(PlainPool(10, 0, 2), 11) == Ok(PlainPool(11, HALF, 2))
    ensures UpdatePool(PlainPool(11, HALF, 3), 11) == Ok(PlainPool(11, HALF, 3))
    ensures UpdatePool(PlainPool(11, HALF, 4), 13) == Ok(PlainPool(13, UNIT, 4))
    ensures UpdatePool(PlainPool(13, UNIT, 2), 13) == Ok(PlainPool(13, UNIT, 2))
    ensures UpdatePool(PlainPool(13, UNIT, 1), 13) == Ok(PlainPool(13, UNIT, 1))
  {
    hide Hash;
    PowsOfTen();
  }

  lemma BenJoins(w: World)
    requires Stands(w, 10, PlainPool(10, 0, 2), UserInfo(2, 0), NOBODY, NOBODY, 3, 2, 0, 0)
    requires Ready(w, BEN, 1) && Ready(w, CAT, 1)
    ensures var w' := Exec(w, By(11, BEN, Deposit(1, 0)));
            && Stands(w', 11, PlainPool(11, HALF, 3), UserInfo(2, 0), UserInfo(1, 0), NOBODY, 3, 3, 0, 0)
            && Ready(w', CAT, 1)
  {
    hide Hash, TagOf, UpdatePool, Exec;
    AllDiffer();
    PlainUpdates();
    FirstDeposit(w, By(11, BEN, Deposit(1, 0)), PlainPool(11, HALF, 2), 1);
  }

  lemma CatJoins(w: World)
    requires Stands(w, 11, PlainPool(11, HALF, 3), UserInfo(2, 0), UserInfo(1, 0), NOBODY, 3, 3, 0, 0)
    requires Ready(w, CAT, 1)
    ensures var w' := Exec(w, By(11, CAT, Deposit(1, 0)));
            Stands(w', 11, PlainPool(11, HALF, 4), UserInfo(2, 0), UserInfo(1, 0), UserInfo(1, 0), 3, 4, 0, 0)
  {
    hide Hash, TagOf, UpdatePool, Exec;
    AllDiffer();
    PlainUpdates();
    FirstDeposit(w, By(11, CAT, Deposit(1, 0)), PlainPool(11, HALF, 3), 1);
  }

  lemma AnnLeaves(w: World)
    requires Stands(w, 11, PlainPool(11, HALF, 4), UserInfo(2, 0), UserInfo(1, 0), UserInfo(1, 0), 3, 4, 0, 0)
    ensures Stands(Exec(w, By(13, ANN, Withdraw(2, 0))), 13, PlainPool(13, UNIT, 2), NOBODY, UserInfo(1, 0), UserInfo(1, 0), 1, 2, 2, 0)
  {
    hide Hash, TagOf, UpdatePool, Exec, MulDiv;
    AllDiffer();
    PlainUpdates();
    WholeUnits(2);
    WholeUnits(0);
    Withdrawal(w, By(13, ANN, Withdraw(2, 0)), PlainPool(13, UNIT, 4), 2, 2, 2, 0);
  }

  lemma BenLeaves(w: World)
    requires Stands(w, 13, PlainPool(13, UNIT, 2), NOBODY, UserInfo(1, 0), UserInfo(1, 0), 1, 2, 2, 0)
    ensures Stands(Exec(w, By(13, BEN, Withdraw(1, 0))), 13, PlainPool(13, UNIT, 1), NOBODY, NOBODY, UserInfo(1, 0), 0, 1, 3, 0)
  {
    hide Hash, TagOf, UpdatePool, Exec, MulDiv;
    AllDiffer();
    PlainUpdates();
    WholeUnits(1);
    WholeUnits(0);
    Withdrawal(w, By(13, BEN, Withdraw(1, 0)), PlainPool(13, UNIT, 2), 1, 1, 1, 0);
  }

  /** Cat is refused without a reward unit in the contract, and paid with one. */
  lemma CatLeaves(w: World, reward: nat)
    requires Stands(w, 13, PlainPool(13, UNIT, 1), NOBODY, NOBODY, UserInfo(1, 0), reward, 1, 3, 0)
    ensures reward == 0 ==> Respond(w.state, By(13, CAT, Withdraw(1, 0))) == Revert(TokenFailure)
    ensures reward == 1 ==>
              Stands(Exec(w, By(13, CAT, Withdraw(1, 0))), 13, PlainPool(13, UNIT, 0), NOBODY, NOBODY, NOBODY, 0, 0, 4, 0)
  {
    hide Hash, TagOf, UpdatePool, Exec, MulDiv;
    AllDiffer();
    PlainUpdates();
    WholeUnits(1);
    WholeUnits(0);
    Withdrawal(w, By(13, CAT, Withdraw(1, 0)), PlainPool(13, UNIT, 1), 1, 1, 1, 0);
  }

  /** One reward unit from outside. */
  lemma Gift(w: World)
    requires Stands(w, 13, PlainPool(13, UNIT, 1), NOBODY, NOBODY, UserInfo(1, 0), 0, 1, 3, 0)
    ensures Stands(Exec(w, By(13, OWNER, Drift(Hash(REWARD), This, 1))), 13, PlainPool(13, UNIT, 1), NOBODY, NOBODY, UserInfo(1, 0), 1, 1, 3, 0)
  {
    hide Hash, TagOf;
    AllDiffer();
  }

  lemma PlainPendings()
    ensures Pending(PlainPool(13, UNIT, 4), UserInfo(2, 0)) == 2
    ensures Pending(PlainPool(13, UNIT, 4), UserInfo(1, 0)) == 1
  {
    hide Hash;
    PowsOfTen();
    WholeUnits(1);
    WholeUnits(2);
  }

  /** Strict solvency is false of the contract: in this run from deployment, three stakers end up owed 4 of a
      reward of 3. The last one's withdrawal is refused; with a unit from outside, the pool pays 4 out of 3. */
  lemma StrictSolvencyFails(admin: Hash32)
    ensures InOrder(0, Setup(PLAIN) + Joining() + Leaving())
    ensures var joined := Run(Genesis(admin), Setup(PLAIN) + Joining());
            && UpdatePool(PlainPool(11, HALF, 4), 13).Ok?
            && var pool := UpdatePool(PlainPool(11, HALF, 4), 13).value;
            && CurrentPool(joined.state, 13, 0) == Ok(pool)
            && Pending(pool, UserOf(joined.state, Hash(ANN), 0)) == 2
            && Pending(pool, UserOf(joined.state, Hash(BEN), 0)) == 1
            && Pending(pool, UserOf(joined.state, Hash(CAT), 0)) == 1
            && pool.totalReward == 3
    ensures var left := Run(Genesis(admin), Setup(PLAIN) + Joining() + Leaving());
            && 0 in left.tallies && left.tallies[0].paid == 3
            && Respond(left.state, By(13, CAT, Withdraw(1, 0))) == Revert(TokenFailure)
            && var helped := Exec(Exec(left, By(13, OWNER, Drift(Hash(REWARD), This, 1))), By(13, CAT, Withdraw(1, 0)));
            && 0 in helped.tallies && helped.tallies[0].paid == 4
  {
    hide Hash, TagOf, UpdatePool, Exec, Respond, Setup, Ready, Pow10, Pending;
    SetUp(admin, PLAIN);
    var w0 := Run(Genesis(admin), Setup(PLAIN));
    var w1 := Exec(w0, Joining()[0]);
    var w2 := Exec(w1, Joining()[1]);
    var w3 := Exec(w2, Joining()[2]);
    AnnJoins(w0, PLAIN, 3, 0);
    BenJoins(w1);
    CatJoins(w2);
    RunConcat(Genesis(admin), Setup(PLAIN), Joining());
    RunThree(w0, Joining());
    var w4 := Exec(w3, Leaving()[0]);
    var w5 := Exec(w4, Leaving()[1]);
    AnnLeaves(w3);
    BenLeaves(w4);
    RunConcat(Genesis(admin), Setup(PLAIN) + Joining(), Leaving());
    RunTwo(w3, Leaving());
    CatLeaves(w5, 0);
    Gift(w5);
    CatLeaves(Exec(w5, By(13, OWNER, Drift(Hash(REWARD), This, 1))), 1);
    PlainUpdates();
    PlainPendings();
    assert Setup(PLAIN) + (Joining() + Leaving()) == Setup(PLAIN) + Joining() + Leaving();
    SetupInOrder(PLAIN, Joining() + Leaving());
  }

  // ----- the refund of a stop -----

  function Stopping(): seq<Event> {
    [By(10, ANN, Deposit(2, 0)), By(12, OWNER, StopReward(0))]
  }

  /** An emergency withdrawal can fail for want of the caller's own stake. Ann is alone in the pool when the owner
      stops it one time unit early. The refund of one unit comes in the staking token, of which the contract holds
      only Ann's 2. */
  lemma RefundTakesStake(admin: Hash32)
    ensures InOrder(0, Setup(PLAIN) + Stopping())
    ensures var w := Run(Genesis(admin), Setup(PLAIN) + Stopping());
            && UserOf(w.state, Hash(ANN), 0).amount == 2
            && w.state.tokens.Balance(Hash(STAKE), This) == 1
            && 0 in w.tallies && w.tallies[0].refund == 1
            && Respond(w.state, By(12, ANN, EmergencyWithdraw(0))) == Revert(TokenFailure)
  {
    hide Hash, TagOf, UpdatePool, Exec, Respond, Setup, Ready, Pow10;
    SetUp(admin, PLAIN);
    var w0 := Run(Genesis(admin), Setup(PLAIN));
    AnnJoins(w0, PLAIN, 3, 0);
    LateStop(Exec(w0, Stopping()[0]));
    RunConcat(Genesis(admin), Setup(PLAIN), Stopping());
    RunTwo(w0, Stopping());
    SetupInOrder(PLAIN, Stopping());
  }

  /** A stop by the owner, seen from outside. */
  lemma OwnerStops(w: World, e: Event, pool: StakePool, refund: u256)
    requires w.state.initialized && 0 in w.state.pools && 0 in w.tallies
    requires e.call == StopReward(0) && e.caller == pool.owner && e.now < pool.end
    requires UpdatePool(w.state.pools[0], e.now) == Ok(pool) && Refund(pool, e.now) == Ok(refund)
    requires w.state.tokens.Balance(pool.stakingToken, This) >= refund
    ensures var w' := Exec(w, e);
            && w'.state == w.state.(tokens := w.state.tokens.Transfer(pool.stakingToken, e.caller, refund).value,
                                    pools := w.state.pools[0 := pool.(end := e.now)])
            && 0 in w'.tallies && w'.tallies[0].paid == w.tallies[0].paid
            && w'.tallies[0].refund == w.tallies[0].refund + refund && w'.clock == e.now
  {
    hide UpdatePool, Refund, ObserveUpdate, TagOf, UserOf;
    UpdateMoney(w.tallies[0], w.state.pools[0], e.now);
  }

  lemma UpdateMoney(t: Tally, pool: StakePool, now: u64)
    ensures ObserveUpdate(t, pool, now).paid == t.paid && ObserveUpdate(t, pool, now).refund == t.refund
  {
  }

  lemma LateStop(w: World)
    requires Stands(w, 10, PlainPool(10, 0, 2), UserInfo(2, 0), NOBODY, NOBODY, 3, 2, 0, 0)
    ensures var w' := Exec(w, By(12, OWNER, StopReward(0)));
            && Stands(w', 12, ThePool(Terms(REWARD, 10, 12), 12, UNIT, 2), UserInfo(2, 0), NOBODY, NOBODY, 3, 1, 0, 1)
            && Respond(w'.state, By(12, ANN, EmergencyWithdraw(0))) == Revert(TokenFailure)
  {
    hide Hash, TagOf, UpdatePool, Pow10, Exec, Refund;
    AllDiffer();
    LateStopNumbers();
    OwnerStops(w, By(12, OWNER, StopReward(0)), PlainPool(12, UNIT, 2), 1);
  }

  lemma LateStopNumbers()
    ensures UpdatePool(PlainPool(10, 0, 2), 12) == Ok(PlainPool(12, UNIT, 2))
    ensures Refund(PlainPool(12, UNIT, 2), 12) == Ok(1)
  {
    hide Hash;
    PowsOfTen();
  }

  // ----- a stop before the start -----

  /** One token for reward and stake; the emission runs from 20 to 23. */
  const EARLY: Terms := Terms(STAKE, 20, 23)

  /** The same pool once it has been stopped at 15. */
  const STOPPED: Terms := Terms(STAKE, 20, 15)

  function StoppingEarly(): seq<Event> {
    [By(10, ANN, Deposit(2, 0)), By(15, OWNER, StopReward(0))]
  }

  const THREE_HALVES: nat := 1_500_000_000_000_000_000

  lemma EarlyNumbers()
    ensures UpdatePool(ThePool(EARLY, 10, 0, 2), 15) == Ok(ThePool(EARLY, 15, 0, 2))
    ensures Refund(ThePool(EARLY, 15, 0, 2), 15) == Ok(3)
    ensures UpdatePool(ThePool(STOPPED, 15, 0, 2), 20) == Ok(ThePool(STOPPED, 20, THREE_HALVES, 2))
    ensures MulDiv(2, THREE_HALVES, UNIT) == 3 && MulDiv(0, THREE_HALVES, UNIT) == 0
  {
    hide Hash;
    PowsOfTen();
  }

  lemma EarlyStop(w: World)
    requires Stands(w, 10, ThePool(EARLY, 10, 0, 2), UserInfo(2, 0), NOBODY, NOBODY, 5, 5, 0, 0)
    ensures Stands(Exec(w, By(15, OWNER, StopReward(0))), 15, ThePool(STOPPED, 15, 0, 2), UserInfo(2, 0), NOBODY, NOBODY, 2, 2, 0, 3)
  {
    hide Hash, TagOf, UpdatePool, Pow10, Exec, Refund, MulDiv;
    AllDiffer();
    EarlyNumbers();
    OwnerStops(w, By(15, OWNER, StopReward(0)), ThePool(EARLY, 15, 0, 2), 3);
  }

  /** Ann wants her stake of 2 and a reward of 3. */
  lemma AnnWants5(w: World, clock: u64, held: nat)
    requires Stands(w, clock, ThePool(STOPPED, 15, 0, 2), UserInfo(2, 0), NOBODY, NOBODY, held, held, 0, 3)
    ensures held < 5 ==> Respond(w.state, By(20, ANN, Withdraw(2, 0))) == Revert(TokenFailure)
    ensures held >= 5 ==>
              Stands(Exec(w, By(20, ANN, Withdraw(2, 0))), 20, ThePool(STOPPED, 20, THREE_HALVES, 0), NOBODY, NOBODY, NOBODY, held - 5, held - 5, 3, 3)
  {
    hide Hash, TagOf, UpdatePool, Exec, MulDiv, Refund;
    AllDiffer();
    EarlyNumbers();
    Withdrawal(w, By(20, ANN, Withdraw(2, 0)), ThePool(STOPPED, 20, THREE_HALVES, 2), 2, 2, 3, 0);
  }

  lemma BigGift(w: World)
    requires Stands(w, 15, ThePool(STOPPED, 15, 0, 2), UserInfo(2, 0), NOBODY, NOBODY, 2, 2, 0, 3)
    ensures Stands(Exec(w, By(20, OWNER, Drift(Hash(STAKE), This, 5))), 20, ThePool(STOPPED, 15, 0, 2), UserInfo(2, 0), NOBODY, NOBODY, 5, 5, 0, 3)
  {
    hide Hash, TagOf;
    AllDiffer();
  }

  /** A stop before the start hands the reward out twice. The owner gets the whole reward of 3 back, yet at the
      start Ann is owed it as well: her withdrawal asks for 5 where the contract holds 2. With 3 units from outside
      she is paid, and the pool has refunded 3 and paid 3 out of 3. */
  lemma RewardOwedTwice(admin: Hash32)
    ensures InOrder(0, Setup(EARLY) + StoppingEarly())
    ensures var w := Run(Genesis(admin), Setup(EARLY) + StoppingEarly());
            && 0 in w.tallies && w.tallies[0].refund == 3 && w.state.tokens.Balance(Hash(STAKE), This) == 2
            && CurrentPool(w.state, 20, 0).Ok?
            && Pending(CurrentPool(w.state, 20, 0).value, UserOf(w.state, Hash(ANN), 0)) == 3
            && Respond(w.state, By(20, ANN, Withdraw(2, 0))) == Revert(TokenFailure)
            && var helped := Exec(Exec(w, By(20, OWNER, Drift(Hash(STAKE), This, 5))), By(20, ANN, Withdraw(2, 0)));
            && 0 in helped.tallies && helped.tallies[0].refund == 3 && helped.tallies[0].paid == 3
            && 0 in helped.state.pools && helped.state.pools[0].totalReward == 3
  {
    hide Hash, TagOf, UpdatePool, Exec, Respond, Setup, Ready, Pow10, MulDiv, Refund;
    SetUp(admin, EARLY);
    var w0 := Run(Genesis(admin), Setup(EARLY));
    AnnJoins(w0, EARLY, 3, 3);
    EarlyStop(Exec(w0, StoppingEarly()[0]));
    RunConcat(Genesis(admin), Setup(EARLY), StoppingEarly());
    RunTwo(w0, StoppingEarly());
    var w := Run(Genesis(admin), Setup(EARLY) + StoppingEarly());
    AnnWants5(w, 15, 2);
    BigGift(w);
    AnnWants5(Exec(w, By(20, OWNER, Drift(Hash(STAKE), This, 5))), 20, 5);
    EarlyNumbers();
    UnitScale(ThePool(STOPPED, 20, THREE_HALVES, 2));
    SetupInOrder(EARLY, StoppingEarly());
  }

  lemma UnitScale(pool: StakePool)
    requires pool.precision == 18
    ensures Scale(pool) == UNIT
  {
    PowsOfTen();
  }

  // ----- an update between end and start -----

  /** `add_pool` accepts a start after the end. */
  const LATE: Terms := Terms(REWARD, 20, 12)

  lemma LateNumbers()
    ensures UpdatePool(ThePool(LATE, 10, 0, 2), 20) == Ok(ThePool(LATE, 20, THREE_HALVES, 2))
    ensures UpdatePool(ThePool(LATE, 10, 0, 2), 15) == Ok(ThePool(LATE, 15, 0, 2))
    ensures UpdatePool(ThePool(LATE, 15, 0, 1), 20) == Ok(ThePool(LATE, 15, 0, 1))
    ensures MulDiv(2, THREE_HALVES, UNIT) == 3 && MulDiv(0, THREE_HALVES, UNIT) == 0
    ensures MulDiv(2, 0, UNIT) == MulDiv(1, 0, UNIT) == MulDiv(0, 0, UNIT) == 0
  {
    hide Hash;
    PowsOfTen();
  }

  /** Such a pool meets the condition under which splitting an update costs more than dust. */
  lemma LateLoses()
    ensures LosesAll(ThePool(LATE, 10, 0, 2))
  {
    hide Hash;
    PowsOfTen();
  }

  lemma AnnLeavesAtOnce(w: World)
    requires Stands(w, 10, ThePool(LATE, 10, 0, 2), UserInfo(2, 0), NOBODY, NOBODY, 3, 2, 0, 0)
    ensures Stands(Exec(w, By(20, ANN, Withdraw(2, 0))), 20, ThePool(LATE, 20, THREE_HALVES, 0), NOBODY, NOBODY, NOBODY, 0, 0, 3, 0)
  {
    hide Hash, TagOf, UpdatePool, Exec, MulDiv;
    AllDiffer();
    LateNumbers();
    Withdrawal(w, By(20, ANN, Withdraw(2, 0)), ThePool(LATE, 20, THREE_HALVES, 2), 2, 2, 3, 0);
  }

  lemma AnnTakesHalf(w: World)
    requires Stands(w, 10, ThePool(LATE, 10, 0, 2), UserInfo(2, 0), NOBODY, NOBODY, 3, 2, 0, 0)
    ensures Stands(Exec(w, By(15, ANN, Withdraw(1, 0))), 15, ThePool(LATE, 15, 0, 1), UserInfo(1, 0), NOBODY, NOBODY, 3, 1, 0, 0)
  {
    hide Hash, TagOf, UpdatePool, Exec, MulDiv;
    AllDiffer();
    LateNumbers();
    Withdrawal(w, By(15, ANN, Withdraw(1, 0)), ThePool(LATE, 15, 0, 2), 1, 2, 0, 0);
  }

  lemma AnnTakesRest(w: World)
    requires Stands(w, 15, ThePool(LATE, 15, 0, 1), UserInfo(1, 0), NOBODY, NOBODY, 3, 1, 0, 0)
    ensures Stands(Exec(w, By(20, ANN, Withdraw(1, 0))), 20, ThePool(LATE, 15, 0, 0), NOBODY, NOBODY, NOBODY, 3, 0, 0, 0)
  {
    hide Hash, TagOf, UpdatePool, Exec, MulDiv;
    AllDiffer();
    LateNumbers();
    Withdrawal(w, By(20, ANN, Withdraw(1, 0)), ThePool(LATE, 15, 0, 1), 1, 1, 0, 0);
  }

  function AtOnce(): seq<Event> {
    [By(10, ANN, Deposit(2, 0)), By(20, ANN, Withdraw(2, 0))]
  }

  function InTwo(): seq<Event> {
    [By(10, ANN, Deposit(2, 0)), By(15, ANN, Withdraw(1, 0)), By(20, ANN, Withdraw(1, 0))]
  }

  /** One more update loses everything. In a pool from 20 to 12, which `add_pool` accepts, Ann's withdrawal of 2
      at 20 is paid the whole reward of 3. Taking 1 at 15 and 1 at 20 instead pays her nothing at all. */
  lemma SplittingLosesAll(admin: Hash32)
    ensures InOrder(0, Setup(LATE) + AtOnce()) && InOrder(0, Setup(LATE) + InTwo())
    ensures var joined := Run(Genesis(admin), Setup(LATE) + [AtOnce()[0]]);
            0 in joined.state.pools && joined.state.pools[0].totalStaked > 0 && LosesAll(joined.state.pools[0])
    ensures var once, split := Run(Genesis(admin), Setup(LATE) + AtOnce()), Run(Genesis(admin), Setup(LATE) + InTwo());
            && UserOf(once.state, Hash(ANN), 0) == UserOf(split.state, Hash(ANN), 0) == NOBODY
            && 0 in once.tallies && once.tallies[0].paid == 3
            && 0 in split.tallies && split.tallies[0].paid == 0
  {
    hide Hash, TagOf, UpdatePool, Exec, Setup, Ready, Pow10, MulDiv, LosesAll;
    SetUp(admin, LATE);
    var w0 := Run(Genesis(admin), Setup(LATE));
    var w1 := Exec(w0, AtOnce()[0]);
    AnnJoins(w0, LATE, 3, 0);
    RunConcat(Genesis(admin), Setup(LATE), [AtOnce()[0]]);
    RunOne(w0, AtOnce()[0]);
    LateLoses();
    AnnLeavesAtOnce(w1);
    RunConcat(Genesis(admin), Setup(LATE), AtOnce());
    RunTwo(w0, AtOnce());
    AnnTakesHalf(w1);
    AnnTakesRest(Exec(w1, InTwo()[1]));
    RunConcat(Genesis(admin), Setup(LATE), InTwo());
    RunThree(w0, InTwo());
    SetupInOrder(LATE, AtOnce());
    SetupInOrder(LATE, InTwo());
  }
}
