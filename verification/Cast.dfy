/** The people, tokens and first steps of the concrete runs in `Shortfall`. */
module Cast {
  import opened Words
  import opened Arith
  import opened Ledger
  import opened Pool
  import opened StakeModel
  import opened StakeHistory
  import opened PoolBooks
  import opened StorageKeys

  function Hash(n: u8): Hash32 {
    RawHash(seq(32, _ => n))
  }

  lemma HashesDiffer(m: u8, n: u8)
    requires m != n
    ensures Hash(m) != Hash(n) && TagOf(Hash(m)) != TagOf(Hash(n))
  {
    hide TagOf;
    TagsAgree(Hash(m), Hash(n));
    assert Hash(m).bytes[..7][0] == m && Hash(n).bytes[..7][0] == n;
  }

  const OWNER: u8 := 1
  const ANN: u8 := 2
  const BEN: u8 := 3
  const CAT: u8 := 4
  const STAKE: u8 := 5
  const REWARD: u8 := 6

  function By(now: u64, who: u8, call: Call): Event {
    Event(now, Hash(who), call)
  }

  /** `who` comes to hold `amount` of a token and lets the contract draw it. */
  function Endow(who: u8, token: u8, amount: nat): seq<Event> {
    [By(0, who, Drift(Hash(token), Account(Hash(who)), amount)), By(0, who, Approve(Hash(token), amount))]
  }

  /** What the runs differ in: the reward token, start and end of the pool. */
  datatype Terms = Terms(reward: u8, start: u64, end: u64)

  function Create(terms: Terms): Event {
    By(0, OWNER, AddPool(Hash(STAKE), Hash(terms.reward), terms.start, terms.end, 18, 3))
  }

  /** Tokens and allowances for everybody, then a pool of 3 reward units. */
  function Setup(terms: Terms): seq<Event> {
    [By(0, OWNER, Init)] + Endow(OWNER, terms.reward, 3) + Endow(ANN, STAKE, 2) + Endow(BEN, STAKE, 1) + Endow(CAT, STAKE, 1)
    + [Create(terms)]
  }

  const UNIT: nat := 1_000_000_000_000_000_000

  function ThePool(terms: Terms, last: u64, acc: u256, staked: u256): StakePool {
    StakePool(0, last, Hash(STAKE), Hash(terms.reward), terms.start, terms.end, 18, Hash(OWNER), 3, acc, staked)
  }

  /** Where the run stands: the pool, the three records, what the contract holds of the reward and of the staking
      token, and what was paid and refunded. */
  ghost predicate Stands(w: World, clock: u64, pool: StakePool, ann: UserInfo, ben: UserInfo, cat: UserInfo,
                         reward: nat, stake: nat, paid: int, refund: nat)
  {
    && w.clock == clock && w.state.initialized && w.state.index == 1
    && 0 in w.state.pools && w.state.pools[0] == pool && 0 in w.tallies
    && w.tallies[0].paid == paid && w.tallies[0].refund == refund
    && UserOf(w.state, Hash(ANN), 0) == ann
    && UserOf(w.state, Hash(BEN), 0) == ben
    && UserOf(w.state, Hash(CAT), 0) == cat
    && w.state.tokens.Balance(pool.rewardToken, This) == reward
    && w.state.tokens.Balance(pool.stakingToken, This) == stake
  }

  /** The account holds the stake it means to bring, and lets the contract draw it. */
  ghost predicate Ready(w: World, who: u8, amount: nat) {
    w.state.tokens.Balance(Hash(STAKE), Account(Hash(who))) >= amount && w.state.tokens.Allowance(Hash(STAKE), Hash(who)) >= amount
  }

  const NOBODY: UserInfo := UserInfo(0, 0)

  lemma AllDiffer()
    ensures forall m: u8, n: u8 :: m != n ==> Hash(m) != Hash(n) && TagOf(Hash(m)) != TagOf(Hash(n))
  {
    forall m: u8, n: u8 | m != n {
      HashesDiffer(m, n);
    }
  }

  lemma {:induction false} RunConcat(w: World, a: seq<Event>, b: seq<Event>)
    ensures Run(w, a + b) == Run(Run(w, a), b)
    decreases |a|
  {
    hide Exec;
    if a == [] {
      assert a + b == b;
    } else {
      assert (a + b)[1..] == a[1..] + b;
      RunConcat(Exec(w, a[0]), a[1..], b);
    }
  }

  lemma RunOne(w: World, e: Event)
    ensures Run(w, [e]) == Exec(w, e)
  {
    hide Exec;
    assert Run(w, [e]) == Run(Exec(w, e), [e][1..]);
  }

  lemma RunTwo(w: World, es: seq<Event>)
    requires |es| == 2
    ensures Run(w, es) == Exec(Exec(w, es[0]), es[1])
  {
    hide Exec;
    assert es[1..] == [es[1]];
    RunOne(Exec(w, es[0]), es[1]);
  }

  function Endowed(l: Tokens, who: u8, token: u8, amount: nat): Tokens {
    l.SetBalance(Hash(token), Account(Hash(who)), amount).SetAllowance(Hash(token), Hash(who), amount)
  }

  lemma EndowRun(w: World, who: u8, token: u8, amount: nat)
    ensures Run(w, Endow(who, token, amount)) ==
            w.(state := w.state.(tokens := Endowed(w.state.tokens, who, token, amount)), clock := 0)
  {
    hide Hash, Run;
    var es := Endow(who, token, amount);
    var mid := Exec(w, es[0]);
    assert mid == w.(state := w.state.(tokens := w.state.tokens.SetBalance(Hash(token), Account(Hash(who)), amount)), clock := 0);
    RunTwo(w, es);
  }

  lemma RunThree(w: World, es: seq<Event>)
    requires |es| == 3
    ensures Run(w, es) == Exec(Exec(Exec(w, es[0]), es[1]), es[2])
  {
    hide Exec;
    RunTwo(Exec(w, es[0]), es[1..]);
  }

  function Purse(terms: Terms): Tokens {
    Endowed(Endowed(Endowed(Endowed(Tokens(map[], map[]), OWNER, terms.reward, 3), ANN, STAKE, 2), BEN, STAKE, 1), CAT, STAKE, 1)
  }

  lemma EndowedIs(l: Tokens, who: u8, token: u8, amount: nat)
    ensures forall t: u8, o: u8 ::
              Endowed(l, who, token, amount).Balance(Hash(t), Account(Hash(o))) ==
              if t == token && o == who then amount else l.Balance(Hash(t), Account(Hash(o)))
    ensures forall t: u8, o: u8 ::
              Endowed(l, who, token, amount).Allowance(Hash(t), Hash(o)) ==
              if t == token && o == who then amount else l.Allowance(Hash(t), Hash(o))
    ensures forall t: u8 :: Endowed(l, who, token, amount).Balance(Hash(t), This) == l.Balance(Hash(t), This)
  {
    hide Hash;
    AllDiffer();
  }

  lemma InPurse(terms: Terms)
    ensures Purse(terms).Balance(Hash(terms.reward), Account(Hash(OWNER))) == Purse(terms).Allowance(Hash(terms.reward), Hash(OWNER)) == 3
    ensures Purse(terms).Balance(Hash(STAKE), Account(Hash(ANN))) == Purse(terms).Allowance(Hash(STAKE), Hash(ANN)) == 2
    ensures Purse(terms).Balance(Hash(STAKE), Account(Hash(BEN))) == Purse(terms).Allowance(Hash(STAKE), Hash(BEN)) == 1
    ensures Purse(terms).Balance(Hash(STAKE), Account(Hash(CAT))) == Purse(terms).Allowance(Hash(STAKE), Hash(CAT)) == 1
    ensures Purse(terms).Balance(Hash(terms.reward), This) == Purse(terms).Balance(Hash(STAKE), This) == 0
  {
    hide Hash, Endowed;
    var l0 := Tokens(map[], map[]);
    var l1 := Endowed(l0, OWNER, terms.reward, 3);
    var l2 := Endowed(l1, ANN, STAKE, 2);
    var l3 := Endowed(l2, BEN, STAKE, 1);
    EndowedIs(l0, OWNER, terms.reward, 3);
    EndowedIs(l1, ANN, STAKE, 2);
    EndowedIs(l2, BEN, STAKE, 1);
    EndowedIs(l3, CAT, STAKE, 1);
  }

  /** The world before the pool is made. */
  function Furnished(admin: Hash32, terms: Terms): World {
    World(State(map[], map[], 0, admin, true, Purse(terms)), map[], map[], 0)
  }

  lemma Furnishing(admin: Hash32, terms: Terms)
    ensures Run(Genesis(admin), Setup(terms)) == Exec(Furnished(admin, terms), Create(terms))
  {
    hide Hash, Exec, Endow, Endowed, Run;
    var e0, e1, e2, e3, e4 := [By(0, OWNER, Init)], Endow(OWNER, terms.reward, 3), Endow(ANN, STAKE, 2), Endow(BEN, STAKE, 1), Endow(CAT, STAKE, 1);
    RunConcat(Genesis(admin), e0 + e1 + e2 + e3 + e4, [Create(terms)]);
    RunConcat(Genesis(admin), e0 + e1 + e2 + e3, e4);
    RunConcat(Genesis(admin), e0 + e1 + e2, e3);
    RunConcat(Genesis(admin), e0 + e1, e2);
    RunConcat(Genesis(admin), e0, e1);
    RunOne(Genesis(admin), e0[0]);
    InitRuns(admin);
    var w0 := World(State(map[], map[], 0, admin, true, Tokens(map[], map[])), map[], map[], 0);
    EndowRun(w0, OWNER, terms.reward, 3);
    EndowRun(Run(w0, e1), ANN, STAKE, 2);
    EndowRun(Run(Run(w0, e1), e2), BEN, STAKE, 1);
    EndowRun(Run(Run(Run(w0, e1), e2), e3), CAT, STAKE, 1);
    RunOne(Furnished(admin, terms), Create(terms));
  }

  lemma InitRuns(admin: Hash32)
    ensures Exec(Genesis(admin), By(0, OWNER, Init)) ==
            World(State(map[], map[], 0, admin, true, Tokens(map[], map[])), map[], map[], 0)
  {
    hide Hash;
  }

  lemma PoolMade(admin: Hash32, terms: Terms)
    ensures var w := Exec(Furnished(admin, terms), Create(terms));
            && Purse(terms).TransferFrom(Hash(terms.reward), Hash(OWNER), 3).Ok?
            && w.state == State(map[0 := ThePool(terms, 0, 0, 0)], map[], 1, admin, true, Purse(terms).TransferFrom(Hash(terms.reward), Hash(OWNER), 3).value)
            && w.tallies == map[0 := NewTally(terms.start, terms.end)] && w.clock == 0
  {
    hide Hash, Purse, NewTally;
    InPurse(terms);
  }

  /** The contract's tokens once the reward is in. */
  lemma PulledReward(terms: Terms)
    ensures Purse(terms).TransferFrom(Hash(terms.reward), Hash(OWNER), 3).Ok?
    ensures var l := Purse(terms).TransferFrom(Hash(terms.reward), Hash(OWNER), 3).value;
            && l.Balance(Hash(terms.reward), This) == 3
            && l.Balance(Hash(STAKE), This) == (if terms.reward == STAKE then 3 else 0)
            && l.Balance(Hash(STAKE), Account(Hash(ANN))) == l.Allowance(Hash(STAKE), Hash(ANN)) == 2
            && l.Balance(Hash(STAKE), Account(Hash(BEN))) == l.Allowance(Hash(STAKE), Hash(BEN)) == 1
            && l.Balance(Hash(STAKE), Account(Hash(CAT))) == l.Allowance(Hash(STAKE), Hash(CAT)) == 1
  {
    hide Hash, TagOf, Purse;
    AllDiffer();
    InPurse(terms);
  }

  lemma SetUp(admin: Hash32, terms: Terms)
    ensures var w := Run(Genesis(admin), Setup(terms));
            && Stands(w, 0, ThePool(terms, 0, 0, 0), NOBODY, NOBODY, NOBODY, 3, if terms.reward == STAKE then 3 else 0, 0, 0)
            && Ready(w, ANN, 2) && Ready(w, BEN, 1) && Ready(w, CAT, 1)
  {
    hide Hash, TagOf, Purse, Setup, Exec, Furnished, Create, Genesis, Run, Sub64, Tokens.TransferFrom, Tokens.Balance, Tokens.Allowance;
    Furnishing(admin, terms);
    PoolMade(admin, terms);
    PulledReward(terms);
  }

  // ----- deposits and withdrawals seen from outside -----

  lemma EarnedAt18(pool: StakePool, amount: u256)
    requires pool.precision == 18 && amount * pool.acc < TWO_256
    ensures Earned(pool, amount) == Ok(MulDiv(amount, pool.acc, UNIT))
    ensures Earned(pool, 0) == Ok(0)
    ensures Scale(pool) == UNIT
  {
    PowsOfTen();
    GainBound(amount, pool.acc, UNIT);
  }

  /** What a settlement that went through adds to the history. */
  lemma Tallied(w: World, e: Event, pool: StakePool)
    requires (e.call.Deposit? || e.call.Withdraw?) && e.call.id == 0 && Respond(w.state, e).Ok?
    requires 0 in w.state.pools && 0 in w.tallies && CurrentPool(w.state, e.now, 0) == Ok(pool)
    ensures var w' := Exec(w, e);
            && w'.state == Respond(w.state, e).value && w'.clock == e.now && 0 in w'.tallies
            && w'.tallies[0].paid == w.tallies[0].paid + Pending(pool, UserOf(w.state, e.caller, 0))
            && w'.tallies[0].refund == w.tallies[0].refund
  {
    hide Respond, CurrentPool, UserOf, Pending, Residue;
  }

  lemma DepositAnswer(s: State, now: u64, caller: Hash32, amount: u256, pool: StakePool, debt: u256)
    requires s.initialized && 0 in s.pools && amount > 0
    requires UpdatePool(s.pools[0], now) == Ok(pool) && now <= pool.end
    requires UserOf(s, caller, 0) == NOBODY
    requires pool.totalStaked + amount < TWO_256
    requires Earned(pool, amount) == Ok(debt) && Earned(pool, 0) == Ok(0)
    requires s.tokens.TransferFrom(pool.stakingToken, caller, amount).Ok?
    ensures DepositTx(s, now, caller, amount, 0) ==
            Ok(UpdateStorage(s.(tokens := s.tokens.TransferFrom(pool.stakingToken, caller, amount).value),
                             caller, 0, pool.(totalStaked := pool.totalStaked + amount), UserInfo(amount, debt)))
  {
    hide UpdatePool, Earned, TagOf, Tokens.TransferFrom;
  }

  /** A first deposit, seen from outside. */
  lemma FirstDeposit(w: World, e: Event, pool: StakePool, amount: u256)
    requires w.state.initialized && 0 in w.state.pools && 0 in w.tallies
    requires e.call == Deposit(amount, 0) && amount > 0
    requires UpdatePool(w.state.pools[0], e.now) == Ok(pool) && e.now <= pool.end
    requires UserOf(w.state, e.caller, 0) == NOBODY
    requires pool.totalStaked + amount < TWO_256
    requires pool.precision == 18 && amount * pool.acc < UNIT
    requires w.state.tokens.TransferFrom(pool.stakingToken, e.caller, amount).Ok?
    ensures var w' := Exec(w, e);
            && w'.state == UpdateStorage(w.state.(tokens := w.state.tokens.TransferFrom(pool.stakingToken, e.caller, amount).value),
                                         e.caller, 0, pool.(totalStaked := pool.totalStaked + amount), UserInfo(amount, 0))
            && 0 in w'.tallies && w'.tallies[0].paid == w.tallies[0].paid && w'.clock == e.now
            && w'.tallies[0].refund == w.tallies[0].refund
  {
    hide UpdatePool, Earned, TagOf, UpdateStorage, Tokens.TransferFrom, DepositTx, Exec, MulDiv, UserOf, Scale;
    EarnedAt18(pool, amount);
    Floored(amount, pool.acc);
    DepositAnswer(w.state, e.now, e.caller, amount, pool, 0);
    Tallied(w, e, pool);
    ZeroShare(pool.acc, Scale(pool));
  }

  lemma Floored(amount: nat, acc: nat)
    requires amount * acc < UNIT
    ensures MulDiv(amount, acc, UNIT) == 0
  {
  }

  /** A withdrawal by a user without debt. */
  lemma WithdrawAnswer(s: State, now: u64, caller: Hash32, amount: u256, pool: StakePool, had: u256, pending: u256, debt: u256)
    requires s.initialized && 0 in s.pools && 0 < amount <= had && amount <= pool.totalStaked
    requires UpdatePool(s.pools[0], now) == Ok(pool)
    requires UserOf(s, caller, 0) == UserInfo(had, 0)
    requires Earned(pool, had) == Ok(pending) && Earned(pool, had - amount) == Ok(debt)
    ensures var calls := WithdrawCalls(s.tokens, pool, caller, pending, amount);
            && (calls.Revert? ==> WithdrawTx(s, now, caller, amount, 0) == Revert(calls.error))
            && (calls.Ok? ==>
                  WithdrawTx(s, now, caller, amount, 0) ==
                  Ok(UpdateStorage(s.(tokens := calls.value), caller, 0, pool.(totalStaked := pool.totalStaked - amount),
                                   UserInfo(had - amount, debt))))
  {
    hide UpdatePool, Earned, TagOf, WithdrawCalls;
  }

  lemma Withdrawal(w: World, e: Event, pool: StakePool, amount: u256, had: u256, pending: u256, debt: u256)
    requires w.state.initialized && 0 in w.state.pools && 0 in w.tallies
    requires e.call == Withdraw(amount, 0) && 0 < amount <= had && amount <= pool.totalStaked
    requires UpdatePool(w.state.pools[0], e.now) == Ok(pool)
    requires UserOf(w.state, e.caller, 0) == UserInfo(had, 0)
    requires pool.precision == 18 && had * pool.acc < TWO_256
    requires MulDiv(had, pool.acc, UNIT) == pending && MulDiv(had - amount, pool.acc, UNIT) == debt
    ensures var calls := WithdrawCalls(w.state.tokens, pool, e.caller, pending, amount);
            && (calls.Revert? ==> Respond(w.state, e) == Revert(calls.error))
            && (calls.Ok? ==>
                  var w' := Exec(w, e);
                  && w'.state == UpdateStorage(w.state.(tokens := calls.value), e.caller, 0,
                                               pool.(totalStaked := pool.totalStaked - amount), UserInfo(had - amount, debt))
                  && 0 in w'.tallies && w'.tallies[0].paid == w.tallies[0].paid + pending && w'.clock == e.now
                  && w'.tallies[0].refund == w.tallies[0].refund)
  {
    hide UpdatePool, Earned, TagOf, UpdateStorage, WithdrawTx, WithdrawCalls, Exec, MulDiv, UserOf, Scale;
    MulMono(had - amount, had, pool.acc);
    EarnedAt18(pool, had);
    EarnedAt18(pool, had - amount);
    WithdrawAnswer(w.state, e.now, e.caller, amount, pool, had, pending, debt);
    if WithdrawCalls(w.state.tokens, pool, e.caller, pending, amount).Ok? {
      Tallied(w, e, pool);
    }
  }

  /** A run is in order when its times never fall. */
  lemma {:induction false} OrderedByTimes(from: u64, es: seq<Event>)
    requires forall i :: 0 <= i < |es| ==> from <= es[i].now
    requires forall i, j :: 0 <= i < j < |es| ==> es[i].now <= es[j].now
    ensures InOrder(from, es)
    decreases |es|
  {
    if es != [] {
      OrderedByTimes(es[0].now, es[1..]);
    }
  }

  lemma SetupAtZero(terms: Terms)
    ensures forall i :: 0 <= i < |Setup(terms)| ==> Setup(terms)[i].now == 0
  {
    hide Hash;
  }

  lemma SetupInOrder(terms: Terms, es: seq<Event>)
    requires forall i, j :: 0 <= i < j < |es| ==> es[i].now <= es[j].now
    ensures InOrder(0, Setup(terms) + es)
  {
    hide Setup;
    SetupAtZero(terms);
    OrderedByTimes(0, Setup(terms) + es);
  }

  // ----- Ann joins first -----

  lemma EmptyUpdate(terms: Terms)
    ensures UpdatePool(ThePool(terms, 0, 0, 0), 10) == Ok(ThePool(terms, 10, 0, 0))
  {
    hide Hash;
  }

  lemma AnnJoins(w: World, terms: Terms, reward: nat, stake: nat)
    requires 10 <= terms.end
    requires Stands(w, 0, ThePool(terms, 0, 0, 0), NOBODY, NOBODY, NOBODY, reward, stake, 0, 0)
    requires Ready(w, ANN, 2) && Ready(w, BEN, 1) && Ready(w, CAT, 1)
    ensures var w' := Exec(w, By(10, ANN, Deposit(2, 0)));
            && Stands(w', 10, ThePool(terms, 10, 0, 2), UserInfo(2, 0), NOBODY, NOBODY,
                      if terms.reward == STAKE then reward + 2 else reward, stake + 2, 0, 0)
            && Ready(w', BEN, 1) && Ready(w', CAT, 1)
  {
    hide Hash, TagOf, Exec, UpdatePool;
    AllDiffer();
    EmptyUpdate(terms);
    FirstDeposit(w, By(10, ANN, Deposit(2, 0)), ThePool(terms, 10, 0, 0), 2);
  }
}
