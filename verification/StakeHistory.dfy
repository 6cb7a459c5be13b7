/** Runs of the staking contract, with the bookkeeping that the run-long properties speak of.
    A history never influences a step: it only records what the steps did. */
module StakeHistory {
  import opened Words
  import opened Arith
  import opened Ledger
  import opened Pool
  import opened StakeModel
  import opened StorageKeys

  /** One accruing update: the reward it shared out and the stake it shared it over. */
  datatype Accrual = Accrual(reward: nat, staked: nat)

  /** The history of one pool.
      `marks`: per user record, how much of `log` its last debt reset had seen;
      `paid`, `refund`: tokens handed out by settlements and by `stop_reward`;
      `resets`, `settlements`: debt resets, and those of users who already had stake;
      `dust`: the remainders that debt resets rounded away, new less old, in units of 1 / 10^precision;
      `raised`: the debt resets whose new remainder was above the old one;
      `forfeited`: reward given up in emergencies, in units of 1 / 10^precision;
      `covered`, `idle`: emission time that was, and was not, shared out;
      `span`: the emission period the pool was created with. */
  datatype Tally = Tally(
    log: seq<Accrual>,
    marks: map<Tag, nat>,
    paid: int,
    refund: nat,
    resets: nat,
    settlements: nat,
    dust: int,
    raised: nat,
    forfeited: int,
    covered: nat,
    idle: nat,
    span: nat,
    stopped: bool
  )

  function NewTally(start: u64, end: u64): Tally {
    Tally([], map[], 0, 0, 0, 0, 0, 0, 0, 0, 0, Sub64(end, start), false)
  }

  /** Emission time that lies before `time`. */
  function Reached(pool: StakePool, time: u64): nat {
    if Min(time, pool.end) > pool.start then Min(time, pool.end) - pool.start else 0
  }

  function Scale(pool: StakePool): (p: nat)
    ensures p >= 1
  {
    Pow10(pool.precision)
  }

  /** What a settlement pays: `floor(amount * acc / P) - debt`. */
  function Pending(pool: StakePool, user: UserInfo): int {
    MulDiv(user.amount, pool.acc, Scale(pool)) - user.debt
  }

  /** What rounding a stake's earnings down drops. */
  function Residue(pool: StakePool, amount: nat): (r: nat)
    ensures r < Scale(pool)
  {
    MulMod(amount, pool.acc, Scale(pool))
  }

  function ObserveUpdate(t: Tally, pool: StakePool, now: u64): Tally {
    if Accrues(pool, now) then
      t.(log := t.log + [Accrual(IntervalReward(pool, now), pool.totalStaked)],
         covered := t.covered + Unlocked(pool, now))
    else if SkipsTo(pool, now) && Reached(pool, now) >= Reached(pool, pool.last) then
      t.(idle := t.idle + (Reached(pool, now) - Reached(pool, pool.last)))
    else t
  }

  function ObserveSettlement(t: Tally, pool: StakePool, user: UserInfo, newAmount: nat, tag: Tag): Tally {
    t.(paid := t.paid + Pending(pool, user),
       resets := t.resets + 1,
       settlements := t.settlements + (if user.amount > 0 then 1 else 0),
       dust := t.dust + (Residue(pool, newAmount) - Residue(pool, user.amount)),
       raised := t.raised + (if Residue(pool, newAmount) > Residue(pool, user.amount) then 1 else 0),
       marks := t.marks[tag := |t.log|])
  }

  function ObserveStop(t: Tally, refund: nat): Tally {
    t.(refund := t.refund + refund, stopped := true)
  }

  function ObserveEmergency(t: Tally, pool: StakePool, user: UserInfo, tag: Tag): Tally {
    t.(forfeited := t.forfeited + (user.amount * pool.acc - Scale(pool) * user.debt),
       marks := t.marks[tag := |t.log|])
  }

  // ----- runs -----

  /** `Drift` and `Approve` are the outside world changing one balance or allowance of a token. */
  datatype Call =
    | Init
    | AddPool(stakingToken: Hash32, rewardToken: Hash32, start: u64, end: u64, precision: u64, totalReward: u256)
    | Deposit(amount: u256, id: u64)
    | Withdraw(amount: u256, id: u64)
    | StopReward(id: u64)
    | EmergencyWithdraw(id: u64)
    | SaveMe(token: Hash32, amount: u256)
    | SetAdmin(account: Hash32)
    | Drift(token: Hash32, holder: Holder, balance: nat)
    | Approve(token: Hash32, allowance: nat)

  datatype Event = Event(now: u64, caller: Hash32, call: Call)

  /** `external`: per token, what entered the contract's balance outside its accounting. */
  datatype World = World(state: State, tallies: map<u64, Tally>, external: map<Hash32, int>, clock: u64)

  function External(w: World, token: Hash32): int {
    if token in w.external then w.external[token] else 0
  }

  function UserOf(s: State, caller: Hash32, id: u64): UserInfo {
    if KeyOf(caller, id) in s.users then s.users[KeyOf(caller, id)] else UserInfo(0, 0)
  }

  /** The contract's answer to a call. */
  function Respond(s: State, e: Event): Result<State> {
    match e.call
    case Init => InitTx(s)
    case AddPool(stakingToken, rewardToken, start, end, precision, totalReward) =>
      AddPoolTx(s, e.now, e.caller, stakingToken, rewardToken, start, end, precision, totalReward)
    case Deposit(amount, id) => DepositTx(s, e.now, e.caller, amount, id)
    case Withdraw(amount, id) => WithdrawTx(s, e.now, e.caller, amount, id)
    case StopReward(id) => StopRewardTx(s, e.now, e.caller, id)
    case EmergencyWithdraw(id) => EmergencyWithdrawTx(s, e.caller, id)
    case SaveMe(token, amount) => SaveMeTx(s, e.caller, token, amount)
    case SetAdmin(account) => SetAdminTx(s, e.caller, account)
    case Drift(token, holder, balance) => Ok(s.(tokens := s.tokens.SetBalance(token, holder, balance)))
    case Approve(token, allowance) => Ok(s.(tokens := s.tokens.SetAllowance(token, e.caller, allowance)))
  }

  predicate OnPool(call: Call) {
    call.Deposit? || call.Withdraw? || call.StopReward? || call.EmergencyWithdraw?
  }

  /** The stake a settlement leaves the caller with. */
  function NewAmount(user: UserInfo, call: Call): nat {
    if call.Deposit? then user.amount + call.amount
    else if call.Withdraw? && call.amount <= user.amount then user.amount - call.amount
    else user.amount
  }

  /** The tally of pool `e.call.id` after the call went through. */
  function Observe(s: State, t: Tally, e: Event): Tally
    requires OnPool(e.call)
    requires e.call.id in s.pools
  {
    var stored := s.pools[e.call.id];
    var current := CurrentPool(s, e.now, e.call.id);
    var pool := if current.Ok? then current.value else stored;
    var user := UserOf(s, e.caller, e.call.id);
    match e.call
    case Deposit(_, _) => ObserveSettlement(ObserveUpdate(t, stored, e.now), pool, user, NewAmount(user, e.call), TagOf(e.caller))
    case Withdraw(_, _) => ObserveSettlement(ObserveUpdate(t, stored, e.now), pool, user, NewAmount(user, e.call), TagOf(e.caller))
    case StopReward(_) =>
      ObserveStop(ObserveUpdate(t, stored, e.now), if Refund(pool, e.now).Ok? then Refund(pool, e.now).value else 0)
    case EmergencyWithdraw(_) => ObserveEmergency(t, stored, user, TagOf(e.caller))
  }

  function ObserveAll(w: World, e: Event): map<u64, Tally> {
    if e.call.AddPool? then w.tallies[w.state.index := NewTally(e.call.start, e.call.end)]
    else if OnPool(e.call) && e.call.id in w.tallies && e.call.id in w.state.pools then
      w.tallies[e.call.id := Observe(w.state, w.tallies[e.call.id], e)]
    else w.tallies
  }

  function ObserveExternal(w: World, e: Event): map<Hash32, int> {
    match e.call
    case SaveMe(token, amount) => w.external[token := External(w, token) - amount]
    case Drift(token, This, balance) =>
      w.external[token := External(w, token) + balance - w.state.tokens.Balance(token, This)]
    case _ => w.external
  }

  /** One event. A reverted call only lets time pass. */
  function Exec(w: World, e: Event): World {
    var answer := Respond(w.state, e);
    if answer.Ok? then World(answer.value, ObserveAll(w, e), ObserveExternal(w, e), e.now)
    else w.(clock := e.now)
  }

  function Run(w: World, es: seq<Event>): World
    decreases |es|
  {
    if es == [] then w else Run(Exec(w, es[0]), es[1..])
  }

  /** Block time never goes back. */
  ghost predicate InOrder(from: u64, es: seq<Event>)
    decreases |es|
  {
    es != [] ==> from <= es[0].now && InOrder(es[0].now, es[1..])
  }

  /** The contract as installed, before `init`. */
  function Genesis(admin: Hash32): World {
    World(State(map[], map[], 0, admin, false, Tokens(map[], map[])), map[], map[], 0)
  }
}
