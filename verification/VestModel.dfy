/** The vesting contract's entry points as functions from state to state, and runs of them. */
module VestModel {
  import opened Words
  import opened Ledger

  datatype Slot = Slot(release: u64, amount: u256)

  datatype VestInfo = VestInfo(id: u64, lockTime: u64, recipient: Hash32, token: Hash32, slots: seq<Slot>)

  /** A finished lock's dictionary entry is overwritten with no bytes. */
  datatype Entry = Live(info: VestInfo) | Cleared

  datatype State = State(
    locks: map<u64, Entry>,
    ids: map<Hash32, seq<u64>>,
    index: u64,
    paused: bool,
    initialized: bool,
    tokens: Tokens
  )

  // ----- schedules -----

  /** `n` slots, `gap` apart. The product is checked, the addition wraps. */
  function BuildSlots(first: u64, gap: u64, amount: u256, n: nat): (r: Result<seq<Slot>>)
    ensures r.Ok? ==> |r.value| == n
  {
    if n == 0 then Ok([])
    else
      var before :- BuildSlots(first, gap, amount, n - 1);
      var offset :- CheckedMul64(gap, n - 1);
      Ok(before + [Slot(Add64(first, offset), amount)])
  }

  function Total(slots: seq<Slot>): nat {
    if slots == [] then 0 else Total(slots[..|slots| - 1]) + slots[|slots| - 1].amount
  }

  /** What a claim at `now` collects. */
  function Due(slots: seq<Slot>, now: u64): nat {
    if slots == [] then 0
    else
      var slot := slots[|slots| - 1];
      Due(slots[..|slots| - 1], now) + if now >= slot.release then slot.amount else 0
  }

  /** The slots a claim at `now` leaves. */
  function Claimed(slots: seq<Slot>, now: u64): (r: seq<Slot>)
    ensures |r| == |slots|
    ensures forall i :: 0 <= i < |r| ==> r[i] == if now >= slots[i].release then slots[i].(amount := 0) else slots[i]
  {
    seq(|slots|, i requires 0 <= i < |slots| => if now >= slots[i].release then slots[i].(amount := 0) else slots[i])
  }

  predicate AllZero(slots: seq<Slot>) {
    forall i :: 0 <= i < |slots| ==> slots[i].amount == 0
  }

  // ----- the per-account id lists -----

  function IdsOf(s: State, account: Hash32): seq<u64> {
    if account in s.ids then s.ids[account] else []
  }

  function ReadIds(ids: map<Hash32, seq<u64>>, account: Hash32): Result<seq<u64>> {
    if account in ids then Ok(ids[account]) else Revert(MissingKey)
  }

  function PushId(ids: map<Hash32, seq<u64>>, account: Hash32, id: u64): map<Hash32, seq<u64>> {
    ids[account := (if account in ids then ids[account] else []) + [id]]
  }

  function IndexOf(list: seq<u64>, id: u64): (k: nat)
    requires id in list
    ensures k < |list| && list[k] == id && id !in list[..k]
  {
    if list[0] == id then 0 else 1 + IndexOf(list[1..], id)
  }

  /** `iter().position(..).unwrap()`. */
  function Position(list: seq<u64>, id: u64): Result<nat> {
    if id in list then Ok(IndexOf(list, id)) else Revert(Panic)
  }

  function SwapRemove(list: seq<u64>, k: nat): seq<u64>
    requires k < |list|
  {
    list[k := list[|list| - 1]][..|list| - 1]
  }

  function RemoveId(ids: map<Hash32, seq<u64>>, account: Hash32, id: u64): Result<map<Hash32, seq<u64>>> {
    var list :- ReadIds(ids, account);
    var k :- Position(list, id);
    Ok(ids[account := SwapRemove(list, k)])
  }

  // ----- entry points -----

  /** `init` works once: it creates the dictionary and the counter that the other entry points need. */
  function InitTx(s: State): Result<State> {
    if s.initialized then Revert(PermissionDenied)
    else Ok(s.(locks := map[], index := 0, initialized := true))
  }

  function GetLock(s: State, caller: Hash32, id: u64): Result<VestInfo> {
    if !s.initialized then Revert(MissingKey)
    else if s.index < id then Revert(InvalidArgument)
    else if id !in s.locks then Revert(NoneError)
    else if s.locks[id].Cleared? then Revert(MissingKey)
    else if s.locks[id].info.recipient != caller then Revert(InvalidPurse)
    else Ok(s.locks[id].info)
  }

  function LockTx(s: State, now: u64, caller: Hash32, token: Hash32, cliff: u256, wait: u64, gap: u64, n: u32): Result<State> {
    if s.paused then Revert(User(14))
    else if !s.initialized then Revert(NoneError)
    else
      var first :- CheckedAdd64(now, wait);
      if n == 0 then Revert(InvalidArgument)
      else
        var slots :- BuildSlots(first, gap, cliff / n, n);
        var tokens :- s.tokens.TransferFrom(token, caller, cliff);
        Ok(s.(locks := s.locks[s.index := Live(VestInfo(s.index, now, caller, token, slots))],
              ids := PushId(s.ids, caller, s.index), index := Add64(s.index, 1), tokens := tokens))
  }

  function ExtendTx(s: State, caller: Hash32, id: u64, k: u32, release: u64): Result<State> {
    if s.paused then Revert(User(14))
    else
      var info :- GetLock(s, caller, id);
      if k >= |info.slots| then Revert(InvalidArgument)
      else if info.slots[k].release > release then Revert(NoneError)
      else Ok(s.(locks := s.locks[id := Live(info.(slots := info.slots[k := info.slots[k].(release := release)]))]))
  }

  function TransferTx(s: State, caller: Hash32, id: u64, owner: Hash32): Result<State> {
    if s.paused then Revert(User(14))
    else
      var info :- GetLock(s, caller, id);
      var ids :- RemoveId(s.ids, caller, info.id);
      Ok(s.(locks := s.locks[id := Live(info.(recipient := owner))], ids := PushId(ids, owner, info.id)))
  }

  function ClaimTx(s: State, now: u64, caller: Hash32, id: u64): Result<State> {
    if s.paused then Revert(User(14))
    else
      var info :- GetLock(s, caller, id);
      var due :- Word256(Due(info.slots, now));
      if due == 0 then Revert(User(9))
      else
        var tokens :- s.tokens.Transfer(info.token, caller, due);
        var slots := Claimed(info.slots, now);
        if AllZero(slots) then
          var ids :- RemoveId(s.ids, caller, id);
          Ok(s.(locks := s.locks[id := Cleared], ids := ids, tokens := tokens))
        else Ok(s.(locks := s.locks[id := Live(info.(slots := slots))], tokens := tokens))
  }

  // ----- runs -----

  /** What a lock was created with (`first` unlock, `gap`, `count` slots, `cliff` tokens), what it
      has paid, and whether it was ever extended. */
  datatype Grant = Grant(token: Hash32, first: nat, gap: nat, count: nat, cliff: nat, paid: nat, extended: bool)

  /** `SetPaused` stands for the admin's switch; `Drift` for any outside change of a balance, where
      only the contract itself can lower its own. */
  datatype Call =
    | Init
    | Lock(token: Hash32, cliff: u256, wait: u64, gap: u64, n: u32)
    | Extend(id: u64, k: u32, release: u64)
    | TransferLock(id: u64, owner: Hash32)
    | Claim(id: u64)
    | SetPaused(paused: bool)
    | Drift(token: Hash32, holder: Holder, balance: nat)
    | Approve(token: Hash32, allowance: nat)

  datatype Event = Event(now: u64, caller: Hash32, call: Call)

  /** `gifts`: per token, what came in outside the contract's accounting. */
  datatype World = World(state: State, grants: map<u64, Grant>, gifts: map<Hash32, nat>, clock: u64)

  function Respond(s: State, e: Event): Result<State> {
    match e.call
    case Init => InitTx(s)
    case Lock(token, cliff, wait, gap, n) => LockTx(s, e.now, e.caller, token, cliff, wait, gap, n)
    case Extend(id, k, release) => ExtendTx(s, e.caller, id, k, release)
    case TransferLock(id, owner) => TransferTx(s, e.caller, id, owner)
    case Claim(id) => ClaimTx(s, e.now, e.caller, id)
    case SetPaused(paused) => Ok(s.(paused := paused))
    case Drift(token, holder, balance) =>
      if holder == This && balance < s.tokens.Balance(token, This) then Revert(TokenFailure)
      else Ok(s.(tokens := s.tokens.SetBalance(token, holder, balance)))
    case Approve(token, allowance) => Ok(s.(tokens := s.tokens.SetAllowance(token, e.caller, allowance)))
  }

  function DueOf(s: State, id: u64, now: u64): nat {
    if id in s.locks && s.locks[id].Live? then Due(s.locks[id].info.slots, now) else 0
  }

  function Observe(w: World, e: Event): map<u64, Grant> {
    match e.call
    case Lock(token, cliff, wait, gap, n) =>
      w.grants[w.state.index := Grant(token, e.now + wait, gap, n, cliff, 0, false)]
    case Extend(id, _, _) => if id in w.grants then w.grants[id := w.grants[id].(extended := true)] else w.grants
    case Claim(id) =>
      if id in w.grants then w.grants[id := w.grants[id].(paid := w.grants[id].paid + DueOf(w.state, id, e.now))] else w.grants
    case Init => w.grants
    case TransferLock(_, _) => w.grants
    case SetPaused(_) => w.grants
    case Drift(_, _, _) => w.grants
    case Approve(_, _) => w.grants
  }

  function Gifts(w: World, token: Hash32): nat {
    if token in w.gifts then w.gifts[token] else 0
  }

  function ObserveGifts(w: World, e: Event): map<Hash32, nat> {
    if e.call.Drift? && e.call.holder == This && e.call.balance >= w.state.tokens.Balance(e.call.token, This) then
      w.gifts[e.call.token := Gifts(w, e.call.token) + e.call.balance - w.state.tokens.Balance(e.call.token, This)]
    else w.gifts
  }

  /** One event. A reverted call only lets time pass. */
  function Exec(w: World, e: Event): World {
    var answer := Respond(w.state, e);
    if answer.Ok? then World(answer.value, Observe(w, e), ObserveGifts(w, e), e.now)
    else w.(clock := e.now)
  }

  function Run(w: World, es: seq<Event>): World
    decreases |es|
  {
    if es == [] then w else Run(Exec(w, es[0]), es[1..])
  }

  ghost predicate InOrder(from: u64, es: seq<Event>)
    decreases |es|
  {
    es != [] ==> from <= es[0].now && InOrder(es[0].now, es[1..])
  }

  /** The contract as installed, before `init`. */
  const GENESIS: World := World(State(map[], map[], 0, false, false, Tokens(map[], map[])), map[], map[], 0)
}
