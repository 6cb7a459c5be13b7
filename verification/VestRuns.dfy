/** Every event keeps the vesting invariant. */
module VestRuns {
  import opened Words
  import opened Arith
  import opened Ledger
  import opened VestModel
  import opened VestInvariant

  lemma GotLock(s: State, caller: Hash32, id: u64)
    ensures GetLock(s, caller, id).Ok? ==> Owns(s, caller, id) && GetLock(s, caller, id).value == s.locks[id].info
  {
  }

  // ----- one lock -----

  lemma LockAges(id: u64, entry: Entry, g: Grant, clock: u64, now: u64)
    requires LockInv(id, entry, g, clock) && clock <= now
    ensures LockInv(id, entry, g, now)
  {
  }

  lemma NewLockInv(id: u64, now: u64, caller: Hash32, token: Hash32, cliff: u256, first: u64, gap: u64, n: u32)
    requires n > 0 && BuildSlots(first, gap, cliff / n, n).Ok?
    ensures LockInv(id, Live(VestInfo(id, now, caller, token, BuildSlots(first, gap, cliff / n, n).value)),
                    Grant(token, first, gap, n, cliff, 0, false), now)
  {
    hide BuildSlots, Total;
    var q := cliff / n;
    var g := Grant(token, first, gap, n, cliff, 0, false);
    var slots := BuildSlots(first, gap, q, n).value;
    BuiltSlots(first, gap, q, n);
    forall k | 0 <= k < n
      ensures SlotOk(g, k, slots[k], now)
    {
      if OnTime(g) {
        MulMono(k, n - 1, gap);
      }
    }
  }

  lemma ExtendedLockInv(id: u64, info: VestInfo, g: Grant, clock: u64, k: nat, release: u64)
    requires LockInv(id, Live(info), g, clock)
    requires k < |info.slots| && info.slots[k].release <= release
    ensures LockInv(id, Live(info.(slots := info.slots[k := info.slots[k].(release := release)])), g.(extended := true), clock)
  {
    hide Total;
    var slots := info.slots[k := info.slots[k].(release := release)];
    ReleaseKeepsTotal(info.slots, k, release);
    forall i | 0 <= i < |slots|
      ensures SlotOk(g.(extended := true), i, slots[i], clock)
    {
      assert SlotOk(g, i, info.slots[i], clock);
    }
  }

  /** A claim takes what is due, empties those slots, and clears the entry once nothing is left. */
  lemma ClaimedLockInv(id: u64, info: VestInfo, g: Grant, now: u64)
    requires LockInv(id, Live(info), g, now)
    requires Due(info.slots, now) > 0
    ensures var slots, g' := Claimed(info.slots, now), g.(paid := g.paid + Due(info.slots, now));
            LockInv(id, if AllZero(slots) then Cleared else Live(info.(slots := slots)), g', now)
  {
    hide Total, Due;
    var slots, g' := Claimed(info.slots, now), g.(paid := g.paid + Due(info.slots, now));
    ClaimSplits(info.slots, now);
    AllZeroIsEmpty(slots);
    forall i | 0 <= i < |slots|
      ensures SlotOk(g', i, slots[i], now)
    {
      assert SlotOk(g, i, info.slots[i], now);
    }
    if AllZero(slots) {
      assert g.count * Quota(g) > 0;
      assert SlotOk(g', g.count - 1, slots[g.count - 1], now);
    }
  }

  // ----- the world -----

  /** A step that rewrites one existing lock. `spent` is what left the contract for it. */
  lemma LocalStep(w: World, w': World, id: u64, spent: nat)
    requires VestInv(w) && id in w.state.locks
    requires w.clock <= w'.clock && w'.state.index == w.state.index && w'.gifts == w.gifts
    requires w'.state.initialized == w.state.initialized
    requires id in w'.state.locks && w'.state.locks == w.state.locks[id := w'.state.locks[id]]
    requires id in w'.grants && w'.grants == w.grants[id := w'.grants[id]]
    requires LockOk(w', id) && IndexOk(w'.state)
    requires w'.grants[id].token == w.grants[id].token
    requires forall token: Hash32 ::
               && LockHolds(w'.state.locks[id], w'.grants[id], token) + (if token == w.grants[id].token then spent else 0) ==
                  LockHolds(w.state.locks[id], w.grants[id], token)
               && w'.state.tokens.Balance(token, This) + (if token == w.grants[id].token then spent else 0) ==
                  w.state.tokens.Balance(token, This)
    ensures VestInv(w')
  {
    hide LockInv, IndexOk, LockHolds;
    forall other | other in w'.state.locks && other != id
      ensures LockOk(w', other)
    {
      assert LockOk(w, other);
      LockAges(other, w.state.locks[other], w.grants[other], w.clock, w'.clock);
    }
    forall token: Hash32
      ensures Conserved(w', token)
    {
      assert Conserved(w, token);
      LocksHoldLocal(w, w', token, id, w.state.index);
    }
  }

  lemma LockStep(w: World, e: Event)
    requires VestInv(w) && w.clock <= e.now && w.state.index + 1 < TWO_64
    requires e.call.Lock? && Respond(w.state, e).Ok?
    ensures VestInv(Exec(w, e))
  {
    hide LockInv, BuildSlots;
    var s, w', c, id := w.state, Exec(w, e), e.call, w.state.index;
    NewLockInv(id, e.now, e.caller, c.token, c.cliff, e.now + c.wait, c.gap, c.n);
    forall other | other in w'.state.locks
      ensures LockOk(w', other)
    {
      if other != id {
        assert LockOk(w, other);
        LockAges(other, w.state.locks[other], w.grants[other], w.clock, e.now);
      }
    }
    NewLockIndexed(w, e);
    forall token: Hash32
      ensures Conserved(w', token)
    {
      NewLockConserved(w, e, token);
    }
  }

  lemma NewLockIndexed(w: World, e: Event)
    requires VestInv(w) && w.state.index + 1 < TWO_64
    requires e.call.Lock? && Respond(w.state, e).Ok?
    ensures IndexOk(Exec(w, e).state)
  {
    hide LockOk, Conserved, BuildSlots;
    var s, s', id := w.state, Exec(w, e).state, w.state.index;
    forall account: Hash32
      ensures NoDuplicates(IdsOf(s', account))
      ensures forall x: u64 :: x in IdsOf(s', account) <==> Owns(s', account, x)
    {
      assert id !in IdsOf(s, account) by { assert !Owns(s, account, id); }
      PushAdds(IdsOf(s, account), id);
      assert IdsOf(s', account) == if account == e.caller then IdsOf(s, account) + [id] else IdsOf(s, account);
    }
  }

  /** A fresh lock is worth all of its cliff: the slots and the remainder of the division. */
  lemma FreshWorth(id: u64, now: u64, caller: Hash32, token: Hash32, cliff: u256, first: u64, gap: u64, n: u32, other: Hash32)
    requires n > 0 && BuildSlots(first, gap, cliff / n, n).Ok?
    ensures LockHolds(Live(VestInfo(id, now, caller, token, BuildSlots(first, gap, cliff / n, n).value)),
                      Grant(token, first, gap, n, cliff, 0, false), other) == if other == token then cliff else 0
  {
    hide BuildSlots, Total;
    BuiltSlots(first, gap, cliff / n, n);
    QuotientRest(cliff, n);
  }

  /** A lock call: the cliff comes in, and the new lock is worth all of it. */
  lemma NewLockWorth(w: World, e: Event, token: Hash32)
    requires e.call.Lock? && Respond(w.state, e).Ok? && w.state.index + 1 < TWO_64
    ensures var w', id := Exec(w, e), w.state.index;
            && w'.state.index == id + 1 && w'.gifts == w.gifts
            && id in w'.state.locks && w'.state.locks == w.state.locks[id := w'.state.locks[id]]
            && id in w'.grants && w'.grants == w.grants[id := w'.grants[id]]
            && LockHolds(w'.state.locks[id], w'.grants[id], token) == (if token == e.call.token then e.call.cliff else 0)
            && w'.state.tokens.Balance(token, This) ==
               w.state.tokens.Balance(token, This) + if token == e.call.token then e.call.cliff else 0
  {
    hide BuildSlots, LockHolds;
    var c := e.call;
    TransferFromShifts(w.state.tokens, c.token, e.caller, c.cliff);
    FreshWorth(w.state.index, e.now, e.caller, c.token, c.cliff, e.now + c.wait, c.gap, c.n, token);
  }

  lemma NewLockConserved(w: World, e: Event, token: Hash32)
    requires VestInv(w) && w.state.index + 1 < TWO_64
    requires e.call.Lock? && Respond(w.state, e).Ok?
    ensures Conserved(Exec(w, e), token)
  {
    hide LockOk, IndexOk, Exec, Respond, LockHolds;
    assert Conserved(w, token);
    NewLockWorth(w, e, token);
    LocksHoldLocal(w, Exec(w, e), token, w.state.index, w.state.index);
  }

  lemma QuotientRest(x: nat, d: nat)
    requires d > 0
    ensures d * (x / d) + x % d == x
  {
  }

  lemma ExtendStep(w: World, e: Event)
    requires VestInv(w) && w.clock <= e.now
    requires e.call.Extend? && Respond(w.state, e).Ok?
    ensures VestInv(Exec(w, e))
  {
    hide LockInv, Conserved, Total;
    var s, w', id := w.state, Exec(w, e), e.call.id;
    GotLock(s, e.caller, id);
    var info := s.locks[id].info;
    assert LockOk(w, id);
    LockAges(id, s.locks[id], w.grants[id], w.clock, e.now);
    ExtendedLockInv(id, info, w.grants[id], e.now, e.call.k, e.call.release);
    ReleaseKeepsTotal(info.slots, e.call.k, e.call.release);
    SameOwners(s, w'.state);
    LocalStep(w, w', id, 0);
  }

  lemma SameOwners(s: State, s': State)
    requires IndexOk(s) && s'.ids == s.ids
    requires forall account: Hash32, id: u64 :: Owns(s', account, id) <==> Owns(s, account, id)
    ensures IndexOk(s')
  {
    assert forall account: Hash32 :: IdsOf(s', account) == IdsOf(s, account);
  }

  lemma LockFacts(id: u64, entry: Entry, g: Grant, clock: u64)
    requires LockInv(id, entry, g, clock)
    ensures entry.Live? ==> entry.info.id == id && entry.info.token == g.token
    ensures g.count > 0
    ensures entry.Live? ==> Total(entry.info.slots) <= g.cliff < TWO_256
  {
  }

  lemma NewOwnerInv(id: u64, info: VestInfo, g: Grant, clock: u64, owner: Hash32)
    requires LockInv(id, Live(info), g, clock)
    ensures LockInv(id, Live(info.(recipient := owner)), g, clock)
  {
  }

  lemma TransferStep(w: World, e: Event)
    requires VestInv(w) && w.clock <= e.now
    requires e.call.TransferLock? && Respond(w.state, e).Ok?
    ensures VestInv(Exec(w, e))
  {
    hide LockInv, Conserved, IndexOf, SwapRemove;
    var s, w', id := w.state, Exec(w, e), e.call.id;
    GotLock(s, e.caller, id);
    assert LockOk(w, id);
    LockFacts(id, s.locks[id], w.grants[id], w.clock);
    LockAges(id, s.locks[id], w.grants[id], w.clock, e.now);
    NewOwnerInv(id, s.locks[id].info, w.grants[id], e.now, e.call.owner);
    TransferIndexed(s, e.caller, id, e.call.owner);
    LocalStep(w, w', id, 0);
  }

  lemma TransferIndexed(s: State, caller: Hash32, id: u64, owner: Hash32)
    requires IndexOk(s) && Owns(s, caller, id)
    ensures RemoveId(s.ids, caller, id).Ok?
    ensures IndexOk(s.(locks := s.locks[id := Live(s.locks[id].info.(recipient := owner))],
                       ids := PushId(RemoveId(s.ids, caller, id).value, owner, id)))
  {
    hide RemoveId;
    RemovalSucceeds(s, caller, id);
    var mid := s.(ids := RemoveId(s.ids, caller, id).value);
    var s' := s.(locks := s.locks[id := Live(s.locks[id].info.(recipient := owner))], ids := PushId(mid.ids, owner, id));
    forall account: Hash32
      ensures NoDuplicates(IdsOf(s', account))
      ensures forall x: u64 :: x in IdsOf(s', account) <==> Owns(s', account, x)
    {
      assert NoDuplicates(IdsOf(mid, account));
      assert id !in IdsOf(mid, account);
      PushAdds(IdsOf(mid, account), id);
      assert IdsOf(s', account) == if account == owner then IdsOf(mid, account) + [id] else IdsOf(mid, account);
    }
  }

  lemma ClearIndexed(s: State, caller: Hash32, id: u64)
    requires IndexOk(s) && Owns(s, caller, id)
    ensures RemoveId(s.ids, caller, id).Ok?
    ensures IndexOk(s.(locks := s.locks[id := Cleared], ids := RemoveId(s.ids, caller, id).value))
  {
    hide RemoveId;
    RemovalSucceeds(s, caller, id);
    var mid := s.(ids := RemoveId(s.ids, caller, id).value);
    var s' := mid.(locks := s.locks[id := Cleared]);
    forall account: Hash32
      ensures NoDuplicates(IdsOf(s', account))
      ensures forall x: u64 :: x in IdsOf(s', account) <==> Owns(s', account, x)
    {
      assert NoDuplicates(IdsOf(mid, account));
      assert IdsOf(s', account) == IdsOf(mid, account);
    }
  }

  lemma ClaimStep(w: World, e: Event)
    requires VestInv(w) && w.clock <= e.now
    requires e.call.Claim? && Respond(w.state, e).Ok?
    ensures VestInv(Exec(w, e))
  {
    hide LockInv, Conserved, IndexOf, SwapRemove, RemoveId, Total, Due, IndexOk, AllZero;
    var s, w', id := w.state, Exec(w, e), e.call.id;
    GotLock(s, e.caller, id);
    var info, g := s.locks[id].info, w.grants[id];
    assert LockOk(w, id);
    LockFacts(id, s.locks[id], g, w.clock);
    LockAges(id, s.locks[id], g, w.clock, e.now);
    ClaimedLockInv(id, info, g, e.now);
    ClaimSplits(info.slots, e.now);
    AllZeroIsEmpty(Claimed(info.slots, e.now));
    TransferShifts(s.tokens, info.token, e.caller, Due(info.slots, e.now));
    if AllZero(Claimed(info.slots, e.now)) {
      ClearIndexed(s, e.caller, id);
      SameOwners(s.(locks := s.locks[id := Cleared], ids := RemoveId(s.ids, e.caller, id).value), w'.state);
    } else {
      SameOwners(s, w'.state);
    }
    LocalStep(w, w', id, Due(info.slots, e.now));
  }

  lemma OutsideStep(w: World, e: Event)
    requires VestInv(w) && w.clock <= e.now
    requires e.call.Init? || e.call.SetPaused? || e.call.Drift? || e.call.Approve? || Respond(w.state, e).Revert?
    ensures VestInv(Exec(w, e))
  {
    hide LockInv, LockTx, ExtendTx, TransferTx, ClaimTx, LocksHold;
    var w' := Exec(w, e);
    forall id | id in w'.state.locks
      ensures LockOk(w', id)
    {
      assert LockOk(w, id);
      LockAges(id, w.state.locks[id], w.grants[id], w.clock, e.now);
    }
    SameOwners(w.state, w'.state);
    forall token: Hash32
      ensures Conserved(w', token)
    {
      assert Conserved(w, token);
      SameLocksHold(w, w', token, w.state.index);
    }
  }

  lemma {:induction false} SameLocksHold(w: World, w': World, token: Hash32, n: nat)
    requires n < TWO_64 && w'.state.locks == w.state.locks && w'.grants == w.grants
    ensures LocksHold(w', token, n) == LocksHold(w, token, n)
  {
    if n > 0 {
      SameLocksHold(w, w', token, n - 1);
    }
  }

  /** Every event keeps the invariant. */
  lemma ExecKeeps(w: World, e: Event)
    requires VestInv(w) && w.clock <= e.now && w.state.index + 1 < TWO_64
    ensures VestInv(Exec(w, e))
    ensures Exec(w, e).clock == e.now && Exec(w, e).state.index <= w.state.index + 1
  {
    hide VestInv, BuildSlots, RemoveId, Due;
    if Respond(w.state, e).Revert? {
      OutsideStep(w, e);
    } else {
      match e.call
      case Init => OutsideStep(w, e);
      case Lock(_, _, _, _, _) => LockStep(w, e);
      case Extend(_, _, _) => ExtendStep(w, e);
      case TransferLock(_, _) => TransferStep(w, e);
      case Claim(_) => ClaimStep(w, e);
      case SetPaused(_) => OutsideStep(w, e);
      case Drift(_, _, _) => OutsideStep(w, e);
      case Approve(_, _) => OutsideStep(w, e);
    }
  }

  lemma {:induction false} RunKeeps(w: World, es: seq<Event>)
    requires VestInv(w) && InOrder(w.clock, es) && w.state.index + |es| < TWO_64
    ensures VestInv(Run(w, es))
    decreases |es|
  {
    hide VestInv, Exec;
    if es != [] {
      ExecKeeps(w, es[0]);
      RunKeeps(Exec(w, es[0]), es[1..]);
    }
  }

  /** The invariant holds after every run from deployment. */
  lemma HoldsAfterEveryRun(es: seq<Event>)
    requires InOrder(0, es) && |es| < TWO_64
    ensures VestInv(Run(GENESIS, es))
  {
    RunKeeps(GENESIS, es);
  }
}
