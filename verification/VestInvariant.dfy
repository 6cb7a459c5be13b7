/** The invariant of the vesting contract, kept over every run: schedules, the per-account id
    lists and the token balance. */
module VestInvariant {
  import opened Words
  import opened Ledger
  import opened VestModel

  /** One slot's share of the locked amount. */
  function Quota(g: Grant): nat
    requires g.count > 0
  {
    g.cliff / g.count
  }

  /** The last release fits in a word, so no release time wrapped. */
  predicate OnTime(g: Grant)
    requires g.count > 0
  {
    g.first + g.gap * (g.count - 1) < TWO_64
  }

  /** When slot `k` was meant to open. */
  function Opens(g: Grant, k: nat): nat {
    g.first + g.gap * k
  }

  /** A slot is either untouched and not early, or was emptied after it opened. */
  ghost predicate SlotOk(g: Grant, k: nat, slot: Slot, clock: u64)
    requires g.count > 0
  {
    && (slot.amount == 0 || slot.amount == Quota(g))
    && (OnTime(g) ==>
          || (slot.amount == 0 && Opens(g, k) <= clock)
          || (slot.amount == Quota(g) && slot.release >= Opens(g, k)))
    && (OnTime(g) && !g.extended ==> slot.release == Opens(g, k))
  }

  ghost predicate SlotsOk(g: Grant, slots: seq<Slot>, clock: u64)
    requires g.count > 0
  {
    forall k :: 0 <= k < |slots| ==> SlotOk(g, k, slots[k], clock)
  }

  ghost predicate LockInv(id: u64, entry: Entry, g: Grant, clock: u64) {
    && g.count > 0
    && g.cliff < TWO_256
    && match entry
       case Live(info) =>
         && info.id == id
         && info.token == g.token
         && |info.slots| == g.count
         && g.paid + Total(info.slots) == g.count * Quota(g)
         && (Quota(g) > 0 ==> Total(info.slots) > 0)
         && SlotsOk(g, info.slots, clock)
       case Cleared =>
         && g.paid == g.count * Quota(g)
         && Quota(g) > 0
         && (OnTime(g) ==> Opens(g, g.count - 1) <= clock)
  }

  predicate NoDuplicates(list: seq<u64>) {
    forall i, j :: 0 <= i < j < |list| ==> list[i] != list[j]
  }

  predicate Owns(s: State, account: Hash32, id: u64) {
    id in s.locks && s.locks[id].Live? && s.locks[id].info.recipient == account
  }

  /** Each account's list has no duplicates and names exactly the live locks it may claim. */
  ghost predicate IndexOk(s: State) {
    && (forall account: Hash32 :: NoDuplicates(IdsOf(s, account)))
    && (forall account: Hash32, id: u64 :: id in IdsOf(s, account) <==> Owns(s, account, id))
  }

  /** What the contract holds for one lock: the unclaimed slots and the remainder of the division. */
  function LockHolds(entry: Entry, g: Grant, token: Hash32): nat {
    if g.count == 0 || g.token != token then 0
    else (if entry.Live? then Total(entry.info.slots) else 0) + g.cliff % g.count
  }

  ghost function LocksHold(w: World, token: Hash32, n: nat): nat
    requires n < TWO_64
  {
    if n == 0 then 0
    else
      LocksHold(w, token, n - 1)
      + if n - 1 in w.state.locks && n - 1 in w.grants then LockHolds(w.state.locks[n - 1], w.grants[n - 1], token) else 0
  }

  ghost predicate Conserved(w: World, token: Hash32) {
    w.state.tokens.Balance(token, This) == LocksHold(w, token, w.state.index) + Gifts(w, token)
  }

  ghost predicate LockOk(w: World, id: u64)
    requires id in w.state.locks && id in w.grants
  {
    LockInv(id, w.state.locks[id], w.grants[id], w.clock)
  }

  ghost predicate AllConserved(w: World) {
    forall token: Hash32 :: Conserved(w, token)
  }

  ghost predicate VestInv(w: World) {
    && (forall id: u64 :: id in w.state.locks <==> id < w.state.index)
    && w.grants.Keys == w.state.locks.Keys
    && (forall id :: id in w.state.locks ==> LockOk(w, id))
    && IndexOk(w.state)
    && AllConserved(w)
    && (!w.state.initialized ==> w.state.index == 0)
  }

  // ----- schedules -----

  lemma {:induction false} ClaimSplits(slots: seq<Slot>, now: u64)
    ensures Due(slots, now) + Total(Claimed(slots, now)) == Total(slots)
    decreases |slots|
  {
    if slots != [] {
      var n := |slots| - 1;
      ClaimSplits(slots[..n], now);
      assert Claimed(slots, now)[..n] == Claimed(slots[..n], now);
    }
  }

  lemma {:induction false} AllZeroIsEmpty(slots: seq<Slot>)
    ensures AllZero(slots) <==> Total(slots) == 0
    decreases |slots|
  {
    if slots != [] {
      AllZeroIsEmpty(slots[..|slots| - 1]);
      assert AllZero(slots) <==> AllZero(slots[..|slots| - 1]) && slots[|slots| - 1].amount == 0;
    }
  }

  lemma {:induction false} ReleaseKeepsTotal(slots: seq<Slot>, k: nat, release: u64)
    requires k < |slots|
    ensures Total(slots[k := slots[k].(release := release)]) == Total(slots)
    decreases |slots|
  {
    var n := |slots| - 1;
    var slots' := slots[k := slots[k].(release := release)];
    if k < n {
      ReleaseKeepsTotal(slots[..n], k, release);
      assert slots'[..n] == slots[..n][k := slots[k].(release := release)];
    } else {
      assert slots'[..n] == slots[..n];
    }
  }

  lemma {:induction false} BuiltSlots(first: u64, gap: u64, amount: u256, n: nat)
    requires BuildSlots(first, gap, amount, n).Ok?
    ensures var slots := BuildSlots(first, gap, amount, n).value;
            && Total(slots) == n * amount
            && forall k :: 0 <= k < n ==> gap * k < TWO_64 && slots[k] == Slot((first + gap * k) % TWO_64, amount)
    decreases n
  {
    if n > 0 {
      BuiltSlots(first, gap, amount, n - 1);
      var slots := BuildSlots(first, gap, amount, n).value;
      assert slots[..n - 1] == BuildSlots(first, gap, amount, n - 1).value;
      assert n * amount == (n - 1) * amount + amount;
    }
  }

  // ----- id lists -----

  lemma SwapRemoveRemoves(list: seq<u64>, k: nat)
    requires NoDuplicates(list) && k < |list|
    ensures NoDuplicates(SwapRemove(list, k))
    ensures forall x :: x in SwapRemove(list, k) <==> x in list && x != list[k]
  {
    var r := SwapRemove(list, k);
    var n := |list| - 1;
    assert forall i :: 0 <= i < n ==> r[i] == if i == k then list[n] else list[i];
    forall x | x in list && x != list[k]
      ensures x in r
    {
      var i :| 0 <= i < |list| && list[i] == x;
      assert r[if i == n then k else i] == x;
    }
  }

  lemma PushAdds(list: seq<u64>, id: u64)
    requires NoDuplicates(list) && id !in list
    ensures NoDuplicates(list + [id])
    ensures forall x :: x in list + [id] <==> x in list || x == id
  {
  }

  /** With the lists in order, the owner's removal cannot fail. */
  lemma RemovalSucceeds(s: State, account: Hash32, id: u64)
    requires IndexOk(s) && Owns(s, account, id)
    ensures RemoveId(s.ids, account, id).Ok?
    ensures var s' := s.(ids := RemoveId(s.ids, account, id).value);
            && (forall other: Hash32 :: NoDuplicates(IdsOf(s', other)))
            && forall other: Hash32, x: u64 :: x in IdsOf(s', other) <==> Owns(s, other, x) && (other != account || x != id)
  {
    assert id in IdsOf(s, account);
    var list := IdsOf(s, account);
    SwapRemoveRemoves(list, IndexOf(list, id));
    var s' := s.(ids := RemoveId(s.ids, account, id).value);
    forall other: Hash32
      ensures NoDuplicates(IdsOf(s', other))
      ensures forall x: u64 :: x in IdsOf(s', other) <==> Owns(s, other, x) && (other != account || x != id)
    {
      assert NoDuplicates(IdsOf(s, other));
      assert IdsOf(s', other) == if other == account then SwapRemove(list, IndexOf(list, id)) else IdsOf(s, other);
    }
  }

  // ----- the balance -----

  lemma {:induction false} LocksHoldLocal(w: World, w': World, token: Hash32, id: u64, n: nat)
    requires n < TWO_64
    requires id in w'.state.locks && w'.state.locks == w.state.locks[id := w'.state.locks[id]]
    requires id in w'.grants && w'.grants == w.grants[id := w'.grants[id]]
    requires n <= id || (id in w.state.locks && id in w.grants)
    ensures LocksHold(w', token, n) == LocksHold(w, token, n) +
            if id < n then LockHolds(w'.state.locks[id], w'.grants[id], token) - LockHolds(w.state.locks[id], w.grants[id], token) else 0
  {
    if n > 0 {
      LocksHoldLocal(w, w', token, id, n - 1);
    }
  }

  /** One lock is never worth more than the contract holds of its token. */
  lemma {:induction false} LockWithin(w: World, token: Hash32, id: u64, n: nat)
    requires id < n < TWO_64
    requires id in w.state.locks && id in w.grants
    ensures LockHolds(w.state.locks[id], w.grants[id], token) <= LocksHold(w, token, n)
  {
    if id < n - 1 {
      LockWithin(w, token, id, n - 1);
    }
  }
}
