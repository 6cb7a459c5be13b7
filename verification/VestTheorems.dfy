/** What the vesting contract promises over every run, for every lock. */
module VestTheorems {
  import opened Words
  import opened Arith
  import opened Ledger
  import opened VestModel
  import opened VestInvariant
  import opened VestRuns

  // ----- never early -----

  /** How many of `n` slots, `gap` apart from `first`, have opened by `t`. */
  function OpenBy(first: nat, gap: nat, n: nat, t: nat): (count: nat)
    ensures count <= n
  {
    if n == 0 then 0 else OpenBy(first, gap, n - 1, t) + if first + gap * (n - 1) <= t then 1 else 0
  }

  lemma WithinQuotient(x: nat, d: nat, m: nat)
    requires d > 0
    ensures d * m <= x <==> m <= x / d
  {
    QuotientBounds(x, d);
    if m <= x / d {
      MulMono(m, x / d, d);
    } else {
      MulMono(x / d + 1, m, d);
    }
  }

  /** The count in closed form. */
  lemma {:induction false} OpenByFormula(first: nat, gap: nat, n: nat, t: nat)
    ensures t < first ==> OpenBy(first, gap, n, t) == 0
    ensures t >= first && gap == 0 ==> OpenBy(first, gap, n, t) == n
    ensures t >= first && gap > 0 ==>
              OpenBy(first, gap, n, t) == if n <= (t - first) / gap + 1 then n else (t - first) / gap + 1
  {
    if n > 0 {
      OpenByFormula(first, gap, n - 1, t);
      if t >= first && gap > 0 {
        WithinQuotient(t - first, gap, n - 1);
      }
    }
  }

  /** What is still held covers every slot that has not opened. */
  lemma {:induction false} UnopenedHeld(g: Grant, slots: seq<Slot>, clock: u64)
    requires g.count > 0 && OnTime(g) && SlotsOk(g, slots, clock)
    ensures Total(slots) + Quota(g) * OpenBy(g.first, g.gap, |slots|, clock) >= Quota(g) * |slots|
    decreases |slots|
  {
    if slots != [] {
      var n := |slots| - 1;
      SlotsOkFront(g, slots, clock);
      UnopenedHeld(g, slots[..n], clock);
      OpenStep(Quota(g), g.first, g.gap, n + 1, clock);
      assert Quota(g) * (n + 1) == Quota(g) * n + Quota(g);
    }
  }

  lemma {:induction false} AllOpen(first: nat, gap: nat, n: nat, t: nat)
    requires n > 0 && first + gap * (n - 1) <= t
    ensures OpenBy(first, gap, n, t) == n
  {
    OpenByFormula(first, gap, n, t);
    if gap > 0 {
      WithinQuotient(t - first, gap, n - 1);
    }
  }

  /** No early payment: in every reachable state, whatever claims, extensions and transfers came
      before, a lock has paid at most one quota for each slot meant to be open by now. */
  lemma NeverEarly(w: World, id: u64)
    requires VestInv(w) && id in w.state.locks
    ensures id in w.grants && w.grants[id].count > 0
    ensures var g := w.grants[id]; OnTime(g) ==> g.paid <= Quota(g) * OpenBy(g.first, g.gap, g.count, w.clock)
  {
    hide IndexOk, AllConserved;
    assert LockOk(w, id);
    var g := w.grants[id];
    if OnTime(g) {
      match w.state.locks[id]
      case Live(info) =>
        UnopenedHeld(g, info.slots, w.clock);
        assert g.count * Quota(g) == Quota(g) * g.count;
      case Cleared =>
        AllOpen(g.first, g.gap, g.count, w.clock);
    }
  }

  /** Whether a fresh schedule can be due early depends only on its last release fitting in a word. */
  lemma EarlyOnlyByWrap(first: u64, gap: u64, amount: u256, n: nat, from: u64)
    requires n > 0 && amount > 0 && from <= first
    requires BuildSlots(first, gap, amount, n).Ok?
    ensures (forall t: u64 :: from <= t ==>
               Due(BuildSlots(first, gap, amount, n).value, t) <= amount * OpenBy(first, gap, n, t))
            <==> first + gap * (n - 1) < TWO_64
  {
    hide BuildSlots, Due;
    var slots := BuildSlots(first, gap, amount, n).value;
    BuiltSlots(first, gap, amount, n);
    if first + gap * (n - 1) < TWO_64 {
      forall t: u64 | from <= t
        ensures Due(slots, t) <= amount * OpenBy(first, gap, n, t)
      {
        DueCount(slots, first, gap, amount, n, t);
      }
    } else {
      var wrapped := first + gap * (n - 1) - TWO_64;
      var t: u64 := if wrapped < from then from else wrapped;
      assert slots[n - 1].release <= t;
      DueAtLeast(slots, first, gap, amount, n - 1, t);
      LastDue(slots, t);
      assert amount * (OpenBy(first, gap, n - 1, t) + 1) == amount * OpenBy(first, gap, n - 1, t) + amount;
    }
  }

  /** The slots are the intended ones, as far as words go. */
  ghost predicate Built(slots: seq<Slot>, first: u64, gap: u64, amount: u256, n: nat) {
    |slots| >= n && forall k :: 0 <= k < n ==> slots[k] == Slot((first + gap * k) % TWO_64, amount)
  }

  lemma DueStep(slots: seq<Slot>, n: nat, t: u64)
    requires 0 < n <= |slots|
    ensures Due(slots[..n], t) == Due(slots[..n - 1], t) + if t >= slots[n - 1].release then slots[n - 1].amount else 0
  {
    assert slots[..n][..n - 1] == slots[..n - 1];
  }

  lemma OpenStep(q: nat, first: nat, gap: nat, n: nat, t: nat)
    requires n > 0
    ensures q * OpenBy(first, gap, n, t) == q * OpenBy(first, gap, n - 1, t) + if first + gap * (n - 1) <= t then q else 0
  {
    var open := OpenBy(first, gap, n - 1, t);
    assert q * (open + 1) == q * open + q;
  }

  lemma BuiltSlot(slots: seq<Slot>, first: u64, gap: u64, amount: u256, n: nat, k: nat)
    requires k < n && Built(slots, first, gap, amount, n)
    ensures Built(slots, first, gap, amount, k) && k < |slots|
    ensures slots[k].amount == amount
    ensures first + gap * k < TWO_64 ==> slots[k].release == first + gap * k
  {
    Unwrapped(first + gap * k);
  }

  lemma {:induction false} DueCount(slots: seq<Slot>, first: u64, gap: u64, amount: u256, n: nat, t: u64)
    requires Built(slots, first, gap, amount, n)
    requires n > 0 ==> first + gap * (n - 1) < TWO_64
    ensures n <= |slots| && Due(slots[..n], t) == amount * OpenBy(first, gap, n, t)
    ensures slots[..|slots|] == slots
    decreases n
  {
    hide Due, OpenBy, Built;
    if n > 0 {
      BuiltSlot(slots, first, gap, amount, n, n - 1);
      if n > 1 {
        EarlierFits(first, gap, n - 1);
      }
      DueCount(slots, first, gap, amount, n - 1, t);
      DueStep(slots, n, t);
      OpenStep(amount, first, gap, n, t);
    } else {
      NothingBuilt(first, gap, amount, t);
    }
  }

  lemma EarlierFits(first: nat, gap: nat, k: nat)
    requires k > 0
    ensures first + gap * (k - 1) <= first + gap * k
  {
    MulMono(k - 1, k, gap);
  }

  lemma Unwrapped(x: nat)
    ensures x % TWO_64 <= x
    ensures x < TWO_64 ==> x % TWO_64 == x
  {
  }

  lemma NothingBuilt(first: nat, gap: nat, amount: nat, t: u64)
    ensures Due([], t) == 0 == amount * OpenBy(first, gap, 0, t)
  {
  }

  /** Wrapping only ever makes slots due sooner. */
  lemma {:induction false} DueAtLeast(slots: seq<Slot>, first: u64, gap: u64, amount: u256, n: nat, t: u64)
    requires Built(slots, first, gap, amount, n)
    ensures Due(slots[..n], t) >= amount * OpenBy(first, gap, n, t)
    decreases n
  {
    hide Due, OpenBy;
    if n > 0 {
      var opens := first + gap * (n - 1);
      assert slots[n - 1] == Slot(opens % TWO_64, amount);
      Unwrapped(opens);
      DueAtLeast(slots, first, gap, amount, n - 1, t);
      DueStep(slots, n, t);
      OpenStep(amount, first, gap, n, t);
    } else {
      NothingBuilt(first, gap, amount, t);
    }
  }

  lemma LastDue(slots: seq<Slot>, t: u64)
    requires slots != [] && slots[|slots| - 1].release <= t
    ensures Due(slots, t) == Due(slots[..|slots| - 1], t) + slots[|slots| - 1].amount
  {
  }

  // ----- claims always pay what is due -----

  lemma DueWithin(slots: seq<Slot>, now: u64)
    ensures Due(slots, now) <= Total(slots)
  {
  }

  /** The contract always covers a claim, and no amount overflows or index lookup fails: an owner's
      claim goes through exactly when the contract runs and something is due. */
  lemma ClaimGoesThrough(w: World, caller: Hash32, id: u64, now: u64)
    requires VestInv(w) && Owns(w.state, caller, id)
    ensures ClaimTx(w.state, now, caller, id).Ok? <==> !w.state.paused && Due(w.state.locks[id].info.slots, now) > 0
    ensures !w.state.paused && Due(w.state.locks[id].info.slots, now) == 0 ==> ClaimTx(w.state, now, caller, id) == Revert(User(9))
  {
    hide LockInv, Total, Due, IndexOk, RemoveId;
    var s, info := w.state, w.state.locks[id].info;
    assert LockOk(w, id);
    LockFacts(id, s.locks[id], w.grants[id], w.clock);
    DueWithin(info.slots, now);
    assert Conserved(w, info.token);
    LockWithin(w, info.token, id, s.index);
    ClearIndexed(s, caller, id);
  }

  /** An owner can always hand a live lock over while the contract runs: the list lookup succeeds. */
  lemma TransferGoesThrough(w: World, caller: Hash32, id: u64, owner: Hash32)
    requires VestInv(w) && Owns(w.state, caller, id)
    ensures TransferTx(w.state, caller, id, owner).Ok? <==> !w.state.paused
  {
    hide LockInv, IndexOk, RemoveId, AllConserved;
    assert LockOk(w, id);
    LockFacts(id, w.state.locks[id], w.grants[id], w.clock);
    TransferIndexed(w.state, caller, id, owner);
  }

  /** Conservation: a lock has paid or still holds exactly its slots' amounts; the contract's balance
      is the live slots, the division remainders of all locks ever made, and gifts. */
  lemma LockConserves(w: World, id: u64)
    requires VestInv(w) && id in w.state.locks
    ensures id in w.grants && w.grants[id].count > 0
    ensures var g := w.grants[id];
            g.paid + (if w.state.locks[id].Live? then Total(w.state.locks[id].info.slots) else 0) == g.count * Quota(g)
            && g.count * Quota(g) + g.cliff % g.count == g.cliff
    ensures forall token: Hash32 :: Conserved(w, token)
  {
    hide IndexOk;
    assert LockOk(w, id);
    QuotientRest(w.grants[id].cliff, w.grants[id].count);
  }

  /** A lock with at least one token per slot is cleared exactly when everything has been paid. */
  lemma ClearedWhenPaid(w: World, id: u64)
    requires VestInv(w) && id in w.state.locks
    ensures id in w.grants && w.grants[id].count > 0
    ensures var g := w.grants[id]; Quota(g) > 0 ==> (w.state.locks[id].Cleared? <==> g.paid == g.count * Quota(g))
    ensures w.state.locks[id].Cleared? ==> Quota(w.grants[id]) > 0
  {
    hide IndexOk, AllConserved;
    assert LockOk(w, id);
  }

  // ----- who can be paid early -----

  /** The lock has paid more than one quota for each slot meant to be open by now. */
  ghost predicate PaidEarly(w: World, id: u64) {
    && id in w.grants && w.grants[id].count > 0
    && var g := w.grants[id];
       g.paid > Quota(g) * OpenBy(g.first, g.gap, g.count, w.clock)
  }

  /** Some run from here pays the lock early. */
  ghost predicate CanPayEarly(w: World, id: u64) {
    exists es: seq<Event> :: InOrder(w.clock, es) && w.state.index + |es| < TWO_64 && PaidEarly(Run(w, es), id)
  }

  lemma TermsStep(w: World, e: Event, id: u64)
    requires VestInv(w) && id in w.grants
    ensures id in Exec(w, e).grants
    ensures var g, g' := w.grants[id], Exec(w, e).grants[id]; g' == g.(paid := g'.paid, extended := g'.extended)
  {
    hide LockOk, IndexOk, AllConserved, LockTx, ExtendTx, TransferTx, ClaimTx, DueOf;
  }

  /** What a lock was created with never changes. */
  lemma {:induction false} TermsKept(w: World, es: seq<Event>, id: u64)
    requires VestInv(w) && InOrder(w.clock, es) && w.state.index + |es| < TWO_64
    requires id in w.grants
    ensures VestInv(Run(w, es)) && id in Run(w, es).grants
    ensures var g, g' := w.grants[id], Run(w, es).grants[id]; g' == g.(paid := g'.paid, extended := g'.extended)
    decreases |es|
  {
    hide VestInv, Exec;
    if es != [] {
      TermsStep(w, es[0], id);
      ExecKeeps(w, es[0]);
      TermsKept(Exec(w, es[0]), es[1..], id);
    }
  }

  lemma LockDid(w: World, e: Event)
    requires e.call.Lock? && Respond(w.state, e).Ok?
    ensures e.now + e.call.wait < TWO_64
    ensures e.call.n > 0 && BuildSlots(e.now + e.call.wait, e.call.gap, e.call.cliff / e.call.n, e.call.n).Ok?
    ensures var w', c, id := Exec(w, e), e.call, w.state.index;
            && id in w'.grants && w'.grants[id] == Grant(c.token, e.now + c.wait, c.gap, c.n, c.cliff, 0, false)
            && Owns(w'.state, e.caller, id) && !w'.state.paused
            && w'.state.locks[id].info.slots == BuildSlots(e.now + c.wait, c.gap, c.cliff / c.n, c.n).value
  {
    hide BuildSlots;
  }

  lemma QuotaPositive(cliff: nat, n: nat)
    requires n > 0
    ensures cliff / n > 0 <==> cliff >= n
  {
    WithinQuotient(cliff, n, 1);
  }

  /** The owner's claim at `t` pays what is due by then. */
  lemma ClaimPays(w: World, caller: Hash32, id: u64, t: u64)
    requires VestInv(w) && Owns(w.state, caller, id) && !w.state.paused && id in w.grants
    requires Due(w.state.locks[id].info.slots, t) > 0
    ensures var w' := Exec(w, Event(t, caller, Claim(id)));
            && id in w'.grants && w'.clock == t
            && w'.grants[id] == w.grants[id].(paid := w.grants[id].paid + Due(w.state.locks[id].info.slots, t))
  {
    hide LockOk, IndexOk, AllConserved, ClaimTx, Due;
    ClaimGoesThrough(w, caller, id, t);
  }

  /** A wrapped schedule with a positive quota is paid early by a single claim of its owner. */
  lemma WrappedPaysEarly(w: World, e: Event) returns (t: u64)
    requires VestInv(w) && w.clock <= e.now && w.state.index + 1 < TWO_64
    requires e.call.Lock? && Respond(w.state, e).Ok?
    requires e.call.cliff >= e.call.n && e.now + e.call.wait + e.call.gap * (e.call.n - 1) >= TWO_64
    ensures e.now <= t && PaidEarly(Exec(Exec(w, e), Event(t, e.caller, Claim(w.state.index))), w.state.index)
  {
    hide VestInv, BuildSlots, Due, Exec, Respond, OpenBy;
    var c, id, w' := e.call, w.state.index, Exec(w, e);
    LockDid(w, e);
    ExecKeeps(w, e);
    QuotaPositive(c.cliff, c.n);
    var first, q := e.now + c.wait, c.cliff / c.n;
    EarlyOnlyByWrap(first, c.gap, q, c.n, e.now);
    t :| e.now <= t && Due(BuildSlots(first, c.gap, q, c.n).value, t) > q * OpenBy(first, c.gap, c.n, t);
    assert q * OpenBy(first, c.gap, c.n, t) >= 0;
    ClaimPays(w', e.caller, id, t);
  }

  /** A lock can be paid early exactly when each slot holds at least one token and its last release time does
      not fit in a word: then one claim of the owner does it; otherwise no run of any calls does. */
  lemma EarlyExactly(w: World, e: Event)
    requires VestInv(w) && w.clock <= e.now && w.state.index + 2 < TWO_64
    requires e.call.Lock? && Respond(w.state, e).Ok?
    ensures var c := e.call;
            CanPayEarly(Exec(w, e), w.state.index) <==>
            c.cliff >= c.n && e.now + c.wait + c.gap * (c.n - 1) >= TWO_64
  {
    hide VestInv, BuildSlots, Due, Exec, Respond, OpenBy, PaidEarly, Run;
    var c, id, w' := e.call, w.state.index, Exec(w, e);
    LockDid(w, e);
    ExecKeeps(w, e);
    if c.cliff >= c.n && e.now + c.wait + c.gap * (c.n - 1) >= TWO_64 {
      var t := WrappedPaysEarly(w, e);
      var claim := [Event(t, e.caller, Claim(id))];
      SingleRun(w', claim[0]);
      assert InOrder(w'.clock, claim) && PaidEarly(Run(w', claim), id);
    } else {
      forall es: seq<Event> | InOrder(w'.clock, es) && w'.state.index + |es| < TWO_64
        ensures !PaidEarly(Run(w', es), id)
      {
        TermsKept(w', es, id);
        NotPaidEarly(Run(w', es), id);
      }
    }
  }

  lemma SingleRun(w: World, e: Event)
    ensures Run(w, [e]) == Exec(w, e)
  {
    hide Exec;
    assert Run(w, [e]) == Run(Exec(w, e), [e][1..]);
  }

  lemma NotPaidEarly(w: World, id: u64)
    requires VestInv(w) && id in w.grants && w.grants[id].count > 0
    requires w.grants[id].cliff < w.grants[id].count || OnTime(w.grants[id])
    ensures !PaidEarly(w, id)
  {
    hide LockOk, IndexOk, AllConserved, OpenBy;
    var g := w.grants[id];
    QuotaPositive(g.cliff, g.count);
    if OnTime(g) {
      NeverEarly(w, id);
    } else {
      LockConserves(w, id);
      assert g.count * Quota(g) == 0 && Quota(g) * OpenBy(g.first, g.gap, g.count, w.clock) == 0;
    }
  }

  // ----- equality on untouched schedules -----

  lemma TotalStep(slots: seq<Slot>, now: u64)
    requires slots != []
    ensures var n := |slots| - 1;
            Total(Claimed(slots, now)) == Total(Claimed(slots[..n], now)) + if now >= slots[n].release then 0 else slots[n].amount
  {
    assert Claimed(slots, now)[..|slots| - 1] == Claimed(slots[..|slots| - 1], now);
  }

  lemma SlotsOkFront(g: Grant, slots: seq<Slot>, clock: u64)
    requires g.count > 0 && slots != [] && SlotsOk(g, slots, clock)
    ensures SlotsOk(g, slots[..|slots| - 1], clock)
    ensures SlotOk(g, |slots| - 1, slots[|slots| - 1], clock)
  {
  }

  lemma {:induction false} ClaimedHolds(g: Grant, slots: seq<Slot>, clock: u64, now: u64)
    requires g.count > 0 && OnTime(g) && !g.extended && clock <= now && SlotsOk(g, slots, clock)
    ensures Total(Claimed(slots, now)) + Quota(g) * OpenBy(g.first, g.gap, |slots|, now) == Quota(g) * |slots|
    decreases |slots|
  {
    hide Total, Claimed, OpenBy, Quota, SlotsOk;
    if slots == [] {
      NothingHeld(g, now);
    } else {
      var n := |slots| - 1;
      SlotsOkFront(g, slots, clock);
      ClaimedHolds(g, slots[..n], clock, now);
      TotalStep(slots, now);
      OpenStep(Quota(g), g.first, g.gap, n + 1, now);
      assert Quota(g) * (n + 1) == Quota(g) * n + Quota(g);
    }
  }

  lemma NothingHeld(g: Grant, now: u64)
    requires g.count > 0
    ensures Total(Claimed([], now)) == 0 == Quota(g) * OpenBy(g.first, g.gap, 0, now)
  {
  }

  /** After the owner's claim, a never-extended lock has paid exactly one quota per opened slot. */
  lemma ClaimPaysAllDue(w: World, e: Event, id: u64)
    requires VestInv(w) && w.clock <= e.now
    requires e.call == Claim(id) && Owns(w.state, e.caller, id) && !w.state.paused
    requires id in w.grants && w.grants[id].count > 0 && OnTime(w.grants[id]) && !w.grants[id].extended
    ensures id in Exec(w, e).grants
    ensures var g := w.grants[id]; Exec(w, e).grants[id].paid == Quota(g) * OpenBy(g.first, g.gap, g.count, e.now)
  {
    hide IndexOk, AllConserved, Total, RemoveId;
    var g, info := w.grants[id], w.state.locks[id].info;
    assert LockOk(w, id);
    ClaimGoesThrough(w, e.caller, id, e.now);
    ClaimSplits(info.slots, e.now);
    ClaimedHolds(g, info.slots, w.clock, e.now);
    assert g.count * Quota(g) == Quota(g) * g.count;
  }

  // ----- cleared for good -----

  lemma ClearedStep(w: World, e: Event, id: u64)
    requires VestInv(w) && id in w.state.locks && w.state.locks[id].Cleared?
    ensures id in Exec(w, e).state.locks && Exec(w, e).state.locks[id].Cleared?
  {
    hide LockOk, IndexOk, AllConserved, RemoveId, BuildSlots, Due;
  }

  /** A cleared id never becomes live again. */
  lemma {:induction false} ClearedForever(w: World, es: seq<Event>, id: u64)
    requires VestInv(w) && InOrder(w.clock, es) && w.state.index + |es| < TWO_64
    requires id in w.state.locks && w.state.locks[id].Cleared?
    ensures id in Run(w, es).state.locks && Run(w, es).state.locks[id].Cleared?
    decreases |es|
  {
    hide VestInv, Exec;
    if es != [] {
      ClearedStep(w, es[0], id);
      ExecKeeps(w, es[0]);
      ClearedForever(Exec(w, es[0]), es[1..], id);
    }
  }

  // ----- claims compose -----

  lemma {:induction false} DueComposes(slots: seq<Slot>, t1: u64, t2: u64)
    requires t1 <= t2
    ensures Due(slots, t1) + Due(Claimed(slots, t1), t2) == Due(slots, t2)
    ensures Claimed(Claimed(slots, t1), t2) == Claimed(slots, t2)
    decreases |slots|
  {
    if slots != [] {
      var n := |slots| - 1;
      DueComposes(slots[..n], t1, t2);
      assert Claimed(slots, t1)[..n] == Claimed(slots[..n], t1);
    }
  }

  lemma NothingDueNothingClaimed(slots: seq<Slot>, now: u64)
    requires Due(slots, now) == 0
    ensures Claimed(slots, now) == slots
    decreases |slots|
  {
    if slots != [] {
      var n := |slots| - 1;
      NothingDueNothingClaimed(slots[..n], now);
      assert Claimed(slots, now)[..n] == Claimed(slots[..n], now);
      assert slots == slots[..n] + [slots[n]];
      assert Claimed(slots, now) == Claimed(slots, now)[..n] + [Claimed(slots, now)[n]];
    }
  }

  lemma TransfersCompose(l: Tokens, token: Hash32, to: Hash32, x: nat, y: nat)
    requires x + y <= l.Balance(token, This)
    ensures l.Transfer(token, to, x).Ok? && l.Transfer(token, to, x + y).Ok?
    ensures l.Transfer(token, to, x).value.Transfer(token, to, y) == l.Transfer(token, to, x + y)
  {
    var once, both := l.Transfer(token, to, x).value, l.Transfer(token, to, x + y).value;
    assert once.Transfer(token, to, y).value.balances == both.balances;
  }

  /** Claiming twice is claiming once: for any caller and lock, a claim at `t1` followed by one at `t2`
      (either may be refused) leaves the very same world as the claim at `t2` alone. */
  lemma ClaimsCompose(w: World, caller: Hash32, id: u64, t1: u64, t2: u64)
    requires VestInv(w) && w.clock <= t1 <= t2
    ensures var c1, c2 := Event(t1, caller, Claim(id)), Event(t2, caller, Claim(id));
            Exec(Exec(w, c1), c2) == Exec(w, c2)
  {
    hide LockInv, Total, Due, IndexOk, RemoveId, AllZero, AllConserved, VestInv;
    var s := w.state;
    if ClaimTx(s, t1, caller, id).Ok? {
      GotLock(s, caller, id);
      ClaimedTwice(w, caller, id, t1, t2);
    }
  }

  /** The same on states: the second claim takes the rest, or is refused because there is none. */
  lemma ClaimedTwiceState(w: World, caller: Hash32, id: u64, t1: u64, t2: u64)
    requires VestInv(w) && w.clock <= t1 <= t2
    requires Owns(w.state, caller, id) && ClaimTx(w.state, t1, caller, id).Ok?
    ensures ClaimTx(w.state, t2, caller, id).Ok?
    ensures var s1, last := ClaimTx(w.state, t1, caller, id).value, ClaimTx(w.state, t2, caller, id);
            && DueOf(w.state, id, t1) + DueOf(s1, id, t2) == DueOf(w.state, id, t2)
            && if DueOf(s1, id, t2) > 0 then ClaimTx(s1, t2, caller, id) == last
               else ClaimTx(s1, t2, caller, id).Revert? && s1 == last.value
  {
    hide LockInv, Total, Due, IndexOk, RemoveId, AllZero;
    var s, info := w.state, w.state.locks[id].info;
    var d1, d2 := Due(info.slots, t1), Due(info.slots, t2);
    var slots1 := Claimed(info.slots, t1);
    var rest := Due(slots1, t2);
    DueComposes(info.slots, t1, t2);
    ClaimGoesThrough(w, caller, id, t1);
    ClaimGoesThrough(w, caller, id, t2);
    TransfersCompose(s.tokens, info.token, caller, d1, rest);
    AllZeroIsEmpty(slots1);
    AllZeroIsEmpty(Claimed(info.slots, t2));
    ClaimSplits(slots1, t2);
    ClearIndexed(s, caller, id);
    if rest == 0 {
      NothingDueNothingClaimed(slots1, t2);
    } else {
      var entry := if AllZero(Claimed(info.slots, t2)) then Cleared else Live(info.(slots := Claimed(info.slots, t2)));
      assert s.locks[id := Live(info.(slots := slots1))][id := entry] == s.locks[id := entry];
    }
  }

  lemma ClaimedTwice(w: World, caller: Hash32, id: u64, t1: u64, t2: u64)
    requires VestInv(w) && w.clock <= t1 <= t2
    requires Owns(w.state, caller, id) && ClaimTx(w.state, t1, caller, id).Ok?
    ensures var c1, c2 := Event(t1, caller, Claim(id)), Event(t2, caller, Claim(id));
            Exec(Exec(w, c1), c2) == Exec(w, c2)
  {
    hide LockOk, IndexOk, AllConserved, ClaimTx, DueOf;
    ClaimedTwiceState(w, caller, id, t1, t2);
  }

  // ----- over every run -----

  /** After every run from deployment: no lock has paid early, every token balance is accounted for,
      and each account's id list names exactly its live locks, once each. */
  lemma EveryRun(es: seq<Event>)
    requires InOrder(0, es) && |es| < TWO_64
    ensures var w := Run(GENESIS, es);
            && (forall id :: id in w.state.locks ==> id in w.grants && w.grants[id].count > 0)
            && (forall id :: id in w.state.locks && OnTime(w.grants[id]) ==>
                  var g := w.grants[id]; g.paid <= Quota(g) * OpenBy(g.first, g.gap, g.count, w.clock))
            && (forall token: Hash32 :: Conserved(w, token))
            && (forall account: Hash32 :: NoDuplicates(IdsOf(w.state, account)))
            && (forall account: Hash32, id: u64 :: id in IdsOf(w.state, account) <==> Owns(w.state, account, id))
  {
    hide LockOk, Run, Conserved;
    HoldsAfterEveryRun(es);
    var w := Run(GENESIS, es);
    forall id | id in w.state.locks
      ensures id in w.grants && w.grants[id].count > 0
      ensures var g := w.grants[id]; OnTime(g) ==> g.paid <= Quota(g) * OpenBy(g.first, g.gap, g.count, w.clock)
    {
      NeverEarly(w, id);
    }
  }
}
