/** What every entry point of the vesting contract does, to whom, and exactly when it goes through. */
module VestEffects {
  import opened Words
  import opened Arith
  import opened Ledger
  import opened VestModel
  import opened VestInvariant
  import opened VestRuns
  import opened VestTheorems

  /** Besides the ledger, at most the entry of `id`, the id lists and the counter changed. */
  ghost predicate OnlyLock(s: State, s': State, id: u64) {
    && id in s'.locks && s'.locks == s.locks[id := s'.locks[id]]
    && s'.paused == s.paused && s'.initialized == s.initialized
  }

  /** Every account but these has the list it had. */
  ghost predicate ListsKept(s: State, s': State, one: Hash32, other: Hash32) {
    forall account: Hash32 :: account != one && account != other ==> IdsOf(s', account) == IdsOf(s, account)
  }

  /** `after` is `before` with `id` taken out and the last element in its place. */
  ghost predicate SwappedOut(before: seq<u64>, after: seq<u64>, id: u64) {
    && |before| == |after| + 1
    && exists k :: 0 <= k < |before| && before[k] == id
                   && forall j :: 0 <= j < |after| ==> after[j] == if j == k then before[|after|] else before[j]
  }

  // ----- lock -----

  /** A schedule can be built exactly when its last offset fits a word. */
  lemma {:induction false} BuildsExactly(first: u64, gap: u64, amount: u256, n: nat)
    ensures BuildSlots(first, gap, amount, n).Ok? <==> n == 0 || gap * (n - 1) < TWO_64
    ensures BuildSlots(first, gap, amount, n).Revert? ==> BuildSlots(first, gap, amount, n) == Revert(NoneError)
    decreases n
  {
    if n > 0 {
      BuildsExactly(first, gap, amount, n - 1);
      if n > 1 {
        MulMono(n - 2, n - 1, gap);
      }
    }
  }

  /** When a lock call goes through, and how it fails otherwise. */
  lemma LockExactly(s: State, e: Event)
    requires e.call.Lock?
    ensures var c := e.call;
            && (Respond(s, e).Ok? <==>
                && !s.paused && s.initialized && c.n > 0
                && e.now + c.wait < TWO_64 && c.gap * (c.n - 1) < TWO_64
                && s.tokens.Balance(c.token, Account(e.caller)) >= c.cliff
                && s.tokens.Allowance(c.token, e.caller) >= c.cliff)
            && (s.paused ==> Respond(s, e) == Revert(User(14)))
            && (!s.paused && (!s.initialized || e.now + c.wait >= TWO_64) ==> Respond(s, e) == Revert(NoneError))
            && (!s.paused && s.initialized && e.now + c.wait < TWO_64 && c.n == 0 ==> Respond(s, e) == Revert(InvalidArgument))
  {
    hide BuildSlots;
    var c := e.call;
    if e.now + c.wait < TWO_64 && c.n > 0 {
      BuildsExactly(e.now + c.wait, c.gap, c.cliff / c.n, c.n);
    }
  }

  /** The wrapped release time of slot `k`. */
  function ReleaseAt(first: nat, gap: nat, k: nat): u64 {
    (first + gap * k) % TWO_64
  }

  function Share(cliff: u256, n: u32): u256
    requires n > 0
  {
    cliff / n
  }

  lemma LockDone(w: World, e: Event) returns (slots: seq<Slot>)
    requires w.state.index + 1 < TWO_64
    requires e.call.Lock? && Respond(w.state, e).Ok?
    ensures e.call.n > 0 && e.now + e.call.wait < TWO_64
    ensures BuildSlots(e.now + e.call.wait, e.call.gap, Share(e.call.cliff, e.call.n), e.call.n) == Ok(slots)
    ensures w.state.tokens.TransferFrom(e.call.token, e.caller, e.call.cliff).Ok?
    ensures var s, id := w.state, w.state.index;
            Exec(w, e).state == s.(locks := s.locks[id := Live(VestInfo(id, e.now, e.caller, e.call.token, slots))],
                                   ids := PushId(s.ids, e.caller, id), index := id + 1,
                                   tokens := s.tokens.TransferFrom(e.call.token, e.caller, e.call.cliff).value)
  {
    hide BuildSlots, Tokens.TransferFrom;
    slots := BuildSlots(e.now + e.call.wait, e.call.gap, e.call.cliff / e.call.n, e.call.n).value;
  }

  /** The lock that a call makes: the caller's, with `n` equal slots, `gap` apart. */
  ghost predicate Ordered(info: VestInfo, id: u64, now: u64, caller: Hash32, call: Call)
    requires call.Lock? && call.n > 0
  {
    && info.id == id && info.lockTime == now && info.recipient == caller && info.token == call.token
    && |info.slots| == call.n
    && forall k :: 0 <= k < call.n ==> info.slots[k] == Slot(ReleaseAt(now + call.wait, call.gap, k), Share(call.cliff, call.n))
  }

  /** A lock call charges the caller, and nobody else, the whole amount. */
  lemma LockCharges(w: World, e: Event)
    requires w.state.index + 1 < TWO_64
    requires e.call.Lock? && Respond(w.state, e).Ok?
    ensures Shifted(w.state.tokens, Exec(w, e).state.tokens, e.call.token, e.caller, 0 - e.call.cliff)
    ensures Drawn(w.state.tokens, Exec(w, e).state.tokens, e.call.token, e.caller, e.call.cliff)
  {
    hide BuildSlots, Exec, Respond, Shifted, Drawn, Tokens.TransferFrom;
    var _ := LockDone(w, e);
    TransferFromShifts(w.state.tokens, e.call.token, e.caller, e.call.cliff);
  }

  /** A lock call gives the caller a new lock as ordered, at the end of the caller's list, and changes no other
      lock or list. */
  lemma LockGives(w: World, e: Event)
    requires w.state.index + 1 < TWO_64
    requires e.call.Lock? && Respond(w.state, e).Ok?
    ensures e.call.n > 0
    ensures var s, s', id := w.state, Exec(w, e).state, w.state.index;
            && OnlyLock(s, s', id) && s'.index == id + 1
            && IdsOf(s', e.caller) == IdsOf(s, e.caller) + [id] && ListsKept(s, s', e.caller, e.caller)
            && s'.locks[id].Live? && Ordered(s'.locks[id].info, id, e.now, e.caller, e.call)
  {
    hide BuildSlots, Exec, Respond, Tokens.TransferFrom;
    var slots := LockDone(w, e);
    BuiltSlots(e.now + e.call.wait, e.call.gap, Share(e.call.cliff, e.call.n), e.call.n);
  }

  // ----- who may touch a lock -----

  /** Reading a lock: exactly its owner may, and everybody else is refused with the error for the reason. */
  lemma AccessExactly(s: State, caller: Hash32, id: u64)
    ensures s.initialized && id <= s.index && Owns(s, caller, id) ==> GetLock(s, caller, id) == Ok(s.locks[id].info)
    ensures !s.initialized ==> GetLock(s, caller, id) == Revert(MissingKey)
    ensures s.initialized && s.index < id ==> GetLock(s, caller, id) == Revert(InvalidArgument)
    ensures s.initialized && id <= s.index && id !in s.locks ==> GetLock(s, caller, id) == Revert(NoneError)
    ensures s.initialized && id <= s.index && id in s.locks && s.locks[id].Cleared? ==> GetLock(s, caller, id) == Revert(MissingKey)
    ensures s.initialized && id <= s.index && id in s.locks && s.locks[id].Live? && !Owns(s, caller, id) ==>
              GetLock(s, caller, id) == Revert(InvalidPurse)
  {
  }

  // ----- extend -----

  /** An extension goes through exactly for the owner of a running contract's lock, for an existing slot, and never
      to an earlier time. */
  lemma ExtendExactly(w: World, e: Event)
    requires VestInv(w) && e.call.Extend?
    ensures var s, c := w.state, e.call;
            && (Respond(s, e).Ok? <==>
                && !s.paused && Owns(s, e.caller, c.id)
                && c.k < |s.locks[c.id].info.slots| && s.locks[c.id].info.slots[c.k].release <= c.release)
            && (s.paused ==> Respond(s, e) == Revert(User(14)))
            && (!s.paused && !Owns(s, e.caller, c.id) ==> Respond(s, e) == Revert(GetLock(s, e.caller, c.id).error))
            && (!s.paused && Owns(s, e.caller, c.id) && Respond(s, e).Revert? ==>
                  Respond(s, e).error == if c.k >= |s.locks[c.id].info.slots| then InvalidArgument else NoneError)
  {
    hide LockOk, IndexOk, AllConserved;
    AccessExactly(w.state, e.caller, e.call.id);
  }

  /** An extension gives slot `k` the new release time and changes nothing else at all. */
  lemma ExtendEffect(w: World, e: Event)
    requires VestInv(w) && e.call.Extend? && Respond(w.state, e).Ok?
    ensures Owns(w.state, e.caller, e.call.id) && e.call.k < |w.state.locks[e.call.id].info.slots|
    ensures var s, s', c := w.state, Exec(w, e).state, e.call;
            && OnlyLock(s, s', c.id) && s'.index == s.index && s'.ids == s.ids && s'.tokens == s.tokens
            && s'.locks[c.id].Live?
            && var info, info' := s.locks[c.id].info, s'.locks[c.id].info;
            && info' == info.(slots := info'.slots) && |info'.slots| == |info.slots|
            && info'.slots[c.k] == Slot(c.release, info.slots[c.k].amount)
            && forall j :: 0 <= j < |info.slots| && j != c.k ==> info'.slots[j] == info.slots[j]
  {
    hide LockOk, IndexOk, AllConserved;
    ExtendExactly(w, e);
  }

  /** Slot `k` of the lock still holds `amount` and opens no sooner than `release`. */
  ghost predicate Holds(w: World, id: u64, k: nat, amount: nat, release: nat) {
    && id in w.state.locks && w.state.locks[id].Live?
    && k < |w.state.locks[id].info.slots|
    && w.state.locks[id].info.slots[k].amount == amount
    && w.state.locks[id].info.slots[k].release >= release
  }

  lemma HoldsStep(w: World, e: Event, id: u64, k: nat, amount: nat, release: nat)
    requires VestInv(w) && amount > 0 && e.now < release
    requires Holds(w, id, k, amount, release)
    ensures Holds(Exec(w, e), id, k, amount, release)
  {
    hide LockOk, IndexOk, AllConserved, LockTx, Due, RemoveId;
    if e.call.Lock? && Respond(w.state, e).Ok? {
      LockKeepsOthers(w, e);
    } else if Respond(w.state, e).Ok? && e.call.Claim? && e.call.id == id {
      GotLock(w.state, e.caller, id);
      assert Claimed(w.state.locks[id].info.slots, e.now)[k] == w.state.locks[id].info.slots[k];
    }
  }

  lemma LockKeepsOthers(w: World, e: Event)
    requires VestInv(w) && e.call.Lock? && Respond(w.state, e).Ok?
    ensures forall id :: id in w.state.locks ==> id in Exec(w, e).state.locks && Exec(w, e).state.locks[id] == w.state.locks[id]
  {
    hide LockOk, IndexOk, AllConserved, BuildSlots;
  }

  /** A filled slot that opens at `release` keeps its tokens over every run that ends before then. */
  lemma {:induction false} HeldUntilRelease(w: World, es: seq<Event>, id: u64, k: nat, amount: nat, release: nat)
    requires VestInv(w) && InOrder(w.clock, es) && w.state.index + |es| < TWO_64
    requires amount > 0 && Holds(w, id, k, amount, release)
    requires Run(w, es).clock < release
    ensures Holds(Run(w, es), id, k, amount, release)
    decreases |es|
  {
    hide VestInv, Exec, Holds;
    if es != [] {
      ExecKeeps(w, es[0]);
      ClockRises(Exec(w, es[0]), es[1..]);
      HoldsStep(w, es[0], id, k, amount, release);
      HeldUntilRelease(Exec(w, es[0]), es[1..], id, k, amount, release);
    }
  }

  lemma {:induction false} ClockRises(w: World, es: seq<Event>)
    requires VestInv(w) && InOrder(w.clock, es) && w.state.index + |es| < TWO_64
    ensures w.clock <= Run(w, es).clock
    decreases |es|
  {
    hide VestInv, Exec;
    if es != [] {
      ExecKeeps(w, es[0]);
      ClockRises(Exec(w, es[0]), es[1..]);
    }
  }

  /** What is due does not count a slot that has not opened. */
  lemma {:induction false} ClosedSlotNotDue(slots: seq<Slot>, k: nat, now: u64)
    requires k < |slots| && now < slots[k].release
    ensures Due(slots, now) == Due(slots[k := slots[k].(amount := 0)], now)
    decreases |slots|
  {
    var n, slots' := |slots| - 1, slots[k := slots[k].(amount := 0)];
    if k < n {
      ClosedSlotNotDue(slots[..n], k, now);
      assert slots'[..n] == slots[..n][k := slots[k].(amount := 0)];
    } else {
      assert slots'[..n] == slots[..n];
    }
  }

  /** The law of extension: after a successful call that moves a filled slot to `release`, whatever anybody does
      before then, the slot keeps its tokens, and no claim before then takes any of it. */
  lemma ExtensionHolds(w: World, e: Event, es: seq<Event>, now: u64)
    requires VestInv(w) && w.clock <= e.now && w.state.index + 1 + |es| < TWO_64
    requires e.call.Extend? && Respond(w.state, e).Ok?
    requires InOrder(e.now, es) && Run(Exec(w, e), es).clock <= now < e.call.release
    ensures e.call.id in w.state.locks && w.state.locks[e.call.id].Live? && e.call.k < |w.state.locks[e.call.id].info.slots|
    ensures var c, amount := e.call, w.state.locks[e.call.id].info.slots[e.call.k].amount;
            amount > 0 ==>
              && Holds(Run(Exec(w, e), es), c.id, c.k, amount, c.release)
              && var slots := Run(Exec(w, e), es).state.locks[c.id].info.slots;
                 Due(slots, now) == Due(slots[c.k := slots[c.k].(amount := 0)], now)
  {
    hide VestInv, Exec, Run, Due, Respond;
    ExtendEffect(w, e);
    ExecKeeps(w, e);
    var c, w' := e.call, Exec(w, e);
    var amount := w.state.locks[c.id].info.slots[c.k].amount;
    if amount > 0 {
      HeldUntilRelease(w', es, c.id, c.k, amount, c.release);
      ClosedSlotNotDue(Run(w', es).state.locks[c.id].info.slots, c.k, now);
    }
  }

  // ----- transfer -----

  /** A transfer makes `owner` the owner, moves the id from the one list to the other, and changes nothing else. */
  lemma TransferEffect(w: World, e: Event)
    requires VestInv(w) && e.call.TransferLock? && Respond(w.state, e).Ok?
    ensures Owns(w.state, e.caller, e.call.id)
    ensures var s, s', id, owner := w.state, Exec(w, e).state, e.call.id, e.call.owner;
            && OnlyLock(s, s', id) && s'.index == s.index && s'.tokens == s.tokens
            && s'.locks[id] == Live(s.locks[id].info.(recipient := owner))
            && Owns(s', owner, id) && id in IdsOf(s', owner)
            && (owner != e.caller ==> !Owns(s', e.caller, id) && id !in IdsOf(s', e.caller))
            && ListsKept(s, s', e.caller, owner)
            && (owner != e.caller ==>
                  SwappedOut(IdsOf(s, e.caller), IdsOf(s', e.caller), id) && IdsOf(s', owner) == IdsOf(s, owner) + [id])
            && (owner == e.caller ==>
                  var n := |IdsOf(s, owner)|;
                  |IdsOf(s', owner)| == n > 0 && SwappedOut(IdsOf(s, owner), IdsOf(s', owner)[..n - 1], id) && IdsOf(s', owner)[n - 1] == id)
  {
    hide LockInv, AllConserved, IndexOk, RemoveId;
    var s, id, owner := w.state, e.call.id, e.call.owner;
    GotLock(s, e.caller, id);
    assert LockOk(w, id);
    LockFacts(id, s.locks[id], w.grants[id], w.clock);
    TransferIndexed(s, e.caller, id, owner);
    Handed(s, e.caller, id, owner);
  }

  /** What moving an owned id between the lists does to them. */
  lemma Handed(s: State, caller: Hash32, id: u64, owner: Hash32)
    requires IndexOk(s) && Owns(s, caller, id)
    ensures RemoveId(s.ids, caller, id).Ok?
    ensures var s' := s.(ids := PushId(RemoveId(s.ids, caller, id).value, owner, id));
            && id in IdsOf(s', owner)
            && (owner != caller ==> id !in IdsOf(s', caller))
            && ListsKept(s, s', caller, owner)
            && (owner != caller ==>
                  SwappedOut(IdsOf(s, caller), IdsOf(s', caller), id) && IdsOf(s', owner) == IdsOf(s, owner) + [id])
            && (owner == caller ==>
                  var n := |IdsOf(s, owner)|;
                  |IdsOf(s', owner)| == n > 0 && SwappedOut(IdsOf(s, owner), IdsOf(s', owner)[..n - 1], id) && IdsOf(s', owner)[n - 1] == id)
  {
    hide RemoveId, SwappedOut, IndexOk, PushId, IdsOf, Owns;
    OffTheList(s, caller, id);
    var mid := s.(ids := RemoveId(s.ids, caller, id).value);
    forall account: Hash32 {
      Pushed(mid, owner, id, account);
    }
    var mine := IdsOf(mid, caller);
    SwappedLength(IdsOf(s, caller), mine, id);
    assert (mine + [id])[..|mine|] == mine;
  }

  lemma Pushed(s: State, owner: Hash32, id: u64, account: Hash32)
    ensures IdsOf(s.(ids := PushId(s.ids, owner, id)), account) == if account == owner then IdsOf(s, account) + [id] else IdsOf(s, account)
  {
  }

  lemma SwappedLength(before: seq<u64>, after: seq<u64>, id: u64)
    requires SwappedOut(before, after, id)
    ensures |before| == |after| + 1
  {
  }

  lemma ClaimExactly(w: World, e: Event)
    requires VestInv(w) && e.call.Claim?
    ensures var s, id := w.state, e.call.id;
            && (Respond(s, e).Ok? <==> !s.paused && Owns(s, e.caller, id) && Due(s.locks[id].info.slots, e.now) > 0)
            && (s.paused ==> Respond(s, e) == Revert(User(14)))
            && (!s.paused && !Owns(s, e.caller, id) ==> Respond(s, e) == Revert(GetLock(s, e.caller, id).error))
            && (!s.paused && Owns(s, e.caller, id) && Respond(s, e).Revert? ==> Respond(s, e) == Revert(User(9)))
  {
    hide LockOk, IndexOk, AllConserved, Due, RemoveId;
    AccessExactly(w.state, e.caller, e.call.id);
    if Owns(w.state, e.caller, e.call.id) {
      ClaimGoesThrough(w, e.caller, e.call.id, e.now);
    }
  }

  lemma TransferExactly(w: World, e: Event)
    requires VestInv(w) && e.call.TransferLock?
    ensures var s, id := w.state, e.call.id;
            && (Respond(s, e).Ok? <==> !s.paused && Owns(s, e.caller, id))
            && (s.paused ==> Respond(s, e) == Revert(User(14)))
            && (!s.paused && !Owns(s, e.caller, id) ==> Respond(s, e) == Revert(GetLock(s, e.caller, id).error))
  {
    hide LockOk, IndexOk, AllConserved, RemoveId;
    AccessExactly(w.state, e.caller, e.call.id);
    if Owns(w.state, e.caller, e.call.id) {
      TransferGoesThrough(w, e.caller, e.call.id, e.call.owner);
    }
  }

  // ----- claim -----

  /** A claim pays the caller, and nobody else, exactly what was due; it empties the slots that were due, clears the
      lock and takes it off the caller's list if nothing is left, and changes nothing else. */
  lemma ClaimEffect(w: World, e: Event)
    requires VestInv(w) && w.clock <= e.now
    requires e.call.Claim? && Respond(w.state, e).Ok?
    ensures Owns(w.state, e.caller, e.call.id) && e.call.id in w.grants && e.call.id in Exec(w, e).grants
    ensures var s, s', id := w.state, Exec(w, e).state, e.call.id;
            var info := s.locks[id].info;
            var paid := Exec(w, e).grants[id].paid - w.grants[id].paid;
            && paid == Due(info.slots, e.now) > 0
            && Shifted(s.tokens, s'.tokens, info.token, e.caller, paid) && s'.tokens.allowances == s.tokens.allowances
            && OnlyLock(s, s', id) && s'.index == s.index
            && ListsKept(s, s', e.caller, e.caller)
            && (if s'.locks[id].Live? then IdsOf(s', e.caller) == IdsOf(s, e.caller)
                else SwappedOut(IdsOf(s, e.caller), IdsOf(s', e.caller), id))
            && (forall k :: 0 <= k < |info.slots| ==> info.slots[k].release <= e.now || info.slots[k].amount == 0) ==
                 s'.locks[id].Cleared?
            && (s'.locks[id].Live? ==>
                  var info' := s'.locks[id].info;
                  && info' == info.(slots := info'.slots) && |info'.slots| == |info.slots|
                  && forall k :: 0 <= k < |info.slots| ==>
                       info'.slots[k] == if info.slots[k].release <= e.now then info.slots[k].(amount := 0) else info.slots[k])
  {
    hide LockOk, AllConserved, IndexOk, RemoveId, Due, SwappedOut;
    var s, id := w.state, e.call.id;
    ClaimExactly(w, e);
    var info := s.locks[id].info;
    TransferShifts(s.tokens, info.token, e.caller, Due(info.slots, e.now));
    OffTheList(s, e.caller, id);
  }

  lemma OffTheList(s: State, caller: Hash32, id: u64)
    requires IndexOk(s) && Owns(s, caller, id)
    ensures RemoveId(s.ids, caller, id).Ok?
    ensures var s' := s.(ids := RemoveId(s.ids, caller, id).value);
            && id !in IdsOf(s', caller) && ListsKept(s, s', caller, caller)
            && SwappedOut(IdsOf(s, caller), IdsOf(s', caller), id)
  {
    RemovalSucceeds(s, caller, id);
    assert id in IdsOf(s, caller);
    var list := s.ids[caller];
    SwapRemoveSwaps(list, IndexOf(list, id), id);
  }

  lemma SwapRemoveSwaps(list: seq<u64>, k: nat, id: u64)
    requires k < |list| && list[k] == id
    ensures SwappedOut(list, SwapRemove(list, k), id)
  {
  }

  /** After a transfer it is the new owner's claim that pays, exactly what the old owner's would have; the old
      owner is refused. */
  lemma NewOwnerClaims(w: World, e: Event, t: u64)
    requires VestInv(w) && w.clock <= e.now <= t && w.state.index + 1 < TWO_64
    requires e.call.TransferLock? && Respond(w.state, e).Ok?
    ensures Owns(w.state, e.caller, e.call.id)
    ensures var id, owner, w' := e.call.id, e.call.owner, Exec(w, e);
            var info, claim := w.state.locks[id].info, Event(t, owner, Claim(id));
            var due := Due(info.slots, t);
            && (Respond(w'.state, claim).Ok? <==> due > 0)
            && (due > 0 ==> Shifted(w'.state.tokens, Exec(w', claim).state.tokens, info.token, owner, due))
            && (owner != e.caller ==> Respond(w'.state, Event(t, e.caller, Claim(id))) == Revert(InvalidPurse))
  {
    hide VestInv, Exec, Respond, Due, Shifted;
    TransferEffect(w, e);
    TransferExactly(w, e);
    ExecKeeps(w, e);
    var id, w' := e.call.id, Exec(w, e);
    var claim := Event(t, e.call.owner, Claim(id));
    ClaimExactly(w', claim);
    if Due(w.state.locks[id].info.slots, t) > 0 {
      ClaimEffect(w', claim);
    }
    if e.call.owner != e.caller {
      ClaimExactly(w', Event(t, e.caller, Claim(id)));
      KnownLock(w', id);
      AccessExactly(w'.state, e.caller, id);
    }
  }

  lemma KnownLock(w: World, id: u64)
    requires VestInv(w) && id in w.state.locks
    ensures w.state.initialized && id <= w.state.index
  {
    hide LockOk, IndexOk, AllConserved;
  }

  // ----- every token of everybody -----

  /** What a successful event adds to the balance of `holder`. */
  function Flow(w: World, e: Event, token: Hash32, holder: Holder): int {
    if Respond(w.state, e).Revert? then 0
    else if e.call.Lock? && token == e.call.token then
      if holder == This then e.call.cliff else if holder == Account(e.caller) then 0 - e.call.cliff else 0
    else if e.call.Claim? && Owns(w.state, e.caller, e.call.id) && token == w.state.locks[e.call.id].info.token then
      var due := Due(w.state.locks[e.call.id].info.slots, e.now);
      if holder == This then 0 - due else if holder == Account(e.caller) then due else 0
    else if e.call.Drift? && token == e.call.token && holder == e.call.holder then
      e.call.balance - w.state.tokens.Balance(token, holder)
    else 0
  }

  /** Events that are no calls on locks, and refused calls. */
  lemma OutsideFlow(w: World, e: Event, token: Hash32, holder: Holder)
    requires Respond(w.state, e).Revert? || e.call.Init? || e.call.SetPaused? || e.call.Drift? || e.call.Approve?
    ensures Exec(w, e).state.tokens.Balance(token, holder) == w.state.tokens.Balance(token, holder) + Flow(w, e, token, holder)
  {
    hide LockTx, ExtendTx, TransferTx, ClaimTx, Due, Observe, ObserveGifts;
  }

  lemma FlowStep(w: World, e: Event, token: Hash32, holder: Holder)
    requires VestInv(w) && w.clock <= e.now && w.state.index + 1 < TWO_64
    ensures Exec(w, e).state.tokens.Balance(token, holder) == w.state.tokens.Balance(token, holder) + Flow(w, e, token, holder)
  {
    hide VestInv, Exec, Respond, Due, Drawn, Tokens.Balance;
    if Respond(w.state, e).Revert? {
      OutsideFlow(w, e, token, holder);
    } else if e.call.Lock? {
      LockCharges(w, e);
    } else if e.call.Extend? {
      ExtendEffect(w, e);
    } else if e.call.TransferLock? {
      TransferEffect(w, e);
    } else if e.call.Claim? {
      ClaimEffect(w, e);
    } else {
      OutsideFlow(w, e, token, holder);
    }
  }

  function Flows(w: World, es: seq<Event>, token: Hash32, holder: Holder): int
    decreases |es|
  {
    if es == [] then 0 else Flow(w, es[0], token, holder) + Flows(Exec(w, es[0]), es[1..], token, holder)
  }

  /** Over every run, every balance of every holder is what locks took from their callers, what claims paid to
      theirs, and what the outside world did. */
  lemma {:induction false} LedgerOverRuns(w: World, es: seq<Event>, token: Hash32, holder: Holder)
    requires VestInv(w) && InOrder(w.clock, es) && w.state.index + |es| < TWO_64
    ensures Run(w, es).state.tokens.Balance(token, holder) == w.state.tokens.Balance(token, holder) + Flows(w, es, token, holder)
    decreases |es|
  {
    hide VestInv, Exec, Flow;
    if es != [] {
      FlowStep(w, es[0], token, holder);
      ExecKeeps(w, es[0]);
      LedgerOverRuns(Exec(w, es[0]), es[1..], token, holder);
    }
  }

  // ----- what claimants of a lock received -----

  /** By how much a claim of lock `id` raised the claimant's balance. */
  function Took(w: World, e: Event, id: u64): int {
    if e.call == Claim(id) && Respond(w.state, e).Ok? && Owns(w.state, e.caller, id) then
      var token := w.state.locks[id].info.token;
      Exec(w, e).state.tokens.Balance(token, Account(e.caller)) - w.state.tokens.Balance(token, Account(e.caller))
    else 0
  }

  function TookAll(w: World, es: seq<Event>, id: u64): int
    decreases |es|
  {
    if es == [] then 0 else Took(w, es[0], id) + TookAll(Exec(w, es[0]), es[1..], id)
  }

  function PaidBy(w: World, id: u64): nat {
    if id in w.grants then w.grants[id].paid else 0
  }

  lemma TookStep(w: World, e: Event, id: u64)
    requires VestInv(w) && w.clock <= e.now
    ensures PaidBy(Exec(w, e), id) == PaidBy(w, id) + Took(w, e, id)
  {
    hide LockOk, IndexOk, AllConserved, LockTx, ExtendTx, TransferTx, ClaimTx, Due, Shifted;
    if e.call == Claim(id) && Respond(w.state, e).Ok? {
      ClaimEffect(w, e);
      CallerGains(w.state.tokens, Exec(w, e).state.tokens, w.state.locks[id].info.token, e.caller,
                  Exec(w, e).grants[id].paid - w.grants[id].paid);
    }
  }

  lemma CallerGains(l: Tokens, l': Tokens, token: Hash32, caller: Hash32, amount: int)
    requires Shifted(l, l', token, caller, amount)
    ensures l'.Balance(token, Account(caller)) == l.Balance(token, Account(caller)) + amount
  {
  }

  /** Over every run from deployment, what the claims of a lock brought into their callers' balances is exactly
      what the lock has paid. */
  lemma ClaimsReceived(es: seq<Event>, id: u64)
    requires InOrder(0, es) && |es| < TWO_64
    ensures PaidBy(Run(GENESIS, es), id) == TookAll(GENESIS, es, id)
  {
    hide Run, TookAll;
    GenesisOk();
    TookOverRuns(GENESIS, es, id);
  }

  lemma GenesisOk()
    ensures VestInv(GENESIS)
  {
  }

  lemma {:induction false} TookOverRuns(w: World, es: seq<Event>, id: u64)
    requires VestInv(w) && InOrder(w.clock, es) && w.state.index + |es| < TWO_64
    ensures PaidBy(Run(w, es), id) == PaidBy(w, id) + TookAll(w, es, id)
    decreases |es|
  {
    hide VestInv, Exec, Took, PaidBy;
    if es != [] {
      TookStep(w, es[0], id);
      ExecKeeps(w, es[0]);
      TookOverRuns(Exec(w, es[0]), es[1..], id);
    }
  }
}
