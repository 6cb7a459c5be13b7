/** The vesting contract as it is written: entry points over a dictionary of packed locks and one
    list of lock ids per account. A reverted call leaves the object as it was; the ledger, the
    dictionary and the lists are written together at the end, since the platform discards the
    effects of a reverted call. */
module VestContract {
  import opened Words
  import opened Ledger
  import opened VestModel
  import opened VestCodec
  import opened StorageKeys

  function Decode(bytes: seq<u8>): Entry
    requires bytes != [] ==> Unpack(bytes).Ok?
  {
    if bytes == [] then Cleared else Live(Unpack(bytes).value)
  }

  // ----- the dictionary -----

  /** `dict` holds exactly one entry for each of `known`, empty or a lock record, under the contract's tag. */
  ghost predicate HoldsLocks(dict: map<string, seq<u8>>, known: set<u64>, tag: Tag) {
    && (forall id :: id in known ==>
          MakeKey(tag, id) in dict && (dict[MakeKey(tag, id)] == [] || Unpack(dict[MakeKey(tag, id)]).Ok?))
    && (forall text :: text in dict ==> exists id :: id in known && text == MakeKey(tag, id))
  }

  ghost function DecodeLocks(dict: map<string, seq<u8>>, known: set<u64>, tag: Tag): (locks: map<u64, Entry>)
    requires HoldsLocks(dict, known, tag)
    ensures locks.Keys == known
  {
    map id | id in known :: Decode(dict[MakeKey(tag, id)])
  }

  /** A lock's key is in the dictionary exactly when its id was handed out. */
  lemma LockAt(dict: map<string, seq<u8>>, known: set<u64>, tag: Tag, id: u64)
    requires HoldsLocks(dict, known, tag)
    ensures MakeKey(tag, id) in dict <==> id in known
  {
    hide MakeKey;
    if MakeKey(tag, id) in dict {
      var other :| other in known && MakeKey(tag, id) == MakeKey(tag, other);
      KeysInjective(tag, other, tag, id);
    }
  }

  /** The bytes of an entry. */
  function Encode(entry: Entry): seq<u8> {
    if entry.Live? then Pack(entry.info) else []
  }

  lemma DecodesEncoded(entry: Entry)
    ensures Encode(entry) != [] ==> Unpack(Encode(entry)).Ok?
    ensures Decode(Encode(entry)) == entry
  {
    hide Pack, Unpack;
    if entry.Live? {
      LockRoundTrip(entry.info);
    }
  }

  lemma PutLock(dict: map<string, seq<u8>>, known: set<u64>, tag: Tag, id: u64, entry: Entry)
    requires HoldsLocks(dict, known, tag)
    ensures var dict' := dict[MakeKey(tag, id) := Encode(entry)];
            HoldsLocks(dict', known + {id}, tag) && DecodeLocks(dict', known + {id}, tag) == DecodeLocks(dict, known, tag)[id := entry]
  {
    hide MakeKey, Encode, Unpack;
    DecodesEncoded(entry);
    forall other | other in known && other != id
      ensures MakeKey(tag, other) != MakeKey(tag, id)
    {
      KeysInjective(tag, other, tag, id);
    }
  }

  lemma NothingHeld(tag: Tag)
    ensures HoldsLocks(map[], {}, tag) && DecodeLocks(map[], {}, tag) == map[]
  {
  }

  class Contract {
    var lockInfos: map<string, seq<u8>>
    var ids: map<Hash32, seq<u64>>
    var selfHash: Hash32
    var initialized: bool
    var index: u64
    var paused: bool
    var tokens: Tokens
    ghost var known: set<u64>
    ghost var wrapped: bool

    function LockKey(id: u64): string
      reads this`selfHash
    {
      MakeKey(TagOf(selfHash), id)
    }

    /** The dictionary holds exactly the entries of `known`. Until the counter has wrapped, which takes 2^64 locks,
        it is above every id; before `Init` there are no entries. */
    ghost predicate Valid()
      reads this
    {
      && HoldsLocks(lockInfos, known, TagOf(selfHash))
      && (!wrapped ==> forall id :: id in known ==> id < index)
      && (!initialized ==> known == {})
    }

    /** The state the bytes stand for. */
    ghost function View(): (s: State)
      reads this
      requires Valid()
      ensures s.index == index && s.paused == paused && s.initialized == initialized && s.tokens == tokens && s.ids == ids
      ensures s.locks.Keys == known
    {
      State(DecodeLocks(lockInfos, known, TagOf(selfHash)), ids, index, paused, initialized, tokens)
    }

    /** The contract as installed. */
    constructor (tokens: Tokens)
      ensures Valid() && !wrapped && View() == State(map[], map[], 0, false, false, tokens)
    {
      lockInfos, ids, index, paused, initialized := map[], map[], 0, false, false;
      this.tokens := tokens;
      known, wrapped := {}, false;
    }

    /** Creates the dictionary and the counter, once. */
    method Init(hash: Hash32) returns (r: Result<()>)
      requires Valid()
      modifies this
      ensures Valid()
      ensures r.Ok? <==> !old(initialized)
      ensures initialized && (old(initialized) ==> r == Revert(PermissionDenied))
      ensures var tx := InitTx(old(View()));
              && (tx.Ok? ==> r == Ok(()) && View() == tx.value && selfHash == hash && !wrapped)
              && (tx.Revert? ==> r == Revert(tx.error) && View() == old(View()) && selfHash == old(selfHash))
    {
      hide HoldsLocks, DecodeLocks, TagOf;
      if initialized {
        return Revert(PermissionDenied);
      }
      NothingHeld(TagOf(hash));
      lockInfos := map[];
      selfHash := hash;
      index, initialized := 0, true;
      known, wrapped := {}, false;
      r := Ok(());
    }

    /** Reads and validates a lock: known id, entry not cleared, caller is the recipient. */
    method GetLock(caller: Hash32, id: u64) returns (r: Result<VestInfo>)
      requires Valid()
      ensures r == VestModel.GetLock(View(), caller, id)
    {
      hide Unpack, UnpackRecipient, MakeKey, TagOf;
      if !initialized {
        return Revert(MissingKey);
      }
      if index < id {
        return Revert(InvalidArgument);
      }
      LockAt(lockInfos, known, TagOf(selfHash), id);
      var key := LockKey(id);
      if key !in lockInfos {
        return Revert(NoneError);
      }
      var bytes := lockInfos[key];
      if bytes == [] {
        return Revert(MissingKey);
      }
      LockBytesRoundTrip(bytes);
      var recipient := UnpackRecipient(bytes);
      if recipient.value != caller {
        return Revert(InvalidPurse);
      }
      r := UnpackLoop(bytes);
    }

    /** Rewrites one entry, the id lists and the ledger. */
    method Store(id: u64, entry: Entry, lists: map<Hash32, seq<u64>>, ledger: Tokens)
      requires Valid() && id in known
      modifies this`lockInfos, this`known, this`ids, this`tokens
      ensures Valid()
      ensures View() == old(View()).(locks := old(View()).locks[id := entry], ids := lists, tokens := ledger)
    {
      hide HoldsLocks, DecodeLocks, MakeKey, TagOf, Pack;
      var bytes := [];
      if entry.Live? {
        bytes := PackLoop(entry.info);
      }
      PutLock(lockInfos, known, TagOf(selfHash), id, entry);
      lockInfos := lockInfos[LockKey(id) := bytes];
      known := known + {id};
      ids := lists;
      tokens := ledger;
    }

    /** Writes a new lock at the counter's id and advances the counter. Until the counter wraps, the key was not
        in the dictionary. */
    method AppendLock(info: VestInfo, lists: map<Hash32, seq<u64>>, ledger: Tokens)
      requires Valid() && initialized
      modifies this`lockInfos, this`known, this`ids, this`index, this`wrapped, this`tokens
      ensures Valid()
      ensures View() == old(View()).(locks := old(View()).locks[old(index) := Live(info)], ids := lists,
                                     index := Add64(old(index), 1), tokens := ledger)
      ensures !old(wrapped) ==> LockKey(old(index)) !in old(lockInfos)
      ensures lockInfos.Keys == old(lockInfos.Keys) + {LockKey(old(index))}
      ensures wrapped == (old(wrapped) || old(index) == TWO_64 - 1)
    {
      hide HoldsLocks, DecodeLocks, MakeKey, TagOf, Pack;
      var bytes := PackLoop(info);
      LockAt(lockInfos, known, TagOf(selfHash), index);
      PutLock(lockInfos, known, TagOf(selfHash), index, Live(info));
      lockInfos := lockInfos[LockKey(index) := bytes];
      known := known + {index};
      wrapped := wrapped || index == TWO_64 - 1;
      ids := lists;
      index := Add64(index, 1);
      tokens := ledger;
    }

    method Lock(now: u64, caller: Hash32, token: Hash32, cliff: u256, wait: u64, gap: u64, n: u32) returns (r: Result<()>)
      requires Valid()
      modifies this`lockInfos, this`known, this`ids, this`index, this`wrapped, this`tokens
      ensures Valid()
      ensures var tx := LockTx(old(View()), now, caller, token, cliff, wait, gap, n);
              && (tx.Ok? ==> r == Ok(()) && View() == tx.value)
              && (tx.Revert? ==> r == Revert(tx.error) && View() == old(View()))
      ensures r.Ok? && !old(wrapped) ==> LockKey(old(index)) !in old(lockInfos)
      ensures r.Ok? ==> lockInfos.Keys == old(lockInfos.Keys) + {LockKey(old(index))}
    {
      hide View, Valid, LockKey;
      if paused {
        return Revert(User(14));
      }
      if !initialized {
        return Revert(NoneError);
      }
      var slots := [];
      var first :- CheckedAdd64(now, wait);
      if n == 0 {
        return Revert(InvalidArgument);
      }
      while |slots| < n
        invariant |slots| <= n && unchanged(this)
        invariant BuildSlots(first, gap, cliff / n, |slots|) == Ok(slots)
      {
        BuildStops(first, gap, cliff / n, |slots| + 1, n);
        var offset :- CheckedMul64(gap, |slots|);
        var release := Add64(first, offset);
        var amount := cliff / n;
        slots := slots + [Slot(release, amount)];
      }
      var info := VestInfo(index, now, caller, token, slots);
      var ledger :- tokens.TransferFrom(token, caller, cliff);
      var lists := if caller in ids then ids[caller := ids[caller] + [index]] else ids[caller := [index]];
      assert [] + [index] == [index];
      AppendLock(info, lists, ledger);
      r := Ok(());
    }

    method ExtendLock(caller: Hash32, id: u64, k: u32, release: u64) returns (r: Result<()>)
      requires Valid()
      modifies this`lockInfos, this`known, this`ids, this`tokens
      ensures Valid()
      ensures var tx := ExtendTx(old(View()), caller, id, k, release);
              && (tx.Ok? ==> r == Ok(()) && View() == tx.value)
              && (tx.Revert? ==> r == Revert(tx.error) && View() == old(View()))
    {
      hide View, Valid;
      if paused {
        return Revert(User(14));
      }
      var lock :- GetLock(caller, id);
      if k >= |lock.slots| {
        return Revert(InvalidArgument);
      }
      if lock.slots[k].release > release {
        return Revert(NoneError);
      }
      lock := lock.(slots := lock.slots[k := lock.slots[k].(release := release)]);
      Store(id, Live(lock), ids, tokens);
      r := Ok(());
    }

    method TransferLock(caller: Hash32, id: u64, owner: Hash32) returns (r: Result<()>)
      requires Valid()
      modifies this`lockInfos, this`known, this`ids, this`tokens
      ensures Valid()
      ensures var tx := TransferTx(old(View()), caller, id, owner);
              && (tx.Ok? ==> r == Ok(()) && View() == tx.value)
              && (tx.Revert? ==> r == Revert(tx.error) && View() == old(View()))
    {
      hide View, Valid, IndexOf, SwapRemove;
      if paused {
        return Revert(User(14));
      }
      var lock :- GetLock(caller, id);
      lock := lock.(recipient := owner);
      var list :- ReadIds(ids, caller);
      var k :- Position(list, lock.id);
      list := SwapRemove(list, k);
      var lists := ids[caller := list];
      assert [] + [lock.id] == [lock.id];
      lists := if owner in lists then lists[owner := lists[owner] + [lock.id]] else lists[owner := [lock.id]];
      Store(id, Live(lock), lists, tokens);
      r := Ok(());
    }

    method Claim(now: u64, caller: Hash32, id: u64) returns (r: Result<()>)
      requires Valid()
      modifies this`lockInfos, this`known, this`ids, this`tokens
      ensures Valid()
      ensures var tx := ClaimTx(old(View()), now, caller, id);
              && (tx.Ok? ==> r == Ok(()) && View() == tx.value)
              && (tx.Revert? ==> r == Revert(tx.error) && View() == old(View()))
    {
      hide View, Valid, Claimed, Due, AllZero, IndexOf, SwapRemove;
      if paused {
        return Revert(User(14));
      }
      var lock :- GetLock(caller, id);
      var due, slots :- Collect(lock.slots, now);
      if due == 0 {
        return Revert(User(9));
      }
      var ledger :- tokens.Transfer(lock.token, caller, due);
      lock := lock.(slots := slots);
      var emptyLocks := CountEmpty(slots);
      if |slots| != emptyLocks {
        Store(id, Live(lock), ids, ledger);
        return Ok(());
      }
      var list :- ReadIds(ids, caller);
      var k :- Position(list, id);
      list := SwapRemove(list, k);
      Store(id, Cleared, ids[caller := list], ledger);
      r := Ok(());
    }

    /** The loop that decides whether the lock is finished. */
    method CountEmpty(slots: seq<Slot>) returns (emptyLocks: nat)
      ensures emptyLocks == |slots| <==> AllZero(slots)
    {
      emptyLocks := 0;
      for i := 0 to |slots|
        invariant emptyLocks <= i
        invariant emptyLocks == i <==> AllZero(slots[..i])
      {
        assert AllZero(slots[..i + 1]) <==> AllZero(slots[..i]) && slots[i].amount == 0;
        if slots[i].amount == 0 {
          emptyLocks := emptyLocks + 1;
        }
      }
      assert slots[..|slots|] == slots;
    }

    /** The claim loop: empties every slot that is due and adds up what they held. */
    method Collect(schedules: seq<Slot>, now: u64) returns (due: Result<u256>, slots: seq<Slot>)
      ensures due == Word256(Due(schedules, now))
      ensures due.Ok? ==> slots == Claimed(schedules, now)
    {
      hide Due, Claimed;
      slots := schedules;
      var amount: u256 := 0;
      NothingCollected(now);
      for i := 0 to |schedules|
        invariant |slots| == |schedules|
        invariant slots[..i] == Claimed(schedules[..i], now) && slots[i..] == schedules[i..]
        invariant amount == Due(schedules[..i], now)
      {
        CollectStep(schedules, i, now);
        assert slots[i] == slots[i..][0] == schedules[i];
        if now >= slots[i].release {
          DuePrefix(schedules, i + 1, now);
          var sum := Add256(amount, slots[i].amount);
          if sum.Revert? {
            return sum, slots;
          }
          amount := sum.value;
          slots := slots[i := slots[i].(amount := 0)];
        }
        assert slots[..i + 1] == slots[..i] + [slots[i]];
      }
      assert schedules[..|schedules|] == schedules;
      assert slots[..|schedules|] == slots;
      due := Ok(amount);
    }
  }

  lemma NothingCollected(now: u64)
    ensures Due([], now) == 0 && Claimed([], now) == []
  {
  }

  lemma CollectStep(slots: seq<Slot>, i: nat, now: u64)
    requires i < |slots|
    ensures var open := now >= slots[i].release;
            && Due(slots[..i + 1], now) == Due(slots[..i], now) + (if open then slots[i].amount else 0)
            && Claimed(slots[..i + 1], now) == Claimed(slots[..i], now) + [if open then slots[i].(amount := 0) else slots[i]]
  {
    assert slots[..i + 1][..i] == slots[..i];
  }

  lemma {:induction false} DuePrefix(slots: seq<Slot>, n: nat, now: u64)
    requires n <= |slots|
    ensures Due(slots[..n], now) <= Due(slots, now)
    decreases |slots|
  {
    if n < |slots| {
      DuePrefix(slots[..|slots| - 1], n, now);
      assert slots[..|slots| - 1][..n] == slots[..n];
    } else {
      assert slots[..n] == slots;
    }
  }

  /** A schedule that cannot be built for `k` slots cannot be built for more. */
  lemma {:induction false} BuildStops(first: u64, gap: u64, amount: u256, k: nat, n: nat)
    requires k <= n
    ensures BuildSlots(first, gap, amount, k).Revert? ==>
              BuildSlots(first, gap, amount, n) == Revert(BuildSlots(first, gap, amount, k).error)
    decreases n
  {
    if k < n {
      BuildStops(first, gap, amount, k, n - 1);
    }
  }
}
