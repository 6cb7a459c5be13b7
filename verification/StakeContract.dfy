/** The staking contract as it is written: entry points that read packed records from two
    dictionaries, change local copies step by step and write them back.
    A reverted call leaves the object as it was; token calls work on a copy of the ledger that is
    committed with the storage, since the platform discards the effects of a reverted call. */
module StakeContract {
  import opened Words
  import opened Ledger
  import opened Pool
  import opened PoolCodec
  import opened StakeModel
  import opened StorageKeys

  // ----- the two dictionaries -----

  /** `dict` holds exactly one readable record for each of `ids`, under the contract's tag. */
  ghost predicate HoldsPools(dict: map<string, seq<u8>>, ids: set<u64>, tag: Tag) {
    && (forall id :: id in ids ==> MakeKey(tag, id) in dict && |dict[MakeKey(tag, id)]| >= 232)
    && (forall text :: text in dict ==> exists id :: id in ids && text == MakeKey(tag, id))
  }

  ghost function DecodePools(dict: map<string, seq<u8>>, ids: set<u64>, tag: Tag): (pools: map<u64, StakePool>)
    requires HoldsPools(dict, ids, tag)
    ensures pools.Keys == ids
  {
    map id | id in ids :: UnpackPool(dict[MakeKey(tag, id)]).value
  }

  /** A pool's key is in the dictionary exactly when its id was handed out. */
  lemma PoolAt(dict: map<string, seq<u8>>, ids: set<u64>, tag: Tag, id: u64)
    requires HoldsPools(dict, ids, tag)
    ensures MakeKey(tag, id) in dict <==> id in ids
  {
    hide MakeKey;
    if MakeKey(tag, id) in dict {
      var other :| other in ids && MakeKey(tag, id) == MakeKey(tag, other);
      KeysInjective(tag, other, tag, id);
    }
  }

  lemma PutPool(dict: map<string, seq<u8>>, ids: set<u64>, tag: Tag, id: u64, pool: StakePool)
    requires HoldsPools(dict, ids, tag)
    ensures var dict' := dict[MakeKey(tag, id) := PackPool(pool)];
            HoldsPools(dict', ids + {id}, tag) && DecodePools(dict', ids + {id}, tag) == DecodePools(dict, ids, tag)[id := pool]
  {
    hide MakeKey, PackPool, UnpackPool;
    PoolRoundTrip(pool);
    forall other | other in ids && other != id
      ensures MakeKey(tag, other) != MakeKey(tag, id)
    {
      KeysInjective(tag, other, tag, id);
    }
  }

  /** `dict` holds exactly one readable record for each of `keys`. */
  ghost predicate HoldsUsers(dict: map<string, seq<u8>>, keys: set<UserKey>) {
    && (forall key :: key in keys ==> MakeKey(key.tag, key.id) in dict && |dict[MakeKey(key.tag, key.id)]| >= 64)
    && (forall text :: text in dict ==> exists key :: key in keys && text == MakeKey(key.tag, key.id))
  }

  ghost function DecodeUsers(dict: map<string, seq<u8>>, keys: set<UserKey>): (users: map<UserKey, UserInfo>)
    requires HoldsUsers(dict, keys)
    ensures users.Keys == keys
  {
    map key | key in keys :: UnpackUserInfo(dict[MakeKey(key.tag, key.id)]).value
  }

  lemma UserAt(dict: map<string, seq<u8>>, keys: set<UserKey>, key: UserKey)
    requires HoldsUsers(dict, keys)
    ensures MakeKey(key.tag, key.id) in dict <==> key in keys
  {
    hide MakeKey;
    if MakeKey(key.tag, key.id) in dict {
      var other :| other in keys && MakeKey(key.tag, key.id) == MakeKey(other.tag, other.id);
      KeysInjective(other.tag, other.id, key.tag, key.id);
    }
  }

  lemma PutUser(dict: map<string, seq<u8>>, keys: set<UserKey>, key: UserKey, user: UserInfo)
    requires HoldsUsers(dict, keys)
    ensures var dict' := dict[MakeKey(key.tag, key.id) := PackUserInfo(user)];
            HoldsUsers(dict', keys + {key}) && DecodeUsers(dict', keys + {key}) == DecodeUsers(dict, keys)[key := user]
  {
    hide MakeKey, PackUserInfo, UnpackUserInfo;
    UserInfoRoundTrip(user);
    forall other | other in keys && other != key
      ensures MakeKey(other.tag, other.id) != MakeKey(key.tag, key.id)
    {
      KeysInjective(other.tag, other.id, key.tag, key.id);
    }
  }

  lemma NothingHeld(tag: Tag)
    ensures HoldsPools(map[], {}, tag) && DecodePools(map[], {}, tag) == map[]
    ensures HoldsUsers(map[], {}) && DecodeUsers(map[], {}) == map[]
  {
  }

  class Contract {
    var poolInfos: map<string, seq<u8>>
    var userInfos: map<string, seq<u8>>
    var selfHash: Hash32
    var initialized: bool
    var index: u64
    var admin: Hash32
    var tokens: Tokens
    ghost var ids: set<u64>
    ghost var keys: set<UserKey>
    ghost var wrapped: bool

    function PoolKey(id: u64): string
      reads this`selfHash
    {
      MakeKey(TagOf(selfHash), id)
    }

    /** The dictionaries hold exactly the records of `ids` and `keys`. Until the counter has wrapped, which takes
        2^64 pools, it is above every id; before `Init` there are no records. */
    ghost predicate Valid()
      reads this
    {
      && HoldsPools(poolInfos, ids, TagOf(selfHash))
      && HoldsUsers(userInfos, keys)
      && (!wrapped ==> forall id :: id in ids ==> id < index)
      && (!initialized ==> ids == {} && keys == {})
    }

    /** The state the bytes stand for. */
    ghost function View(): (s: State)
      reads this
      requires Valid()
      ensures s.tokens == tokens && s.index == index && s.admin == admin && s.initialized == initialized
      ensures s.pools.Keys == ids && s.users.Keys == keys
    {
      State(DecodePools(poolInfos, ids, TagOf(selfHash)), DecodeUsers(userInfos, keys), index, admin, initialized, tokens)
    }

    /** The contract as installed. */
    constructor (admin: Hash32, tokens: Tokens)
      ensures Valid() && !wrapped && View() == State(map[], map[], 0, admin, false, tokens)
    {
      poolInfos, userInfos, index, initialized := map[], map[], 0, false;
      this.admin, this.tokens := admin, tokens;
      ids, keys, wrapped := {}, {}, false;
    }

    /** Creates the dictionaries and the counter, once. */
    method Init(hash: Hash32) returns (r: Result<()>)
      requires Valid()
      modifies this
      ensures Valid()
      ensures r.Ok? <==> !old(initialized)
      ensures initialized && (old(initialized) ==> r == Revert(PermissionDenied))
      ensures var tx := InitTx(old(View()));
              && (tx.Ok? ==> r == Ok(()) && View() == tx.value && selfHash == hash && !wrapped)
              && (tx.Revert? ==> r == Revert(tx.error) && View() == old(View()) && selfHash == old(selfHash))
    {
      hide HoldsPools, HoldsUsers, DecodePools, DecodeUsers, TagOf;
      if initialized {
        return Revert(PermissionDenied);
      }
      NothingHeld(TagOf(hash));
      poolInfos, userInfos := map[], map[];
      selfHash := hash;
      index, initialized := 0, true;
      ids, keys, wrapped := {}, {}, false;
      r := Ok(());
    }

    method CheckId(id: u64) returns (r: Result<()>)
      requires Valid()
      ensures r == IsIdValid(View(), id)
    {
      hide HoldsPools, HoldsUsers, DecodePools, DecodeUsers;
      if !initialized {
        return Revert(MissingKey);
      }
      if index < id {
        return Revert(InvalidArgument);
      }
      r := Ok(());
    }

    method GetPool(id: u64) returns (r: Result<StakePool>)
      requires Valid()
      ensures r == StakeModel.GetPool(View(), id)
    {
      hide MakeKey, TagOf, HoldsUsers, DecodeUsers, UnpackPool;
      var _ :- CheckId(id);
      PoolAt(poolInfos, ids, TagOf(selfHash), id);
      var key := PoolKey(id);
      if key !in poolInfos {
        return Revert(User(7));
      }
      PoolBytesRoundTrip(poolInfos[key]);
      r := UnpackPool(poolInfos[key]);
    }

    method GetUserInfoForPool(caller: Hash32, id: u64) returns (r: Result<UserInfo>)
      requires Valid()
      ensures r == GetUserInfo(View(), caller, id)
    {
      hide MakeKey, TagOf, HoldsPools, DecodePools, UnpackUserInfo;
      var _ :- CheckId(id);
      UserAt(userInfos, keys, KeyOf(caller, id));
      var key := MakeKey(TagOf(caller), id);
      if key in userInfos {
        UserBytesRoundTrip(userInfos[key]);
        r := UnpackUserInfo(userInfos[key]);
      } else {
        r := Ok(UserInfo(0, 0));
      }
    }

    /** Rewrites the record of an existing pool. */
    method StorePool(id: u64, pool: StakePool)
      requires Valid() && id in ids
      modifies this`poolInfos, this`ids
      ensures Valid()
      ensures View() == old(View()).(pools := old(View()).pools[id := pool])
    {
      hide HoldsPools, HoldsUsers, DecodePools, DecodeUsers, MakeKey, TagOf, PackPool;
      var bytes := PackPoolLoop(pool);
      PutPool(poolInfos, ids, TagOf(selfHash), id, pool);
      poolInfos := poolInfos[PoolKey(id) := bytes];
      ids := ids + {id};
    }

    method Store(caller: Hash32, id: u64, pool: StakePool, user: UserInfo)
      requires Valid() && id in ids
      modifies this`poolInfos, this`userInfos, this`ids, this`keys
      ensures Valid()
      ensures View() == UpdateStorage(old(View()), caller, id, pool, user)
    {
      hide HoldsPools, HoldsUsers, DecodePools, DecodeUsers, MakeKey, TagOf, PackUserInfo;
      var userBytes := PackUserInfoLoop(user);
      StorePool(id, pool);
      PutUser(userInfos, keys, KeyOf(caller, id), user);
      userInfos := userInfos[MakeKey(TagOf(caller), id) := userBytes];
      keys := keys + {KeyOf(caller, id)};
    }

    /** The ledger that the token calls of a successful entry point leave behind. */
    method Commit(ledger: Tokens)
      requires Valid()
      modifies this`tokens
      ensures Valid() && View() == old(View()).(tokens := ledger)
    {
      hide HoldsPools, HoldsUsers, DecodePools, DecodeUsers;
      tokens := ledger;
    }

    method UpdatedPool(now: u64, id: u64) returns (r: Result<StakePool>)
      requires Valid()
      ensures r == CurrentPool(View(), now, id)
    {
      hide View, Valid;
      var pool :- GetPool(id);
      var last := pool.last;
      if now <= last {
        return Ok(pool);
      }
      var supply := pool.totalStaked;
      if supply == 0 || pool.start > now {
        pool := pool.(last := now);
        return Ok(pool);
      }
      var end := pool.end;
      if last > end {
        return Ok(pool);
      }
      var start := pool.start;
      var precision :- TenTo(pool.precision);
      var unlocked := Sub64(Min(now, end), Max(start, last));
      var rewards :- Mul256(unlocked, pool.totalReward);
      rewards :- Div256(rewards, Sub64(end, start));
      rewards :- Mul256(rewards, precision);
      var gain :- Div256(rewards, pool.totalStaked);
      var acc :- Add256(pool.acc, gain);
      pool := pool.(acc := acc);
      pool := pool.(last := now);
      r := Ok(pool);
    }

    /** Writes a new pool at the counter's id and advances the counter. Until the counter wraps, the key was not
        in the dictionary. */
    method AppendPool(pool: StakePool)
      requires Valid() && initialized
      modifies this`poolInfos, this`ids, this`index, this`wrapped
      ensures Valid()
      ensures View() == old(View()).(pools := old(View()).pools[old(index) := pool], index := Add64(old(index), 1))
      ensures !old(wrapped) ==> PoolKey(old(index)) !in old(poolInfos)
      ensures poolInfos.Keys == old(poolInfos.Keys) + {PoolKey(old(index))}
      ensures wrapped == (old(wrapped) || old(index) == TWO_64 - 1)
    {
      hide HoldsPools, HoldsUsers, DecodePools, DecodeUsers, MakeKey, TagOf, PackPool;
      var bytes := PackPoolLoop(pool);
      PoolAt(poolInfos, ids, TagOf(selfHash), index);
      PutPool(poolInfos, ids, TagOf(selfHash), index, pool);
      poolInfos := poolInfos[PoolKey(index) := bytes];
      ids := ids + {index};
      wrapped := wrapped || index == TWO_64 - 1;
      index := Add64(index, 1);
    }

    method AddPool(now: u64, caller: Hash32, stakingToken: Hash32, rewardToken: Hash32,
                   start: u64, end: u64, precision: u64, totalReward: u256) returns (r: Result<()>)
      requires Valid()
      modifies this`poolInfos, this`ids, this`index, this`wrapped, this`tokens
      ensures Valid()
      ensures var tx := AddPoolTx(old(View()), now, caller, stakingToken, rewardToken, start, end, precision, totalReward);
              && (tx.Ok? ==> r == Ok(()) && View() == tx.value)
              && (tx.Revert? ==> r == Revert(tx.error) && View() == old(View()))
      ensures r.Ok? && !old(wrapped) ==> PoolKey(old(index)) !in old(poolInfos)
      ensures r.Ok? ==> poolInfos.Keys == old(poolInfos.Keys) + {PoolKey(old(index))}
    {
      hide View, Valid, PoolKey;
      if start < now || end < now {
        return Revert(InvalidArgument);
      }
      if totalReward == 0 {
        return Revert(InvalidArgument);
      }
      if !(18 <= precision <= 36) {
        return Revert(InvalidArgument);
      }
      if !initialized {
        return Revert(NoneError);
      }
      var pool := StakePool(index, 0, stakingToken, rewardToken, start, end, precision, caller, totalReward, 0, 0);
      var ledger :- tokens.TransferFrom(rewardToken, caller, totalReward);
      AppendPool(pool);
      Commit(ledger);
      r := Ok(());
    }

    method Deposit(now: u64, caller: Hash32, amount: u256, id: u64) returns (r: Result<()>)
      requires Valid()
      modifies this`poolInfos, this`userInfos, this`ids, this`keys, this`tokens
      ensures Valid()
      ensures var tx := DepositTx(old(View()), now, caller, amount, id);
              && (tx.Ok? ==> r == Ok(()) && View() == tx.value)
              && (tx.Revert? ==> r == Revert(tx.error) && View() == old(View()))
    {
      hide UpdatePool, Pow10, View, Valid;
      if amount == 0 {
        return Revert(InvalidArgument);
      }
      var pool :- UpdatedPool(now, id);
      if pool.end < now {
        return Revert(InvalidArgument);
      }
      var found := GetUserInfoForPool(caller, id); // the id was checked with the pool
      var user := found.value;
      var newAmount :- Add256(amount, user.amount);
      var ledger := tokens;
      if user.amount == 0 {
        EarnedNothing(pool);
        user := user.(amount := newAmount);
        var staked :- Add256(pool.totalStaked, amount);
        var product :- Mul256(newAmount, pool.acc);
        var precision :- TenTo(pool.precision);
        var debt :- Div256(product, precision);
        pool := pool.(totalStaked := staked);
        user := user.(debt := debt);
        ledger :- ledger.TransferFrom(pool.stakingToken, caller, amount);
        Store(caller, id, pool, user);
      } else {
        var acc := pool.acc;
        var precision :- TenTo(pool.precision);
        var pending :- Mul256(user.amount, acc);
        pending :- Div256(pending, precision);
        pending :- Sub256(pending, user.debt);
        user := user.(amount := newAmount);
        var staked :- Add256(pool.totalStaked, amount);
        pool := pool.(totalStaked := staked);
        var debt :- Mul256(newAmount, acc);
        debt :- Div256(debt, precision);
        user := user.(debt := debt);
        match GetDepositScenario(pending, amount, pool.rewardToken, pool.stakingToken) {
          case NothingPending =>
            ledger :- ledger.TransferFrom(pool.stakingToken, caller, amount);
          case PendingGreater =>
            ledger :- ledger.Transfer(pool.stakingToken, caller, pending - amount);
          case PendingLesser =>
            ledger :- ledger.TransferFrom(pool.stakingToken, caller, amount - pending);
          case ClaimAndDeposit =>
            ledger :- ledger.Transfer(pool.rewardToken, caller, pending);
            ledger :- ledger.TransferFrom(pool.stakingToken, caller, amount);
        }
        Store(caller, id, pool, user);
      }
      Commit(ledger);
      r := Ok(());
    }

    method Withdraw(now: u64, caller: Hash32, amount: u256, id: u64) returns (r: Result<()>)
      requires Valid()
      modifies this`poolInfos, this`userInfos, this`ids, this`keys, this`tokens
      ensures Valid()
      ensures var tx := WithdrawTx(old(View()), now, caller, amount, id);
              && (tx.Ok? ==> r == Ok(()) && View() == tx.value)
              && (tx.Revert? ==> r == Revert(tx.error) && View() == old(View()))
    {
      hide UpdatePool, Pow10, View, Valid;
      if amount == 0 {
        return Revert(InvalidArgument);
      }
      var user :- GetUserInfoForPool(caller, id);
      var pool :- UpdatedPool(now, id);
      if user.amount == 0 {
        return Revert(InvalidArgument);
      }
      var newAmount :- Sub256(user.amount, amount);
      var acc := pool.acc;
      var precision :- TenTo(pool.precision);
      var pending :- Mul256(user.amount, acc);
      pending :- Div256(pending, precision);
      pending :- Sub256(pending, user.debt);
      user := user.(amount := newAmount);
      var staked :- Sub256(pool.totalStaked, amount);
      pool := pool.(totalStaked := staked);
      var debt :- Mul256(newAmount, acc);
      debt :- Div256(debt, precision);
      user := user.(debt := debt);
      var ledger := tokens;
      match GetWithdrawScenario(pending, pool.rewardToken, pool.stakingToken) {
        case NothingOwed =>
          ledger :- ledger.Transfer(pool.stakingToken, caller, amount);
        case EqualTokens =>
          var both :- Add256(pending, amount);
          ledger :- ledger.Transfer(pool.stakingToken, caller, both);
        case DifferentTokens =>
          ledger :- ledger.Transfer(pool.rewardToken, caller, pending);
          ledger :- ledger.Transfer(pool.stakingToken, caller, amount);
      }
      Store(caller, id, pool, user);
      Commit(ledger);
      r := Ok(());
    }

    method StopReward(now: u64, caller: Hash32, id: u64) returns (r: Result<()>)
      requires Valid()
      modifies this`poolInfos, this`ids, this`tokens
      ensures Valid()
      ensures var tx := StopRewardTx(old(View()), now, caller, id);
              && (tx.Ok? ==> r == Ok(()) && View() == tx.value)
              && (tx.Revert? ==> r == Revert(tx.error) && View() == old(View()))
    {
      hide UpdatePool, View, Valid;
      var pool :- UpdatedPool(now, id);
      if pool.owner != caller {
        return Revert(InvalidPurse);
      }
      var oldEnd := pool.end;
      if oldEnd <= now {
        return Revert(InvalidArgument);
      }
      pool := pool.(end := now);
      var duration := Sub64(oldEnd, pool.start);
      var amount :- Mul256(Sub64(oldEnd, Max(now, pool.start)), pool.totalReward);
      var refund :- Div256(amount, duration);
      var ledger :- tokens.Transfer(pool.stakingToken, caller, refund);
      StorePool(id, pool);
      Commit(ledger);
      r := Ok(());
    }

    method EmergencyWithdraw(caller: Hash32, id: u64) returns (r: Result<()>)
      requires Valid()
      modifies this`poolInfos, this`userInfos, this`ids, this`keys, this`tokens
      ensures Valid()
      ensures var tx := EmergencyWithdrawTx(old(View()), caller, id);
              && (tx.Ok? ==> r == Ok(()) && View() == tx.value)
              && (tx.Revert? ==> r == Revert(tx.error) && View() == old(View()))
    {
      hide View, Valid;
      var pool :- GetPool(id);
      var found := GetUserInfoForPool(caller, id); // the id was checked with the pool
      var user := found.value;
      var amount := user.amount;
      if amount == 0 {
        return Revert(InvalidArgument);
      }
      user := user.(amount := 0);
      var staked :- Sub256(pool.totalStaked, amount);
      pool := pool.(totalStaked := staked);
      user := user.(debt := 0);
      var ledger :- tokens.Transfer(pool.stakingToken, caller, amount);
      Store(caller, id, pool, user);
      Commit(ledger);
      r := Ok(());
    }
  }

  /** Without stake nothing is earned, so a first deposit has nothing pending. */
  lemma EarnedNothing(pool: StakePool)
    ensures Earned(pool, 0) == Revert(Panic) || Earned(pool, 0) == Ok(0)
    ensures Earned(pool, 0).Ok? <==> TenTo(pool.precision).Ok?
  {
  }
}
