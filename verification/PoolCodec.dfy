/** The 232-byte pool record and the 64-byte user record. */
module PoolCodec {
  import opened Words
  import opened Bytes
  import opened Pool

  function PackUserInfo(user: UserInfo): (b: seq<u8>)
    ensures |b| == 64
  {
    ToLE(user.amount, 32) + ToLE(user.debt, 32)
  }

  /** Slicing a record that is too short panics; what follows the record is ignored. */
  function UnpackUserInfo(src: seq<u8>): Result<UserInfo> {
    if |src| < 64 then Revert(Panic)
    else Ok(UserInfo(Read256(src[0..32]), Read256(src[32..64])))
  }

  /** Bytes 0..80, 80..104 and 136..232 of a pool record; the owner lies between the last two. */
  function PackIdentity(pool: StakePool): (b: seq<u8>)
    ensures |b| == 80
  {
    ToLE(pool.id, 8) + ToLE(pool.last, 8) + pool.stakingToken.bytes + pool.rewardToken.bytes
  }

  function PackTimes(pool: StakePool): (b: seq<u8>)
    ensures |b| == 24
  {
    ToLE(pool.start, 8) + ToLE(pool.end, 8) + ToLE(pool.precision, 8)
  }

  function PackAmounts(pool: StakePool): (b: seq<u8>)
    ensures |b| == 96
  {
    ToLE(pool.totalReward, 32) + ToLE(pool.acc, 32) + ToLE(pool.totalStaked, 32)
  }

  function PackPool(pool: StakePool): (b: seq<u8>)
    ensures |b| == 232
  {
    PackIdentity(pool) + PackTimes(pool) + pool.owner.bytes + PackAmounts(pool)
  }

  function UnpackPool(src: seq<u8>): Result<StakePool> {
    if |src| < 232 then Revert(Panic)
    else
      Ok(StakePool(
           Read64(src[0..8]), Read64(src[8..16]), RawHash(src[16..48]), RawHash(src[48..80]),
           Read64(src[80..88]), Read64(src[88..96]), Read64(src[96..104]), RawHash(src[104..136]),
           Read256(src[136..168]), Read256(src[168..200]), Read256(src[200..232])))
  }

  function UnpackOwner(src: seq<u8>): Result<seq<u8>> {
    if |src| < 136 then Revert(Panic) else Ok(src[104..136])
  }

  // ----- the packing loops -----

  method PackUserInfoLoop(user: UserInfo) returns (res: seq<u8>)
    ensures res == PackUserInfo(user)
  {
    res := PushRange([], Buffer256(user.amount), 0, 32);
    res := PushRange(res, Buffer256(user.debt), 32, 64);
  }

  method PackPoolLoop(pool: StakePool) returns (res: seq<u8>)
    ensures res == PackPool(pool)
  {
    hide ToLE;
    res := PushRange([], ToLE(pool.id, 8), 0, 8);
    res := PushRange(res, ToLE(pool.last, 8), 8, 16);
    res := PushRange(res, pool.stakingToken.bytes, 16, 48);
    res := PushRange(res, pool.rewardToken.bytes, 48, 80);
    assert res == PackIdentity(pool);
    res := PushTimes(res, pool);
    res := PushRange(res, pool.owner.bytes, 104, 136);
    res := PushAmounts(res, pool);
  }

  method PushTimes(start: seq<u8>, pool: StakePool) returns (res: seq<u8>)
    ensures res == start + PackTimes(pool)
  {
    hide ToLE;
    res := PushRange(start, ToLE(pool.start, 8), 80, 88);
    res := PushRange(res, ToLE(pool.end, 8), 88, 96);
    res := PushRange(res, ToLE(pool.precision, 8), 96, 104);
  }

  method PushAmounts(start: seq<u8>, pool: StakePool) returns (res: seq<u8>)
    ensures res == start + PackAmounts(pool)
  {
    hide ToLE, Buffer256;
    res := PushRange(start, Buffer256(pool.totalReward), 136, 168);
    res := PushRange(res, Buffer256(pool.acc), 168, 200);
    res := PushRange(res, Buffer256(pool.totalStaked), 200, 232);
  }

  // ----- round trips -----

  lemma UserInfoRoundTrip(user: UserInfo)
    ensures UnpackUserInfo(PackUserInfo(user)) == Ok(user)
  {
    var b := PackUserInfo(user);
    assert b[0..32] == ToLE(user.amount, 32) && b[32..64] == ToLE(user.debt, 32);
    ReadBack256(user.amount);
    ReadBack256(user.debt);
  }

  /** A user record is determined by its 64 bytes, and every 64 bytes are a record. */
  lemma UserBytesRoundTrip(b: seq<u8>)
    ensures UnpackUserInfo(b).Ok? <==> |b| >= 64
    ensures |b| >= 64 ==> PackUserInfo(UnpackUserInfo(b).value) == b[..64]
  {
    if |b| >= 64 {
      WrittenRead(b[0..32]);
      WrittenRead(b[32..64]);
    }
  }

  lemma PieceSlices(pool: StakePool)
    ensures var i, t, a := PackIdentity(pool), PackTimes(pool), PackAmounts(pool);
            && i[0..8] == ToLE(pool.id, 8) && i[8..16] == ToLE(pool.last, 8)
            && i[16..48] == pool.stakingToken.bytes && i[48..80] == pool.rewardToken.bytes
            && t[0..8] == ToLE(pool.start, 8) && t[8..16] == ToLE(pool.end, 8) && t[16..24] == ToLE(pool.precision, 8)
            && a[0..32] == ToLE(pool.totalReward, 32) && a[32..64] == ToLE(pool.acc, 32) && a[64..96] == ToLE(pool.totalStaked, 32)
  {
    hide ToLE;
  }

  lemma SubSlice(b: seq<u8>, piece: seq<u8>, at: nat, lo: nat, hi: nat)
    requires lo <= hi <= |piece| && at + |piece| <= |b|
    requires b[at..at + |piece|] == piece
    ensures b[at + lo..at + hi] == piece[lo..hi]
  {
    forall k | 0 <= k < hi - lo
      ensures b[at + lo..at + hi][k] == piece[lo..hi][k]
    {
      assert b[at..at + |piece|][lo + k] == piece[lo + k];
    }
  }

  /** The slices of a packed pool are its fields. */
  lemma PackedFields(pool: StakePool)
    ensures var b := PackPool(pool);
            && b[0..8] == ToLE(pool.id, 8) && b[8..16] == ToLE(pool.last, 8)
            && b[16..48] == pool.stakingToken.bytes && b[48..80] == pool.rewardToken.bytes
            && b[80..88] == ToLE(pool.start, 8) && b[88..96] == ToLE(pool.end, 8) && b[96..104] == ToLE(pool.precision, 8)
            && b[104..136] == pool.owner.bytes
            && b[136..168] == ToLE(pool.totalReward, 32) && b[168..200] == ToLE(pool.acc, 32)
            && b[200..232] == ToLE(pool.totalStaked, 32)
  {
    hide ToLE, PackIdentity, PackTimes, PackAmounts;
    var b, i, t, a := PackPool(pool), PackIdentity(pool), PackTimes(pool), PackAmounts(pool);
    PieceSlices(pool);
    assert b[0..80] == i && b[80..104] == t && b[104..136] == pool.owner.bytes && b[136..232] == a;
    SubSlice(b, i, 0, 0, 8);
    SubSlice(b, i, 0, 8, 16);
    SubSlice(b, i, 0, 16, 48);
    SubSlice(b, i, 0, 48, 80);
    SubSlice(b, t, 80, 0, 8);
    SubSlice(b, t, 80, 8, 16);
    SubSlice(b, t, 80, 16, 24);
    SubSlice(b, a, 136, 0, 32);
    SubSlice(b, a, 136, 32, 64);
    SubSlice(b, a, 136, 64, 96);
  }

  lemma PoolRoundTrip(pool: StakePool)
    ensures UnpackPool(PackPool(pool)) == Ok(pool)
    ensures UnpackOwner(PackPool(pool)) == Ok(pool.owner.bytes)
  {
    hide ToLE, FromLE, Read64, Read256, PackPool;
    PackedFields(pool);
    ReadBack64(pool.id);
    ReadBack64(pool.last);
    ReadBack64(pool.start);
    ReadBack64(pool.end);
    ReadBack64(pool.precision);
    ReadBack256(pool.totalReward);
    ReadBack256(pool.acc);
    ReadBack256(pool.totalStaked);
  }

  /** Every 232 bytes are a pool record, packing gives them back, and the owner is where
      `unpack_owner` looks. */
  lemma PoolBytesRoundTrip(b: seq<u8>)
    ensures UnpackPool(b).Ok? <==> |b| >= 232
    ensures |b| >= 232 ==> PackPool(UnpackPool(b).value) == b[..232]
    ensures |b| >= 232 ==> UnpackOwner(b) == Ok(UnpackPool(b).value.owner.bytes)
  {
    hide ToLE, FromLE;
    if |b| >= 232 {
      WrittenRead(b[0..8]);
      WrittenRead(b[8..16]);
      WrittenRead(b[80..88]);
      WrittenRead(b[88..96]);
      WrittenRead(b[96..104]);
      WrittenRead(b[136..168]);
      WrittenRead(b[168..200]);
      WrittenRead(b[200..232]);
      var pool := UnpackPool(b).value;
      assert PackIdentity(pool) == b[0..80] && PackTimes(pool) == b[80..104] && PackAmounts(pool) == b[136..232];
    }
  }

  /** Where the fields of a user record are. */
  lemma PackedUserFields(user: UserInfo)
    ensures PackUserInfo(user)[0..32] == ToLE(user.amount, 32) && PackUserInfo(user)[32..64] == ToLE(user.debt, 32)
  {
  }
}
