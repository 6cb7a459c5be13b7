/** The lock record: 80 bytes, then 40 bytes for each slot. */
module VestCodec {
  import opened Words
  import opened Bytes
  import opened VestModel

  function PackSlot(slot: Slot): (b: seq<u8>)
    ensures |b| == 40
  {
    ToLE(slot.release, 8) + ToLE(slot.amount, 32)
  }

  function UnpackSlot(src: seq<u8>): Slot
    requires |src| == 40
  {
    Slot(Read64(src[0..8]), Read256(src[8..40]))
  }

  function PackSlots(slots: seq<Slot>): (b: seq<u8>)
    ensures |b| == 40 * |slots|
  {
    if slots == [] then [] else PackSlots(slots[..|slots| - 1]) + PackSlot(slots[|slots| - 1])
  }

  function UnpackSlots(src: seq<u8>): (slots: seq<Slot>)
    requires |src| % 40 == 0
    ensures 40 * |slots| == |src|
    decreases |src|
  {
    if src == [] then []
    else UnpackSlots(src[..|src| - 40]) + [UnpackSlot(src[|src| - 40..])]
  }

  function PackHeader(info: VestInfo): (b: seq<u8>)
    ensures |b| == 80
  {
    ToLE(info.id, 8) + ToLE(info.lockTime, 8) + info.recipient.bytes + info.token.bytes
  }

  function Pack(info: VestInfo): seq<u8> {
    PackHeader(info) + PackSlots(info.slots)
  }

  /** A record that is too short panics; slots that do not come out even are a formatting error. */
  function Unpack(src: seq<u8>): Result<VestInfo> {
    if |src| < 80 then Revert(Panic)
    else if (|src| - 80) % 40 != 0 then Revert(Formatting)
    else
      Ok(VestInfo(Read64(src[0..8]), Read64(src[8..16]), RawHash(src[16..48]), RawHash(src[48..80]), UnpackSlots(src[80..])))
  }

  function UnpackRecipient(src: seq<u8>): Result<Hash32> {
    if |src| < 48 then Revert(Panic) else Ok(RawHash(src[16..48]))
  }

  lemma NoSlots()
    ensures UnpackSlots([]) == [] && PackSlots([]) == []
  {
  }

  lemma PackLast(slots: seq<Slot>)
    requires slots != []
    ensures PackSlots(slots) == PackSlots(slots[..|slots| - 1]) + PackSlot(slots[|slots| - 1])
  {
  }

  lemma UnpackAppend(a: seq<u8>, b: seq<u8>)
    requires |a| % 40 == 0 && |b| == 40
    ensures UnpackSlots(a + b) == UnpackSlots(a) + [UnpackSlot(b)]
  {
  }

  // ----- the loops -----

  method PackLoop(info: VestInfo) returns (res: seq<u8>)
    ensures res == Pack(info)
  {
    hide ToLE, PackSlot;
    res := PushRange([], ToLE(info.id, 8), 0, 8);
    res := PushRange(res, ToLE(info.lockTime, 8), 8, 16);
    res := PushRange(res, info.recipient.bytes, 16, 48);
    res := PushRange(res, info.token.bytes, 48, 80);
    assert res == PackHeader(info);
    var counter := 0;
    while counter < |info.slots|
      invariant 0 <= counter <= |info.slots|
      invariant res == PackHeader(info) + PackSlots(info.slots[..counter])
    {
      var bytes := PackSlot(info.slots[counter]);
      res := PushRange(res, bytes, 0, 40);
      assert info.slots[..counter + 1][..counter] == info.slots[..counter];
      assert res == PackHeader(info) + (PackSlots(info.slots[..counter]) + bytes);
      counter := counter + 1;
    }
    assert info.slots[..counter] == info.slots;
  }

  method UnpackAllSchedules(src: seq<u8>) returns (r: Result<seq<Slot>>)
    ensures r == if |src| % 40 != 0 then Revert(Formatting) else Ok(UnpackSlots(src))
  {
    hide UnpackSlot, UnpackSlots;
    if |src| % 40 != 0 {
      return Revert(Formatting);
    }
    var slots := [];
    NoSlots();
    var counter := 0;
    var total := |src| / 40;
    while counter < total
      invariant 0 <= counter <= total
      invariant slots == UnpackSlots(src[..40 * counter])
    {
      var offset := counter * 40;
      var slot := UnpackSlot(src[offset..offset + 40]);
      slots := slots + [slot];
      UnpackAppend(src[..offset], src[offset..offset + 40]);
      assert src[..offset + 40] == src[..offset] + src[offset..offset + 40];
      counter := counter + 1;
    }
    assert src[..40 * counter] == src;
    r := Ok(slots);
  }

  method UnpackLoop(src: seq<u8>) returns (r: Result<VestInfo>)
    ensures r == Unpack(src)
  {
    if |src| < 80 {
      return Revert(Panic);
    }
    var slots :- UnpackAllSchedules(src[80..]);
    r := Ok(VestInfo(Read64(src[0..8]), Read64(src[8..16]), RawHash(src[16..48]), RawHash(src[48..80]), slots));
  }

  // ----- round trips -----

  lemma SlotRoundTrip(slot: Slot)
    ensures UnpackSlot(PackSlot(slot)) == slot
  {
    hide ToLE;
    var b := PackSlot(slot);
    assert b[0..8] == ToLE(slot.release, 8) && b[8..40] == ToLE(slot.amount, 32);
    ReadBack64(slot.release);
    ReadBack256(slot.amount);
  }

  lemma SlotBytesRoundTrip(b: seq<u8>)
    requires |b| == 40
    ensures PackSlot(UnpackSlot(b)) == b
  {
    WrittenRead(b[0..8]);
    WrittenRead(b[8..40]);
  }

  lemma {:induction false} SlotsRoundTrip(slots: seq<Slot>)
    ensures UnpackSlots(PackSlots(slots)) == slots
    decreases |slots|
  {
    hide PackSlot, UnpackSlot, UnpackSlots, PackSlots;
    if slots == [] {
      NoSlots();
    } else {
      var n := |slots| - 1;
      SlotsRoundTrip(slots[..n]);
      SlotRoundTrip(slots[n]);
      PackLast(slots);
      UnpackAppend(PackSlots(slots[..n]), PackSlot(slots[n]));
      assert slots == slots[..n] + [slots[n]];
    }
  }

  lemma {:induction false} SlotsBytesRoundTrip(b: seq<u8>)
    requires |b| % 40 == 0
    ensures PackSlots(UnpackSlots(b)) == b
    decreases |b|
  {
    hide PackSlot, UnpackSlot;
    if b != [] {
      var n := |b| - 40;
      var slots := UnpackSlots(b);
      SlotsBytesRoundTrip(b[..n]);
      SlotBytesRoundTrip(b[n..]);
      assert slots[..|slots| - 1] == UnpackSlots(b[..n]);
      assert b == b[..n] + b[n..];
    }
  }

  /** Unpacking a packed lock gives it back, for any number of slots, and the recipient check reads
      the lock's recipient. */
  lemma LockRoundTrip(info: VestInfo)
    ensures Unpack(Pack(info)) == Ok(info)
    ensures UnpackRecipient(Pack(info)) == Ok(info.recipient)
    ensures Pack(info) != []
  {
    hide ToLE, PackSlots, UnpackSlots, Read64;
    var b, h := Pack(info), PackHeader(info);
    assert b[..80] == h && b[80..] == PackSlots(info.slots);
    assert b[0..8] == h[0..8] == ToLE(info.id, 8);
    assert b[8..16] == h[8..16] == ToLE(info.lockTime, 8);
    assert b[16..48] == h[16..48] == info.recipient.bytes;
    assert b[48..80] == h[48..80] == info.token.bytes;
    ReadBack64(info.id);
    ReadBack64(info.lockTime);
    SlotsRoundTrip(info.slots);
  }

  /** Exactly the byte strings of 80 plus a multiple of 40 bytes are lock records, and packing gives
      them back. */
  lemma LockBytesRoundTrip(b: seq<u8>)
    ensures Unpack(b).Ok? <==> |b| >= 80 && (|b| - 80) % 40 == 0
    ensures Unpack(b).Ok? ==> Pack(Unpack(b).value) == b && UnpackRecipient(b) == Ok(Unpack(b).value.recipient)
  {
    hide ToLE, FromLE, PackSlots, UnpackSlots;
    if Unpack(b).Ok? {
      var info := Unpack(b).value;
      WrittenRead(b[0..8]);
      WrittenRead(b[8..16]);
      SlotsBytesRoundTrip(b[80..]);
      assert PackHeader(info) == b[..80];
      assert b == b[..80] + b[80..];
    }
  }

  /** Slot `k` takes the 40 bytes from `40 * k`, release time first. */
  lemma {:induction false} SlotPlace(slots: seq<Slot>, k: nat)
    requires k < |slots|
    ensures 40 * k + 40 <= |PackSlots(slots)|
    ensures PackSlots(slots)[40 * k..40 * k + 40] == ToLE(slots[k].release, 8) + ToLE(slots[k].amount, 32)
    decreases |slots|
  {
    hide ToLE;
    var n := |slots| - 1;
    var front := PackSlots(slots[..n]);
    PackLast(slots);
    if k < n {
      SlotPlace(slots[..n], k);
      assert PackSlots(slots)[40 * k..40 * k + 40] == front[40 * k..40 * k + 40];
    } else {
      assert PackSlots(slots)[40 * n..40 * n + 40] == PackSlot(slots[n]);
    }
  }

  /** Where the fields of a lock record are. */
  lemma PackedFields(info: VestInfo, k: nat)
    requires k < |info.slots|
    ensures var b, at := Pack(info), 80 + 40 * k;
            && |b| == 80 + 40 * |info.slots|
            && b[0..8] == ToLE(info.id, 8) && b[8..16] == ToLE(info.lockTime, 8)
            && b[16..48] == info.recipient.bytes && b[48..80] == info.token.bytes
            && b[at..at + 8] == ToLE(info.slots[k].release, 8) && b[at + 8..at + 40] == ToLE(info.slots[k].amount, 32)
  {
    hide ToLE, PackSlots;
    var b, h, s, at := Pack(info), PackHeader(info), PackSlots(info.slots), 80 + 40 * k;
    SlotPlace(info.slots, k);
    assert b[..80] == h && b[80..] == s;
    assert b[0..8] == h[0..8] && b[8..16] == h[8..16] && b[16..48] == h[16..48] && b[48..80] == h[48..80];
    var slot := s[40 * k..40 * k + 40];
    assert b[at..at + 40] == slot;
    assert b[at..at + 8] == slot[..8] && b[at + 8..at + 40] == slot[8..];
  }
}
