/** Dictionary keys: the first 15 characters of a hash's text followed by a decimal id. */
module StorageKeys {
  import opened Words

  const PREFIX: nat := 15

  /** The part of a hash's text that goes into a key. */
  type Tag = text: string | |text| == PREFIX witness seq(PREFIX, _ => '0')

  function Digit(d: nat): char
    requires d < 16
  {
    "0123456789abcdef"[d]
  }

  /** Two lower-case hexadecimal digits per byte. */
  function Hex(bytes: seq<u8>): (text: string)
    ensures |text| == 2 * |bytes|
  {
    if bytes == [] then "" else [Digit(bytes[0] / 16), Digit(bytes[0] % 16)] + Hex(bytes[1..])
  }

  /** `to_string` of an account hash or a contract package hash. */
  function HashText(hash: Hash32): (text: string)
    ensures |text| == 64
  {
    Hex(hash.bytes)
  }

  function TagOf(hash: Hash32): Tag {
    HashText(hash)[..PREFIX]
  }

  /** `to_string` of an unsigned integer. */
  function Decimal(n: nat): (text: string)
    ensures |text| > 0
  {
    if n < 10 then [Digit(n)] else Decimal(n / 10) + [Digit(n % 10)]
  }

  /** The number that a decimal text stands for. */
  function ValueOf(text: string): int {
    if text == "" then 0 else 10 * ValueOf(text[..|text| - 1]) + (text[|text| - 1] as int - '0' as int)
  }

  lemma DigitChars(d: nat)
    requires d < 16
    ensures Digit(d) as int == if d < 10 then '0' as int + d else 'a' as int + d - 10
  {
  }

  /** The text is the number's decimal notation: digits only, no leading zero, most significant first. */
  lemma {:induction false} DecimalNotation(n: nat)
    ensures ValueOf(Decimal(n)) == n
    ensures forall i :: 0 <= i < |Decimal(n)| ==> '0' <= Decimal(n)[i] <= '9'
    ensures n > 0 ==> Decimal(n)[0] != '0'
    decreases n
  {
    DigitChars(n % 10);
    if n >= 10 {
      DecimalNotation(n / 10);
      assert Decimal(n)[..|Decimal(n)| - 1] == Decimal(n / 10);
    } else {
      assert Decimal(n)[..0] == "";
    }
  }

  /** `make_pool_key_id` and `make_lock_key_id` for the contract's tag, `make_user_key_by_id` for the caller's. */
  function MakeKey(tag: Tag, id: u64): string {
    tag + Decimal(id)
  }

  lemma DigitsDiffer(a: nat, b: nat)
    requires a < 16 && b < 16 && Digit(a) == Digit(b)
    ensures a == b
  {
  }

  lemma {:induction false} DecimalInjective(a: nat, b: nat)
    requires Decimal(a) == Decimal(b)
    ensures a == b
    decreases a
  {
    var x, y := Decimal(a), Decimal(b);
    DigitsDiffer(a % 10, b % 10) by {
      assert x[|x| - 1] == Digit(a % 10) && y[|y| - 1] == Digit(b % 10);
    }
    if a >= 10 && b >= 10 {
      assert Decimal(a / 10) == x[..|x| - 1] && Decimal(b / 10) == y[..|y| - 1];
      DecimalInjective(a / 10, b / 10);
    }
  }

  /** A key determines the tag and the id, so distinct ids never alias. */
  lemma KeysInjective(tag: Tag, id: u64, tag': Tag, id': u64)
    ensures MakeKey(tag, id) == MakeKey(tag', id') <==> tag == tag' && id == id'
  {
    var k, k' := MakeKey(tag, id), MakeKey(tag', id');
    assert k[..PREFIX] == tag && k[PREFIX..] == Decimal(id);
    assert k'[..PREFIX] == tag' && k'[PREFIX..] == Decimal(id');
    if k == k' {
      DecimalInjective(id, id');
    }
  }

  /** Where the digits of byte `i` are. */
  lemma {:induction false} HexAt(bytes: seq<u8>, i: nat)
    requires i < |bytes|
    ensures Hex(bytes)[2 * i] == Digit(bytes[i] / 16) && Hex(bytes)[2 * i + 1] == Digit(bytes[i] % 16)
    decreases i
  {
    if i > 0 {
      HexAt(bytes[1..], i - 1);
      assert Hex(bytes)[2..] == Hex(bytes[1..]);
    }
  }

  lemma SameByte(b: seq<u8>, c: seq<u8>, i: nat)
    requires |b| == |c| && i < |b|
    requires Hex(b)[2 * i] == Hex(c)[2 * i]
    ensures b[i] / 16 == c[i] / 16
    ensures Hex(b)[2 * i + 1] == Hex(c)[2 * i + 1] ==> b[i] == c[i]
  {
    hide Hex, Digit;
    HexAt(b, i);
    HexAt(c, i);
    DigitsDiffer(b[i] / 16, c[i] / 16);
    if Hex(b)[2 * i + 1] == Hex(c)[2 * i + 1] {
      DigitsDiffer(b[i] % 16, c[i] % 16);
    }
  }

  /** The whole text determines the hash, so no two accounts share an id list. */
  lemma HashTextInjective(a: Hash32, b: Hash32)
    ensures HashText(a) == HashText(b) <==> a == b
  {
    hide Hex;
    if HashText(a) == HashText(b) {
      forall i | 0 <= i < 32
        ensures a.bytes[i] == b.bytes[i]
      {
        SameByte(a.bytes, b.bytes, i);
      }
    }
  }

  /** Two accounts share their user records exactly when their hashes agree on the first seven and a
      half bytes. */
  lemma TagsAgree(a: Hash32, b: Hash32)
    ensures TagOf(a) == TagOf(b) <==> a.bytes[..7] == b.bytes[..7] && a.bytes[7] / 16 == b.bytes[7] / 16
  {
    hide Hex, Digit;
    var x, y := HashText(a), HashText(b);
    if TagOf(a) == TagOf(b) {
      assert forall k :: 0 <= k < PREFIX ==> x[k] == TagOf(a)[k] && y[k] == TagOf(b)[k];
      forall i | 0 <= i < 7
        ensures a.bytes[i] == b.bytes[i]
      {
        SameByte(a.bytes, b.bytes, i);
      }
      SameByte(a.bytes, b.bytes, 7);
    }
    if a.bytes[..7] == b.bytes[..7] && a.bytes[7] / 16 == b.bytes[7] / 16 {
      forall k | 0 <= k < PREFIX
        ensures x[k] == y[k]
      {
        assert k < 14 ==> a.bytes[k / 2] == a.bytes[..7][k / 2] && b.bytes[k / 2] == b.bytes[..7][k / 2];
        HexAt(a.bytes, k / 2);
        HexAt(b.bytes, k / 2);
      }
    }
  }
}
