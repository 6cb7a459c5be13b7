/** Machine words, reverting results and the arithmetic the contracts run on.
    Rust's release profile wraps `u64`; `U256` panics on overflow, underflow and division by zero. */
module Words {

  const TWO_64: nat := 0x1_0000_0000_0000_0000
  const TWO_256: nat := 0x1_0000_0000_0000_0000_0000_0000_0000_0000_0000_0000_0000_0000_0000_0000_0000_0000

  type u8 = x: int | 0 <= x < 256
  type u32 = x: int | 0 <= x < 0x1_0000_0000
  type u64 = x: int | 0 <= x < TWO_64
  type u256 = x: int | 0 <= x < TWO_256

  /** A 32-byte account or contract hash. */
  datatype RawHash = RawHash(bytes: seq<u8>)
  type Hash32 = h: RawHash | |h.bytes| == 32 witness RawHash(seq(32, _ => 0))

  /** Why an entry point gave up. `Panic` covers arithmetic and `unwrap` failures,
      `TokenFailure` a failing ERC-20 call. */
  datatype Error =
    | InvalidArgument
    | PermissionDenied
    | InvalidPurse
    | MissingKey
    | Formatting
    | NoneError
    | User(code: nat)
    | Panic
    | TokenFailure

  datatype Result<+T> = Ok(value: T) | Revert(error: Error) {
    predicate IsFailure() {
      Revert?
    }

    function PropagateFailure<U>(): Result<U>
      requires Revert?
    {
      Revert(error)
    }

    function Extract(): T
      requires Ok?
    {
      value
    }
  }

  function Min(a: u64, b: u64): u64 {
    if a > b then b else a
  }

  function Max(a: u64, b: u64): u64 {
    if a > b then a else b
  }

  /** Wrapping `u64` addition and subtraction. */
  function Add64(a: u64, b: u64): u64 {
    (a + b) % TWO_64
  }

  function Sub64(a: u64, b: u64): u64 {
    (a - b) % TWO_64
  }

  /** `checked_add` and `checked_mul` followed by `unwrap_or_revert`. */
  function CheckedAdd64(a: u64, b: u64): Result<u64> {
    if a + b < TWO_64 then Ok(a + b) else Revert(NoneError)
  }

  function CheckedMul64(a: u64, b: nat): Result<u64> {
    var product: nat := a * b;
    if product < TWO_64 then Ok(product) else Revert(NoneError)
  }

  function Word256(x: nat): Result<u256> {
    if x < TWO_256 then Ok(x) else Revert(Panic)
  }

  function Add256(a: u256, b: u256): Result<u256> {
    Word256(a + b)
  }

  function Sub256(a: u256, b: u256): Result<u256> {
    if a < b then Revert(Panic) else Ok(a - b)
  }

  function Mul256(a: u256, b: u256): Result<u256> {
    Word256(a * b)
  }

  function Div256(a: u256, b: u256): Result<u256> {
    if b == 0 then Revert(Panic) else Word256(a / b)
  }

  function Pow10(n: nat): (p: nat)
    ensures p >= 1
  {
    if n == 0 then 1 else 10 * Pow10(n - 1)
  }

  lemma {:induction false} PowMono(m: nat, n: nat)
    requires m <= n
    ensures Pow10(m) <= Pow10(n)
    decreases n
  {
    if m < n {
      PowMono(m, n - 1);
    }
  }

  lemma PowsOfTen()
    ensures Pow10(18) == 1_000_000_000_000_000_000
    ensures Pow10(36) == 1_000_000_000_000_000_000_000_000_000_000_000_000
  {
    assert Pow10(2) == 100;
    assert Pow10(4) == 10_000;
    assert Pow10(6) == 1_000_000;
    assert Pow10(8) == 100_000_000;
    assert Pow10(10) == 10_000_000_000;
    assert Pow10(12) == 1_000_000_000_000;
    assert Pow10(14) == 100_000_000_000_000;
    assert Pow10(16) == 10_000_000_000_000_000;
    assert Pow10(18) == 1_000_000_000_000_000_000;
    assert Pow10(20) == 100_000_000_000_000_000_000;
    assert Pow10(22) == 10_000_000_000_000_000_000_000;
    assert Pow10(24) == 1_000_000_000_000_000_000_000_000;
    assert Pow10(26) == 100_000_000_000_000_000_000_000_000;
    assert Pow10(28) == 10_000_000_000_000_000_000_000_000_000;
    assert Pow10(30) == 1_000_000_000_000_000_000_000_000_000_000;
    assert Pow10(32) == 100_000_000_000_000_000_000_000_000_000_000;
    assert Pow10(34) == 10_000_000_000_000_000_000_000_000_000_000_000;
  }

  /** Powers of ten: 10^1 is ten, and 10^(m + n) is 10^m * 10^n. */
  lemma {:induction false} PowAdds(m: nat, n: nat)
    ensures Pow10(1) == 10
    ensures Pow10(m + n) == Pow10(m) * Pow10(n)
    decreases m
  {
    if m > 0 {
      PowAdds(m - 1, n);
      assert 10 * (Pow10(m - 1) * Pow10(n)) == (10 * Pow10(m - 1)) * Pow10(n);
    }
  }

  /** `U256::from(10).pow(n)`. */
  function TenTo(n: u64): Result<u256> {
    Word256(Pow10(n))
  }
}
