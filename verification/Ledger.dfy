/** ERC-20 balances as seen by one contract, called `This`
    (EIP-20, section "Specification", "Methods": `transfer` and `transferFrom`). */
module Ledger {
  import opened Words

  datatype Holder = This | Account(hash: Hash32)

  /** `allowances` holds what each account lets `This` draw. */
  datatype Tokens = Tokens(balances: map<(Hash32, Holder), nat>, allowances: map<(Hash32, Hash32), nat>) {

    function Balance(token: Hash32, holder: Holder): nat {
      if (token, holder) in balances then balances[(token, holder)] else 0
    }

    function Allowance(token: Hash32, owner: Hash32): nat {
      if (token, owner) in allowances then allowances[(token, owner)] else 0
    }

    function SetBalance(token: Hash32, holder: Holder, amount: nat): Tokens {
      this.(balances := balances[(token, holder) := amount])
    }

    function SetAllowance(token: Hash32, owner: Hash32, amount: nat): Tokens {
      this.(allowances := allowances[(token, owner) := amount])
    }

    /** `transfer` called by `This`. */
    function Transfer(token: Hash32, to: Hash32, amount: nat): Result<Tokens> {
      if Balance(token, This) < amount then Revert(TokenFailure)
      else
        Ok(SetBalance(token, This, Balance(token, This) - amount)
           .SetBalance(token, Account(to), Balance(token, Account(to)) + amount))
    }

    /** `transferFrom` called by `This`, with `This` as the recipient. */
    function TransferFrom(token: Hash32, owner: Hash32, amount: nat): Result<Tokens> {
      if Balance(token, Account(owner)) < amount || Allowance(token, owner) < amount then Revert(TokenFailure)
      else
        Ok(SetBalance(token, Account(owner), Balance(token, Account(owner)) - amount)
           .SetBalance(token, This, Balance(token, This) + amount)
           .SetAllowance(token, owner, Allowance(token, owner) - amount))
    }
  }

  /** Equal balances for every token and holder. */
  ghost predicate SameBalances(a: Tokens, b: Tokens) {
    forall token: Hash32, holder: Holder :: a.Balance(token, holder) == b.Balance(token, holder)
  }

  /** `out` of `token` moved from `This` to the caller, nothing else. */
  ghost predicate Shifted(before: Tokens, after: Tokens, token: Hash32, caller: Hash32, out: int) {
    forall t: Hash32, holder: Holder ::
      after.Balance(t, holder) ==
      before.Balance(t, holder)
      + (if t != token then 0 else if holder == This then -out else if holder == Account(caller) then out else 0)
  }

  /** `amount` was drawn from what `owner` lets the contract draw, and no other allowance changed. */
  ghost predicate Drawn(before: Tokens, after: Tokens, token: Hash32, owner: Hash32, amount: int) {
    forall t: Hash32, o: Hash32 ::
      after.Allowance(t, o) == before.Allowance(t, o) - if t == token && o == owner then amount else 0
  }

  lemma TransferShifts(l: Tokens, token: Hash32, caller: Hash32, amount: nat)
    requires l.Transfer(token, caller, amount).Ok?
    ensures Shifted(l, l.Transfer(token, caller, amount).value, token, caller, amount)
    ensures l.Transfer(token, caller, amount).value.allowances == l.allowances
  {
  }

  lemma TransferFromShifts(l: Tokens, token: Hash32, caller: Hash32, amount: nat)
    requires l.TransferFrom(token, caller, amount).Ok?
    ensures Shifted(l, l.TransferFrom(token, caller, amount).value, token, caller, 0 - amount)
    ensures Drawn(l, l.TransferFrom(token, caller, amount).value, token, caller, amount)
  {
  }
}
