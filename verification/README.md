# Staking pool and vesting contract: a verified model

A Dafny model of two smart contracts and proofs of what they promise over every run.

* **LockStaking** pays a fixed reward to stakers, in proportion to stake and time. It keeps one number
  per pool, the reward per staked unit (`acc`, scaled by `p = 10^precision`), and one debt per user.
* **control_erc20_contract** locks tokens and releases them in equal slots at fixed times. Locks can be
  extended, handed over and claimed; each account keeps a list of the ids of its locks.

`dafny verify dfyconfig.toml` checks everything.

## How the model is laid out

| files | what they hold |
|---|---|
| `Words`, `Arith`, `Sums`, `Bytes` | machine words and reverting results, floored products, sums over maps, little-endian words |
| `Ledger`, `Pool`, `Netting` | ERC-20 balances seen by one contract, the staking records, which token calls a deposit or withdrawal makes |
| `StakeModel`, `StakeHistory` | the staking entry points as functions from state to state (`...Tx`), runs of calls and the per-pool history |
| `PoolBooks`, `StakeRuns` | the invariant of one pool and of the whole contract, kept by every call |
| `StakeTheorems`, `StopTheorems`, `Fairness`, `RunFairness`, `UpdateSplitting`, `NoPanic`, `TokenConservation`, `StakeCover` | what follows for every reachable state |
| `StakeEffects`, `VestEffects` | what each entry point does, to whom, and exactly when it goes through; every balance of every holder over every run |
| `Cast`, `Shortfall` | concrete runs from deployment that show where a promise ends |
| `VestModel`, `VestInvariant`, `VestRuns`, `VestTheorems` | the same for the vesting contract |
| `PoolCodec`, `VestCodec`, `StorageKeys` | the stored byte records and the dictionary keys |
| `StakeContract`, `VestContract` | the two contracts as objects over byte dictionaries; each entry point is proved to do what its `...Tx` function says |

Four conventions carry the model.

* `u64` addition and subtraction wrap, as in the release profile; `U256` operations panic on overflow,
  underflow and division by zero. A panic or revert is `Revert(error)` and leaves the state unchanged.
* A run is any sequence of calls by any callers at non-decreasing block times. Between calls the outside
  world may change any balance or allowance. `StakeHistory.Tally` and `VestModel.Grant` record what
  happened; they never influence a step.
* `StakeRuns.WorldInv` and `VestInvariant.VestInv` hold in every reachable state (`StakeRuns.HoldsAfterEveryRun`,
  `VestRuns.HoldsAfterEveryRun`), from the installed contract on, before and after `init`. The theorems below need
  nothing else. A pool is `Regular` when its start lies before its end in the current state. A pool created
  otherwise, or stopped at or before its start, is not: it can only share out its whole reward at once
  (`PoolBooks.Lump`), or, when start and end agree, nothing at all.
* The objects store packed records in dictionaries keyed by strings, as the contracts do: the first 15 hexadecimal
  digits of a hash and a decimal id. `Valid()` says which keys are there; that ids do not alias is proved. User
  records are shared by accounts whose hashes agree on those digits, in the model as in the code
  (`StorageKeys.TagsAgree`).

Where the prose of the repository and the code differ, the model follows the code: a slot is claimable
from its release time on, not only after it (control_erc20_contract/README.md says "greater"), and
`extend_lock` accepts an unchanged release time.

## Results worth reading first

* `Balanced` (in `PoolBooks`): the exact books of every pool in every run. Scaled payments, open claims and
  forfeits are the scaled rewards shared out, plus the remainders that debt resets rounded away, less the
  remainders that accruals kept. `Solvency` and `NothingLost` are read off from it.
* Strict solvency, payments and pending rewards within the rewards shared out, is false of the code.
  `Shortfall.StrictSolvencyFails` is a run from deployment in which a pool with a reward of 3 owes 4, the last
  `withdraw` is refused for want of reward tokens, and with one unit from outside the pool pays 4.
  `StrictSolvencyExactly` says when it holds. `SettlementMovesLiability` says which settlements endanger it: those
  that raise the remainder of the caller's scaled earnings, which the caller can compute beforehand; and
  `CarefulIsSolvent` proves it for every run without such settlements.
* `StopEndsEmission`: stopping a pool ends its emission if and only if the stop does not come before the start, or
  the reward is too large to be shared out at once. A pool stopped earlier refunds the whole reward and can still
  share it out; in the run of `Shortfall.RewardOwedTwice` it does both. A pool stopped exactly at its start is
  frozen: accruing updates divide by zero from then on, and every later deposit and withdrawal is refused, over
  every run (`FrozenForever`).
* `SplittingCostsDust` and `SplittingExactly`: updating more often costs the stakers only dust, except in a pool whose
  start lies more than one time unit after its end. In the runs of `Shortfall.SplittingLosesAll` one withdrawal in two
  parts loses a reward that the same withdrawal at once is paid.
* `StakesCovered` and `EmergencyGoesThrough`: the balance covers all stakes and pending rewards up to counted gaps,
  and an emergency withdrawal depends on that balance alone. `WithdrawCovered`: as long as what came from outside
  makes up for the gaps, every staker of a sized pool can leave with stake and reward. The refund of `stop_reward`,
  paid in the staking token, is such a gap: in the run of `Shortfall.RefundTakesStake` a lone staker cannot get the
  own stake back.
* `RunIsFair`: over every run, all that a user was paid, gave up and is still owed is the plain proportional split of
  every accrual at the stake the user then had, up to counted rounding. `SettlementIsFair` says it of one settlement.
* `NeverEarly` and `EarlyExactly`: a lock can be paid early in some run exactly when its slots hold at least one token
  each and its last release time does not fit in 64 bits; then one claim of its owner is enough.
* `ClaimsCompose`: claiming twice leaves exactly the world that claiming once leaves.

* `StakeEffects` and `VestEffects`: for every entry point, the exact condition under which it succeeds and its whole
  effect on records, lists, balances of all holders and allowances. Over every run: `LedgerOverRuns` accounts for
  every balance of every holder, `EmergencyReturnsStake` returns exactly what was deposited and not withdrawn,
  `ClaimsReceived` says that claimants together got exactly what a lock has paid, `ExtensionHolds` that an extended
  slot pays nothing before its new time, and `NewOwnerClaims` that after a transfer the new owner is paid in the old
  one's place.

## Model

| member | source | states |
|---|---|---|
| StakeContract.Contract.constructor | LockStaking/src/main.rs:34-60 | The contract as installed is not initialized and holds no records. |
| StakeContract.Contract.Init | LockStaking/src/stake.rs:34-48 | The first call creates empty dictionaries and the counter; every later call is refused with a permission error and changes nothing. |
| StakeContract.Contract.GetPool | LockStaking/src/stake.rs:428-443 | Reading a pool fails exactly before `init`, for ids above the counter, or without an entry, and otherwise returns the record the stored bytes encode. |
| StakeContract.Contract.GetUserInfoForPool | LockStaking/src/stake.rs:470-487 | A user without a record reads as the empty record. |
| StakeContract.Contract.StorePool | LockStaking/src/stake.rs:305-314 | Packing a pool and writing its bytes under its string key changes that one pool of the abstract state and nothing else. |
| StakeContract.Contract.AppendPool | LockStaking/src/stake.rs:79-110 | A new pool goes under the counter's key, which no earlier id uses until the counter wraps; exactly that key is added. |
| StakeContract.PoolAt | LockStaking/src/stake.rs:506-512 | The pool dictionary has an entry at an id's key exactly when that id was handed out. |
| StakeContract.UserAt | LockStaking/src/stake.rs:517-523 | The user dictionary has an entry at a caller's key exactly when that user record exists. |
| StakeContract.Contract.Store | LockStaking/src/stake.rs:446-467 | Writing back pool and user bytes changes exactly those two records. |
| StakeContract.Contract.UpdatedPool | LockStaking/src/stake.rs:364-400 | The stepwise update computes the pool that the accumulator theorems below are proved about. |
| StakeContract.Contract.AddPool | LockStaking/src/stake.rs:51-111 | The stepwise entry point, on bytes, does exactly the transaction the run theorems are about, or fails with the same error and no effect. |
| StakeContract.Contract.Deposit | LockStaking/src/stake.rs:114-210 | Both branches of a deposit (first and repeated) are the one settlement transaction of the run theorems; a failure has no effect. |
| StakeContract.Contract.Withdraw | LockStaking/src/stake.rs:213-274 | A withdrawal is the settlement transaction of the run theorems; a failure has no effect. |
| StakeContract.Contract.StopReward | LockStaking/src/stake.rs:278-315 | Stopping a pool is the stop transaction of the run theorems; a failure has no effect. |
| StakeContract.Contract.EmergencyWithdraw | LockStaking/src/stake.rs:331-347 | An emergency withdrawal returns the stake and forfeits the reward, without an update. |
| Netting.DepositMoves | LockStaking/src/stake.rs:165-204 | Whatever the scenario, a deposit moves exactly the pending reward to the caller and the stake from the caller, for every token and holder. |
| Netting.WithdrawMoves | LockStaking/src/stake.rs:238-269 | Whatever the scenario, a withdrawal moves exactly the pending reward and the stake to the caller. |
| Netting.DepositNettingFaithful | LockStaking/src/pool.rs:201-226 | The plain two-transfer form succeeds exactly when the netted one does and both full amounts are available; then all balances agree; netting draws the smaller allowance, stated exactly. |
| Netting.WithdrawNettingFaithful | LockStaking/src/pool.rs:234-252 | The netted withdrawal succeeds exactly when the plain one does and the sum formed for equal tokens fits a word; then both leave the same balances. |
| PoolBooks.UpdateKeeps | LockStaking/src/stake.rs:364-400 | Every update that goes through keeps the pool's whole invariant: books, debts, stake total, emission accounts. |
| PoolBooks.AccrualBalanced | LockStaking/src/stake.rs:391-395 | An accrual raises the scaled claims by the scaled reward less the remainder of its division, exactly. |
| PoolBooks.SettlementBalanced | LockStaking/src/stake.rs:152-163 | A settlement shifts the books by exactly the change of the caller's remainder. |
| PoolBooks.SettlementKeeps | LockStaking/src/stake.rs:127-163 | Settling a user at any new amount keeps the invariant. |
| PoolBooks.LumpShare | LockStaking/src/stake.rs:388-392 | In a pool whose start lies after its end, the wrapped times make one accrual share out the whole reward. |
| PoolBooks.LostBound | LockStaking/src/stake.rs:395 | Each accrual loses less than one scaled unit per staked unit. |
| PoolBooks.EmergencyKeeps | LockStaking/src/stake.rs:331-347 | Leaving without reward keeps the invariant; what is forfeited is never negative. |
| PoolBooks.StopKeeps | LockStaking/src/stake.rs:278-315 | Truncating the emission and refunding the rest keeps the invariant. |
| PoolBooks.UserFacts | LockStaking/src/stake.rs:224-236 | A user's stake is within the total, the debt within the earnings (so the subtraction never underflows), and no stake means no debt. |
| PoolBooks.AccOfMonotone | LockStaking/src/stake.rs:395 | An earlier accumulator is never above a later one. |
| PoolBooks.AccOfBound | LockStaking/src/stake.rs:391-395 | The accumulator never exceeds the scaled rewards shared out. |
| StakeRuns.ExecKeeps | LockStaking/src/stake.rs:51-361 | Every call, successful or not, by anyone, keeps the contract's invariant. |
| StakeRuns.HoldsAfterEveryRun | LockStaking/src/stake.rs:51-361 | The invariant holds after every run from deployment of fewer than 2^64 calls. |
| StakeTheorems.Solvency | LockStaking/src/stake.rs:156-163 | The scaled books are exact; payments plus all users' pending rewards are at most the rewards shared out plus one unit for each debt reset that raised a remainder. |
| StakeTheorems.StrictSolvencyExactly | LockStaking/src/stake.rs:156-163 | Payments plus pending rewards stay within the rewards shared out exactly when the resets' dust is covered by what accruals lost, what was forfeited, and what flooring the open claims drops. |
| StakeTheorems.SettlementMovesLiability | LockStaking/src/stake.rs:152-163 | A deposit or withdrawal moves the scaled liability by exactly the change of the caller's remainder, and raises it exactly when that remainder goes up. |
| StakeTheorems.CarefulIsSolvent | LockStaking/src/stake.rs:114-274 | Over every run from deployment without a settlement that raises a remainder, payments plus pending rewards stay within the rewards shared out and within the pool's reward. |
| Shortfall.StrictSolvencyFails | LockStaking/src/stake.rs:114-274 | A run from deployment in which three stakers end up owed 4 of a reward of 3: the last withdrawal is refused by the tokens, and after a gift of one unit the pool has paid 4. |
| Shortfall.RefundTakesStake | LockStaking/src/stake.rs:293-347 | A run from deployment in which the refund of a stop is paid out of a staker's stake, whose emergency withdrawal is then refused. |
| Shortfall.RewardOwedTwice | LockStaking/src/stake.rs:278-304 | A run from deployment in which a stop before the start refunds the whole reward of 3 and a staker is then owed, and with help from outside paid, the same 3. |
| Shortfall.SplittingLosesAll | LockStaking/src/stake.rs:375-396 | Two runs from deployment in a pool with its start after its end, which meets `LosesAll`: withdrawing at once pays the whole reward, withdrawing the same stake in two parts pays nothing. |
| StakeTheorems.EmissionBound | LockStaking/src/stake.rs:369-396 | For every pool: rewards shared out, refund and (scaled) accumulator stay within the total reward; with a start before the end, rewards stay proportional to elapsed emission time and rewards plus refund within the total; otherwise all or nothing is shared out. |
| StopTheorems.StoppedForever | LockStaking/src/stake.rs:278-315 | After a stop past the start, no run changes the accumulator, the end or the refund again. |
| StopTheorems.StopEndsEmission | LockStaking/src/stake.rs:278-304 | For every reward: no update that goes through after a stop adds anything if and only if the stop did not come before the start or the reward, times wrapped duration and scale, does not fit a word; exactly at the start accruing updates panic; before it the refund is the whole reward, or overflows. |
| StopTheorems.StopFreezes | LockStaking/src/stake.rs:287-304 | A stop freezes the pool exactly when it comes at the start. |
| StopTheorems.FrozenForever | LockStaking/src/stake.rs:364-400 | Over every run a pool whose start and end agree keeps its accumulator, and once the block time has passed its end every deposit and withdrawal is refused. |
| StakeTheorems.NothingLost | LockStaking/src/stake.rs:388-396 | Once everyone has left, payments and forfeits are exactly the rewards shared out plus the resets' dust less the accruals' losses; once a regular pool's emission is over, rewards and refund make up the reward less the idle time's part. |
| StakeTheorems.NoRewardLost | LockStaking/contract_tests/tests/src/integration_tests.rs:2434-2437 | Without idle time, stop or forfeits and with stakes within the precision, at most two units per accrual and one per settlement stay unpaid. |
| StakeTheorems.PoolAfter | LockStaking/src/stake.rs:51-361 | All any call can do to an existing pool: update it, change its stake, or stop it. |
| StakeTheorems.AccNeverFalls | LockStaking/src/stake.rs:395 | The accumulator never falls, over any run. |
| StakeTheorems.RecordsConsistent | LockStaking/src/stake.rs:446-467 | Stake total equals the sum of stakes; each debt is the floored earnings at an earlier accumulator; pending is never negative; no stake, no debt. |
| StakeTheorems.EveryRun | LockStaking/src/stake.rs:34-361 | Solvency and the emission bound, stated directly on every run from deployment. |
| Fairness.GainIsFair | LockStaking/src/stake.rs:391-395 | One accrual gives a stake its proportional part of the reward, less at most stake / p. |
| Fairness.GrowthIsFair | LockStaking/src/stake.rs:391-395 | Over any stretch of accruals the accumulator's growth is the proportional split, less at most stake / p per accrual. |
| Fairness.PendingIsFair | LockStaking/src/stake.rs:156-158 | A user's pending reward is the proportional split of all accruals since the last settlement, to within one unit and stake / p per accrual. |
| Fairness.SettlementIsFair | LockStaking/src/stake.rs:114-274 | What a deposit or withdrawal pays, in every reachable state and whatever others did in between, is that split. |
| RunFairness.StepIsFair | LockStaking/src/stake.rs:114-347 | Any single event changes what a record received, gave up and has open by the plain share of the accrual at its stake, to within one unit if it settles and stake / p if there was an accrual. |
| RunFairness.RunIsFair | LockStaking/src/stake.rs:114-347 | After every run from deployment, all that a record was paid, gave up and has pending is the plain split of all accruals at the stake it then had, to within one unit per settlement, one more, and stake / p per accrual. |
| UpdateSplitting.UpdateSucceeds | LockStaking/src/stake.rs:386-395 | An accruing update of any pool goes through exactly when start and end differ and its four products and sums fit in a word. |
| Words.PowAdds | LockStaking/src/stake.rs:386 | The scale's powers of ten: 10^1 is ten and exponents add. |
| UpdateSplitting.SplitOnce | LockStaking/src/stake.rs:364-400 | One extra update in between never gains, and loses at most p / stake + 2, wherever the times lie. |
| UpdateSplitting.SplittingCostsDust | LockStaking/src/stake.rs:364-425 | k updates instead of one never gain and lose at most (k - 1) * (p / stake + 2); if the single update goes through, so do all k. |
| UpdateSplitting.SplittingExactly | LockStaking/src/stake.rs:375-396 | That holds of a pool, for all times, if and only if not: the clock is not past the end, the start lies more than one unit after the end, the accrual's numbers fit a word, and reward * p / stake exceeds p / stake + 2. |
| NoPanic.UpdateNeverPanics | LockStaking/src/stake.rs:386-395 | Within the stated size an update of any pool panics exactly when it accrues and start and end agree. |
| NoPanic.DepositNeverPanics | LockStaking/src/stake.rs:114-204 | Within the stated size a deposit panics exactly for such a pool, is late exactly when the pool has ended, and otherwise depends on the token calls alone. |
| NoPanic.WithdrawNeverPanics | LockStaking/src/stake.rs:213-269 | Within the stated size a withdrawal of at most the own stake panics exactly for such a pool and otherwise goes through exactly when the contract holds the tokens. |
| TokenConservation.DepositPays | LockStaking/src/stake.rs:165-204 | The tokens a deposit moves are exactly the reward the books record as paid and the stake. |
| TokenConservation.WithdrawPays | LockStaking/src/stake.rs:238-269 | The tokens a withdrawal moves are exactly the reward the books record as paid and the stake. |
| TokenConservation.ExecConserves | LockStaking/src/stake.rs:102-347 | Every call keeps the balance of every token equal to what the pools account for. |
| TokenConservation.TokensConserved | LockStaking/src/stake.rs:102-347 | After every run, for every token: balance = sum over pools of (reward - paid) and (stake - refund) in that token, plus what came from or went outside. |
| StakeEffects.InitExactly | LockStaking/src/stake.rs:34-48 | Initialization succeeds exactly once and leaves no pools, no users, counter zero, and admin and balances as they were. |
| StakeEffects.AdminExactly | LockStaking/src/stake.rs:320-360 | Taking tokens out and naming an admin succeed exactly for the admin, and the first only within the balance; the admin gets exactly the amount, and nothing else changes. |
| StakeEffects.AccessExactly | LockStaking/src/stake.rs:403-487 | Which pools and records can be read, and the error for every id that cannot. |
| StakeEffects.AddPoolExactly | LockStaking/src/stake.rs:60-107 | A pool can be made exactly with both times not in the past, some reward, a precision from 18 to 36, and the reward in the caller's balance and allowance. |
| StakeEffects.AddPoolEffect | LockStaking/src/stake.rs:79-110 | The new pool is exactly the one asked for and the caller's; the caller and nobody else is charged; no other record changes. |
| StakeEffects.DepositExactly | LockStaking/src/stake.rs:114-204 | The exact condition of a deposit: amount, pool, time, word sizes, and the balances and allowance that netting needs; with the error of each refusal before the tokens. |
| StakeEffects.DepositEffect | LockStaking/src/stake.rs:114-210 | The caller's record and the pool's total grow by the amount, the debt is reset, the caller is paid what was pending and charged the amount, the allowance falls by what netting draws; nothing else changes. |
| StakeEffects.WithdrawExactly | LockStaking/src/stake.rs:213-269 | The exact condition of a withdrawal: amount within the stake, pool, word sizes, and the contract's tokens. |
| StakeEffects.WithdrawEffect | LockStaking/src/stake.rs:213-274 | The caller's record and the pool's total fall by the amount, the debt is reset, the caller is paid amount and pending; nothing else changes. |
| StakeEffects.StopExactly | LockStaking/src/stake.rs:278-303 | A stop succeeds exactly for the owner before the end, when the refund can be computed and the contract holds it in the staking token. |
| StakeEffects.StopEffect | LockStaking/src/stake.rs:278-315 | The owner and nobody else is paid the remaining reward, rounded down; the end becomes now; nothing else changes. |
| StakeEffects.EmergencyEffect | LockStaking/src/stake.rs:331-347 | The caller and nobody else gets exactly the caller's stake; the record is emptied, the pool is not brought up to date; nothing else changes. |
| StakeEffects.LedgerOverRuns | LockStaking/src/stake.rs:102-347 | Over every run, every balance of every holder is the sum of what the calls moved between their callers and the contract, and of outside changes. |
| StakeEffects.StakeIsBrought | LockStaking/src/stake.rs:114-347 | Over every run, a record's stake is what its deposits brought less what its withdrawals and emergencies took. |
| StakeEffects.EmergencyReturnsStake | LockStaking/src/stake.rs:331-347 | After every run from deployment, an emergency withdrawal moves to its caller, for all tokens and holders, exactly what the caller deposited and did not withdraw. |
| StakeCover.StakesCovered | LockStaking/src/stake.rs:102-347 | The balance of every token is at least all stakes and pending rewards in it, less one unit per raised remainder, less refunds that came out of stakes, plus what came from outside. |
| StakeCover.EmergencyGoesThrough | LockStaking/src/stake.rs:331-347 | With stake in the pool, an emergency withdrawal goes through exactly when the contract holds that much of the staking token. |
| StakeCover.EmergencyCovered | LockStaking/src/stake.rs:331-347 | It goes through for every staker when what came from outside makes up for raised remainders and refunds. |
| StakeCover.WithdrawCovered | LockStaking/src/stake.rs:213-274 | So does every withdrawal with reward, in both tokens, from a sized pool that is not stuck. |
| Bytes.ReadWritten | LockStaking/src/pool.rs:20-26 | Reading back a written little-endian word gives it back. |
| Bytes.WrittenRead | LockStaking/src/pool.rs:41-49 | Writing a word that was read gives the same bytes. |
| Bytes.ByteAt | LockStaking/src/pool.rs:20-26 | Byte i of a written word is the digit of 256^i. |
| Bytes.PushRange | LockStaking/src/pool.rs:110-152 | The pushing loop appends exactly the first bytes of its source. |
| PoolCodec.PackUserInfoLoop | LockStaking/src/pool.rs:20-39 | The two loops produce the user record. |
| PoolCodec.PackPoolLoop | LockStaking/src/pool.rs:86-154 | The eleven loops produce the pool record. |
| PoolCodec.UserInfoRoundTrip | LockStaking/src/pool.rs:20-49 | Unpacking a packed user record gives it back. |
| PoolCodec.UserBytesRoundTrip | LockStaking/src/pool.rs:41-49 | Unpacking fails exactly below 64 bytes, and packing gives the bytes back. |
| PoolCodec.PoolRoundTrip | LockStaking/src/pool.rs:86-191 | Unpacking a packed pool gives it back, and the owner shortcut agrees. |
| PoolCodec.PoolBytesRoundTrip | LockStaking/src/pool.rs:156-191 | Unpacking fails exactly below 232 bytes, packing gives the bytes back, and the owner shortcut agrees with the full unpack. |
| PoolCodec.PackedFields | LockStaking/src/pool.rs:86-154 | Where each field of a pool record is. |
| PoolCodec.PackedUserFields | LockStaking/src/pool.rs:20-39 | Where each field of a user record is. |
| StorageKeys.DecimalInjective | LockStaking/src/stake.rs:509 | Different numbers have different decimal texts. |
| StorageKeys.DecimalNotation | LockStaking/src/stake.rs:509 | The text of a number is its decimal notation, without leading zeros. |
| StorageKeys.KeysInjective | LockStaking/src/stake.rs:506-523 | Two keys are equal exactly when prefixes and ids are. |
| StorageKeys.TagsAgree | LockStaking/src/stake.rs:517-523 | Two accounts share their user keys exactly when their hashes agree on the first seven and a half bytes. |
| StorageKeys.HashTextInjective | control_erc20_contract/src/vest.rs:462-517 | Two accounts share an id list exactly when they are the same account. |
| VestContract.Contract.constructor | control_erc20_contract/src/main.rs:39-68 | The contract as installed is not initialized and holds no locks and no lists. |
| VestContract.Contract.Init | control_erc20_contract/src/vest.rs:171-184 | The first call creates an empty dictionary and the counter; every later call is refused with a permission error and changes nothing. |
| VestContract.Contract.GetLock | control_erc20_contract/src/vest.rs:438-460 | The checks on the raw bytes accept exactly the known, uncleared locks of the caller, in the source's order of errors. |
| VestContract.Contract.Store | control_erc20_contract/src/vest.rs:485-517 | Writing packed bytes, or no bytes, under the lock's string key changes exactly that entry. |
| VestContract.Contract.AppendLock | control_erc20_contract/src/vest.rs:228-266 | A new lock goes under the counter's key, which no earlier id uses until the counter wraps; exactly that key is added. |
| VestContract.LockAt | control_erc20_contract/src/vest.rs:543-549 | The dictionary has an entry at an id's key exactly when that id was handed out. |
| VestContract.Contract.Lock | control_erc20_contract/src/vest.rs:191-267 | The scheduling loop and the entry point do exactly the lock transaction of the run theorems; a failure has no effect. |
| VestContract.Contract.ExtendLock | control_erc20_contract/src/vest.rs:272-294 | Extending does exactly the transaction of the run theorems. |
| VestContract.Contract.TransferLock | control_erc20_contract/src/vest.rs:298-317 | Handing a lock over does exactly the transaction of the run theorems, for the same owner too. |
| VestContract.Contract.Claim | control_erc20_contract/src/vest.rs:321-381 | The claim loops do exactly the transaction of the run theorems. |
| VestContract.Contract.Collect | control_erc20_contract/src/vest.rs:329-336 | The loop empties exactly the due slots and adds up what they held, panicking exactly when the sum does not fit. |
| VestContract.Contract.CountEmpty | control_erc20_contract/src/vest.rs:353-362 | The count reaches the number of slots exactly when every slot is empty. |
| VestInvariant.BuiltSlots | control_erc20_contract/src/vest.rs:217-225 | A schedule that can be built holds n equal amounts, released gap apart modulo 2^64. |
| VestInvariant.ClaimSplits | control_erc20_contract/src/vest.rs:331-336 | What a claim takes and what it leaves add up to what was there. |
| VestInvariant.RemovalSucceeds | control_erc20_contract/src/vest.rs:493-499 | With the lists in order, looking up and swap-removing an owned id succeeds and removes that id only. |
| VestRuns.ExecKeeps | control_erc20_contract/src/vest.rs:191-381 | Every call keeps the invariant: schedules, id lists, balances. |
| VestRuns.HoldsAfterEveryRun | control_erc20_contract/src/vest.rs:191-381 | The invariant holds after every run from deployment of fewer than 2^64 calls. |
| VestTheorems.OpenByFormula | control_erc20_contract/src/vest.rs:217-221 | The number of slots open at t is min(n, (t - first) / gap + 1), with the cases gap = 0 and t before first. |
| VestTheorems.NeverEarly | control_erc20_contract/src/vest.rs:321-347 | Whatever claims, extensions and transfers came before, a lock has paid at most one quota per slot meant to be open. |
| VestTheorems.EarlyExactly | control_erc20_contract/src/vest.rs:211-225 | After a successful lock call some run pays the lock early if and only if its slots hold at least one token each and its last release time does not fit in a word. |
| VestTheorems.WrappedPaysEarly | control_erc20_contract/src/vest.rs:321-347 | Then a single claim of the owner, at a time it names, pays more than one quota per slot meant to be open. |
| VestTheorems.ClaimPaysAllDue | control_erc20_contract/src/vest.rs:329-347 | After the owner's claim a never-extended lock has paid exactly one quota per open slot. |
| VestTheorems.ClaimGoesThrough | control_erc20_contract/src/vest.rs:321-381 | An owner's claim succeeds exactly when the contract runs and something is due: the balance always covers it and no lookup or sum fails. |
| VestTheorems.TransferGoesThrough | control_erc20_contract/src/vest.rs:298-317 | An owner's transfer succeeds exactly when the contract runs. |
| VestEffects.LockExactly | control_erc20_contract/src/vest.rs:199-249 | A lock call succeeds exactly when the contract runs and is initialized, there is a slot, the times fit a word, and the caller holds and allows the amount. |
| VestEffects.LockCharges | control_erc20_contract/src/vest.rs:244-249 | The caller and nobody else is charged the whole amount, for all tokens and holders, and the allowance falls by it. |
| VestEffects.LockGives | control_erc20_contract/src/vest.rs:217-266 | The caller gets a new lock of n equal slots at the wrapped times, at the end of the caller's list; no other lock or list changes. |
| VestEffects.AccessExactly | control_erc20_contract/src/vest.rs:411-460 | A lock can be read exactly by its owner; everybody else gets the error for the reason. |
| VestEffects.ExtendExactly | control_erc20_contract/src/vest.rs:272-285 | An extension succeeds exactly for the owner, unpaused, for an existing slot and a time not before its release. |
| VestEffects.ExtendEffect | control_erc20_contract/src/vest.rs:287-293 | The slot gets the new release and keeps its amount; no other slot, entry, list or balance changes. |
| VestEffects.ExtensionHolds | control_erc20_contract/src/vest.rs:272-336 | Over every run that ends before the new release, a filled slot keeps its tokens, and no claim before then counts it. |
| VestEffects.TransferExactly | control_erc20_contract/src/vest.rs:298-302 | A transfer succeeds exactly for the owner, unpaused. |
| VestEffects.TransferEffect | control_erc20_contract/src/vest.rs:304-517 | The new owner owns the lock and has its id at the end of the list; it is swapped out of the old owner's list; nothing else changes, for the same owner too. |
| VestEffects.NewOwnerClaims | control_erc20_contract/src/vest.rs:298-347 | After a transfer the new owner's claim pays the new owner what the old owner's would have paid, and the old owner's is refused. |
| VestEffects.ClaimExactly | control_erc20_contract/src/vest.rs:321-340 | A claim succeeds exactly for the owner, unpaused, when something is due. |
| VestEffects.ClaimEffect | control_erc20_contract/src/vest.rs:329-379 | The caller and nobody else is paid exactly what was due, for all tokens and holders; due slots are emptied, and the lock is cleared and its id swapped out of the list exactly when nothing is left. |
| VestEffects.ClaimsReceived | control_erc20_contract/src/vest.rs:343-347 | Over every run from deployment, what claims of a lock brought into their callers' balances is exactly what the lock has paid. |
| VestEffects.LedgerOverRuns | control_erc20_contract/src/vest.rs:244-347 | Over every run, every balance of every holder is what locks took, what claims paid, and outside changes. |
| VestTheorems.LockConserves | control_erc20_contract/src/vest.rs:217-249 | Paid plus remaining slots equal n quotas, quotas plus remainder equal the amount locked, and every balance is accounted for. |
| VestTheorems.ClearedWhenPaid | control_erc20_contract/src/vest.rs:353-379 | With at least one token per slot, a lock is cleared exactly when everything is paid; with less it is never cleared. |
| VestTheorems.ClearedForever | control_erc20_contract/src/vest.rs:371-379 | A cleared id never becomes live again. |
| VestTheorems.DueComposes | control_erc20_contract/src/vest.rs:331-336 | On a schedule, claiming at t1 and then t2 takes and leaves what claiming at t2 does. |
| VestTheorems.ClaimsCompose | control_erc20_contract/src/vest.rs:321-381 | For any caller and lock, a claim at t1 then at t2, either possibly refused, leaves the same world as the claim at t2 alone. |
| VestTheorems.EveryRun | control_erc20_contract/src/vest.rs:191-381 | After every run from deployment: no early payment, exact token accounts, and id lists that name exactly the live locks, once each. |
| VestCodec.PackLoop | control_erc20_contract/src/vest.rs:56-92 | The loops produce the lock record for any number of slots. |
| VestCodec.UnpackAllSchedules | control_erc20_contract/src/vest.rs:136-154 | The loop reads every slot, and refuses exactly lengths that are not a multiple of 40. |
| VestCodec.UnpackLoop | control_erc20_contract/src/vest.rs:110-127 | Reading a record with the loop agrees with the record's definition. |
| VestCodec.LockRoundTrip | control_erc20_contract/src/vest.rs:56-161 | Unpacking a packed lock gives it back, the recipient shortcut agrees, and a record is never empty. |
| VestCodec.LockBytesRoundTrip | control_erc20_contract/src/vest.rs:110-161 | Records are exactly the byte strings of length 80 plus a multiple of 40, and packing gives them back. |
| VestCodec.PackedFields | control_erc20_contract/src/vest.rs:56-92 | Where each field and each slot of a lock record is. |

## Left out

* Entry-point registration, argument parsing, installation and the session wrappers.
* Re-entrancy and tokens that do not behave as EIP-20 describes; token balances are unbounded naturals.
* `save_me`, `set_admin` and `set_pause_contract` as methods: the runs contain `SaveMe`, `SetAdmin` and `SetPaused`
  events, the objects do not have these methods. Parsing the hash text given to `init` is not part of the model.
* Runs of 2^64 or more calls, where the wrapping id counter could meet an old id.
* The ledger of a failing call: the objects work on a copy and commit it at the end, where the platform
  undoes the partial effects itself.
- UpdateSplitting.SplittingCostsDust: with the stake held fixed between the updates.
- StakeTheorems.NoRewardLost: "no emergency withdrawal" is read as "nothing was forfeited", and "stake at every update" as "no idle emission time"; both are weaker demands than on the calls themselves.
- VestTheorems.ClaimPaysAllDue: for locks that were never extended; after an extension only the upper bound of `NeverEarly` holds.
- VestCodec.PackLoop: the fixed 40-byte buffer of one slot is a value, not an array.
