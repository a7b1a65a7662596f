# Creditra credit-line engine in Dafny

This project models the core of the Creditra `credit` contract, a Soroban
smart contract. The contract keeps one revolving credit line per borrower in
persistent storage, keyed by the borrower's address. It also keeps three
instance-storage entries: the admin, the reserve token and a contract-wide
reentrancy flag. Its entry points are:

- `init`;
- `open_credit_line`, `draw_credit` and `repay_credit`;
- `update_risk_parameters`;
- `suspend_credit_line`, `close_credit_line` and `default_credit_line`;
- `get_credit_line`.

Each line operation (open, draw, repay, update, suspend, close, default)
loads one line, validates it, changes it and writes it back. There are
exceptions: `init` touches no line, `get_credit_line` only reads, and closing
an already Closed line returns before any write. A failure is a host panic: the host reverts every storage write and every
event of that call.

Files and modules:

- `types.dfy` (`CreditTypes`) holds the data types of `types.rs`. These are
  `CreditStatus` and `ContractError` with their fixed discriminants and codes,
  and `CreditLineData` and `RateChangeConfig`. It also holds the host's
  integer widths: i128 amounts, u32 rate and score, and a u64 timestamp, as
  `int` subset types. `i128::checked_add` and `i128::saturating_sub` are written
  out. It also has a standalone predicate that states the rule in the
  doc-comment of `RateChangeConfig`. The contract never calls it.
- `events.dfy` (`CreditEvents`) holds the payloads the contract publishes.
- `ledger.dfy` (`CreditLedger`) is the specification. The whole stored state is
  one value, `Ledger`. Each entry point is a function from the state before a
  call to a `Step`: the call's result, the state after it and the events it
  emitted. Every entry-point function except `Init`, which cannot fail,
  states six things in its postcondition: the exact condition under which
  the call succeeds, its effect on the named line, the events a success
  publishes, that nothing else changes, that a failure reverts everything,
  and that the line invariant is preserved. `Init` states the admin and token it records and that
  nothing else changes. The invariant is `0 <= utilized_amount <= credit_limit`,
  `interest_rate_bps <= 10000`, `risk_score <= 100`, and `borrower` equal to
  its map key. `Run` applies a sequence of complete calls, as the host
  delivers them one at a time.
- `contract.dfy` (`CreditContract`) is the imperative model. The class
  `Credit` has the storage as fields (`lines`, `admin`, `token`, `guard` and a
  ghost event log). One method per entry point follows the source statement by
  statement. Each method is proved equal to its step function in result,
  new state and events. `SetReentrancyGuard` and `ClearReentrancyGuard` change
  the flag in place.
- `properties.dfy` (`CreditProperties`) holds the lemmas:
  - the invariant and the flag over any sequence of calls;
  - per-borrower isolation;
  - the order in which each entry point reports its failures;
  - draw up to the limit;
  - draw-then-repay restoring the state exactly;
  - refusal of nested calls while a draw is in flight;
  - the close rules and idempotent close;
  - the fixed-field promise of `update_risk_parameters`.

Failures have two kinds. `Contract(e)` is a `panic_with_error` with a
`ContractError`. `Panic(reason)` is an `assert!`, a `panic!`, an `.expect` or
a failed `require_auth`, none of which carries a code. Authorisation is an
input `auth: set<Address>`: the addresses that authorised the invocation.
`x.require_auth()` succeeds exactly when `x` is in that set.

Notable behaviours of the code, which the model follows:

- `open_credit_line` performs no authorisation check.
- It rejects `credit_limit <= 0`, a zero limit included.
- It rejects `interest_rate_bps > 10000`.
- It refuses to replace an Active line; a line in any other status is
  overwritten by a fresh one.
- `draw_credit` checks no liquidity; its only bound is the credit limit.
- The reentrancy flag is one flag for the whole contract. `draw_credit` tests
  it before the amount, and `update_risk_parameters` never consults it.
- `update_risk_parameters` applies no rate-change throttling and does not
  write `last_rate_update_ts`.
- The token address is set only by `init`.
- `init` can be called again and overwrites admin and token.

`lib.rs` contains unresolved merge residue. The model reads it as follows:

- `draw_credit` is the second declaration (lib.rs:160).
- A missing line and an overflow fail with the `unwrap_or_else` branches'
  error codes, not the stray `.expect` strings.
- A Suspended or Defaulted line fails draw with the code of the first statement
  (`InvalidAmount`, lib.rs:196). The contracts only say that the draw fails.
- An opened line gets `last_rate_update_ts = 0`, which means "no rate update
  yet". The struct literal at lib.rs:112-119 leaves the field out.

## Model

| member | source | states |
|---|---|---|
| CreditTypes.CheckedAdd | contracts/credit/src/lib.rs:202-209 | returns exactly the sum when it lies in the i128 range and None (overflow) otherwise |
| CreditTypes.SaturatingSub | contracts/credit/src/lib.rs:275 | the difference when representable, clamped to i128::MIN / i128::MAX otherwise |
| CreditTypes.StatusDiscriminant | contracts/credit/src/types.rs:7-12 | a status is stored as a discriminant in 0..3, and 0 is exactly Active |
| CreditTypes.StatusFromDiscriminant | contracts/credit/src/types.rs:7-12 | exactly the discriminants 0..3 decode to a status |
| CreditTypes.StatusRoundTrip | contracts/credit/src/types.rs:7-12 | encoding then decoding a status gives it back, and decoding then encoding a valid discriminant gives it back |
| CreditTypes.ErrorCode | contracts/credit/src/types.rs:17-30 | every contract error has a code in 1..12 |
| CreditTypes.ErrorFromCode | contracts/credit/src/types.rs:17-30 | exactly the codes 1..12 decode to an error |
| CreditTypes.ErrorCodeRoundTrip | contracts/credit/src/types.rs:17-30 | codes and errors are inverse to each other in both directions |
| CreditTypes.ErrorCodeInjective | contracts/credit/src/types.rs:17-30 | two errors with the same code are the same error |
| CreditTypes.RateDelta | contracts/credit/src/types.rs:48-49 | the absolute change between two rates: zero exactly when they are equal, and bridging one to the other |
| CreditTypes.RateChangeAllowed | contracts/credit/src/types.rs:46-51 | keeping the rate always passes; a change passes when it moves the rate by at most max_rate_change_bps and, unless the interval is 0 or there was no earlier change (timestamp 0), at least rate_change_min_interval seconds have passed |
| CreditTypes.AllowedChangeIsBounded | contracts/credit/src/types.rs:48-49 | an allowed rate change moves the rate by at most `max_rate_change_bps` either way |
| CreditTypes.WindowDisabled | contracts/credit/src/types.rs:50-51 | with a zero minimum interval, or no earlier rate update (timestamp 0), only the delta bound decides |
| CreditTypes.UnchangedRateAllowed | contracts/credit/src/types.rs:48-51 | keeping the rate is not a rate change and is allowed whatever the limits and timestamps |
| CreditTypes.TooSoonRefused | contracts/credit/src/types.rs:50-51 | an actual change of the rate less than the minimum interval after the previous change is refused, whatever its size |
| CreditLedger.Deployed | contracts/credit/src/lib.rs:56-63 | before `init` nothing is stored: no lines, no admin, no token, and the flag reads as clear |
| CreditLedger.RequireAdmin | contracts/credit/src/lib.rs:43-48 | yields the stored admin when there is one and fails with NotAdmin exactly when there is none |
| CreditLedger.RequireAdminAuth | contracts/credit/src/lib.rs:50-54 | succeeds exactly when an admin is stored and authorised the call; NotAdmin when none is stored, an auth panic for an unauthorised admin |
| CreditLedger.Init | contracts/credit/src/lib.rs:75-78 | always succeeds, records admin and token, and keeps lines and flag |
| CreditLedger.Open | contracts/credit/src/lib.rs:87-135 | succeeds exactly when limit > 0, rate <= 10000, score <= 100 and no Active line is stored; then stores an Active line with nothing drawn, the given fields and timestamp 0, touches nothing else and publishes exactly one opened event with those fields; failures revert; keeps the invariant |
| CreditLedger.Draw | contracts/credit/src/lib.rs:160-238 | succeeds exactly when the flag is clear, the borrower authorised, amount > 0, the line exists, names the borrower and is Active, the sum neither overflows nor passes the limit, a token is set and the transfer succeeds; then utilized grows by exactly the amount, nothing else changes and exactly one draw event with the amount and the new balance is published; failures revert; keeps the invariant |
| CreditLedger.RepaidUtilization | contracts/credit/src/lib.rs:275 | never negative; for a non-negative balance and positive amount it is the balance minus the amount, or 0 when the amount covers it |
| CreditLedger.Repay | contracts/credit/src/lib.rs:242-292 | succeeds exactly when the flag is clear, the borrower authorised, the line exists, names the borrower, is not Closed and amount > 0; then only utilized changes, to the floored difference, and exactly one RepaymentEvent with the amount, the new balance and the timestamp is published; failures revert; keeps the invariant |
| CreditLedger.UpdateRiskParameters | contracts/credit/src/lib.rs:311-355 | succeeds exactly when the authorised admin calls on a stored line with 0 <= limit, utilized <= limit, rate <= 10000, score <= 100; then only limit, rate and score of that line change and exactly one risk-updated event with the new values is published; failures revert; keeps the invariant |
| CreditLedger.AdminSetStatus | contracts/credit/src/lib.rs:357-382 | succeeds exactly when the authorised admin names a stored line; a missing or unauthorised admin fails as `require_admin_auth` does, a missing line with CreditLineNotFound; then only that line's status changes, to the given one, and exactly one line event of the given type carrying the line's fields is published; failures revert; keeps the invariant |
| CreditLedger.Suspend | contracts/credit/src/lib.rs:357-382 | succeeds exactly when the authorised admin names a stored line; the admin failure or CreditLineNotFound otherwise; then only that line changes, to Suspended, and exactly one suspend event is published; failures revert; keeps the invariant |
| CreditLedger.MarkDefaulted | contracts/credit/src/lib.rs:441-466 | succeeds exactly when the authorised admin names a stored line; the admin failure or CreditLineNotFound otherwise; then only that line changes, to Defaulted, and exactly one default event is published; failures revert; keeps the invariant |
| CreditLedger.Close | contracts/credit/src/lib.rs:393-439 | succeeds exactly when the closer authorised, an admin is set, the line exists, and it is already Closed, or the closer is the admin, or the closer is the borrower with nothing drawn; a missing authorisation panics, a missing admin fails with NotAdmin, a missing line with CreditLineNotFound; on success only the status becomes Closed, with exactly one closed event unless the line was already Closed, in which case nothing is published; failures revert; keeps the invariant |
| CreditLedger.Apply | contracts/credit/src/lib.rs:73-472 | any one call keeps the invariant and the flag, and a failed call changes nothing and emits nothing |
| CreditContract.Credit.constructor | contracts/credit/src/lib.rs:69-70 | a deployed contract has empty storage and no events |
| CreditContract.Credit.SetReentrancyGuard | contracts/credit/src/lib.rs:56-63 | fails with Reentrancy exactly when the flag was already set; the flag is set afterwards |
| CreditContract.Credit.ClearReentrancyGuard | contracts/credit/src/lib.rs:65-67 | the flag is clear afterwards |
| CreditContract.Credit.Init | contracts/credit/src/lib.rs:75-78 | new state and events are those of CreditLedger.Init; keeps the invariant |
| CreditContract.Credit.OpenCreditLine | contracts/credit/src/lib.rs:87-135 | result, new state and events are those of CreditLedger.Open; keeps the invariant |
| CreditContract.Credit.DrawCredit | contracts/credit/src/lib.rs:160-238 | result, new state and events are those of CreditLedger.Draw; keeps the invariant; the flag ends as it started |
| CreditContract.Credit.RepayCredit | contracts/credit/src/lib.rs:243-292 | result, new state and events are those of CreditLedger.Repay; keeps the invariant; the flag ends as it started |
| CreditContract.Credit.UpdateRiskParameters | contracts/credit/src/lib.rs:313-355 | result, new state and events are those of CreditLedger.UpdateRiskParameters; keeps the invariant |
| CreditContract.Credit.SuspendCreditLine | contracts/credit/src/lib.rs:358-382 | result, new state and events are those of CreditLedger.Suspend; keeps the invariant |
| CreditContract.Credit.CloseCreditLine | contracts/credit/src/lib.rs:401-439 | result, new state and events are those of CreditLedger.Close; keeps the invariant |
| CreditContract.Credit.DefaultCreditLine | contracts/credit/src/lib.rs:442-466 | result, new state and events are those of CreditLedger.MarkDefaulted; keeps the invariant |
| CreditContract.Credit.GetCreditLine | contracts/credit/src/lib.rs:469-471 | None exactly for a borrower without a line, otherwise the stored line, which satisfies the invariant |
| CreditProperties.RunPreservesValid | contracts/credit/src/lib.rs:73-472 | every sequence of calls from a valid state ends in a valid state |
| CreditProperties.RunKeepsGuard | contracts/credit/src/lib.rs:56-67 | every sequence of complete calls leaves the reentrancy flag as it found it |
| CreditProperties.ReachableStatesValid | contracts/credit/src/lib.rs:73-472 | every state reachable from deployment satisfies the invariant and has the flag clear |
| CreditProperties.ApplyIsolated | contracts/credit/src/lib.rs:73-472 | a call never removes or changes the line of a borrower it does not name |
| CreditProperties.NoBorrowerMismatch | contracts/credit/src/lib.rs:182-185 | in a valid state draw and repay never hit the borrower-mismatch panic |
| CreditProperties.OpenFailures | contracts/credit/src/lib.rs:94-110 | open fails, in this order, on limit <= 0, rate > 10000, score > 100, an existing Active line |
| CreditProperties.OpenReplacesInactive | contracts/credit/src/lib.rs:101-121 | a Suspended, Defaulted or Closed line is replaced by a fresh Active line with nothing drawn |
| CreditProperties.DrawFailures | contracts/credit/src/lib.rs:165-217 | with the flag clear and the borrower authorised, draw fails on: amount <= 0 whatever the line; a missing line (NotFound); a Closed line (CreditLineClosed); a Suspended or Defaulted line; an i128 overflow (Overflow); a sum above the limit (OverLimit) |
| CreditProperties.DrawUpToLimit | contracts/credit/src/lib.rs:214-221 | drawing exactly the remaining headroom succeeds and makes utilized equal to the limit |
| CreditProperties.RepayFailures | contracts/credit/src/lib.rs:247-273 | repay fails with NotFound on a missing line, CreditLineClosed on a Closed line whatever the amount, InvalidAmount on amount <= 0 |
| CreditProperties.RepayEffect | contracts/credit/src/lib.rs:275-277 | an accepted repayment keeps the status, clears the balance when it covers it, and otherwise subtracts exactly the amount |
| CreditProperties.DrawThenRepayRestores | contracts/credit/src/lib.rs:160-292 | a successful draw followed by repaying the same amount succeeds and restores the stored state exactly |
| CreditProperties.ReentrantCallRefused | contracts/credit/src/lib.rs:56-63 | whenever the flag is set, draw and repay fail with Reentrancy, change nothing and emit nothing, for any caller and amount |
| CreditProperties.NestedCallsRefused | contracts/credit/src/lib.rs:56-67 | while a draw is in flight a nested draw or repay fails with Reentrancy and changes nothing; after it completes the flag is clear and the next call is not refused as reentrant |
| CreditProperties.BackToBackDraws | contracts/credit/src/lib.rs:1467-1480 | after init and open with limit 1000, two draws of 100 both succeed and leave 200 drawn, with the flag clear |
| CreditProperties.UpdateFailures | contracts/credit/src/lib.rs:320-339 | update fails, in order, with NotAdmin, NotFound, NegativeLimit, OverLimit, RateTooHigh, ScoreTooHigh |
| CreditProperties.UpdateKeepsBalanceAndStatus | contracts/credit/src/lib.rs:341-344 | an accepted update, whatever the status, sets limit, rate and score and keeps utilized, status and the rate timestamp |
| CreditProperties.AdminStatusChanges | contracts/credit/src/lib.rs:358-368 | suspend and default fail with NotAdmin without admin and NotFound without line; otherwise they set their status from any prior status and keep every other field |
| CreditProperties.CloseRules | contracts/credit/src/lib.rs:401-425 | an already-Closed line is a successful no-op without event; the admin closes at any utilization and preserves it; the borrower only with nothing drawn (else UtilizationNotZero); anyone else gets Unauthorized |
| CreditProperties.CloseIdempotent | contracts/credit/src/lib.rs:412-414 | closing a line a second time succeeds, changes nothing and emits nothing |
| CreditProperties.OpenExample | contracts/credit/src/lib.rs:112-121 | opening 5000 / 300 bps / risk 75 stores exactly those values, Active, with nothing drawn and timestamp 0 |

## Left out

- Token transfer: `token::Client::transfer` is a call into another contract. The model takes its outcome as the input `transferOk`. A failed transfer panics and reverts. Token balances are not modelled, and neither is a callback from the token contract beyond the in-flight state of `CreditProperties.NestedCallsRefused`.
- Soroban authorisation: `require_auth` is modelled by the input set `auth`. The host's signature and nonce machinery is not modelled.
- Storage and events: persistent and instance storage are fields of the object, and storage TTL is not modelled. Events are a ghost log of their payloads. The `(credit, …)` topic symbols are not recorded.
- Ledger time: the ledger timestamp is an input, `now`. It is used only in the repayment event.
- Rate-change throttling: `update_risk_parameters` never reads `RateChangeConfig` and never writes `last_rate_update_ts`. `CreditTypes.RateChangeAllowed` is therefore a standalone reading of that type's doc-comment, and the engine does not use it.
- Test modules: the tests in `lib.rs` and `test.rs` are used as evidence only.
- CreditLedger.Draw: for a Suspended or Defaulted line the contract states only that the draw fails, without pinning the error code. The source gives two conflicting failures there (lib.rs:196 and lib.rs:198). The body returns the first, `InvalidAmount`.
- CreditProperties.DrawFailures: for the same reason, it states only that a draw on a Suspended or Defaulted line fails.
