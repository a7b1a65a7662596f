/** Data types of the credit contract: the fixed-width integers it stores,
    the status and error enums with their fixed discriminants, the stored
    credit line and the (unused by the engine) rate-change configuration. */
module CreditTypes {

  datatype Option<+T> = None | Some(value: T)

  // ---------------------------------------------------------------------
  // Fixed-width integers of the host (Rust i128, u32, u64)
  // ---------------------------------------------------------------------

  const I128_MIN: int := -0x8000_0000_0000_0000_0000_0000_0000_0000
  const I128_MAX: int := 0x7fff_ffff_ffff_ffff_ffff_ffff_ffff_ffff
  const U32_MAX: int := 0xffff_ffff
  const U64_MAX: int := 0xffff_ffff_ffff_ffff

  type I128 = x: int | I128_MIN <= x <= I128_MAX
  type U32 = x: int | 0 <= x <= U32_MAX
  type U64 = x: int | 0 <= x <= U64_MAX

  /** Largest accepted interest rate, in basis points (100%). */
  const MAX_INTEREST_RATE_BPS: U32 := 10_000
  /** Largest accepted risk score (0..100 scale). */
  const MAX_RISK_SCORE: U32 := 100

  /** `i128::checked_add`: the sum when it is representable, None on overflow. */
  function CheckedAdd(a: I128, b: I128): (r: Option<I128>)
    ensures r.Some? <==> I128_MIN <= a + b <= I128_MAX
    ensures r.Some? ==> r.value == a + b
    ensures b > 0 && r.Some? ==> r.value > a
  {
    if I128_MIN <= a + b <= I128_MAX then Some(a + b) else None
  }

  /** `i128::saturating_sub`: the difference clamped to the i128 range. */
  function SaturatingSub(a: I128, b: I128): (r: I128)
    ensures I128_MIN <= a - b <= I128_MAX ==> r == a - b
    ensures a - b < I128_MIN ==> r == I128_MIN
    ensures a - b > I128_MAX ==> r == I128_MAX
  {
    if a - b < I128_MIN then I128_MIN
    else if a - b > I128_MAX then I128_MAX
    else a - b
  }

  // ---------------------------------------------------------------------
  // Addresses
  // ---------------------------------------------------------------------

  /** An account or contract address; only equality is ever used. */
  datatype Address = Address(id: string)

  // ---------------------------------------------------------------------
  // CreditStatus
  // ---------------------------------------------------------------------

  datatype CreditStatus = Active | Suspended | Defaulted | Closed

  /** The enum's `repr` value as it is stored on the ledger. */
  function StatusDiscriminant(s: CreditStatus): (d: U32)
    ensures d <= 3
    ensures d == 0 <==> s == Active
  {
    match s
    case Active => 0
    case Suspended => 1
    case Defaulted => 2
    case Closed => 3
  }

  /** Decodes a stored discriminant; None for anything outside 0..3. */
  function StatusFromDiscriminant(d: U32): (r: Option<CreditStatus>)
    ensures r.Some? <==> d <= 3
  {
    if d == 0 then Some(Active)
    else if d == 1 then Some(Suspended)
    else if d == 2 then Some(Defaulted)
    else if d == 3 then Some(Closed)
    else None
  }

  lemma StatusRoundTrip(s: CreditStatus, d: U32)
    ensures StatusFromDiscriminant(StatusDiscriminant(s)) == Some(s)
    ensures StatusFromDiscriminant(d).Some? ==> StatusDiscriminant(StatusFromDiscriminant(d).value) == d
  {
  }

  // ---------------------------------------------------------------------
  // ContractError
  // ---------------------------------------------------------------------

  datatype ContractError =
    | Unauthorized
    | NotAdmin
    | CreditLineNotFound
    | CreditLineClosed
    | InvalidAmount
    | OverLimit
    | NegativeLimit
    | RateTooHigh
    | ScoreTooHigh
    | UtilizationNotZero
    | Reentrancy
    | Overflow

  /** The `u32` code the host reports as `Error(Contract, #code)`. */
  function ErrorCode(e: ContractError): (c: U32)
    ensures 1 <= c <= 12
  {
    match e
    case Unauthorized => 1
    case NotAdmin => 2
    case CreditLineNotFound => 3
    case CreditLineClosed => 4
    case InvalidAmount => 5
    case OverLimit => 6
    case NegativeLimit => 7
    case RateTooHigh => 8
    case ScoreTooHigh => 9
    case UtilizationNotZero => 10
    case Reentrancy => 11
    case Overflow => 12
  }

  /** Decodes a reported code; None for anything outside 1..12. */
  function ErrorFromCode(c: U32): (r: Option<ContractError>)
    ensures r.Some? <==> 1 <= c <= 12
  {
    if c == 1 then Some(Unauthorized)
    else if c == 2 then Some(NotAdmin)
    else if c == 3 then Some(CreditLineNotFound)
    else if c == 4 then Some(CreditLineClosed)
    else if c == 5 then Some(InvalidAmount)
    else if c == 6 then Some(OverLimit)
    else if c == 7 then Some(NegativeLimit)
    else if c == 8 then Some(RateTooHigh)
    else if c == 9 then Some(ScoreTooHigh)
    else if c == 10 then Some(UtilizationNotZero)
    else if c == 11 then Some(Reentrancy)
    else if c == 12 then Some(Overflow)
    else None
  }

  /** Codes and errors correspond one to one, so a code identifies its error. */
  lemma ErrorCodeRoundTrip(e: ContractError, c: U32)
    ensures ErrorFromCode(ErrorCode(e)) == Some(e)
    ensures ErrorFromCode(c).Some? ==> ErrorCode(ErrorFromCode(c).value) == c
  {
  }

  lemma ErrorCodeInjective(e1: ContractError, e2: ContractError)
    ensures ErrorCode(e1) == ErrorCode(e2) ==> e1 == e2
  {
  }

  // ---------------------------------------------------------------------
  // Stored records
  // ---------------------------------------------------------------------

  /** One borrower's credit line. `lastRateUpdateTs == 0` means that no rate
      update has happened yet. */
  datatype CreditLineData = CreditLineData(
    borrower: Address,
    creditLimit: I128,
    utilizedAmount: I128,
    interestRateBps: U32,
    riskScore: U32,
    status: CreditStatus,
    lastRateUpdateTs: U64)

  /** Bounds on how far and how often the interest rate may change. */
  datatype RateChangeConfig = RateChangeConfig(
    maxRateChangeBps: U32,
    rateChangeMinInterval: U64)

  /** Whether setting the rate from `oldRate` to `newRate` at time `now` keeps
      to `cfg`, for a line whose last rate change was at `lastUpdateTs`.
      Keeping the rate is not a change and is always allowed. A change moves
      the rate by at most `maxRateChangeBps`, and at least
      `rateChangeMinInterval` seconds must have passed since the previous
      change, unless the interval is 0 (window disabled) or there was no
      previous change (`lastUpdateTs == 0`). */
  predicate RateChangeAllowed(cfg: RateChangeConfig, oldRate: U32, newRate: U32, lastUpdateTs: U64, now: U64)
  {
    || oldRate == newRate
    || (&& RateDelta(oldRate, newRate) <= cfg.maxRateChangeBps
        && (cfg.rateChangeMinInterval == 0 || lastUpdateTs == 0 || now - lastUpdateTs >= cfg.rateChangeMinInterval))
  }

  /** Absolute difference of two rates. */
  function RateDelta(a: U32, b: U32): (d: nat)
    ensures d == 0 <==> a == b
    ensures a + d == b || b + d == a
  {
    if a <= b then b - a else a - b
  }

  /** An allowed change never moves the rate by more than the configured bound. */
  lemma AllowedChangeIsBounded(cfg: RateChangeConfig, oldRate: U32, newRate: U32, lastUpdateTs: U64, now: U64)
    requires RateChangeAllowed(cfg, oldRate, newRate, lastUpdateTs, now)
    ensures oldRate - cfg.maxRateChangeBps <= newRate <= oldRate + cfg.maxRateChangeBps
  {
  }

  /** With a zero interval (or before any change) only the delta bound applies,
      whatever the timestamps. */
  lemma WindowDisabled(cfg: RateChangeConfig, oldRate: U32, newRate: U32, lastUpdateTs: U64, now: U64)
    requires cfg.rateChangeMinInterval == 0 || lastUpdateTs == 0
    ensures RateChangeAllowed(cfg, oldRate, newRate, lastUpdateTs, now) <==> RateDelta(oldRate, newRate) <= cfg.maxRateChangeBps
  {
  }

  /** Leaving the rate as it is never counts against the limits. */
  lemma UnchangedRateAllowed(cfg: RateChangeConfig, rate: U32, lastUpdateTs: U64, now: U64)
    ensures RateChangeAllowed(cfg, rate, rate, lastUpdateTs, now)
  {
  }

  /** Within the window, even an in-bound change is refused. */
  lemma TooSoonRefused(cfg: RateChangeConfig, oldRate: U32, newRate: U32, lastUpdateTs: U64, now: U64)
    requires oldRate != newRate
    requires cfg.rateChangeMinInterval > 0 && lastUpdateTs > 0
    requires now - lastUpdateTs < cfg.rateChangeMinInterval
    ensures !RateChangeAllowed(cfg, oldRate, newRate, lastUpdateTs, now)
  {
  }
}
