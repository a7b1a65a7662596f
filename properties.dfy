/** Properties of the credit engine, stated over the step functions of
    CreditLedger (and so, by the methods' postconditions, over the Credit
    object as well). */
module CreditProperties {
  import opened CreditTypes
  import opened CreditEvents
  import opened CreditLedger

  // ---------------------------------------------------------------------
  // Global invariant and the reentrancy flag over any sequence of calls
  // ---------------------------------------------------------------------

  /** Every sequence of complete calls keeps `0 <= utilized <= limit`,
      `rate <= 10000`, `score <= 100` and `borrower == key` on every line. */
  lemma {:induction false} RunPreservesValid(s: Ledger, invs: seq<Invocation>)
    requires Valid(s)
    ensures Valid(Run(s, invs))
    decreases |invs|
  {
    if invs != [] {
      RunPreservesValid(Apply(s, invs[0]).post, invs[1..]);
    }
  }

  /** No complete call leaves the reentrancy flag other than it found it:
      starting clear, it is clear between any two calls. At this level the
      fact holds by construction, because no step function writes `guard`;
      the lemma only lifts it over a sequence of calls. That `draw_credit`
      and `repay_credit` release the flag on every path after setting it is
      proved by the `guard == old(guard)` postconditions of
      `Credit.DrawCredit` and `Credit.RepayCredit`. */
  lemma {:induction false} RunKeepsGuard(s: Ledger, invs: seq<Invocation>)
    ensures Run(s, invs).guard == s.guard
    decreases |invs|
  {
    if invs != [] {
      RunKeepsGuard(Apply(s, invs[0]).post, invs[1..]);
    }
  }

  /** Whatever a freshly deployed contract is asked to do, its lines satisfy
      the invariant and the flag is clear afterwards. */
  lemma ReachableStatesValid(invs: seq<Invocation>)
    ensures Valid(Run(Deployed(), invs))
    ensures !Run(Deployed(), invs).guard
  {
    RunPreservesValid(Deployed(), invs);
    RunKeepsGuard(Deployed(), invs);
  }

  /** The borrower a call is about, if any. */
  function Target(inv: Invocation): Option<Address>
  {
    match inv
    case InitCall(_, _) => None
    case OpenCall(b, _, _, _) => Some(b)
    case DrawCall(_, b, _, _) => Some(b)
    case RepayCall(_, b, _, _) => Some(b)
    case UpdateCall(_, b, _, _, _) => Some(b)
    case SuspendCall(_, b) => Some(b)
    case CloseCall(_, b, _) => Some(b)
    case DefaultCall(_, b) => Some(b)
  }

  /** Lines of different borrowers are independent: a call changes at most
      the line of the borrower it names, and never removes a line. */
  lemma ApplyIsolated(s: Ledger, inv: Invocation, k: Address)
    requires k in s.lines
    requires Target(inv) != Some(k)
    ensures k in Apply(s, inv).post.lines
    ensures Apply(s, inv).post.lines[k] == s.lines[k]
  {
  }

  /** In a valid state the "borrower mismatch" panic cannot happen. */
  lemma NoBorrowerMismatch(s: Ledger, auth: set<Address>, b: Address, amount: I128, ok: bool, now: U64)
    requires Valid(s)
    ensures Draw(s, auth, b, amount, ok).result != Err(Panic(BorrowerMismatch))
    ensures Repay(s, auth, b, amount, now).result != Err(Panic(BorrowerMismatch))
  {
  }

  // ---------------------------------------------------------------------
  // open_credit_line
  // ---------------------------------------------------------------------

  /** The failure `open_credit_line` reports, checked in the source's order. */
  lemma OpenFailures(s: Ledger, b: Address, limit: I128, rate: U32, score: U32)
    ensures limit <= 0 ==> Open(s, b, limit, rate, score).result == Err(Panic(LimitNotPositive))
    ensures limit > 0 && rate > MAX_INTEREST_RATE_BPS ==> Open(s, b, limit, rate, score).result == Err(Panic(RateAboveMax))
    ensures limit > 0 && rate <= MAX_INTEREST_RATE_BPS && score > MAX_RISK_SCORE ==>
      Open(s, b, limit, rate, score).result == Err(Panic(ScoreAboveMax))
    ensures limit > 0 && rate <= MAX_INTEREST_RATE_BPS && score <= MAX_RISK_SCORE
            && b in s.lines && s.lines[b].status == Active ==>
      Open(s, b, limit, rate, score).result == Err(Panic(ActiveLineExists))
  {
  }

  /** A Suspended, Defaulted or Closed line is replaced by a fresh Active one
      with nothing drawn, whatever it held before. */
  lemma OpenReplacesInactive(s: Ledger, b: Address, limit: I128, rate: U32, score: U32)
    requires b in s.lines && s.lines[b].status != Active
    requires limit > 0 && rate <= MAX_INTEREST_RATE_BPS && score <= MAX_RISK_SCORE
    ensures Open(s, b, limit, rate, score).result.Ok?
    ensures Open(s, b, limit, rate, score).post.lines[b] == CreditLineData(b, limit, 0, rate, score, Active, 0)
  {
  }

  // ---------------------------------------------------------------------
  // draw_credit
  // ---------------------------------------------------------------------

  /** The failure `draw_credit` reports, checked in the source's order once
      the flag is clear and the borrower authorised the call. */
  lemma DrawFailures(s: Ledger, auth: set<Address>, b: Address, amount: I128, ok: bool)
    requires Valid(s) && !s.guard && b in auth
    ensures amount <= 0 ==> Draw(s, auth, b, amount, ok).result == Err(Panic(AmountNotPositive))
    ensures amount > 0 && b !in s.lines ==> Draw(s, auth, b, amount, ok).result == Err(Contract(CreditLineNotFound))
    ensures amount > 0 && b in s.lines && s.lines[b].status == Closed ==>
      Draw(s, auth, b, amount, ok).result == Err(Contract(CreditLineClosed))
    ensures b in s.lines && s.lines[b].status in {Suspended, Defaulted} ==>
      Draw(s, auth, b, amount, ok).result.Err?
    ensures amount > 0 && b in s.lines && s.lines[b].status == Active
            && s.lines[b].utilizedAmount + amount > I128_MAX ==>
      Draw(s, auth, b, amount, ok).result == Err(Contract(Overflow))
    ensures amount > 0 && b in s.lines && s.lines[b].status == Active
            && s.lines[b].utilizedAmount + amount <= I128_MAX
            && s.lines[b].utilizedAmount + amount > s.lines[b].creditLimit ==>
      Draw(s, auth, b, amount, ok).result == Err(Contract(OverLimit))
  {
  }

  /** Drawing exactly the remaining headroom succeeds and uses the whole limit. */
  lemma DrawUpToLimit(s: Ledger, auth: set<Address>, b: Address)
    requires Valid(s) && !s.guard && b in auth && s.token.Some?
    requires b in s.lines && s.lines[b].status == Active
    requires s.lines[b].utilizedAmount < s.lines[b].creditLimit
    ensures var amount := s.lines[b].creditLimit - s.lines[b].utilizedAmount;
      && Draw(s, auth, b, amount, true).result.Ok?
      && Draw(s, auth, b, amount, true).post.lines[b].utilizedAmount == s.lines[b].creditLimit
  {
  }

  // ---------------------------------------------------------------------
  // repay_credit
  // ---------------------------------------------------------------------

  /** The failure `repay_credit` reports: the Closed check precedes the
      amount check. */
  lemma RepayFailures(s: Ledger, auth: set<Address>, b: Address, amount: I128, now: U64)
    requires Valid(s) && !s.guard && b in auth
    ensures b !in s.lines ==> Repay(s, auth, b, amount, now).result == Err(Contract(CreditLineNotFound))
    ensures b in s.lines && s.lines[b].status == Closed ==>
      Repay(s, auth, b, amount, now).result == Err(Contract(CreditLineClosed))
    ensures b in s.lines && s.lines[b].status != Closed && amount <= 0 ==>
      Repay(s, auth, b, amount, now).result == Err(Contract(InvalidAmount))
  {
  }

  /** An accepted repayment floors the utilized amount at zero, so an
      overpayment clears the debt, and leaves the status as it was. */
  lemma RepayEffect(s: Ledger, auth: set<Address>, b: Address, amount: I128, now: U64)
    requires Valid(s)
    requires Repay(s, auth, b, amount, now).result.Ok?
    ensures var line := Repay(s, auth, b, amount, now).post.lines[b];
      && line.status == s.lines[b].status
      && (amount >= s.lines[b].utilizedAmount ==> line.utilizedAmount == 0)
      && (amount < s.lines[b].utilizedAmount ==> line.utilizedAmount == s.lines[b].utilizedAmount - amount)
  {
  }

  /** A draw followed by the repayment of the same amount restores the whole
      stored state exactly. */
  lemma DrawThenRepayRestores(s: Ledger, auth: set<Address>, b: Address, amount: I128, now: U64)
    requires Valid(s)
    requires Draw(s, auth, b, amount, true).result.Ok?
    ensures var mid := Draw(s, auth, b, amount, true).post;
      && Repay(mid, auth, b, amount, now).result.Ok?
      && Repay(mid, auth, b, amount, now).post == s
  {
  }

  // ---------------------------------------------------------------------
  // Reentrancy
  // ---------------------------------------------------------------------

  /** Whenever the flag is set, draw and repay fail with Reentrancy before any
      other check and change nothing, whoever calls and with whatever amount. */
  lemma ReentrantCallRefused(s: Ledger, auth: set<Address>, b: Address, amount: I128, ok: bool, now: U64)
    requires s.guard
    ensures Draw(s, auth, b, amount, ok).result == Err(Contract(Reentrancy))
    ensures Draw(s, auth, b, amount, ok).post == s && Draw(s, auth, b, amount, ok).emitted == []
    ensures Repay(s, auth, b, amount, now).result == Err(Contract(Reentrancy))
    ensures Repay(s, auth, b, amount, now).post == s && Repay(s, auth, b, amount, now).emitted == []
  {
  }

  /** While a draw is in flight (its line written, the flag still set) a call
      back into draw or repay fails with Reentrancy and changes nothing; once
      the outer draw completes the flag is clear again, so the next call is
      not refused as reentrant. */
  lemma NestedCallsRefused(s: Ledger, auth: set<Address>, b: Address, amount: I128,
                           auth2: set<Address>, b2: Address, amount2: I128, ok2: bool, now: U64)
    requires Draw(s, auth, b, amount, true).result.Ok?
    ensures var done := Draw(s, auth, b, amount, true).post;
      var inFlight := done.(guard := true);
      && Draw(inFlight, auth2, b2, amount2, ok2).result == Err(Contract(Reentrancy))
      && Draw(inFlight, auth2, b2, amount2, ok2).post == inFlight
      && Repay(inFlight, auth2, b2, amount2, now).result == Err(Contract(Reentrancy))
      && Repay(inFlight, auth2, b2, amount2, now).post == inFlight
      && !done.guard
      && Draw(done, auth2, b2, amount2, ok2).result != Err(Contract(Reentrancy))
      && Repay(done, auth2, b2, amount2, now).result != Err(Contract(Reentrancy))
  {
  }

  /** Two back-to-back draws both succeed and add up (lib.rs test of the
      cleared flag): 100 then 100 on a fresh line of 1000 leaves 200 drawn. */
  lemma BackToBackDraws(admin: Address, tok: Address, b: Address)
    ensures var invs := [InitCall(admin, tok), OpenCall(b, 1000, 300, 70),
                         DrawCall({b}, b, 100, true), DrawCall({b}, b, 100, true)];
      var s := Run(Deployed(), invs);
      && b in s.lines
      && s.lines[b].utilizedAmount == 200
      && !s.guard
  {
    var s0 := Deployed();
    var s1 := Apply(s0, InitCall(admin, tok)).post;
    var s2 := Apply(s1, OpenCall(b, 1000, 300, 70)).post;
    assert s2.lines[b].utilizedAmount == 0 && s2.token.Some?;
    var s3 := Apply(s2, DrawCall({b}, b, 100, true)).post;
    assert s3.lines[b].utilizedAmount == 100;
    var s4 := Apply(s3, DrawCall({b}, b, 100, true)).post;
    assert s4.lines[b].utilizedAmount == 200;
    var invs := [InitCall(admin, tok), OpenCall(b, 1000, 300, 70),
                 DrawCall({b}, b, 100, true), DrawCall({b}, b, 100, true)];
    assert invs[1..][1..][1..][1..] == [];
    assert Run(s4, []) == s4;
    assert Run(Deployed(), invs) == Run(s1, invs[1..]) == Run(s2, invs[1..][1..])
        == Run(s3, invs[1..][1..][1..]) == Run(s4, invs[1..][1..][1..][1..]);
  }

  // ---------------------------------------------------------------------
  // update_risk_parameters
  // ---------------------------------------------------------------------

  /** The failure `update_risk_parameters` reports, in the source's order:
      NotAdmin, NotFound, NegativeLimit, OverLimit, RateTooHigh, ScoreTooHigh. */
  lemma UpdateFailures(s: Ledger, auth: set<Address>, b: Address, limit: I128, rate: U32, score: U32)
    ensures s.admin.None? ==> UpdateRiskParameters(s, auth, b, limit, rate, score).result == Err(Contract(NotAdmin))
    ensures RequireAdminAuth(s, auth).Ok? && b !in s.lines ==>
      UpdateRiskParameters(s, auth, b, limit, rate, score).result == Err(Contract(CreditLineNotFound))
    ensures RequireAdminAuth(s, auth).Ok? && b in s.lines && limit < 0 ==>
      UpdateRiskParameters(s, auth, b, limit, rate, score).result == Err(Contract(NegativeLimit))
    ensures RequireAdminAuth(s, auth).Ok? && b in s.lines && 0 <= limit < s.lines[b].utilizedAmount ==>
      UpdateRiskParameters(s, auth, b, limit, rate, score).result == Err(Contract(OverLimit))
    ensures RequireAdminAuth(s, auth).Ok? && b in s.lines && 0 <= limit && s.lines[b].utilizedAmount <= limit
            && rate > MAX_INTEREST_RATE_BPS ==>
      UpdateRiskParameters(s, auth, b, limit, rate, score).result == Err(Contract(RateTooHigh))
    ensures RequireAdminAuth(s, auth).Ok? && b in s.lines && 0 <= limit && s.lines[b].utilizedAmount <= limit
            && rate <= MAX_INTEREST_RATE_BPS && score > MAX_RISK_SCORE ==>
      UpdateRiskParameters(s, auth, b, limit, rate, score).result == Err(Contract(ScoreTooHigh))
  {
  }

  /** An accepted update, on a line of any status, changes limit, rate and
      score only: utilization, status and the rate timestamp are untouched. */
  lemma UpdateKeepsBalanceAndStatus(s: Ledger, auth: set<Address>, b: Address, limit: I128, rate: U32, score: U32)
    requires UpdateRiskParameters(s, auth, b, limit, rate, score).result.Ok?
    ensures var line := UpdateRiskParameters(s, auth, b, limit, rate, score).post.lines[b];
      && line.utilizedAmount == s.lines[b].utilizedAmount
      && line.status == s.lines[b].status
      && line.lastRateUpdateTs == s.lines[b].lastRateUpdateTs
      && line.creditLimit == limit && line.interestRateBps == rate && line.riskScore == score
  {
  }

  // ---------------------------------------------------------------------
  // suspend / default / close
  // ---------------------------------------------------------------------

  /** Suspend and default need the admin, then an existing line; they set
      their status from any prior status and leave every other field. */
  lemma AdminStatusChanges(s: Ledger, auth: set<Address>, b: Address)
    ensures s.admin.None? ==> Suspend(s, auth, b).result == Err(Contract(NotAdmin))
    ensures s.admin.None? ==> MarkDefaulted(s, auth, b).result == Err(Contract(NotAdmin))
    ensures RequireAdminAuth(s, auth).Ok? && b !in s.lines ==>
      && Suspend(s, auth, b).result == Err(Contract(CreditLineNotFound))
      && MarkDefaulted(s, auth, b).result == Err(Contract(CreditLineNotFound))
    ensures RequireAdminAuth(s, auth).Ok? && b in s.lines ==>
      && Suspend(s, auth, b).result.Ok?
      && Suspend(s, auth, b).post.lines[b] == s.lines[b].(status := Suspended)
      && MarkDefaulted(s, auth, b).result.Ok?
      && MarkDefaulted(s, auth, b).post.lines[b] == s.lines[b].(status := Defaulted)
  {
  }

  /** The rules of `close_credit_line` once the closer authorised the call,
      an admin is set and the line exists. */
  lemma CloseRules(s: Ledger, auth: set<Address>, b: Address, closer: Address)
    requires closer in auth && s.admin.Some? && b in s.lines
    // an already-Closed line: success, no change, no event, whoever asks
    ensures s.lines[b].status == Closed ==>
      && Close(s, auth, b, closer).result.Ok?
      && Close(s, auth, b, closer).post == s
      && Close(s, auth, b, closer).emitted == []
    // the admin closes at any utilization, which is preserved
    ensures s.lines[b].status != Closed && closer == s.admin.value ==>
      && Close(s, auth, b, closer).result.Ok?
      && Close(s, auth, b, closer).post.lines[b].status == Closed
      && Close(s, auth, b, closer).post.lines[b].utilizedAmount == s.lines[b].utilizedAmount
    // the borrower only with nothing drawn
    ensures s.lines[b].status != Closed && closer == b && closer != s.admin.value ==>
      Close(s, auth, b, closer).result ==
        if s.lines[b].utilizedAmount == 0 then Ok(()) else Err(Contract(UtilizationNotZero))
    // anyone else
    ensures s.lines[b].status != Closed && closer != b && closer != s.admin.value ==>
      Close(s, auth, b, closer).result == Err(Contract(Unauthorized))
  {
  }

  /** Closing twice is the same as closing once. */
  lemma CloseIdempotent(s: Ledger, auth: set<Address>, b: Address, closer: Address)
    requires Close(s, auth, b, closer).result.Ok?
    ensures var once := Close(s, auth, b, closer).post;
      && Close(once, auth, b, closer).result.Ok?
      && Close(once, auth, b, closer).post == once
      && Close(once, auth, b, closer).emitted == []
  {
  }

  // ---------------------------------------------------------------------
  // A worked example
  // ---------------------------------------------------------------------

  /** Opening a line of 5000 at 300 bps with risk 75 stores exactly those
      values, Active, with nothing drawn and no rate update recorded. */
  lemma OpenExample(s: Ledger, b: Address)
    requires b !in s.lines
    ensures Open(s, b, 5000, 300, 75).result.Ok?
    ensures Open(s, b, 5000, 300, 75).post.lines[b] == CreditLineData(b, 5000, 0, 300, 75, Active, 0)
  {
  }
}
