/** The credit engine as a state machine over one value: the stored lines,
    the admin and token configuration and the reentrancy flag. Each operation
    is a function from the state before a call to the call's result, the
    state after it and the events it published. A failing call is reverted
    by the host: it leaves the whole state unchanged and publishes nothing. */
module CreditLedger {
  import opened CreditTypes
  import opened CreditEvents

  /** Why a call panicked without a contract error code. */
  datatype PanicReason =
    | AuthMissing(who: Address)   // `require_auth` of an address that did not authorise the call
    | LimitNotPositive            // open: credit_limit <= 0
    | RateAboveMax                // open: interest_rate_bps > 10000
    | ScoreAboveMax               // open: risk_score > 100
    | ActiveLineExists            // open: an Active line is already stored
    | AmountNotPositive           // draw: amount <= 0
    | BorrowerMismatch            // draw/repay: stored line names another borrower
    | TokenNotConfigured          // draw: no reserve token was set by init
    | TransferFailed              // draw: the token contract's transfer failed

  datatype Failure = Contract(error: ContractError) | Panic(reason: PanicReason)

  datatype Result<+T> = Ok(value: T) | Err(failure: Failure)

  /** Everything the contract stores: persistent lines keyed by borrower and
      the instance entries admin, token and the reentrancy flag. */
  datatype Ledger = Ledger(
    lines: map<Address, CreditLineData>,
    admin: Option<Address>,
    token: Option<Address>,
    guard: bool)

  /** The outcome of one call. */
  datatype Step = Step(result: Result<()>, post: Ledger, emitted: seq<Event>)

  // ---------------------------------------------------------------------
  // The invariant on stored lines
  // ---------------------------------------------------------------------

  predicate LineValid(key: Address, line: CreditLineData)
  {
    && 0 <= line.utilizedAmount <= line.creditLimit
    && line.interestRateBps <= MAX_INTEREST_RATE_BPS
    && line.riskScore <= MAX_RISK_SCORE
    && line.borrower == key
  }

  predicate Valid(s: Ledger)
  {
    forall b :: b in s.lines ==> LineValid(b, s.lines[b])
  }

  /** Storage of a freshly deployed contract, before `init`. */
  function Deployed(): (s: Ledger)
    ensures Valid(s) && !s.guard && s.admin.None? && s.token.None? && s.lines == map[]
  {
    Ledger(map[], None, None, false)
  }

  /** The host's panic: the call's writes and events are discarded. */
  function Revert(s: Ledger, f: Failure): Step
  {
    Step(Err(f), s, [])
  }

  function Commit(s: Ledger, borrower: Address, line: CreditLineData, emitted: seq<Event>): Step
  {
    Step(Ok(()), s.(lines := s.lines[borrower := line]), emitted)
  }

  /** True when `st` only changed the line stored under `borrower`. */
  predicate OnlyLineChanged(s: Ledger, st: Step, borrower: Address)
  {
    && st.post.admin == s.admin && st.post.token == s.token && st.post.guard == s.guard
    && borrower in st.post.lines
    && st.post.lines.Keys == s.lines.Keys + {borrower}
    && forall k :: k in s.lines && k != borrower ==> st.post.lines[k] == s.lines[k]
  }

  // ---------------------------------------------------------------------
  // Admin helpers
  // ---------------------------------------------------------------------

  /** The stored admin, or NotAdmin when `init` never ran. */
  function RequireAdmin(s: Ledger): (r: Result<Address>)
    ensures r.Ok? <==> s.admin.Some?
    ensures r.Ok? ==> r.value == s.admin.value
    ensures r.Err? ==> r.failure == Contract(NotAdmin)
  {
    match s.admin
    case Some(a) => Ok(a)
    case None => Err(Contract(NotAdmin))
  }

  /** The stored admin, which must also have authorised the call. */
  function RequireAdminAuth(s: Ledger, auth: set<Address>): (r: Result<Address>)
    ensures r.Ok? <==> s.admin.Some? && s.admin.value in auth
    ensures r.Ok? ==> r.value == s.admin.value
    ensures s.admin.None? ==> r == Err(Contract(NotAdmin))
    ensures s.admin.Some? && s.admin.value !in auth ==> r == Err(Panic(AuthMissing(s.admin.value)))
  {
    match RequireAdmin(s)
    case Err(f) => Err(f)
    case Ok(a) => if a in auth then Ok(a) else Err(Panic(AuthMissing(a)))
  }

  // ---------------------------------------------------------------------
  // Operations
  // ---------------------------------------------------------------------

  /** `init`: records admin and token. Nothing prevents a second call. */
  function Init(s: Ledger, admin: Address, token: Address): (st: Step)
    ensures st.result.Ok? && st.emitted == []
    ensures st.post.admin == Some(admin) && st.post.token == Some(token)
    ensures st.post.lines == s.lines && st.post.guard == s.guard
  {
    Step(Ok(()), s.(admin := Some(admin), token := Some(token)), [])
  }

  /** `open_credit_line`. The contract performs no authorisation check. */
  function Open(s: Ledger, borrower: Address, creditLimit: I128, interestRateBps: U32, riskScore: U32): (st: Step)
    ensures st.result.Err? ==> st.post == s && st.emitted == []
    ensures st.result.Ok? <==>
      && creditLimit > 0
      && interestRateBps <= MAX_INTEREST_RATE_BPS
      && riskScore <= MAX_RISK_SCORE
      && (borrower in s.lines ==> s.lines[borrower].status != Active)
    ensures st.result.Ok? ==>
      && OnlyLineChanged(s, st, borrower)
      && st.post.lines[borrower] == CreditLineData(borrower, creditLimit, 0, interestRateBps, riskScore, Active, 0)
      && st.emitted == [CreditLineEvent(OpenedEvent, borrower, Active, creditLimit, interestRateBps, riskScore)]
    ensures Valid(s) ==> Valid(st.post)
  {
    if creditLimit <= 0 then Revert(s, Panic(LimitNotPositive))
    else if interestRateBps > MAX_INTEREST_RATE_BPS then Revert(s, Panic(RateAboveMax))
    else if riskScore > MAX_RISK_SCORE then Revert(s, Panic(ScoreAboveMax))
    else if borrower in s.lines && s.lines[borrower].status == Active then Revert(s, Panic(ActiveLineExists))
    else
      var line := CreditLineData(borrower, creditLimit, 0, interestRateBps, riskScore, Active, 0);
      Commit(s, borrower, line,
             [CreditLineEvent(OpenedEvent, borrower, Active, creditLimit, interestRateBps, riskScore)])
  }

  /** Whether a draw of `amount` passes every check of `draw_credit`. */
  predicate DrawAccepted(s: Ledger, auth: set<Address>, borrower: Address, amount: I128, transferOk: bool)
  {
    && !s.guard
    && borrower in auth
    && amount > 0
    && borrower in s.lines
    && s.lines[borrower].borrower == borrower
    && s.lines[borrower].status == Active
    && s.lines[borrower].utilizedAmount + amount <= I128_MAX
    && s.lines[borrower].utilizedAmount + amount <= s.lines[borrower].creditLimit
    && s.token.Some?
    && transferOk
  }

  /** `draw_credit`. `transferOk` is the outcome of the token contract's
      transfer from the contract's reserve to the borrower. */
  function Draw(s: Ledger, auth: set<Address>, borrower: Address, amount: I128, transferOk: bool): (st: Step)
    ensures st.result.Err? ==> st.post == s && st.emitted == []
    ensures st.result.Ok? <==> DrawAccepted(s, auth, borrower, amount, transferOk)
    ensures st.result.Ok? ==>
      && OnlyLineChanged(s, st, borrower)
      && st.post.lines[borrower] == s.lines[borrower].(utilizedAmount := s.lines[borrower].utilizedAmount + amount)
      && st.emitted == [DrawEvent(borrower, amount, st.post.lines[borrower].utilizedAmount)]
    ensures Valid(s) ==> Valid(st.post)
  {
    if s.guard then Revert(s, Contract(Reentrancy))
    else if borrower !in auth then Revert(s, Panic(AuthMissing(borrower)))
    else if amount <= 0 then Revert(s, Panic(AmountNotPositive))
    else if borrower !in s.lines then Revert(s, Contract(CreditLineNotFound))
    else
      var line := s.lines[borrower];
      if line.borrower != borrower then Revert(s, Panic(BorrowerMismatch))
      else if line.status == Closed then Revert(s, Contract(CreditLineClosed))
      else if line.status != Active then Revert(s, Contract(InvalidAmount))
      else
        match CheckedAdd(line.utilizedAmount, amount)
        case None => Revert(s, Contract(Overflow))
        case Some(newUtilized) =>
          if newUtilized > line.creditLimit then Revert(s, Contract(OverLimit))
          else if s.token.None? then Revert(s, Panic(TokenNotConfigured))
          else if !transferOk then Revert(s, Panic(TransferFailed))
          else Commit(s, borrower, line.(utilizedAmount := newUtilized),
                      [DrawEvent(borrower, amount, newUtilized)])
  }

  /** What `repay_credit` leaves as the utilized amount: the saturating
      difference, floored at zero. */
  function RepaidUtilization(utilized: I128, amount: I128): (r: I128)
    ensures r >= 0
    ensures 0 <= utilized && 0 < amount ==> r == if amount >= utilized then 0 else utilized - amount
  {
    var d := SaturatingSub(utilized, amount);
    if d < 0 then 0 else d
  }

  /** `repay_credit`. `now` is the ledger timestamp put into the event. */
  function Repay(s: Ledger, auth: set<Address>, borrower: Address, amount: I128, now: U64): (st: Step)
    ensures st.result.Err? ==> st.post == s && st.emitted == []
    ensures st.result.Ok? <==>
      && !s.guard
      && borrower in auth
      && borrower in s.lines
      && s.lines[borrower].borrower == borrower
      && s.lines[borrower].status != Closed
      && amount > 0
    ensures st.result.Ok? ==>
      && OnlyLineChanged(s, st, borrower)
      && st.post.lines[borrower] == s.lines[borrower].(utilizedAmount := RepaidUtilization(s.lines[borrower].utilizedAmount, amount))
      && st.emitted == [RepaymentEvent(borrower, amount, st.post.lines[borrower].utilizedAmount, now)]
    ensures Valid(s) ==> Valid(st.post)
  {
    if s.guard then Revert(s, Contract(Reentrancy))
    else if borrower !in auth then Revert(s, Panic(AuthMissing(borrower)))
    else if borrower !in s.lines then Revert(s, Contract(CreditLineNotFound))
    else
      var line := s.lines[borrower];
      if line.borrower != borrower then Revert(s, Panic(BorrowerMismatch))
      else if line.status == Closed then Revert(s, Contract(CreditLineClosed))
      else if amount <= 0 then Revert(s, Contract(InvalidAmount))
      else
        var newUtilized := RepaidUtilization(line.utilizedAmount, amount);
        Commit(s, borrower, line.(utilizedAmount := newUtilized),
               [RepaymentEvent(borrower, amount, newUtilized, now)])
  }

  /** `update_risk_parameters` (admin only). */
  function UpdateRiskParameters(s: Ledger, auth: set<Address>, borrower: Address,
                                creditLimit: I128, interestRateBps: U32, riskScore: U32): (st: Step)
    ensures st.result.Err? ==> st.post == s && st.emitted == []
    ensures st.result.Ok? <==>
      && RequireAdminAuth(s, auth).Ok?
      && borrower in s.lines
      && 0 <= creditLimit
      && s.lines[borrower].utilizedAmount <= creditLimit
      && interestRateBps <= MAX_INTEREST_RATE_BPS
      && riskScore <= MAX_RISK_SCORE
    ensures st.result.Ok? ==>
      && OnlyLineChanged(s, st, borrower)
      && st.post.lines[borrower] == s.lines[borrower].(creditLimit := creditLimit,
                                                      interestRateBps := interestRateBps,
                                                      riskScore := riskScore)
      && st.emitted == [RiskParametersUpdatedEvent(borrower, creditLimit, interestRateBps, riskScore)]
    ensures Valid(s) ==> Valid(st.post)
  {
    match RequireAdminAuth(s, auth)
    case Err(f) => Revert(s, f)
    case Ok(_) =>
      if borrower !in s.lines then Revert(s, Contract(CreditLineNotFound))
      else
        var line := s.lines[borrower];
        if creditLimit < 0 then Revert(s, Contract(NegativeLimit))
        else if creditLimit < line.utilizedAmount then Revert(s, Contract(OverLimit))
        else if interestRateBps > MAX_INTEREST_RATE_BPS then Revert(s, Contract(RateTooHigh))
        else if riskScore > MAX_RISK_SCORE then Revert(s, Contract(ScoreTooHigh))
        else Commit(s, borrower,
                    line.(creditLimit := creditLimit, interestRateBps := interestRateBps, riskScore := riskScore),
                    [RiskParametersUpdatedEvent(borrower, creditLimit, interestRateBps, riskScore)])
  }

  /** The shared shape of `suspend_credit_line` and `default_credit_line`:
      admin only, then set `status` whatever the line's prior status. */
  function AdminSetStatus(s: Ledger, auth: set<Address>, borrower: Address,
                          status: CreditStatus, eventType: LineEventType): (st: Step)
    ensures st.result.Err? ==> st.post == s && st.emitted == []
    ensures st.result.Ok? <==> RequireAdminAuth(s, auth).Ok? && borrower in s.lines
    ensures RequireAdminAuth(s, auth).Err? ==> st.result == Err(RequireAdminAuth(s, auth).failure)
    ensures RequireAdminAuth(s, auth).Ok? && borrower !in s.lines ==> st.result == Err(Contract(CreditLineNotFound))
    ensures st.result.Ok? ==>
      && OnlyLineChanged(s, st, borrower)
      && st.post.lines[borrower] == s.lines[borrower].(status := status)
      && st.emitted == [CreditLineEvent(eventType, borrower, status, s.lines[borrower].creditLimit,
                                        s.lines[borrower].interestRateBps, s.lines[borrower].riskScore)]
    ensures Valid(s) ==> Valid(st.post)
  {
    match RequireAdminAuth(s, auth)
    case Err(f) => Revert(s, f)
    case Ok(_) =>
      if borrower !in s.lines then Revert(s, Contract(CreditLineNotFound))
      else
        var line := s.lines[borrower].(status := status);
        Commit(s, borrower, line,
               [CreditLineEvent(eventType, borrower, status, line.creditLimit, line.interestRateBps, line.riskScore)])
  }

  /** `suspend_credit_line` (admin only). */
  function Suspend(s: Ledger, auth: set<Address>, borrower: Address): (st: Step)
    ensures st.result.Err? ==> st.post == s && st.emitted == []
    ensures st.result.Ok? <==> RequireAdminAuth(s, auth).Ok? && borrower in s.lines
    ensures RequireAdminAuth(s, auth).Err? ==> st.result == Err(RequireAdminAuth(s, auth).failure)
    ensures RequireAdminAuth(s, auth).Ok? && borrower !in s.lines ==> st.result == Err(Contract(CreditLineNotFound))
    ensures st.result.Ok? ==>
      && OnlyLineChanged(s, st, borrower)
      && st.post.lines[borrower] == s.lines[borrower].(status := Suspended)
      && st.emitted == [CreditLineEvent(SuspendEvent, borrower, Suspended, s.lines[borrower].creditLimit,
                                        s.lines[borrower].interestRateBps, s.lines[borrower].riskScore)]
    ensures Valid(s) ==> Valid(st.post)
  {
    AdminSetStatus(s, auth, borrower, Suspended, SuspendEvent)
  }

  /** `default_credit_line` (admin only). */
  function MarkDefaulted(s: Ledger, auth: set<Address>, borrower: Address): (st: Step)
    ensures st.result.Err? ==> st.post == s && st.emitted == []
    ensures st.result.Ok? <==> RequireAdminAuth(s, auth).Ok? && borrower in s.lines
    ensures RequireAdminAuth(s, auth).Err? ==> st.result == Err(RequireAdminAuth(s, auth).failure)
    ensures RequireAdminAuth(s, auth).Ok? && borrower !in s.lines ==> st.result == Err(Contract(CreditLineNotFound))
    ensures st.result.Ok? ==>
      && OnlyLineChanged(s, st, borrower)
      && st.post.lines[borrower] == s.lines[borrower].(status := Defaulted)
      && st.emitted == [CreditLineEvent(DefaultEvent, borrower, Defaulted, s.lines[borrower].creditLimit,
                                        s.lines[borrower].interestRateBps, s.lines[borrower].riskScore)]
    ensures Valid(s) ==> Valid(st.post)
  {
    AdminSetStatus(s, auth, borrower, Defaulted, DefaultEvent)
  }

  /** `close_credit_line`: `closer` must have authorised the call and must be
      the admin, or the borrower of a line with nothing drawn. Closing a
      Closed line succeeds without change or event. */
  function Close(s: Ledger, auth: set<Address>, borrower: Address, closer: Address): (st: Step)
    ensures st.result.Err? ==> st.post == s && st.emitted == []
    ensures st.result.Ok? <==>
      && closer in auth
      && s.admin.Some?
      && borrower in s.lines
      && (|| s.lines[borrower].status == Closed
          || closer == s.admin.value
          || (closer == borrower && s.lines[borrower].utilizedAmount == 0))
    ensures closer !in auth ==> st.result == Err(Panic(AuthMissing(closer)))
    ensures closer in auth && s.admin.None? ==> st.result == Err(Contract(NotAdmin))
    ensures closer in auth && s.admin.Some? && borrower !in s.lines ==> st.result == Err(Contract(CreditLineNotFound))
    ensures st.result.Ok? ==>
      && OnlyLineChanged(s, st, borrower)
      && st.post.lines[borrower] == s.lines[borrower].(status := Closed)
      && st.emitted == if s.lines[borrower].status == Closed then []
                       else [CreditLineEvent(ClosedEvent, borrower, Closed, s.lines[borrower].creditLimit,
                                             s.lines[borrower].interestRateBps, s.lines[borrower].riskScore)]
    ensures Valid(s) ==> Valid(st.post)
  {
    if closer !in auth then Revert(s, Panic(AuthMissing(closer)))
    else
      match RequireAdmin(s)
      case Err(f) => Revert(s, f)
      case Ok(admin) =>
        if borrower !in s.lines then Revert(s, Contract(CreditLineNotFound))
        else
          var line := s.lines[borrower];
          if line.status == Closed then Step(Ok(()), s, [])
          else
            var allowed := closer == admin || (closer == borrower && line.utilizedAmount == 0);
            if !allowed then
              if closer == borrower then Revert(s, Contract(UtilizationNotZero))
              else Revert(s, Contract(Unauthorized))
            else
              var closed := line.(status := Closed);
              Commit(s, borrower, closed,
                     [CreditLineEvent(ClosedEvent, borrower, Closed, closed.creditLimit, closed.interestRateBps, closed.riskScore)])
  }

  // ---------------------------------------------------------------------
  // Calls delivered one after another by the host
  // ---------------------------------------------------------------------

  /** One invocation of a state-changing entry point, with the host's inputs:
      the set of addresses that authorised it, the ledger time and the
      outcome of the token transfer. */
  datatype Invocation =
    | InitCall(admin: Address, token: Address)
    | OpenCall(borrower: Address, creditLimit: I128, interestRateBps: U32, riskScore: U32)
    | DrawCall(auth: set<Address>, borrower: Address, amount: I128, transferOk: bool)
    | RepayCall(auth: set<Address>, borrower: Address, amount: I128, now: U64)
    | UpdateCall(auth: set<Address>, borrower: Address, creditLimit: I128, interestRateBps: U32, riskScore: U32)
    | SuspendCall(auth: set<Address>, borrower: Address)
    | CloseCall(auth: set<Address>, borrower: Address, closer: Address)
    | DefaultCall(auth: set<Address>, borrower: Address)

  function Apply(s: Ledger, inv: Invocation): (st: Step)
    ensures st.result.Err? ==> st.post == s && st.emitted == []
    ensures Valid(s) ==> Valid(st.post)
    ensures st.post.guard == s.guard
  {
    match inv
    case InitCall(a, t) => Init(s, a, t)
    case OpenCall(b, l, r, k) => Open(s, b, l, r, k)
    case DrawCall(au, b, x, ok) => Draw(s, au, b, x, ok)
    case RepayCall(au, b, x, now) => Repay(s, au, b, x, now)
    case UpdateCall(au, b, l, r, k) => UpdateRiskParameters(s, au, b, l, r, k)
    case SuspendCall(au, b) => Suspend(s, au, b)
    case CloseCall(au, b, c) => Close(s, au, b, c)
    case DefaultCall(au, b) => MarkDefaulted(s, au, b)
  }

  /** The state after a sequence of complete calls. */
  function Run(s: Ledger, invs: seq<Invocation>): Ledger
    decreases |invs|
  {
    if invs == [] then s else Run(Apply(s, invs[0]).post, invs[1..])
  }
}
