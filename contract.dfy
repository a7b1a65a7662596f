/** The contract's entry points as methods of one object whose fields are its
    storage. Each method follows the source step by step: it loads a line into
    a local, checks it, changes the local and writes it back. A failure is a
    host panic, which discards every write the call made; where a write has
    already happened, the method undoes it explicitly before returning. Each
    method is proved to agree with the matching step function of CreditLedger,
    whose lemmas in CreditProperties then apply to the object. */
module CreditContract {
  import opened CreditTypes
  import opened CreditEvents
  import opened CreditLedger

  class Credit {
    /** Persistent storage: one line per borrower. */
    var lines: map<Address, CreditLineData>
    /** Instance storage entries. */
    var admin: Option<Address>
    var token: Option<Address>
    var guard: bool
    /** Published events, in order. */
    ghost var events: seq<Event>

    function State(): Ledger
      reads this
    {
      Ledger(lines, admin, token, guard)
    }

    ghost predicate Valid()
      reads this
    {
      CreditLedger.Valid(State())
    }

    /** A freshly deployed contract: empty storage. */
    constructor ()
      ensures State() == Deployed() && events == []
    {
      lines := map[];
      admin := None;
      token := None;
      guard := false;
      events := [];
    }

    // -------------------------------------------------------------------
    // Reentrancy flag
    // -------------------------------------------------------------------

    /** Fails with Reentrancy when the flag is already set; sets it otherwise. */
    method SetReentrancyGuard() returns (r: Result<()>)
      modifies this`guard
      ensures r.Err? <==> old(guard)
      ensures r.Err? ==> r.failure == Contract(Reentrancy)
      ensures guard
    {
      var current := guard;
      if current {
        return Err(Contract(Reentrancy));
      }
      guard := true;
      r := Ok(());
    }

    method ClearReentrancyGuard()
      modifies this`guard
      ensures !guard
    {
      guard := false;
    }

    // -------------------------------------------------------------------
    // Entry points
    // -------------------------------------------------------------------

    method Init(newAdmin: Address, newToken: Address)
      modifies this
      ensures var st := CreditLedger.Init(old(State()), newAdmin, newToken);
        State() == st.post && events == old(events) + st.emitted
      ensures old(Valid()) ==> Valid()
    {
      admin := Some(newAdmin);
      token := Some(newToken);
    }

    method OpenCreditLine(borrower: Address, creditLimit: I128, interestRateBps: U32, riskScore: U32)
      returns (r: Result<()>)
      modifies this
      ensures var st := Open(old(State()), borrower, creditLimit, interestRateBps, riskScore);
        r == st.result && State() == st.post && events == old(events) + st.emitted
      ensures old(Valid()) ==> Valid()
    {
      if creditLimit <= 0 {
        return Err(Panic(LimitNotPositive));
      }
      if interestRateBps > MAX_INTEREST_RATE_BPS {
        return Err(Panic(RateAboveMax));
      }
      if riskScore > MAX_RISK_SCORE {
        return Err(Panic(ScoreAboveMax));
      }
      if borrower in lines {
        var existing := lines[borrower];
        if existing.status == Active {
          return Err(Panic(ActiveLineExists));
        }
      }
      var line := CreditLineData(borrower, creditLimit, 0, interestRateBps, riskScore, Active, 0);
      lines := lines[borrower := line];
      events := events + [CreditLineEvent(OpenedEvent, borrower, Active, creditLimit, interestRateBps, riskScore)];
      r := Ok(());
    }

    /** `transferOk` is the outcome of the token transfer to the borrower. */
    method DrawCredit(auth: set<Address>, borrower: Address, amount: I128, transferOk: bool)
      returns (r: Result<()>)
      modifies this
      ensures var st := Draw(old(State()), auth, borrower, amount, transferOk);
        r == st.result && State() == st.post && events == old(events) + st.emitted
      ensures old(Valid()) ==> Valid()
      ensures guard == old(guard)
    {
      r := SetReentrancyGuard();
      if r.Err? {
        return;
      }
      // From here on every failure is a panic after the flag was set: the host
      // rolls the flag back to its old value, false, as clearing does.
      if borrower !in auth {
        ClearReentrancyGuard();
        return Err(Panic(AuthMissing(borrower)));
      }
      if amount <= 0 {
        ClearReentrancyGuard();
        return Err(Panic(AmountNotPositive));
      }
      if borrower !in lines {
        ClearReentrancyGuard();
        return Err(Contract(CreditLineNotFound));
      }
      var line := lines[borrower];
      if line.borrower != borrower {
        ClearReentrancyGuard();
        return Err(Panic(BorrowerMismatch));
      }
      if line.status == Closed {
        ClearReentrancyGuard();
        return Err(Contract(CreditLineClosed));
      }
      if line.status != Active {
        ClearReentrancyGuard();
        return Err(Contract(InvalidAmount));
      }
      var sum := CheckedAdd(line.utilizedAmount, amount);
      if sum.None? {
        ClearReentrancyGuard();
        return Err(Contract(Overflow));
      }
      var newUtilized := sum.value;
      if newUtilized > line.creditLimit {
        ClearReentrancyGuard();
        return Err(Contract(OverLimit));
      }
      // Checks-effects-interactions: the line is written before the transfer.
      var before := lines;
      line := line.(utilizedAmount := newUtilized);
      lines := lines[borrower := line];
      if token.None? {
        lines := before;
        ClearReentrancyGuard();
        return Err(Panic(TokenNotConfigured));
      }
      if !transferOk {
        lines := before;
        ClearReentrancyGuard();
        return Err(Panic(TransferFailed));
      }
      ClearReentrancyGuard();
      events := events + [DrawEvent(borrower, amount, newUtilized)];
      r := Ok(());
    }

    /** `now` is the ledger timestamp reported in the repayment event. */
    method RepayCredit(auth: set<Address>, borrower: Address, amount: I128, now: U64)
      returns (r: Result<()>)
      modifies this
      ensures var st := Repay(old(State()), auth, borrower, amount, now);
        r == st.result && State() == st.post && events == old(events) + st.emitted
      ensures old(Valid()) ==> Valid()
      ensures guard == old(guard)
    {
      r := SetReentrancyGuard();
      if r.Err? {
        return;
      }
      if borrower !in auth {
        ClearReentrancyGuard();
        return Err(Panic(AuthMissing(borrower)));
      }
      if borrower !in lines {
        ClearReentrancyGuard();
        return Err(Contract(CreditLineNotFound));
      }
      var line := lines[borrower];
      if line.borrower != borrower {
        ClearReentrancyGuard();
        return Err(Panic(BorrowerMismatch));
      }
      if line.status == Closed {
        ClearReentrancyGuard();
        return Err(Contract(CreditLineClosed));
      }
      if amount <= 0 {
        ClearReentrancyGuard();
        return Err(Contract(InvalidAmount));
      }
      var newUtilized := SaturatingSub(line.utilizedAmount, amount);
      if newUtilized < 0 {
        newUtilized := 0;
      }
      line := line.(utilizedAmount := newUtilized);
      lines := lines[borrower := line];
      events := events + [RepaymentEvent(borrower, amount, newUtilized, now)];
      ClearReentrancyGuard();
      r := Ok(());
    }

    method UpdateRiskParameters(auth: set<Address>, borrower: Address,
                                creditLimit: I128, interestRateBps: U32, riskScore: U32)
      returns (r: Result<()>)
      modifies this
      ensures var st := CreditLedger.UpdateRiskParameters(old(State()), auth, borrower, creditLimit, interestRateBps, riskScore);
        r == st.result && State() == st.post && events == old(events) + st.emitted
      ensures old(Valid()) ==> Valid()
    {
      var who := RequireAdminAuth(State(), auth);
      if who.Err? {
        return Err(who.failure);
      }
      if borrower !in lines {
        return Err(Contract(CreditLineNotFound));
      }
      var line := lines[borrower];
      if creditLimit < 0 {
        return Err(Contract(NegativeLimit));
      }
      if creditLimit < line.utilizedAmount {
        return Err(Contract(OverLimit));
      }
      if interestRateBps > MAX_INTEREST_RATE_BPS {
        return Err(Contract(RateTooHigh));
      }
      if riskScore > MAX_RISK_SCORE {
        return Err(Contract(ScoreTooHigh));
      }
      line := line.(creditLimit := creditLimit);
      line := line.(interestRateBps := interestRateBps);
      line := line.(riskScore := riskScore);
      lines := lines[borrower := line];
      events := events + [RiskParametersUpdatedEvent(borrower, creditLimit, interestRateBps, riskScore)];
      r := Ok(());
    }

    method SuspendCreditLine(auth: set<Address>, borrower: Address) returns (r: Result<()>)
      modifies this
      ensures var st := Suspend(old(State()), auth, borrower);
        r == st.result && State() == st.post && events == old(events) + st.emitted
      ensures old(Valid()) ==> Valid()
    {
      var who := RequireAdminAuth(State(), auth);
      if who.Err? {
        return Err(who.failure);
      }
      if borrower !in lines {
        return Err(Contract(CreditLineNotFound));
      }
      var line := lines[borrower];
      line := line.(status := Suspended);
      lines := lines[borrower := line];
      events := events + [CreditLineEvent(SuspendEvent, borrower, Suspended, line.creditLimit, line.interestRateBps, line.riskScore)];
      r := Ok(());
    }

    method CloseCreditLine(auth: set<Address>, borrower: Address, closer: Address) returns (r: Result<()>)
      modifies this
      ensures var st := Close(old(State()), auth, borrower, closer);
        r == st.result && State() == st.post && events == old(events) + st.emitted
      ensures old(Valid()) ==> Valid()
    {
      if closer !in auth {
        return Err(Panic(AuthMissing(closer)));
      }
      var stored := RequireAdmin(State());
      if stored.Err? {
        return Err(stored.failure);
      }
      var adminAddress := stored.value;
      if borrower !in lines {
        return Err(Contract(CreditLineNotFound));
      }
      var line := lines[borrower];
      if line.status == Closed {
        return Ok(());
      }
      var allowed := closer == adminAddress || (closer == borrower && line.utilizedAmount == 0);
      if !allowed {
        if closer == borrower {
          return Err(Contract(UtilizationNotZero));
        }
        return Err(Contract(Unauthorized));
      }
      line := line.(status := Closed);
      lines := lines[borrower := line];
      events := events + [CreditLineEvent(ClosedEvent, borrower, Closed, line.creditLimit, line.interestRateBps, line.riskScore)];
      r := Ok(());
    }

    method DefaultCreditLine(auth: set<Address>, borrower: Address) returns (r: Result<()>)
      modifies this
      ensures var st := MarkDefaulted(old(State()), auth, borrower);
        r == st.result && State() == st.post && events == old(events) + st.emitted
      ensures old(Valid()) ==> Valid()
    {
      var who := RequireAdminAuth(State(), auth);
      if who.Err? {
        return Err(who.failure);
      }
      if borrower !in lines {
        return Err(Contract(CreditLineNotFound));
      }
      var line := lines[borrower];
      line := line.(status := Defaulted);
      lines := lines[borrower := line];
      events := events + [CreditLineEvent(DefaultEvent, borrower, Defaulted, line.creditLimit, line.interestRateBps, line.riskScore)];
      r := Ok(());
    }

    /** The stored line of `borrower`, if any; a read that changes nothing. */
    function GetCreditLine(borrower: Address): (r: Option<CreditLineData>)
      reads this
      ensures r.None? <==> borrower !in lines
      ensures r.Some? ==> r.value == lines[borrower]
      ensures Valid() && r.Some? ==> LineValid(borrower, r.value)
    {
      if borrower in lines then Some(lines[borrower]) else None
    }
  }
}
