/** Records the contract publishes. The engine never reads them back. */
module CreditEvents {
  import opened CreditTypes

  /** The `event_type` symbol of a lifecycle event. */
  datatype LineEventType = OpenedEvent | SuspendEvent | ClosedEvent | DefaultEvent

  datatype Event =
    | CreditLineEvent(eventType: LineEventType, borrower: Address, status: CreditStatus,
                      creditLimit: I128, interestRateBps: U32, riskScore: U32)
    | RepaymentEvent(borrower: Address, amount: I128, newUtilizedAmount: I128, timestamp: U64)
    | RiskParametersUpdatedEvent(borrower: Address, creditLimit: I128, interestRateBps: U32, riskScore: U32)
    | DrawEvent(borrower: Address, amount: I128, newUtilizedAmount: I128)
}
