/** Identifiers and result types shared by the whole model. */
module Base {

  /** A UUID. The services only ever compare identifiers for equality. */
  type Id = nat

  /** An ISO currency code, such as "USD". */
  type Currency = string

  /** Milliseconds since the epoch. */
  type Time = int

  datatype Option<+T> = None | Some(value: T)

  datatype Result<+T, +E> = Ok(value: T) | Err(error: E)

  /** The ways a ledger command or a replay can be refused. */
  datatype LedgerError =
    | ZeroTransaction
    | UnbalancedPostings
    | VersionGap
    | UnsupportedSchema
    | InvalidEvent
    | SpendsReservedFunds
    | InsufficientFunds
    | InvalidAmount
    | HoldConflict
    | HoldNotFound
    | HoldAlreadyConsumed
    | HoldAlreadyReleased
    | HoldAmountMismatch
    | ConsumedWithoutReceipt
    | WalletNotFound
    | IdentityMismatch
    | SameWallet
    | ExpectedVersion
    | DuplicateEventId
    | UniqueViolation
    | SettlementMismatch
}
