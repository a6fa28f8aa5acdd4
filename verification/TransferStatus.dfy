/** The transfer life cycle: transfer-status.ts. */
module TransferStatus {

  datatype Status = Pending | Validating | FundsHeld | Processing | Completed | Compensating | Failed

  function Allowed(s: Status): set<Status> {
    match s
    case Pending => {Validating, Failed}
    case Validating => {FundsHeld, Compensating, Failed}
    case FundsHeld => {Processing, Compensating}
    case Processing => {Completed, Compensating}
    case Compensating => {Completed, Failed}
    case Completed => {}
    case Failed => {}
  }

  predicate CanMove(s: Status, next: Status) {
    next in Allowed(s)
  }

  predicate Terminal(s: Status) {
    s == Completed || s == Failed
  }

  /** How far along a status is. */
  function Rank(s: Status): nat {
    match s
    case Pending => 0
    case Validating => 1
    case FundsHeld => 2
    case Processing => 3
    case Compensating => 4
    case Completed => 5
    case Failed => 5
  }

  /** Every allowed move raises the rank, and exactly the two terminal statuses have no move. */
  lemma MovesRaiseRank(s: Status, next: Status)
    ensures CanMove(s, next) ==> Rank(s) < Rank(next)
    ensures Terminal(s) <==> Allowed(s) == {}
  {
    if !Terminal(s) {
      assert Failed in Allowed(s) || Compensating in Allowed(s);
    }
  }
}
