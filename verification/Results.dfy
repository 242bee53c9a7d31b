/** Failure values shared by every module: the errors the acquirer returns. */
module Results {

  datatype Option<+T> = None | Some(value: T)

  datatype Error =
    | NotFound
    | InvalidAmount
    | InvalidTransition
    | ConcurrentUpdate
    | DuplicateKey              // PRIMARY KEY or UNIQUE violation
    | CheckViolation            // CHECK violation in the ledger table
    | Unbalanced
    | MerchantInactive
    | MaxInstallments
    | DebitInstallments
    | InstallmentsNotAllowed
    | NotCaptured
    | NoReceivables
    | NotAnticipable
    | AlreadyDone
    | ReceivableLiened
    | RegistryDown
    | NothingToSettle
    | WrongDay
    | WrongMerchant
    | WrongStatus
    | TransactionStatus
    | AlreadyRunning
    | LockDown
    | StatementFailed
    | CommitFailed

  datatype Result<+T> = Ok(value: T) | Err(error: Error)
  {
    predicate IsFailure() {
      Err?
    }

    function PropagateFailure<U>(): Result<U>
      requires Err?
    {
      Err(error)
    }

    function Extract(): T
      requires Ok?
    {
      value
    }
  }

  // Identifiers are opaque: only equality matters. An empty id column is None.
  type Id = nat
}
