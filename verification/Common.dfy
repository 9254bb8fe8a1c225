/** Vocabulary shared by the two services: identifiers, results, Kafka topics and payloads. */
module Common {

  /** UUIDs are compared, never inspected, so a number stands for one. */
  type Id = nat

  /** Idempotency keys, both the client's and the `idempotencyKey` header of a Kafka message. */
  type Key = string

  type Currency = string

  datatype Option<+T> = None | Some(value: T)

  datatype Error =
    | NotFound
    | WrongStatus
    | UniqueViolation
    | CheckViolation
    | ForeignKeyViolation
    | Blocked
    | InsufficientFunds
    | HeaderMissing
    | RetriesExhausted // thrown after the commit
    | Fault // the database or the process failed before the commit

  /** Outcome of one database transaction: the new value to commit, or the error that rolls it back. */
  datatype Result<+T> = Success(value: T) | Failure(error: Error) {
    predicate IsFailure() {
      Failure?
    }
    function PropagateFailure<U>(): Result<U>
      requires Failure?
    {
      Failure(error)
    }
    function Extract(): T
      requires Success?
    {
      value
    }
  }

  /** Two calls succeed together or fail with the same error. */
  predicate SameOutcome<T, U>(r: Result<T>, s: Result<U>) {
    && (r.Success? <==> s.Success?)
    && (r.Failure? && s.Failure? ==> r.error == s.error)
  }

  datatype Topic =
    | DEPOSIT_PAID_SUCCESS
    | TRANSFER_INITED
    | DEPOSIT_CREDITING_SUCCESS
    | DEPOSIT_CREDITING_FAILED
    | TRANSFER_SUCCESS
    | TRANSFER_FAILED

  /** Orders travel from the ledger to the balances, replies travel back. */
  datatype Payload =
    | DepositOrder(eventId: Id, transactionId: Id, accountId: Id, currency: Currency, amount: int)
    | TransferOrder(eventId: Id, outId: Id, inId: Id, fromAccountId: Id, toAccountId: Id, currency: Currency,
                    amount: int)
    | DepositReply(eventId: Id, transactionId: Id)
    | TransferReply(eventId: Id, outId: Id, inId: Id)
  {
    predicate IsOrder() {
      DepositOrder? || TransferOrder?
    }

    /** The ledger transaction the payload is about; a transfer goes by its outgoing leg. */
    function SagaId(): Id {
      match this
      case DepositOrder(_, t, _, _, _) => t
      case TransferOrder(_, o, _, _, _, _, _) => o
      case DepositReply(_, t) => t
      case TransferReply(_, o, _) => o
    }

    /** The ids a reply carries back, taken over from the order it answers. */
    function Reply(): Payload {
      match this
      case DepositOrder(e, t, _, _, _) => DepositReply(e, t)
      case TransferOrder(e, o, i, _, _, _, _) => TransferReply(e, o, i)
      case _ => this
    }

    function OrderTopic(): Topic {
      if DepositOrder? || DepositReply? then DEPOSIT_PAID_SUCCESS else TRANSFER_INITED
    }

    function SuccessTopic(): Topic {
      if DepositOrder? || DepositReply? then DEPOSIT_CREDITING_SUCCESS else TRANSFER_SUCCESS
    }

    function FailedTopic(): Topic {
      if DepositOrder? || DepositReply? then DEPOSIT_CREDITING_FAILED else TRANSFER_FAILED
    }
  }

  /** A query for two ids finds two rows just if the ids differ and both are there. */
  lemma FoundTwo<T>(a: T, b: T, table: set<T>)
    ensures |{a, b} * table| >= 2 <==> a != b && a in table && b in table
  {
    var found := {a, b} * table;
    if a != b && a in table && b in table {
      assert found == {a, b};
    } else if a in found {
      assert found == {a};
    } else if b in found {
      assert found == {b};
    } else {
      assert found == {};
    }
  }

  function Min(a: int, b: int): int {
    if a <= b then a else b
  }

  function Max(a: int, b: int): int {
    if a <= b then b else a
  }
}
