/**
 The transaction ledger and its outbox (transaction.repository.ts): one function a database
 transaction, from the committed tables before it to the committed tables after it.
 */
module Ledger {
  import opened Common

  datatype Status = PENDING | COMPLETED | BALANCE_UPDATED | FAILED | TIMEOUT

  datatype TxType = DEPOSIT | TRANSFER_IN | TRANSFER_OUT

  datatype Transaction = Transaction(
    accountId: Id,
    amount: int,
    currency: Currency,
    typ: TxType,
    status: Status,
    idempotencyKey: Key,
    retryCount: nat,
    providerPaymentId: Option<string>,
    referenceId: Option<Id>)

  datatype OutboxEvent = OutboxEvent(transactionId: Id, topic: Topic, payload: Payload, processed: bool)

  datatype Db = Db(
    transactions: map<Id, Transaction>,
    outbox: map<Id, OutboxEvent>,
    processed: map<Key, Topic>)

  // ---- Unique columns and foreign keys ----

  predicate KeyTaken(txs: map<Id, Transaction>, key: Key) {
    exists id | id in txs :: txs[id].idempotencyKey == key
  }

  predicate PaymentTaken(txs: map<Id, Transaction>, payment: string) {
    exists id | id in txs :: txs[id].providerPaymentId == Some(payment)
  }

  /** The unique indexes of the schema. */
  ghost predicate Unique(txs: map<Id, Transaction>) {
    && (forall a, b | a in txs && b in txs && txs[a].idempotencyKey == txs[b].idempotencyKey :: a == b)
    && (forall a, b | a in txs && b in txs && txs[a].providerPaymentId.Some?
                      && txs[a].providerPaymentId == txs[b].providerPaymentId :: a == b)
  }

  function InsertTransaction(txs: map<Id, Transaction>, id: Id, t: Transaction): Result<map<Id, Transaction>> {
    if id in txs || KeyTaken(txs, t.idempotencyKey) then
      Failure(UniqueViolation)
    else if t.providerPaymentId.Some? && PaymentTaken(txs, t.providerPaymentId.value) then
      Failure(UniqueViolation)
    else
      Success(txs[id := t])
  }

  function InsertEvent(db: Db, id: Id, e: OutboxEvent): Result<Db> {
    if id in db.outbox then Failure(UniqueViolation)
    else if e.transactionId !in db.transactions then Failure(ForeignKeyViolation)
    else Success(db.(outbox := db.outbox[id := e]))
  }

  function InsertProcessed(db: Db, key: Key, topic: Topic): Result<Db> {
    if key in db.processed then Failure(UniqueViolation)
    else Success(db.(processed := db.processed[key := topic]))
  }

  ghost function FindByPayment(txs: map<Id, Transaction>, payment: string): Option<Id> {
    if PaymentTaken(txs, payment) then
      var id :| id in txs && txs[id].providerPaymentId == Some(payment);
      Some(id)
    else
      None
  }

  // ---- The transactions of the repository ----

  function Create(db: Db, id: Id, data: Transaction): Result<Db> {
    if KeyTaken(db.transactions, data.idempotencyKey) then
      Success(db)
    else
      var txs :- InsertTransaction(db.transactions, id, data);
      Success(db.(transactions := txs))
  }

  function TransferLeg(accountId: Id, amount: int, currency: Currency, typ: TxType, key: Key,
                       reference: Id): Transaction {
    Transaction(accountId, amount, currency, typ, PENDING, key, 0, None, Some(reference))
  }

  function CreateTransfer(db: Db, fromAccountId: Id, toAccountId: Id, amount: int, currency: Currency, key: Key,
                          outId: Id, inId: Id, eventId: Id): Result<Db>
  {
    if KeyTaken(db.transactions, key) then
      Success(db)
    else
      var txs1 :- InsertTransaction(db.transactions, outId,
                                    TransferLeg(fromAccountId, -amount, currency, TRANSFER_OUT, key, inId));
      var txs2 :- InsertTransaction(txs1, inId,
                                    TransferLeg(toAccountId, amount, currency, TRANSFER_IN, key + "_in", outId));
      InsertEvent(db.(transactions := txs2), eventId,
                  OutboxEvent(outId, TRANSFER_INITED,
                              TransferOrder(eventId, outId, inId, fromAccountId, toAccountId, currency, amount), false))
  }

  ghost function SetStatusCompletedAndCreateOutboxEvent(db: Db, payment: string, eventId: Id): Result<Db> {
    match FindByPayment(db.transactions, payment)
    case None => Failure(NotFound)
    case Some(id) =>
      var t := db.transactions[id];
      if t.status != PENDING then Failure(WrongStatus)
      else
        InsertEvent(db.(transactions := db.transactions[id := t.(status := COMPLETED)]), eventId,
                    OutboxEvent(id, DEPOSIT_PAID_SUCCESS,
                                DepositOrder(eventId, id, t.accountId, t.currency, t.amount), false))
  }

  ghost function SetStatusTimeout(db: Db, payment: string): Result<Db> {
    match FindByPayment(db.transactions, payment)
    case None => Failure(NotFound)
    case Some(id) =>
      var t := db.transactions[id];
      if t.status != PENDING then Failure(WrongStatus)
      else Success(db.(transactions := db.transactions[id := t.(status := TIMEOUT)]))
  }

  function MarkEventsAsProcessed(db: Db, ids: set<Id>): Db {
    db.(outbox := map id | id in db.outbox ::
          if id in ids then db.outbox[id].(processed := true) else db.outbox[id])
  }

  /** What follows the lookup of the key in setStatusUpdatedAndCreateProcessedEvent. */
  function ConfirmDeposit(db: Db, key: Key, transactionId: Id): Result<Db> {
    if transactionId !in db.transactions then Failure(NotFound)
    else
      var t := db.transactions[transactionId];
      if t.status != COMPLETED then Failure(WrongStatus)
      else
        InsertProcessed(db.(transactions := db.transactions[transactionId := t.(status := BALANCE_UPDATED)]),
                        key, DEPOSIT_CREDITING_SUCCESS)
  }

  function SetStatusUpdatedAndCreateProcessedEvent(db: Db, key: Key, transactionId: Id): Result<Db> {
    if key in db.processed then Success(db) else ConfirmDeposit(db, key, transactionId)
  }

  /** What follows the lookup of the key in setStatusUpdatedByIdsAndCreateProcessedEvent. */
  function ConfirmTransfer(db: Db, key: Key, outId: Id, inId: Id): Result<Db> {
    if outId !in db.transactions || inId !in db.transactions then Failure(NotFound)
    else
      InsertProcessed(db.(transactions := SetStatus(db.transactions, {outId, inId}, BALANCE_UPDATED)),
                      key, TRANSFER_SUCCESS)
  }

  function SetStatusUpdatedByIdsAndCreateProcessedEvent(db: Db, key: Key, outId: Id, inId: Id): Result<Db> {
    if key in db.processed then Success(db) else ConfirmTransfer(db, key, outId, inId)
  }

  /** A second copy of event `eventId`, under its own id. */
  function CopyEvent(db: Db, eventId: Id, newId: Id): Result<Db> {
    if eventId !in db.outbox then Failure(NotFound)
    else InsertEvent(db, newId, db.outbox[eventId].(processed := false))
  }

  function Retried(txs: map<Id, Transaction>, ids: set<Id>): map<Id, Transaction> {
    map id | id in txs :: if id in ids then txs[id].(retryCount := txs[id].retryCount + 1) else txs[id]
  }

  function SetStatus(txs: map<Id, Transaction>, ids: set<Id>, status: Status): map<Id, Transaction> {
    map id | id in txs :: if id in ids then txs[id].(status := status) else txs[id]
  }

  /** `exhausted` tells the caller to throw, but only after the commit. */
  datatype Recreation = Recreation(db: Db, exhausted: bool)

  /**
   The common part of both recreate methods: `counted` are the rows whose retry counter goes up,
   `first` the one whose counter is compared with the limit. Only an admitted retry inserts the key.
   */
  function Recreate(db: Db, key: Key, counted: set<Id>, first: Id, eventId: Id, maxRetry: nat, topic: Topic, newId: Id):
    Result<Recreation>
    requires first in db.transactions
  {
    var db1 := db.(transactions := Retried(db.transactions, counted));
    if db1.transactions[first].retryCount < maxRetry then
      var db2 :- CopyEvent(db1, eventId, newId);
      var db3 :- InsertProcessed(db2, key, topic);
      Success(Recreation(db3, false))
    else
      Success(Recreation(db1.(transactions := SetStatus(db1.transactions, counted, FAILED)), true))
  }

  /** What follows the lookup of the key in recreateOutboxEvent. */
  function RetryDeposit(db: Db, key: Key, transactionId: Id, eventId: Id, maxRetry: nat, topic: Topic, newId: Id):
    Result<Recreation>
  {
    if transactionId !in db.transactions then Failure(NotFound)
    else Recreate(db, key, {transactionId}, transactionId, eventId, maxRetry, topic, newId)
  }

  function RecreateOutboxEvent(db: Db, key: Key, transactionId: Id, eventId: Id, maxRetry: nat, topic: Topic,
                               newId: Id):
    Result<Recreation>
  {
    if key in db.processed then Success(Recreation(db, false))
    else RetryDeposit(db, key, transactionId, eventId, maxRetry, topic, newId)
  }

  /**
   What follows the lookup of the key in recreateTransferOutboxEvent. `outFirst`: whether the database returned
   the outgoing leg as the first updated row.
   */
  function RetryTransfer(db: Db, key: Key, outId: Id, inId: Id, eventId: Id, maxRetry: nat, topic: Topic, newId: Id,
                         outFirst: bool): Result<Recreation>
  {
    FoundTwo(outId, inId, db.transactions.Keys);
    if |{outId, inId} * db.transactions.Keys| < 2 then Failure(NotFound)
    else Recreate(db, key, {outId, inId}, if outFirst then outId else inId, eventId, maxRetry, topic, newId)
  }

  function RecreateTransferOutboxEvent(db: Db, key: Key, outId: Id, inId: Id, eventId: Id, maxRetry: nat, topic: Topic,
                                       newId: Id, outFirst: bool): Result<Recreation>
  {
    if key in db.processed then Success(Recreation(db, false))
    else RetryTransfer(db, key, outId, inId, eventId, maxRetry, topic, newId, outFirst)
  }

  // ---- The Kafka handlers (kafka-process.service.ts): errors are logged and swallowed ----

  /** Committed tables after a call that may have rolled back. */
  function Settled(db: Db, r: Result<Db>): Db {
    if r.Success? then r.value else db
  }

  function SettledRecreation(db: Db, r: Result<Recreation>): Db {
    if r.Success? then r.value.db else db
  }

  /** What the transaction of a reply commits once it has looked its key up and not found it. */
  function ApplyReply(db: Db, key: Key, topic: Topic, p: Payload, maxRetry: nat, newId: Id, outFirst: bool): Db {
    match (topic, p)
    case (DEPOSIT_CREDITING_SUCCESS, DepositReply(_, t)) => Settled(db, ConfirmDeposit(db, key, t))
    case (DEPOSIT_CREDITING_FAILED, DepositReply(e, t)) =>
      SettledRecreation(db, RetryDeposit(db, key, t, e, maxRetry, topic, newId))
    case (TRANSFER_SUCCESS, TransferReply(_, o, i)) => Settled(db, ConfirmTransfer(db, key, o, i))
    case (TRANSFER_FAILED, TransferReply(e, o, i)) =>
      SettledRecreation(db, RetryTransfer(db, key, o, i, e, maxRetry, topic, newId, outFirst))
    case _ => db
  }

  /** An absent or empty header counts as missing. */
  function HandleReply(db: Db, header: Option<Key>, topic: Topic, p: Payload, maxRetry: nat, newId: Id, outFirst: bool):
    Db
  {
    if header.None? || header.value == "" || header.value in db.processed then db
    else ApplyReply(db, header.value, topic, p, maxRetry, newId, outFirst)
  }

  // ---- The callers that start and settle a transaction ----

  /** What depositRub inserts once validation and payment creation have succeeded. */
  function DepositRub(db: Db, id: Id, accountId: Id, amount: int, key: Key, payment: string): Db {
    Settled(db, Create(db, id, Transaction(accountId, amount, "RUB", DEPOSIT, PENDING, key, 0, Some(payment), None)))
  }

  /** transferRub: `available` is the sender balance the balance service reported. */
  function TransferRub(db: Db, fromAccountId: Id, toAccountId: Id, amount: int, available: int, key: Key,
                       outId: Id, inId: Id, eventId: Id): Db
  {
    if fromAccountId == toAccountId || available < amount then db
    else Settled(db, CreateTransfer(db, fromAccountId, toAccountId, amount, "RUB", key, outId, inId, eventId))
  }

  datatype WebhookEvent = PaymentSucceeded | PaymentCanceled | Unknown

  /** `verified` is the id of the payment the provider confirmed to be in the announced state, if it did. */
  ghost function Webhook(db: Db, event: WebhookEvent, payment: string, verified: Option<string>, eventId: Id): Db {
    match (event, verified)
    case (PaymentSucceeded, Some(v)) => Settled(db, SetStatusCompletedAndCreateOutboxEvent(db, v, eventId))
    case (PaymentCanceled, Some(_)) => Settled(db, SetStatusTimeout(db, payment))
    case _ => db
  }
}
