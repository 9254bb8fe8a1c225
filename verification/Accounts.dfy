/**
 Balances, their outbox and the processed-event table (balance.repository.ts), one function a
 database transaction, and the handlers that call them (balance-kafka.service.ts).
 */
module Accounts {
  import opened Common

  /** One balance row an account and currency. */
  datatype Slot = Slot(accountId: Id, currency: Currency)

  datatype Balance = Balance(amount: int, blocked: bool)

  datatype OutboxEvent = OutboxEvent(balance: Slot, topic: Topic, payload: Payload, processed: bool)

  datatype Db = Db(
    balances: map<Slot, Balance>,
    outbox: map<Id, OutboxEvent>,
    processed: map<Key, Topic>)

  const CURRENCIES: set<Currency> := {"RUB", "USD", "USDT"}

  /** The column check `amount >= 0`. */
  function AddAmount(balances: map<Slot, Balance>, slot: Slot, delta: int): Result<map<Slot, Balance>>
    requires slot in balances
  {
    if balances[slot].amount + delta < 0 then Failure(CheckViolation)
    else Success(balances[slot := balances[slot].(amount := balances[slot].amount + delta)])
  }

  function InsertEvent(db: Db, id: Id, e: OutboxEvent): Result<Db> {
    if id in db.outbox then Failure(UniqueViolation)
    else Success(db.(outbox := db.outbox[id := e]))
  }

  function InsertProcessed(db: Db, key: Key, topic: Topic): Result<Db> {
    if key in db.processed then Failure(UniqueViolation)
    else Success(db.(processed := db.processed[key := topic]))
  }

  function DepositAndCreateOutboxEvent(db: Db, key: Key, currency: Currency, amount: int, accountId: Id,
                                       transactionId: Id, eventId: Id, newId: Id): Result<Db>
  {
    var slot := Slot(accountId, currency);
    if slot !in db.balances then Failure(NotFound)
    else if key in db.processed then Success(db)
    else
      var balances :- AddAmount(db.balances, slot, amount);
      var db1 :- InsertProcessed(db.(balances := balances), key, DEPOSIT_PAID_SUCCESS);
      InsertEvent(db1, newId, OutboxEvent(slot, DEPOSIT_CREDITING_SUCCESS, DepositReply(eventId, transactionId), false))
  }

  function TransferAndCreateOutboxEvent(db: Db, key: Key, fromAccountId: Id, toAccountId: Id, currency: Currency,
                                        amount: int, eventId: Id, outId: Id, inId: Id, newId: Id): Result<Db>
  {
    var sender, receiver := Slot(fromAccountId, currency), Slot(toAccountId, currency);
    var rows := {sender, receiver} * db.balances.Keys; // account_id IN (from, to) AND currency = ...
    FoundTwo(sender, receiver, db.balances.Keys);
    if key in db.processed then Success(db)
    else if |rows| < 2 then Failure(NotFound)
    else if db.balances[sender].blocked || db.balances[receiver].blocked then Failure(Blocked)
    else if db.balances[sender].amount < amount then Failure(InsufficientFunds)
    else
      var b1 :- AddAmount(db.balances, sender, -amount);
      var b2 :- AddAmount(b1, receiver, amount);
      var db1 :- InsertProcessed(db.(balances := b2), key, TRANSFER_INITED);
      InsertEvent(db1, newId, OutboxEvent(sender, TRANSFER_SUCCESS, TransferReply(eventId, outId, inId), false))
  }

  function CreateOutboxEvent(db: Db, accountId: Id, currency: Currency, topic: Topic, payload: Payload,
                             newId: Id): Result<Db> {
    var slot := Slot(accountId, currency);
    if slot !in db.balances then Failure(NotFound)
    else InsertEvent(db, newId, OutboxEvent(slot, topic, payload, false))
  }

  function MarkEventsAsProcessed(db: Db, ids: set<Id>): Db {
    db.(outbox := map id | id in db.outbox ::
          if id in ids then db.outbox[id].(processed := true) else db.outbox[id])
  }

  function ResetAllBalances(db: Db): Db {
    db.(balances := map slot | slot in db.balances :: db.balances[slot].(amount := 0))
  }

  /** account.repository.ts creates the three balances with the account. */
  function CreateAccount(db: Db, accountId: Id): Db {
    if exists slot | slot in db.balances :: slot.accountId == accountId then db
    else db.(balances := db.balances + (map c | c in CURRENCIES :: Slot(accountId, c) := Balance(0, false)))
  }

  function SetBlocked(db: Db, slot: Slot, blocked: bool): Db {
    if slot !in db.balances then db
    else db.(balances := db.balances[slot := db.balances[slot].(blocked := blocked)])
  }

  // ---- The handlers ----

  /** The balance transaction an order asks for. */
  function Execute(db: Db, key: Key, p: Payload, newId: Id): Result<Db>
    requires p.IsOrder()
  {
    match p
    case DepositOrder(e, t, a, c, n) => DepositAndCreateOutboxEvent(db, key, c, n, a, t, e, newId)
    case TransferOrder(e, o, i, f, t, c, n) => TransferAndCreateOutboxEvent(db, key, f, t, c, n, e, o, i, newId)
  }

  /** The transaction in the handler's catch block. */
  function Report(db: Db, p: Payload, newId: Id): Result<Db>
    requires p.IsOrder()
  {
    var accountId := if p.DepositOrder? then p.accountId else p.fromAccountId;
    CreateOutboxEvent(db, accountId, p.currency, p.FailedTopic(), p.Reply(), newId)
  }

  /**
   Where a handler throws of its own accord: before its transaction commits, or after it has, when the
   acknowledgement of the commit is lost.
   */
  datatype Fault = NoFault | BeforeCommit | AfterCommit

  /** The try block: the committed tables, and whether it threw. */
  function Attempt(db: Db, header: Option<Key>, p: Payload, newId: Id, fault: Fault): (Db, bool)
    requires p.IsOrder()
  {
    if header.None? || header.value == "" || fault == BeforeCommit then (db, true)
    else
      var r := Execute(db, header.value, p, newId);
      if r.Failure? then (db, true) else (r.value, fault == AfterCommit)
  }

  /** The try block and, if it threw, the catch block, whose own transaction may fail as well. */
  function Handled(db: Db, header: Option<Key>, p: Payload, newId: Id, fault: Fault, reportId: Id,
                   reportFails: bool): Db
    requires p.IsOrder()
  {
    var (db1, threw) := Attempt(db, header, p, newId, fault);
    if !threw || reportFails then db1
    else
      var r := Report(db1, p, reportId);
      if r.Success? then r.value else db1
  }
}
