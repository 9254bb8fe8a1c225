/** What the calls that start or settle a transaction do, told of the tables and the arguments of the call. */
module LedgerCalls {
  import opened Common
  import opened Ledger

  /** A deposit can be inserted: its id, its client key and its payment are new. */
  predicate DepositFree(db: Db, id: Id, key: Key, payment: string) {
    id !in db.transactions && !KeyTaken(db.transactions, key) && !PaymentTaken(db.transactions, payment)
  }

  /** A deposit is recorded as it was asked for, once, and nothing else changes. */
  lemma DepositRubDoes(db: Db, id: Id, accountId: Id, amount: int, key: Key, payment: string)
    ensures var db' := DepositRub(db, id, accountId, amount, key, payment);
            var row := Transaction(accountId, amount, "RUB", DEPOSIT, PENDING, key, 0, Some(payment), None);
            db' == if DepositFree(db, id, key, payment) then Db(db.transactions[id := row], db.outbox, db.processed)
                   else db
  {
  }

  /** Both legs and the order of a transfer can be inserted. */
  predicate TransferFree(db: Db, key: Key, outId: Id, inId: Id, eventId: Id) {
    && outId !in db.transactions && inId !in db.transactions && outId != inId && eventId !in db.outbox
    && !KeyTaken(db.transactions, key) && !KeyTaken(db.transactions, key + "_in")
  }

  /** The two legs of a transfer and its order, as the call asks for them. */
  ghost predicate TransferMade(db: Db, db': Db, fromAccountId: Id, toAccountId: Id, amount: int, currency: Currency,
                               key: Key, outId: Id, inId: Id, eventId: Id)
  {
    && outId in db'.transactions && inId in db'.transactions && eventId in db'.outbox
    && db'.transactions[outId]
       == Transaction(fromAccountId, -amount, currency, TRANSFER_OUT, PENDING, key, 0, None, Some(inId))
    && db'.transactions[inId]
       == Transaction(toAccountId, amount, currency, TRANSFER_IN, PENDING, key + "_in", 0, None, Some(outId))
    && db'.outbox[eventId]
       == OutboxEvent(outId, TRANSFER_INITED,
                      TransferOrder(eventId, outId, inId, fromAccountId, toAccountId, currency, amount), false)
    && db'.transactions == db.transactions[outId := db'.transactions[outId]][inId := db'.transactions[inId]]
    && db'.outbox == db.outbox[eventId := db'.outbox[eventId]]
    && db'.processed == db.processed
  }

  lemma KeyInserted(txs: map<Id, Transaction>, id: Id, t: Transaction, key: Key)
    requires id !in txs && t.idempotencyKey != key
    ensures KeyTaken(txs[id := t], key) <==> KeyTaken(txs, key)
  {
    if q :| q in txs && txs[q].idempotencyKey == key {
      assert txs[id := t][q].idempotencyKey == key;
    }
  }

  /** A row with a new key and a new payment, or none, breaks no unique index. */
  lemma UniqueInserted(txs: map<Id, Transaction>, id: Id, t: Transaction)
    requires Unique(txs) && id !in txs && !KeyTaken(txs, t.idempotencyKey)
    requires t.providerPaymentId.Some? ==> !PaymentTaken(txs, t.providerPaymentId.value)
    ensures Unique(txs[id := t])
  {
  }

  lemma TransferUnique(db: Db, db': Db, f: Id, to: Id, n: int, c: Currency, key: Key, o: Id, i: Id, e: Id)
    requires Unique(db.transactions) && TransferFree(db, key, o, i, e)
    requires TransferMade(db, db', f, to, n, c, key, o, i, e)
    ensures Unique(db'.transactions)
  {
    assert key + "_in" != key;
    UniqueInserted(db.transactions, o, db'.transactions[o]);
    KeyInserted(db.transactions, o, db'.transactions[o], key + "_in");
    UniqueInserted(db.transactions[o := db'.transactions[o]], i, db'.transactions[i]);
  }

  lemma CreateTransferDoes(db: Db, fromAccountId: Id, toAccountId: Id, amount: int, currency: Currency, key: Key,
                           outId: Id, inId: Id, eventId: Id)
    ensures var db' := Settled(db, CreateTransfer(db, fromAccountId, toAccountId, amount, currency, key, outId, inId,
                                                  eventId));
            if TransferFree(db, key, outId, inId, eventId)
            then TransferMade(db, db', fromAccountId, toAccountId, amount, currency, key, outId, inId, eventId)
            else db' == db
    ensures CreateTransfer(db, fromAccountId, toAccountId, amount, currency, key, outId, inId, eventId).Success?
            <==> KeyTaken(db.transactions, key) || TransferFree(db, key, outId, inId, eventId)
  {
    assert key + "_in" != key;
    if outId !in db.transactions {
      KeyInserted(db.transactions, outId, TransferLeg(fromAccountId, -amount, currency, TRANSFER_OUT, key, inId),
                  key + "_in");
    }
  }

  /** A transfer to oneself or above what is available changes nothing; any other is recorded as it was asked for. */
  lemma TransferRubDoes(db: Db, fromAccountId: Id, toAccountId: Id, amount: int, available: int, key: Key,
                        outId: Id, inId: Id, eventId: Id)
    ensures var db' := TransferRub(db, fromAccountId, toAccountId, amount, available, key, outId, inId, eventId);
            if fromAccountId != toAccountId && amount <= available && TransferFree(db, key, outId, inId, eventId)
            then TransferMade(db, db', fromAccountId, toAccountId, amount, "RUB", key, outId, inId, eventId)
            else db' == db
  {
    CreateTransferDoes(db, fromAccountId, toAccountId, amount, "RUB", key, outId, inId, eventId);
  }

  // ---- Settling ----

  /** Row `t` is the one with this payment. */
  predicate PaysFor(db: Db, payment: string, t: Id) {
    t in db.transactions && db.transactions[t].providerPaymentId == Some(payment)
  }

  lemma FoundByPayment(db: Db, payment: string, t: Id)
    requires Unique(db.transactions) && PaysFor(db, payment, t)
    ensures FindByPayment(db.transactions, payment) == Some(t)
  {
  }

  /** What a settlement fails for: no row with the payment, a row that is not pending, or an event id that is taken. */
  lemma SettlementFails(db: Db, payment: string, eventId: Id)
    ensures SetStatusTimeout(db, payment).Failure? ==>
              SetStatusTimeout(db, payment).error
              == if PaymentTaken(db.transactions, payment) then WrongStatus else NotFound
    ensures var r := SetStatusCompletedAndCreateOutboxEvent(db, payment, eventId);
            r.Failure? ==>
              if !PaymentTaken(db.transactions, payment) then r.error == NotFound
              else r.error == WrongStatus || (r.error == UniqueViolation && eventId in db.outbox)
  {
  }

  /** The deposit `t` paid, with its order written. */
  function Paid(db: Db, t: Id, eventId: Id): Db
    requires t in db.transactions
  {
    var row := db.transactions[t];
    var order := DepositOrder(eventId, t, row.accountId, row.currency, row.amount);
    Db(db.transactions[t := row.(status := COMPLETED)],
       db.outbox[eventId := OutboxEvent(t, DEPOSIT_PAID_SUCCESS, order, false)], db.processed)
  }

  /** The deposit `t` timed out. */
  function TimedOut(db: Db, t: Id): Db
    requires t in db.transactions
  {
    Db(db.transactions[t := db.transactions[t].(status := TIMEOUT)], db.outbox, db.processed)
  }

  /** A confirmed success completes the pending deposit of the payment and writes its order, or nothing happens. */
  lemma SucceededDoes(db: Db, announced: string, payment: string, eventId: Id, t: Id)
    requires Unique(db.transactions) && PaysFor(db, payment, t)
    ensures Webhook(db, PaymentSucceeded, announced, Some(payment), eventId)
         == if db.transactions[t].status == PENDING && eventId !in db.outbox then Paid(db, t, eventId) else db
  {
    FoundByPayment(db, payment, t);
  }

  /** A confirmed cancellation times the pending deposit of the payment out and writes no order. */
  lemma CanceledDoes(db: Db, payment: string, verified: string, eventId: Id, t: Id)
    requires Unique(db.transactions) && PaysFor(db, payment, t)
    ensures Webhook(db, PaymentCanceled, payment, Some(verified), eventId)
         == if db.transactions[t].status == PENDING then TimedOut(db, t) else db
  {
    FoundByPayment(db, payment, t);
  }

  /** Without a confirmation, for an unknown event, or with no row for the payment nothing happens. */
  lemma OtherwiseNothing(db: Db, event: WebhookEvent, payment: string, verified: Option<string>, eventId: Id)
    requires || event == Unknown || verified.None?
             || !PaymentTaken(db.transactions, if event == PaymentSucceeded then verified.value else payment)
    ensures Webhook(db, event, payment, verified, eventId) == db
  {
  }
}
