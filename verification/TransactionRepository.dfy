/**
 The ledger as the service has it: tables that the methods of the repository update in place, one
 database transaction a method, and the Kafka handlers on top.
 */
module TransactionRepository {
  import opened Common
  import L = Ledger
  import LC = LedgerCalls
  import LI = LedgerInvariant

  /** Counters and statuses are not in the unique indexes. */
  lemma RetriedUnique(txs: map<Id, L.Transaction>, ids: set<Id>)
    requires L.Unique(txs)
    ensures L.Unique(L.Retried(txs, ids))
  {
  }

  lemma StatusUnique(txs: map<Id, L.Transaction>, ids: set<Id>, status: L.Status)
    requires L.Unique(txs)
    ensures L.Unique(L.SetStatus(txs, ids, status))
  {
  }

  /** Two updates one after the other. */
  lemma BothSet(txs: map<Id, L.Transaction>, o: Id, i: Id, status: L.Status)
    requires o in txs && i in txs
    ensures var txs1 := txs[o := txs[o].(status := status)];
            txs1[i := txs1[i].(status := status)] == L.SetStatus(txs, {o, i}, status)
  {
  }

  class TransactionRepository {
    var transactions: map<Id, L.Transaction>
    var outbox: map<Id, L.OutboxEvent>
    var processed: map<Key, Topic>

    function Db(): L.Db
      reads this
    {
      L.Db(transactions, outbox, processed)
    }

    /** The unique indexes. */
    ghost predicate Valid()
      reads this
    {
      L.Unique(transactions)
    }

    constructor ()
      ensures Valid() && Db() == L.Db(map[], map[], map[])
    {
      transactions, outbox, processed := map[], map[], map[];
    }

    method Create(id: Id, data: L.Transaction) returns (r: Result<Id>)
      requires Valid()
      modifies this
      ensures Valid()
      ensures Db() == L.Settled(old(Db()), L.Create(old(Db()), id, data))
      ensures SameOutcome(r, L.Create(old(Db()), id, data))
      ensures r.Success? ==> r.value in transactions && transactions[r.value].idempotencyKey == data.idempotencyKey
    {
      if existing :| existing in transactions && transactions[existing].idempotencyKey == data.idempotencyKey {
        return Success(existing);
      }
      if || id in transactions
         || (data.providerPaymentId.Some? && L.PaymentTaken(transactions, data.providerPaymentId.value))
      {
        return Failure(UniqueViolation);
      }
      transactions := transactions[id := data];
      r := Success(id);
    }

    method CreateTransfer(fromAccountId: Id, toAccountId: Id, amount: int, currency: Currency, key: Key,
                          outId: Id, inId: Id, eventId: Id) returns (r: Result<Id>)
      requires Valid()
      modifies this
      ensures Valid()
      ensures var spec := L.CreateTransfer(old(Db()), fromAccountId, toAccountId, amount, currency, key, outId, inId,
                                           eventId);
              Db() == L.Settled(old(Db()), spec) && SameOutcome(r, spec)
      ensures r.Success? ==> r.value in transactions && transactions[r.value].idempotencyKey == key
    {
      if existing :| existing in transactions && transactions[existing].idempotencyKey == key {
        return Success(existing);
      }
      var txs := transactions;
      if outId in txs {
        return Failure(UniqueViolation);
      }
      txs := txs[outId := L.TransferLeg(fromAccountId, -amount, currency, L.TRANSFER_OUT, key, inId)];
      if inId in txs || L.KeyTaken(txs, key + "_in") {
        return Failure(UniqueViolation);
      }
      txs := txs[inId := L.TransferLeg(toAccountId, amount, currency, L.TRANSFER_IN, key + "_in", outId)];
      if eventId in outbox {
        return Failure(UniqueViolation);
      }
      var payload := TransferOrder(eventId, outId, inId, fromAccountId, toAccountId, currency, amount);
      outbox := outbox[eventId := L.OutboxEvent(outId, TRANSFER_INITED, payload, false)];
      transactions := txs;
      r := Success(outId);
    }

    method FindByPayment(payment: string) returns (id: Option<Id>)
      requires Valid()
      ensures id == L.FindByPayment(transactions, payment)
    {
      if row :| row in transactions && transactions[row].providerPaymentId == Some(payment) {
        id := Some(row);
      } else {
        id := None;
      }
    }

    method SetStatusCompletedAndCreateOutboxEvent(payment: string, eventId: Id) returns (r: Result<Id>)
      requires Valid()
      modifies this
      ensures Valid()
      ensures var spec := L.SetStatusCompletedAndCreateOutboxEvent(old(Db()), payment, eventId);
              Db() == L.Settled(old(Db()), spec) && SameOutcome(r, spec)
      ensures forall m | LI.Inv(old(Db()), m) :: LI.Inv(Db(), m)
    {
      ghost var was := Db();
      forall m | LI.Inv(was, m)
        ensures LI.Inv(L.Settled(was, L.SetStatusCompletedAndCreateOutboxEvent(was, payment, eventId)), m)
      {
        LI.CompletedKeeps(was, payment, eventId, m);
      }
      var row := FindByPayment(payment);
      if row.None? {
        return Failure(NotFound);
      }
      var id := row.value;
      var t := transactions[id];
      if t.status != L.PENDING {
        return Failure(WrongStatus);
      }
      if eventId in outbox {
        return Failure(UniqueViolation);
      }
      transactions := transactions[id := t.(status := L.COMPLETED)];
      var payload := DepositOrder(eventId, id, t.accountId, t.currency, t.amount);
      outbox := outbox[eventId := L.OutboxEvent(id, DEPOSIT_PAID_SUCCESS, payload, false)];
      r := Success(id);
    }

    method SetStatusTimeout(payment: string) returns (r: Result<Id>)
      requires Valid()
      modifies this`transactions
      ensures Valid()
      ensures var spec := L.SetStatusTimeout(old(Db()), payment);
              Db() == L.Settled(old(Db()), spec) && SameOutcome(r, spec)
      ensures forall m | LI.Inv(old(Db()), m) :: LI.Inv(Db(), m)
    {
      ghost var was := Db();
      forall m | LI.Inv(was, m) ensures LI.Inv(L.Settled(was, L.SetStatusTimeout(was, payment)), m) {
        LI.TimeoutKeeps(was, payment, m);
      }
      var row := FindByPayment(payment);
      if row.None? {
        return Failure(NotFound);
      }
      var t := transactions[row.value];
      if t.status != L.PENDING {
        return Failure(WrongStatus);
      }
      transactions := transactions[row.value := t.(status := L.TIMEOUT)];
      r := Success(row.value);
    }

    method MarkEventsAsProcessed(ids: set<Id>)
      modifies this`outbox
      ensures outbox.Keys == old(outbox.Keys)
      ensures forall id | id in outbox ::
                && (outbox[id].processed <==> old(outbox)[id].processed || id in ids)
                && LI.SameEvent(outbox[id], old(outbox)[id])
      ensures Db() == L.MarkEventsAsProcessed(old(Db()), ids)
      ensures forall m | LI.Inv(old(Db()), m) :: LI.Inv(Db(), m)
    {
      ghost var was := Db();
      forall m | LI.Inv(was, m) ensures LI.Inv(L.MarkEventsAsProcessed(was, ids), m) {
        LI.MarkKeeps(was, ids, m);
      }
      outbox := map id | id in outbox :: if id in ids then outbox[id].(processed := true) else outbox[id];
    }

    method SetStatusUpdatedAndCreateProcessedEvent(key: Key, transactionId: Id) returns (r: Result<()>)
      requires Valid()
      modifies this
      ensures Valid()
      ensures var spec := L.SetStatusUpdatedAndCreateProcessedEvent(old(Db()), key, transactionId);
              Db() == L.Settled(old(Db()), spec) && SameOutcome(r, spec)
    {
      if key in processed {
        return Success(());
      }
      if transactionId !in transactions {
        return Failure(NotFound);
      }
      var t := transactions[transactionId];
      if t.status != L.COMPLETED {
        return Failure(WrongStatus);
      }
      transactions := transactions[transactionId := t.(status := L.BALANCE_UPDATED)];
      processed := processed[key := DEPOSIT_CREDITING_SUCCESS];
      r := Success(());
    }

    method SetStatusUpdatedByIdsAndCreateProcessedEvent(key: Key, outId: Id, inId: Id) returns (r: Result<()>)
      requires Valid()
      modifies this
      ensures Valid()
      ensures var spec := L.SetStatusUpdatedByIdsAndCreateProcessedEvent(old(Db()), key, outId, inId);
              Db() == L.Settled(old(Db()), spec) && SameOutcome(r, spec)
    {
      if key in processed {
        return Success(());
      }
      var txs := transactions;
      if outId !in txs {
        return Failure(NotFound);
      }
      txs := txs[outId := txs[outId].(status := L.BALANCE_UPDATED)];
      if inId !in txs {
        return Failure(NotFound);
      }
      txs := txs[inId := txs[inId].(status := L.BALANCE_UPDATED)];
      BothSet(transactions, outId, inId, L.BALANCE_UPDATED);
      StatusUnique(transactions, {outId, inId}, L.BALANCE_UPDATED);
      transactions := txs;
      processed := processed[key := TRANSFER_SUCCESS];
      r := Success(());
    }

    /** The inserts of a retry: a copy of the event, and the key; `txs` is what the transaction updated before. */
    method InsertCopy(txs: map<Id, L.Transaction>, key: Key, eventId: Id, topic: Topic, newId: Id)
      returns (r: Result<()>)
      requires L.Unique(txs) && key !in processed
      modifies this
      ensures var copy := L.CopyEvent(old(Db()).(transactions := txs), eventId, newId);
              && SameOutcome(r, copy)
              && (copy.Success? ==> Db() == copy.value.(processed := old(processed)[key := topic]))
              && (copy.Failure? ==> Db() == old(Db()))
    {
      if eventId !in outbox {
        return Failure(NotFound);
      }
      var event := outbox[eventId];
      if newId in outbox {
        return Failure(UniqueViolation);
      }
      if event.transactionId !in txs {
        return Failure(ForeignKeyViolation);
      }
      outbox := outbox[newId := L.OutboxEvent(event.transactionId, event.topic, event.payload, false)];
      processed := processed[key := topic];
      transactions := txs;
      r := Success(());
    }

    /**
     What both retries do once the rows are found: count the retry, then copy the event or give up. Giving up is
     a result, not an error, so that it is committed.
     */
    method RetryOrFail(key: Key, counted: set<Id>, first: Id, eventId: Id, maxRetry: nat, topic: Topic, newId: Id)
      returns (r: Result<()>, retriesExhausted: bool)
      requires Valid() && key !in processed && first in transactions
      modifies this
      ensures Valid()
      ensures var spec := L.Recreate(old(Db()), key, counted, first, eventId, maxRetry, topic, newId);
              && Db() == L.SettledRecreation(old(Db()), spec)
              && SameOutcome(r, spec)
              && retriesExhausted == (spec.Success? && spec.value.exhausted)
      ensures retriesExhausted ==>
                && transactions.Keys == old(transactions.Keys) && processed == old(processed)
                && forall id | id in counted && id in transactions :: transactions[id].status == L.FAILED
      ensures r.Failure? ==> Db() == old(Db())
    {
      retriesExhausted := false;
      var txs := L.Retried(transactions, counted);
      RetriedUnique(transactions, counted);
      if txs[first].retryCount < maxRetry {
        r := InsertCopy(txs, key, eventId, topic, newId);
      } else {
        transactions := L.SetStatus(txs, counted, L.FAILED);
        StatusUnique(txs, counted, L.FAILED);
        retriesExhausted := true;
        r := Success(());
      }
    }

    /** The error RetriesExhausted comes with a committed change, every other error with none. */
    method RecreateOutboxEvent(key: Key, transactionId: Id, eventId: Id, maxRetry: nat, topic: Topic, newId: Id)
      returns (r: Result<()>)
      requires Valid()
      modifies this
      ensures Valid()
      ensures var spec := L.RecreateOutboxEvent(old(Db()), key, transactionId, eventId, maxRetry, topic, newId);
              && Db() == L.SettledRecreation(old(Db()), spec)
              && (if spec.Success? && spec.value.exhausted then r == Failure(RetriesExhausted)
                  else SameOutcome(r, spec))
      ensures r == Failure(RetriesExhausted) ==>
                transactionId in transactions && transactions[transactionId].status == L.FAILED && key !in processed
      ensures r.Failure? && r.error != RetriesExhausted ==> Db() == old(Db())
    {
      if key in processed {
        return Success(());
      }
      if transactionId !in transactions {
        return Failure(NotFound);
      }
      var retriesExhausted;
      r, retriesExhausted := RetryOrFail(key, {transactionId}, transactionId, eventId, maxRetry, topic, newId);
      if retriesExhausted {
        r := Failure(RetriesExhausted);
      }
    }

    /** `outFirst`: which of the two updated rows the database returns first. */
    method RecreateTransferOutboxEvent(key: Key, outId: Id, inId: Id, eventId: Id, maxRetry: nat, topic: Topic,
                                       newId: Id,
                                       outFirst: bool)
      returns (r: Result<()>)
      requires Valid()
      modifies this
      ensures Valid()
      ensures var spec := L.RecreateTransferOutboxEvent(old(Db()), key, outId, inId, eventId, maxRetry, topic, newId,
                                                        outFirst);
              && Db() == L.SettledRecreation(old(Db()), spec)
              && (if spec.Success? && spec.value.exhausted then r == Failure(RetriesExhausted)
                  else SameOutcome(r, spec))
      ensures r.Failure? && r.error != RetriesExhausted ==> Db() == old(Db())
    {
      if key in processed {
        return Success(());
      }
      FoundTwo(outId, inId, transactions.Keys);
      if |{outId, inId} * transactions.Keys| < 2 {
        return Failure(NotFound);
      }
      var first := if outFirst then outId else inId;
      var retriesExhausted;
      r, retriesExhausted := RetryOrFail(key, {outId, inId}, first, eventId, maxRetry, topic, newId);
      if retriesExhausted {
        r := Failure(RetriesExhausted);
      }
    }
  }

  /** The handler of a transfer's failure is its transaction, once the header is there. */
  lemma TransferFailedIs(db: L.Db, key: Key, eventId: Id, outId: Id, inId: Id, maxRetry: nat, newId: Id, outFirst: bool)
    requires key != ""
    ensures L.HandleReply(db, Some(key), TRANSFER_FAILED, TransferReply(eventId, outId, inId), maxRetry, newId,
                          outFirst)
         == L.SettledRecreation(db, L.RecreateTransferOutboxEvent(db, key, outId, inId, eventId, maxRetry,
                                                                  TRANSFER_FAILED, newId, outFirst))
  {
  }

  /** The consumers of the replies; whatever the repository throws is logged and dropped. */
  class KafkaProcessService {
    const txRepo: TransactionRepository
    const MAX_RETRY: nat

    constructor (txRepo: TransactionRepository, maxRetry: nat)
      ensures this.txRepo == txRepo && MAX_RETRY == maxRetry
    {
      this.txRepo, MAX_RETRY := txRepo, maxRetry;
    }

    method ProcessingCreditingSuccess(header: Option<Key>, eventId: Id, transactionId: Id)
      requires txRepo.Valid()
      modifies txRepo
      ensures txRepo.Valid()
      ensures txRepo.Db() == L.HandleReply(old(txRepo.Db()), header, DEPOSIT_CREDITING_SUCCESS,
                                           DepositReply(eventId, transactionId), MAX_RETRY, 0, true)
      ensures header.None? || header.value == "" || header.value in old(txRepo.processed) ==>
                txRepo.Db() == old(txRepo.Db())
      ensures LI.Inv(old(txRepo.Db()), MAX_RETRY)
                && LI.Answers(old(txRepo.Db()), DepositReply(eventId, transactionId)) ==>
                LI.Inv(txRepo.Db(), MAX_RETRY)
    {
      LI.HandleReplyKeeps(txRepo.Db(), header, DEPOSIT_CREDITING_SUCCESS, DepositReply(eventId, transactionId), 0,
                          true, MAX_RETRY);
      if header.None? || header.value == "" {
        return;
      }
      var _ := txRepo.SetStatusUpdatedAndCreateProcessedEvent(header.value, transactionId);
    }

    method ProcessingCreditingFailed(header: Option<Key>, eventId: Id, transactionId: Id, newId: Id)
      requires txRepo.Valid()
      modifies txRepo
      ensures txRepo.Valid()
      ensures txRepo.Db() == L.HandleReply(old(txRepo.Db()), header, DEPOSIT_CREDITING_FAILED,
                                           DepositReply(eventId, transactionId), MAX_RETRY, newId, true)
      ensures header.None? || header.value == "" || header.value in old(txRepo.processed) ==>
                txRepo.Db() == old(txRepo.Db())
      ensures LI.Inv(old(txRepo.Db()), MAX_RETRY)
                && LI.Answers(old(txRepo.Db()), DepositReply(eventId, transactionId)) ==>
                LI.Inv(txRepo.Db(), MAX_RETRY)
    {
      LI.HandleReplyKeeps(txRepo.Db(), header, DEPOSIT_CREDITING_FAILED, DepositReply(eventId, transactionId), newId,
                          true, MAX_RETRY);
      if header.None? || header.value == "" {
        return;
      }
      var _ := txRepo.RecreateOutboxEvent(header.value, transactionId, eventId, MAX_RETRY, DEPOSIT_CREDITING_FAILED,
                                          newId);
    }

    method ProcessingTransferSuccess(header: Option<Key>, eventId: Id, outId: Id, inId: Id)
      requires txRepo.Valid()
      modifies txRepo
      ensures txRepo.Valid()
      ensures txRepo.Db() == L.HandleReply(old(txRepo.Db()), header, TRANSFER_SUCCESS,
                                           TransferReply(eventId, outId, inId), MAX_RETRY, 0, true)
      ensures header.None? || header.value == "" || header.value in old(txRepo.processed) ==>
                txRepo.Db() == old(txRepo.Db())
      ensures LI.Inv(old(txRepo.Db()), MAX_RETRY)
                && LI.Answers(old(txRepo.Db()), TransferReply(eventId, outId, inId)) ==>
                LI.Inv(txRepo.Db(), MAX_RETRY)
    {
      LI.HandleReplyKeeps(txRepo.Db(), header, TRANSFER_SUCCESS, TransferReply(eventId, outId, inId), 0, true,
                          MAX_RETRY);
      if header.None? || header.value == "" {
        return;
      }
      var _ := txRepo.SetStatusUpdatedByIdsAndCreateProcessedEvent(header.value, outId, inId);
    }

    method ProcessingTransferFailed(header: Option<Key>, eventId: Id, outId: Id, inId: Id, newId: Id, outFirst: bool)
      requires txRepo.Valid()
      modifies txRepo
      ensures txRepo.Valid()
      ensures txRepo.Db() == L.HandleReply(old(txRepo.Db()), header, TRANSFER_FAILED,
                                           TransferReply(eventId, outId, inId), MAX_RETRY, newId, outFirst)
      ensures header.None? || header.value == "" || header.value in old(txRepo.processed) ==>
                txRepo.Db() == old(txRepo.Db())
      ensures LI.Inv(old(txRepo.Db()), MAX_RETRY)
                && LI.Answers(old(txRepo.Db()), TransferReply(eventId, outId, inId)) ==>
                LI.Inv(txRepo.Db(), MAX_RETRY)
    {
      LI.HandleReplyKeeps(txRepo.Db(), header, TRANSFER_FAILED, TransferReply(eventId, outId, inId), newId, outFirst,
                          MAX_RETRY);
      if header.None? || header.value == "" {
        return;
      }
      TransferFailedIs(txRepo.Db(), header.value, eventId, outId, inId, MAX_RETRY, newId, outFirst);
      var _ := txRepo.RecreateTransferOutboxEvent(header.value, outId, inId, eventId, MAX_RETRY, TRANSFER_FAILED, newId,
                                                  outFirst);
    }
  }

  /** A confirmed event settles the pending deposit of its payment, as the event says. */
  lemma WebhookSettles(db: L.Db, event: L.WebhookEvent, payment: string, verified: Option<string>, eventId: Id)
    requires L.Unique(db.transactions)
    ensures event == L.PaymentSucceeded && verified.Some? ==>
              forall t | LC.PaysFor(db, verified.value, t) ::
                L.Webhook(db, event, payment, verified, eventId)
                == if db.transactions[t].status == L.PENDING && eventId !in db.outbox then LC.Paid(db, t, eventId)
                   else db
    ensures event == L.PaymentCanceled && verified.Some? ==>
              forall t | LC.PaysFor(db, payment, t) ::
                L.Webhook(db, event, payment, verified, eventId)
                == if db.transactions[t].status == L.PENDING then LC.TimedOut(db, t) else db
  {
    if event == L.PaymentSucceeded && verified.Some? {
      forall t | LC.PaysFor(db, verified.value, t)
        ensures L.Webhook(db, event, payment, verified, eventId)
             == if db.transactions[t].status == L.PENDING && eventId !in db.outbox then LC.Paid(db, t, eventId) else db
      {
        LC.SucceededDoes(db, payment, verified.value, eventId, t);
      }
    } else if event == L.PaymentCanceled && verified.Some? {
      forall t | LC.PaysFor(db, payment, t)
        ensures L.Webhook(db, event, payment, verified, eventId)
             == if db.transactions[t].status == L.PENDING then LC.TimedOut(db, t) else db
      {
        LC.CanceledDoes(db, payment, verified.value, eventId, t);
      }
    }
  }

  /** The provider's webhook; `verified` is what the provider answers when asked about the payment. */
  class YookassaWebhookService {
    const txRepo: TransactionRepository

    constructor (txRepo: TransactionRepository)
      ensures this.txRepo == txRepo
    {
      this.txRepo := txRepo;
    }

    method Processing(event: L.WebhookEvent, payment: string, verified: Option<string>, eventId: Id) returns (ok: bool)
      requires txRepo.Valid()
      modifies txRepo
      ensures txRepo.Valid()
      ensures txRepo.Db() == L.Webhook(old(txRepo.Db()), event, payment, verified, eventId)
      ensures ok <==> event == L.Unknown || txRepo.Db() != old(txRepo.Db())
      ensures event == L.Unknown || verified.None? ==> txRepo.Db() == old(txRepo.Db())
      ensures event == L.PaymentSucceeded && verified.Some? ==>
                forall t | LC.PaysFor(old(txRepo.Db()), verified.value, t) ::
                  txRepo.Db() == if old(txRepo.transactions)[t].status == L.PENDING && eventId !in old(txRepo.outbox)
                                 then LC.Paid(old(txRepo.Db()), t, eventId) else old(txRepo.Db())
      ensures event == L.PaymentCanceled && verified.Some? ==>
                forall t | LC.PaysFor(old(txRepo.Db()), payment, t) ::
                  txRepo.Db() == if old(txRepo.transactions)[t].status == L.PENDING
                                 then LC.TimedOut(old(txRepo.Db()), t) else old(txRepo.Db())
      ensures forall m | LI.Inv(old(txRepo.Db()), m) :: LI.Inv(txRepo.Db(), m)
    {
      WebhookSettles(txRepo.Db(), event, payment, verified, eventId);
      if event == L.Unknown {
        return true;
      }
      if verified.None? {
        return false;
      }
      var r;
      if event == L.PaymentSucceeded {
        r := txRepo.SetStatusCompletedAndCreateOutboxEvent(verified.value, eventId);
      } else {
        r := txRepo.SetStatusTimeout(payment);
      }
      ok := r.Success?;
    }
  }

  /** The two calls that start a saga; validation and payment creation are the environment's. */
  class GrpcProcessService {
    const txRepo: TransactionRepository

    constructor (txRepo: TransactionRepository)
      ensures this.txRepo == txRepo
    {
      this.txRepo := txRepo;
    }

    /** `payment` is the id the provider gave the payment, if it made one together with a link. */
    method DepositRub(id: Id, accountId: Id, amount: int, key: Key, validated: bool, payment: Option<string>)
      returns (ok: bool)
      requires txRepo.Valid()
      modifies txRepo
      ensures txRepo.Valid()
      ensures txRepo.Db() == if validated && payment.Some?
                             then L.DepositRub(old(txRepo.Db()), id, accountId, amount, key, payment.value)
                             else old(txRepo.Db())
      ensures txRepo.Db()
           == if validated && payment.Some? && LC.DepositFree(old(txRepo.Db()), id, key, payment.value)
              then
                var row := L.Transaction(accountId, amount, "RUB", L.DEPOSIT, L.PENDING, key, 0, payment, None);
                L.Db(old(txRepo.transactions)[id := row], old(txRepo.outbox), old(txRepo.processed))
              else old(txRepo.Db())
      ensures ok <==> validated && payment.Some? && L.KeyTaken(txRepo.transactions, key)
      ensures amount > 0 ==> forall m | LI.Inv(old(txRepo.Db()), m) :: LI.Inv(txRepo.Db(), m)
    {
      ghost var was := txRepo.Db();
      if payment.Some? {
        LC.DepositRubDoes(was, id, accountId, amount, key, payment.value);
      }
      if validated && payment.Some? && amount > 0 {
        forall m | LI.Inv(was, m) ensures LI.Inv(L.DepositRub(was, id, accountId, amount, key, payment.value), m) {
          LI.DepositRubKeeps(was, id, accountId, amount, key, payment.value, m);
        }
      }
      if !validated || payment.None? {
        return false;
      }
      var data := L.Transaction(accountId, amount, "RUB", L.DEPOSIT, L.PENDING, key, 0, payment, None);
      var r := txRepo.Create(id, data);
      ok := r.Success?;
    }

    /** `available` is the sender balance the balance service reported, if both accounts are valid. */
    method TransferRub(accountId: Id, toAccountId: Id, amount: int, available: Option<int>, key: Key,
                       outId: Id, inId: Id, eventId: Id) returns (ok: bool)
      requires txRepo.Valid()
      modifies txRepo
      ensures txRepo.Valid()
      ensures txRepo.Db() == if available.Some?
                             then L.TransferRub(old(txRepo.Db()), accountId, toAccountId, amount, available.value, key,
                                                outId, inId, eventId)
                             else old(txRepo.Db())
      ensures if available.Some? && accountId != toAccountId && amount <= available.value
                 && LC.TransferFree(old(txRepo.Db()), key, outId, inId, eventId)
              then LC.TransferMade(old(txRepo.Db()), txRepo.Db(), accountId, toAccountId, amount, "RUB", key, outId,
                                   inId, eventId)
              else txRepo.Db() == old(txRepo.Db())
      ensures ok <==> available.Some? && accountId != toAccountId && amount <= available.value
                      && L.KeyTaken(txRepo.transactions, key)
      ensures amount > 0 ==> forall m | LI.Inv(old(txRepo.Db()), m) :: LI.Inv(txRepo.Db(), m)
    {
      ghost var was := txRepo.Db();
      LC.CreateTransferDoes(was, accountId, toAccountId, amount, "RUB", key, outId, inId, eventId);
      if available.Some? && amount > 0 {
        forall m | LI.Inv(was, m)
          ensures LI.Inv(L.TransferRub(was, accountId, toAccountId, amount, available.value, key, outId, inId,
                                       eventId), m)
        {
          LI.TransferRubKeeps(was, accountId, toAccountId, amount, available.value, key, outId, inId, eventId, m);
        }
      }
      if accountId == toAccountId || available.None? || available.value < amount {
        return false;
      }
      var r := txRepo.CreateTransfer(accountId, toAccountId, amount, "RUB", key, outId, inId, eventId);
      ok := r.Success?;
    }
  }
}
