/** What every transaction of the ledger keeps, whatever the order and repetition of the calls. */
module LedgerInvariant {
  import opened Common
  import opened Ledger

  /** The two legs of one transfer, in lock-step. */
  ghost predicate Pair(txs: map<Id, Transaction>, o: Id, i: Id) {
    && o in txs && i in txs
    && txs[o].typ == TRANSFER_OUT && txs[i].typ == TRANSFER_IN
    && txs[o].referenceId == Some(i) && txs[i].referenceId == Some(o)
    && txs[o].amount == -txs[i].amount < 0
    && txs[o].currency == txs[i].currency && txs[o].accountId != txs[i].accountId
    && txs[o].status == txs[i].status
    && txs[o].retryCount == txs[i].retryCount
    && txs[o].providerPaymentId == txs[i].providerPaymentId == None
  }

  ghost predicate DepositOk(t: Transaction) {
    && t.typ == DEPOSIT
    && t.amount > 0
    && t.providerPaymentId.Some?
    && t.referenceId == None
    && (t.status == PENDING ==> t.retryCount == 0)
  }

  ghost predicate TransactionOk(txs: map<Id, Transaction>, id: Id)
    requires id in txs
  {
    var t := txs[id];
    match t.typ
    case DEPOSIT => DepositOk(t)
    case TRANSFER_OUT => t.referenceId.Some? && Pair(txs, id, t.referenceId.value)
    case TRANSFER_IN => t.referenceId.Some? && Pair(txs, t.referenceId.value, id)
  }

  ghost predicate TransactionsOk(txs: map<Id, Transaction>) {
    forall id {:trigger TransactionOk(txs, id)} | id in txs :: TransactionOk(txs, id)
  }

  /** The order names a transaction that was settled, and carries its account, currency and amount. */
  ghost predicate OrderMatches(txs: map<Id, Transaction>, p: Payload) {
    match p
    case DepositOrder(_, t, a, c, n) =>
      && t in txs && txs[t].typ == DEPOSIT
      && txs[t].accountId == a && txs[t].currency == c && txs[t].amount == n
      && txs[t].status != PENDING && txs[t].status != TIMEOUT
    case TransferOrder(_, o, i, f, t, c, n) =>
      && Pair(txs, o, i)
      && txs[o].accountId == f && txs[i].accountId == t && txs[i].currency == c && txs[i].amount == n
    case _ => false
  }

  predicate SameEvent(a: OutboxEvent, b: OutboxEvent) {
    a.transactionId == b.transactionId && a.topic == b.topic && a.payload == b.payload
  }

  /** A row of the outbox is an order of its own transaction and a copy of the row its payload names. */
  ghost predicate EventOk(db: Db, r: Id)
    requires r in db.outbox
  {
    var e := db.outbox[r];
    && OrderMatches(db.transactions, e.payload)
    && e.transactionId == e.payload.SagaId()
    && e.topic == e.payload.OrderTopic()
    && e.payload.eventId in db.outbox
    && SameEvent(db.outbox[e.payload.eventId], e)
  }

  ghost predicate EventsOk(db: Db) {
    forall r {:trigger EventOk(db, r)} | r in db.outbox :: EventOk(db, r)
  }

  function EventsOf(outbox: map<Id, OutboxEvent>, t: Id): set<Id> {
    set r | r in outbox && outbox[r].transactionId == t
  }

  /** Incoming legs get no order; a deposit gets none before it is paid. */
  predicate OrdersDueNone(t: Transaction) {
    t.typ == TRANSFER_IN || (t.typ == DEPOSIT && (t.status == PENDING || t.status == TIMEOUT))
  }

  /** A transaction gets its first order when it is settled, then one an admitted retry. */
  function OrdersDue(t: Transaction, maxRetry: nat): nat {
    if OrdersDueNone(t) then 0
    else 1 + Min(t.retryCount, Max(0, maxRetry - 1))
  }

  ghost predicate CountsOk(db: Db, maxRetry: nat) {
    forall t {:trigger EventsOf(db.outbox, t)} | t in db.transactions ::
          |EventsOf(db.outbox, t)| == OrdersDue(db.transactions[t], maxRetry)
  }

  ghost predicate FailuresOk(txs: map<Id, Transaction>, maxRetry: nat) {
    forall t | t in txs && txs[t].status == FAILED :: txs[t].retryCount >= maxRetry
  }

  ghost predicate Inv(db: Db, maxRetry: nat) {
    && TransactionsOk(db.transactions)
    && EventsOk(db)
    && CountsOk(db, maxRetry)
    && FailuresOk(db.transactions, maxRetry)
  }

  /** A reply carries the ids of an order in the outbox. */
  ghost predicate Answers(db: Db, p: Payload) {
    && !p.IsOrder()
    && p.eventId in db.outbox
    && db.outbox[p.eventId].payload.Reply() == p
  }

  // ---- Counting the rows of a transaction ----

  lemma EventsOfInsert(outbox: map<Id, OutboxEvent>, r: Id, e: OutboxEvent, t: Id)
    requires r !in outbox
    ensures |EventsOf(outbox[r := e], t)| == |EventsOf(outbox, t)| + if e.transactionId == t then 1 else 0
  {
    if e.transactionId == t {
      assert EventsOf(outbox[r := e], t) == EventsOf(outbox, t) + {r};
    } else {
      assert EventsOf(outbox[r := e], t) == EventsOf(outbox, t);
    }
  }

  lemma NoEvents(db: Db, t: Id)
    requires EventsOk(db)
    requires t !in db.transactions || OrdersDueNone(db.transactions[t])
    ensures EventsOf(db.outbox, t) == {}
  {
    forall r | r in db.outbox ensures db.outbox[r].transactionId != t {
      assert EventOk(db, r);
    }
  }

  /** Adding a row for `e.transactionId` and settling or retrying that transaction go together. */
  lemma CountsAfter(db: Db, db': Db, r: Id, e: OutboxEvent, maxRetry: nat)
    requires CountsOk(db, maxRetry)
    requires r !in db.outbox && db'.outbox == db.outbox[r := e]
    requires db'.transactions.Keys == db.transactions.Keys
    requires forall t | t in db.transactions ::
               OrdersDue(db'.transactions[t], maxRetry)
               == OrdersDue(db.transactions[t], maxRetry) + if e.transactionId == t then 1 else 0
    ensures CountsOk(db', maxRetry)
  {
    forall t | t in db'.transactions ensures |EventsOf(db'.outbox, t)| == OrdersDue(db'.transactions[t], maxRetry) {
      EventsOfInsert(db.outbox, r, e, t);
    }
  }

  // ---- Every transaction keeps the invariant ----

  lemma DepositRubKeeps(db: Db, id: Id, accountId: Id, amount: int, key: Key, payment: string, maxRetry: nat)
    requires Inv(db, maxRetry) && amount > 0
    ensures Inv(DepositRub(db, id, accountId, amount, key, payment), maxRetry)
  {
    var db' := DepositRub(db, id, accountId, amount, key, payment);
    if db' != db {
      forall t | t in db.transactions ensures TransactionOk(db'.transactions, t) {
        assert TransactionOk(db.transactions, t);
      }
      forall r | r in db.outbox ensures EventOk(db', r) {
        assert EventOk(db, r);
      }
      NoEvents(db, id);
    }
  }

  lemma TransferRubKeeps(db: Db, f: Id, t: Id, amount: int, available: int, key: Key, o: Id, i: Id, e: Id,
                         maxRetry: nat)
    requires Inv(db, maxRetry) && amount > 0
    ensures Inv(TransferRub(db, f, t, amount, available, key, o, i, e), maxRetry)
  {
    var db' := TransferRub(db, f, t, amount, available, key, o, i, e);
    if db' != db {
      TransferAdded(db, db', o, i, e, maxRetry);
    }
  }

  /** Two new legs in lock-step, and the order for both. */
  lemma TransferAdded(db: Db, db': Db, o: Id, i: Id, e: Id, maxRetry: nat)
    requires Inv(db, maxRetry)
    requires o !in db.transactions && i !in db.transactions && e !in db.outbox
    requires Pair(db'.transactions, o, i)
    requires db'.transactions == db.transactions[o := db'.transactions[o]][i := db'.transactions[i]]
    requires db'.transactions[o].status == PENDING && db'.transactions[o].retryCount == 0
    requires e in db'.outbox && db'.outbox == db.outbox[e := db'.outbox[e]] && EventOk(db', e)
    requires db'.outbox[e].transactionId == o
    ensures Inv(db', maxRetry)
  {
    forall id | id in db'.transactions ensures TransactionOk(db'.transactions, id) {
      assert id in db.transactions ==> TransactionOk(db.transactions, id);
    }
    forall r | r in db'.outbox ensures EventOk(db', r) {
      assert r in db.outbox ==> EventOk(db, r);
    }
    NoEvents(db, o);
    NoEvents(db, i);
    forall id | id in db'.transactions
      ensures |EventsOf(db'.outbox, id)| == OrdersDue(db'.transactions[id], maxRetry)
    {
      EventsOfInsert(db.outbox, e, db'.outbox[e], id);
    }
  }

  lemma CompletedKeeps(db: Db, payment: string, eventId: Id, maxRetry: nat)
    requires Inv(db, maxRetry)
    ensures Inv(Settled(db, SetStatusCompletedAndCreateOutboxEvent(db, payment, eventId)), maxRetry)
  {
    var db' := Settled(db, SetStatusCompletedAndCreateOutboxEvent(db, payment, eventId));
    if db' != db {
      var id := FindByPayment(db.transactions, payment).value;
      assert TransactionOk(db.transactions, id);
      DepositPaid(db, db', id, eventId, maxRetry);
    }
  }

  /** A pending deposit is completed, and its order is written with it. */
  lemma DepositPaid(db: Db, db': Db, id: Id, eventId: Id, maxRetry: nat)
    requires Inv(db, maxRetry) && id in db.transactions && eventId !in db.outbox
    requires var t := db.transactions[id];
             && t.typ == DEPOSIT && t.status == PENDING && t.retryCount == 0
             && db'.transactions == db.transactions[id := t.(status := COMPLETED)]
             && db'.outbox == db.outbox[eventId := OutboxEvent(id, DEPOSIT_PAID_SUCCESS,
                                          DepositOrder(eventId, id, t.accountId, t.currency, t.amount), false)]
    ensures Inv(db', maxRetry)
  {
    forall t | t in db.transactions ensures TransactionOk(db'.transactions, t) {
      assert TransactionOk(db.transactions, t);
    }
    forall r | r in db'.outbox ensures EventOk(db', r) {
      assert r in db.outbox ==> EventOk(db, r);
    }
    CountsAfter(db, db', eventId, db'.outbox[eventId], maxRetry);
  }

  lemma TimeoutKeeps(db: Db, payment: string, maxRetry: nat)
    requires Inv(db, maxRetry)
    ensures Inv(Settled(db, SetStatusTimeout(db, payment)), maxRetry)
  {
    var db' := Settled(db, SetStatusTimeout(db, payment));
    if db' != db {
      var id := FindByPayment(db.transactions, payment).value;
      assert TransactionOk(db.transactions, id);
      NoEventsWhilePending(db, id);
      forall t | t in db.transactions ensures TransactionOk(db'.transactions, t) {
        assert TransactionOk(db.transactions, t);
      }
      forall r | r in db.outbox ensures EventOk(db', r) {
        assert EventOk(db, r);
      }
    }
  }

  lemma NoEventsWhilePending(db: Db, id: Id)
    requires EventsOk(db) && id in db.transactions && db.transactions[id].typ == DEPOSIT
    ensures db.transactions[id].status == PENDING || db.transactions[id].status == TIMEOUT ==>
              forall r | r in db.outbox :: db.outbox[r].payload.SagaId() != id
  {
    forall r | r in db.outbox && db.outbox[r].payload.SagaId() == id
      ensures db.transactions[id].status != PENDING && db.transactions[id].status != TIMEOUT
    {
      assert EventOk(db, r);
    }
  }

  lemma WebhookKeeps(db: Db, event: WebhookEvent, payment: string, verified: Option<string>, eventId: Id, maxRetry: nat)
    requires Inv(db, maxRetry)
    ensures Inv(Webhook(db, event, payment, verified, eventId), maxRetry)
  {
    TimeoutKeeps(db, payment, maxRetry);
    if verified.Some? {
      CompletedKeeps(db, verified.value, eventId, maxRetry);
    }
  }

  lemma MarkKeeps(db: Db, ids: set<Id>, maxRetry: nat)
    requires Inv(db, maxRetry)
    ensures Inv(MarkEventsAsProcessed(db, ids), maxRetry)
  {
    var db' := MarkEventsAsProcessed(db, ids);
    forall r | r in db'.outbox ensures EventOk(db', r) {
      assert EventOk(db, r);
      assert EventOk(db, db.outbox[r].payload.eventId);
    }
    forall t | t in db.transactions ensures EventsOf(db'.outbox, t) == EventsOf(db.outbox, t) {
    }
  }

  /** The rows a reply is about: a settled deposit or both legs of a transfer. */
  ghost predicate Closed(txs: map<Id, Transaction>, ids: set<Id>, t: Id) {
    && t in ids && ids <= txs.Keys
    && match txs[t].typ
       case DEPOSIT => ids == {t} && txs[t].status != PENDING && txs[t].status != TIMEOUT
       case TRANSFER_OUT => txs[t].referenceId.Some? && Pair(txs, t, txs[t].referenceId.value)
                            && ids == {t, txs[t].referenceId.value}
       case TRANSFER_IN => false
  }

  function Updated(txs: map<Id, Transaction>, ids: set<Id>, status: Status, retried: nat): map<Id, Transaction> {
    map id | id in txs :: if id in ids then txs[id].(status := status, retryCount := retried) else txs[id]
  }

  lemma PairUpdated(txs: map<Id, Transaction>, ids: set<Id>, t: Id, status: Status, retried: nat, o: Id, i: Id)
    requires Closed(txs, ids, t) && Pair(txs, o, i)
    ensures Pair(Updated(txs, ids, status, retried), o, i)
  {
    assert o in ids <==> i in ids;
  }

  lemma OrderUpdated(txs: map<Id, Transaction>, ids: set<Id>, t: Id, status: Status, retried: nat, p: Payload)
    requires Closed(txs, ids, t) && OrderMatches(txs, p)
    requires (status != PENDING && status != TIMEOUT) || status == txs[t].status
    ensures OrderMatches(Updated(txs, ids, status, retried), p)
  {
    if p.TransferOrder? {
      PairUpdated(txs, ids, t, status, retried, p.outId, p.inId);
    }
  }

  /** Changing the status and the counter of such rows together breaks nothing but the row count. */
  lemma UpdateKeeps(db: Db, db': Db, ids: set<Id>, t: Id, status: Status, retried: nat, maxRetry: nat)
    requires Inv(db, maxRetry) && Closed(db.transactions, ids, t)
    requires (status != PENDING && status != TIMEOUT) || status == db.transactions[t].status
    requires status == FAILED ==> retried >= maxRetry
    requires db'.transactions == Updated(db.transactions, ids, status, retried)
    requires db'.outbox == db.outbox
    ensures TransactionsOk(db'.transactions) && EventsOk(db')
    ensures FailuresOk(db'.transactions, maxRetry)
  {
    forall id | id in db'.transactions ensures TransactionOk(db'.transactions, id) {
      assert TransactionOk(db.transactions, id);
      var tx := db.transactions[id];
      if tx.typ == TRANSFER_OUT {
        PairUpdated(db.transactions, ids, t, status, retried, id, tx.referenceId.value);
      } else if tx.typ == TRANSFER_IN {
        PairUpdated(db.transactions, ids, t, status, retried, tx.referenceId.value, id);
      }
    }
    forall r | r in db.outbox ensures EventOk(db', r) {
      assert EventOk(db, r);
      OrderUpdated(db.transactions, ids, t, status, retried, db.outbox[r].payload);
    }
  }

  lemma AnswersClosed(db: Db, p: Payload, maxRetry: nat) returns (ids: set<Id>)
    requires Inv(db, maxRetry) && Answers(db, p)
    ensures ids == if p.DepositReply? then {p.transactionId} else {p.outId, p.inId}
    ensures Closed(db.transactions, ids, p.SagaId())
    ensures p.TransferReply? ==> Pair(db.transactions, p.outId, p.inId)
    ensures db.outbox[p.eventId].transactionId == p.SagaId()
  {
    ids := if p.DepositReply? then {p.transactionId} else {p.outId, p.inId};
    assert EventOk(db, p.eventId);
  }

  lemma AnswersEvent(db: Db, p: Payload, maxRetry: nat)
    requires Inv(db, maxRetry) && Answers(db, p)
    ensures db.outbox[p.eventId].payload.SagaId() == p.SagaId()
  {
    assert EventOk(db, p.eventId);
  }

  lemma UpdatedKeeps(db: Db, key: Key, p: Payload, maxRetry: nat)
    requires Inv(db, maxRetry) && Answers(db, p)
    ensures p.DepositReply? ==> Inv(Settled(db, ConfirmDeposit(db, key, p.transactionId)), maxRetry)
    ensures p.TransferReply? ==> Inv(Settled(db, ConfirmTransfer(db, key, p.outId, p.inId)), maxRetry)
  {
    var ids := AnswersClosed(db, p, maxRetry);
    var db' := Settled(db, if p.DepositReply? then ConfirmDeposit(db, key, p.transactionId)
                           else ConfirmTransfer(db, key, p.outId, p.inId));
    if db' != db {
      UpdateKeeps(db, db', ids, p.SagaId(), BALANCE_UPDATED, db.transactions[p.SagaId()].retryCount, maxRetry);
    }
  }

  /**
   What a retry does, row order aside: both legs have the same counter, so the row whose counter is
   compared does not matter; and the event it copies exists, so a retry fails only on an id taken already or
   on a key that another transaction inserted meanwhile. Giving up fails on nothing.
   */
  lemma RecreateShape(db: Db, key: Key, ids: set<Id>, t: Id, first: Id, eventId: Id, newId: Id, topic: Topic,
                      maxRetry: nat)
    requires Closed(db.transactions, ids, t) && first in ids
    requires eventId in db.outbox && db.outbox[eventId].transactionId == t
    ensures var r := Recreate(db, key, ids, first, eventId, maxRetry, topic, newId);
            var retried := db.transactions[t].retryCount + 1;
            var admitted := retried < maxRetry;
            && (r.Failure? <==> admitted && (newId in db.outbox || key in db.processed))
            && (r.Success? ==>
                  && r.value.exhausted == !admitted
                  && r.value.db.transactions
                     == Updated(db.transactions, ids, if admitted then db.transactions[t].status else FAILED, retried)
                  && r.value.db.outbox
                     == (if admitted then db.outbox[newId := db.outbox[eventId].(processed := false)] else db.outbox)
                  && r.value.db.processed == (if admitted then db.processed[key := topic] else db.processed))
  {
    RetriedTogether(db.transactions, ids, t);
  }

  /** All rows a reply is about have the same status and the same counter. */
  lemma RetriedTogether(txs: map<Id, Transaction>, ids: set<Id>, t: Id)
    requires Closed(txs, ids, t)
    ensures var retried := txs[t].retryCount + 1;
            && Retried(txs, ids) == Updated(txs, ids, txs[t].status, retried)
            && SetStatus(Retried(txs, ids), ids, FAILED) == Updated(txs, ids, FAILED, retried)
  {
    assert forall id | id in ids :: txs[id].retryCount == txs[t].retryCount && txs[id].status == txs[t].status;
  }

  lemma RecreateKeeps(db: Db, key: Key, ids: set<Id>, t: Id, first: Id, eventId: Id, newId: Id, topic: Topic,
                      maxRetry: nat)
    requires Inv(db, maxRetry) && Closed(db.transactions, ids, t) && first in ids
    requires eventId in db.outbox && db.outbox[eventId].transactionId == t
    ensures Inv(SettledRecreation(db, Recreate(db, key, ids, first, eventId, maxRetry, topic, newId)), maxRetry)
  {
    RecreateShape(db, key, ids, t, first, eventId, newId, topic, maxRetry);
    var r := Recreate(db, key, ids, first, eventId, maxRetry, topic, newId);
    if r.Success? && !r.value.exhausted {
      CopyKeeps(db, r.value.db, ids, t, eventId, newId, maxRetry);
    } else if r.Success? {
      ExhaustKeeps(db, r.value.db, ids, t, maxRetry);
    }
  }

  lemma ExhaustKeeps(db: Db, db': Db, ids: set<Id>, t: Id, maxRetry: nat)
    requires Inv(db, maxRetry) && Closed(db.transactions, ids, t)
    requires var retried := db.transactions[t].retryCount + 1;
             retried >= maxRetry && db'.transactions == Updated(db.transactions, ids, FAILED, retried)
    requires db'.outbox == db.outbox
    ensures Inv(db', maxRetry)
  {
    UpdateKeeps(db, db', ids, t, FAILED, db.transactions[t].retryCount + 1, maxRetry);
    forall id | id in db.transactions
      ensures OrdersDue(db'.transactions[id], maxRetry) == OrdersDue(db.transactions[id], maxRetry)
    {
    }
  }

  /** Adding the copy of an order along with an admitted retry. */
  lemma CopyKeeps(db: Db, db': Db, ids: set<Id>, t: Id, eventId: Id, newId: Id, maxRetry: nat)
    requires Inv(db, maxRetry) && Closed(db.transactions, ids, t)
    requires eventId in db.outbox && newId !in db.outbox && db.outbox[eventId].transactionId == t
    requires db.transactions[t].retryCount + 1 < maxRetry
    requires db'.transactions == Updated(db.transactions, ids, db.transactions[t].status,
                                         db.transactions[t].retryCount + 1)
    requires db'.outbox == db.outbox[newId := db.outbox[eventId].(processed := false)]
    ensures Inv(db', maxRetry)
  {
    var status, retried := db.transactions[t].status, db.transactions[t].retryCount + 1;
    var db1 := db'.(outbox := db.outbox);
    UpdateKeeps(db, db1, ids, t, status, retried, maxRetry);
    CopyOk(db1, db', eventId, newId);
    RetryIsDue(db.transactions, ids, t, maxRetry);
    CountsAfter(db, db', newId, db'.outbox[newId], maxRetry);
  }

  lemma CopyOk(db: Db, db': Db, eventId: Id, newId: Id)
    requires EventsOk(db) && eventId in db.outbox && newId !in db.outbox && db'.transactions == db.transactions
    requires db'.outbox == db.outbox[newId := db.outbox[eventId].(processed := false)]
    ensures EventsOk(db')
  {
    forall q | q in db'.outbox ensures EventOk(db', q) {
      assert EventOk(db, if q == newId then eventId else q);
    }
  }

  /** An admitted retry is due one order more. */
  lemma RetryIsDue(txs: map<Id, Transaction>, ids: set<Id>, t: Id, maxRetry: nat)
    requires Closed(txs, ids, t) && txs[t].retryCount + 1 < maxRetry
    ensures var txs' := Updated(txs, ids, txs[t].status, txs[t].retryCount + 1);
            forall id | id in txs ::
              OrdersDue(txs'[id], maxRetry) == OrdersDue(txs[id], maxRetry) + if id == t then 1 else 0
  {
  }

  lemma ApplyReplyKeeps(db: Db, key: Key, topic: Topic, p: Payload, newId: Id, outFirst: bool, maxRetry: nat)
    requires Inv(db, maxRetry) && Answers(db, p)
    ensures Inv(ApplyReply(db, key, topic, p, maxRetry, newId, outFirst), maxRetry)
  {
    UpdatedKeeps(db, key, p, maxRetry);
    var ids := AnswersClosed(db, p, maxRetry);
    var first := if p.TransferReply? && !outFirst then p.inId else p.SagaId();
    RecreateKeeps(db, key, ids, p.SagaId(), first, p.eventId, newId, topic, maxRetry);
    if p.TransferReply? {
      FoundTwo(p.outId, p.inId, db.transactions.Keys);
    }
  }

  lemma HandleReplyKeeps(db: Db, header: Option<Key>, topic: Topic, p: Payload, newId: Id, outFirst: bool,
                         maxRetry: nat)
    ensures Inv(db, maxRetry) && Answers(db, p) ==>
              Inv(HandleReply(db, header, topic, p, maxRetry, newId, outFirst), maxRetry)
  {
    if Inv(db, maxRetry) && Answers(db, p) && header.Some? {
      ApplyReplyKeeps(db, header.value, topic, p, newId, outFirst, maxRetry);
    }
  }

  /** The rows a reply is about. */
  function Rows(p: Payload): set<Id> {
    match p
    case TransferReply(_, o, i) => {o, i}
    case _ => {p.SagaId()}
  }

  /**
   The four things a reply can do to the ledger, said row by row: give up, retry, confirm or nothing. With a key
   that was inserted since it was looked up, giving up is the only change left.
   */
  function Outcome(db: Db, key: Key, topic: Topic, p: Payload, newId: Id, maxRetry: nat): Db
    requires p.SagaId() in db.transactions && p.eventId in db.outbox
  {
    var t := db.transactions[p.SagaId()];
    var retried := t.retryCount + 1;
    if topic == p.FailedTopic() then
      if retried >= maxRetry then
        Db(Updated(db.transactions, Rows(p), FAILED, retried), db.outbox, db.processed)
      else if newId in db.outbox || key in db.processed then db
      else
        Db(Updated(db.transactions, Rows(p), t.status, retried),
           db.outbox[newId := db.outbox[p.eventId].(processed := false)], db.processed[key := topic])
    else if key in db.processed || (p.DepositReply? && t.status != COMPLETED) then db
    else Db(Updated(db.transactions, Rows(p), BALANCE_UPDATED, t.retryCount), db.outbox, db.processed[key := topic])
  }

  lemma ApplyReplyShape(db: Db, key: Key, topic: Topic, p: Payload, newId: Id, outFirst: bool, maxRetry: nat)
    requires Inv(db, maxRetry) && Answers(db, p)
    requires topic == p.SuccessTopic() || topic == p.FailedTopic()
    ensures Closed(db.transactions, Rows(p), p.SagaId())
    ensures ApplyReply(db, key, topic, p, maxRetry, newId, outFirst) == Outcome(db, key, topic, p, newId, maxRetry)
  {
    var ids := AnswersClosed(db, p, maxRetry);
    assert ids == Rows(p);
    if topic == p.SuccessTopic() {
      SuccessShape(db, key, p, newId, outFirst, maxRetry);
    } else {
      FailureShape(db, key, p, newId, outFirst, maxRetry);
    }
  }

  lemma SuccessShape(db: Db, key: Key, p: Payload, newId: Id, outFirst: bool, maxRetry: nat)
    requires Answers(db, p) && Closed(db.transactions, Rows(p), p.SagaId())
    ensures ApplyReply(db, key, p.SuccessTopic(), p, maxRetry, newId, outFirst)
         == Outcome(db, key, p.SuccessTopic(), p, newId, maxRetry)
  {
    var retried := db.transactions[p.SagaId()].retryCount;
    if p.TransferReply? {
      assert SetStatus(db.transactions, Rows(p), BALANCE_UPDATED)
          == Updated(db.transactions, Rows(p), BALANCE_UPDATED, retried);
    } else {
      assert db.transactions[p.transactionId := db.transactions[p.transactionId].(status := BALANCE_UPDATED)]
          == Updated(db.transactions, Rows(p), BALANCE_UPDATED, retried);
    }
  }

  lemma FailureShape(db: Db, key: Key, p: Payload, newId: Id, outFirst: bool, maxRetry: nat)
    requires Answers(db, p) && Closed(db.transactions, Rows(p), p.SagaId())
    requires db.outbox[p.eventId].transactionId == p.SagaId()
    requires p.TransferReply? ==> Pair(db.transactions, p.outId, p.inId)
    ensures ApplyReply(db, key, p.FailedTopic(), p, maxRetry, newId, outFirst)
         == Outcome(db, key, p.FailedTopic(), p, newId, maxRetry)
  {
    var first := if p.TransferReply? && !outFirst then p.inId else p.SagaId();
    if p.TransferReply? {
      FoundTwo(p.outId, p.inId, db.transactions.Keys);
    }
    RecreateShape(db, key, Rows(p), p.SagaId(), first, p.eventId, newId, p.FailedTopic(), maxRetry);
  }

  /** The reply under `key` confirmed its rows, was answered by a retry, or made the ledger give up. */
  ghost predicate Replied(db: Db, db': Db, key: Key, topic: Topic, p: Payload, status: Status, retried: nat,
                          maxRetry: nat) {
    && p.SagaId() in db.transactions
    && db'.transactions == Updated(db.transactions, Rows(p), status, retried)
    && (forall r | r in db.outbox :: r in db'.outbox && db'.outbox[r] == db.outbox[r])
    && (|| (&& status == BALANCE_UPDATED && topic == p.SuccessTopic()
            && key !in db.processed && db'.processed == db.processed[key := topic])
        || (&& status == db.transactions[p.SagaId()].status && topic == p.FailedTopic()
            && retried < maxRetry && db.transactions[p.SagaId()].retryCount < maxRetry
            && key !in db.processed && db'.processed == db.processed[key := topic])
        || (&& status == FAILED && topic == p.FailedTopic()
            && db'.processed == db.processed && db'.outbox == db.outbox))
  }

  lemma ApplyReplyReplied(db: Db, key: Key, topic: Topic, p: Payload, newId: Id, outFirst: bool, maxRetry: nat)
    returns (status: Status, retried: nat)
    requires Inv(db, maxRetry) && Answers(db, p)
    requires topic == p.SuccessTopic() || topic == p.FailedTopic()
    requires ApplyReply(db, key, topic, p, maxRetry, newId, outFirst) != db
    ensures Closed(db.transactions, Rows(p), p.SagaId())
    ensures Replied(db, ApplyReply(db, key, topic, p, maxRetry, newId, outFirst), key, topic, p, status, retried,
                    maxRetry)
  {
    ApplyReplyShape(db, key, topic, p, newId, outFirst, maxRetry);
    status, retried := OutcomeReplied(db, key, topic, p, newId, maxRetry);
  }

  lemma OutcomeReplied(db: Db, key: Key, topic: Topic, p: Payload, newId: Id, maxRetry: nat)
    returns (status: Status, retried: nat)
    requires Answers(db, p) && p.SagaId() in db.transactions
    requires topic == p.SuccessTopic() || topic == p.FailedTopic()
    requires Outcome(db, key, topic, p, newId, maxRetry) != db
    ensures Replied(db, Outcome(db, key, topic, p, newId, maxRetry), key, topic, p, status, retried, maxRetry)
  {
    var t := db.transactions[p.SagaId()];
    if topic == p.SuccessTopic() {
      status, retried := BALANCE_UPDATED, t.retryCount;
    } else {
      status, retried := if t.retryCount + 1 < maxRetry then t.status else FAILED, t.retryCount + 1;
    }
  }

  /** A reply neither settles a transaction nor takes that back. */
  lemma OutcomeDue(db: Db, key: Key, topic: Topic, p: Payload, newId: Id, maxRetry: nat, t: Id)
    requires Answers(db, p) && Closed(db.transactions, Rows(p), p.SagaId()) && t in db.transactions
    ensures var db' := Outcome(db, key, topic, p, newId, maxRetry);
            && db'.transactions.Keys == db.transactions.Keys
            && OrdersDueNone(db'.transactions[t]) == OrdersDueNone(db.transactions[t])
  {
  }
}
