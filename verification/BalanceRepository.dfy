/**
 The balances as the service has them: tables that the methods of the repository update in place, one
 database transaction a method, and the consumers of the orders on top.
 */
module BalanceRepository {
  import opened Common
  import A = Accounts
  import AL = AccountsLaws

  class BalanceRepository {
    var balances: map<A.Slot, A.Balance>
    var outbox: map<Id, A.OutboxEvent>
    var processed: map<Key, Topic>

    function Db(): A.Db
      reads this
    {
      A.Db(balances, outbox, processed)
    }

    constructor ()
      ensures Db() == A.Db(map[], map[], map[])
    {
      balances, outbox, processed := map[], map[], map[];
    }

    method DepositAndCreateOutboxEvent(key: Key, currency: Currency, amount: int, accountId: Id,
                                       transactionId: Id, eventId: Id, newId: Id) returns (r: Result<()>)
      modifies this
      ensures var spec := A.DepositAndCreateOutboxEvent(old(Db()), key, currency, amount, accountId, transactionId,
                                                        eventId, newId);
              && SameOutcome(r, spec)
              && Db() == if spec.Success? then spec.value else old(Db())
      ensures AL.NonNegative(old(balances)) && amount > 0 ==>
                && AL.NonNegative(balances)
                && forall c :: AL.Total(balances, c)
                               == AL.Total(old(balances), c)
                                  + if r.Success? && key !in old(processed) && c == currency then amount else 0
    {
      if AL.NonNegative(balances) && amount > 0 {
        AL.ExecuteTotals(Db(), key, DepositOrder(eventId, transactionId, accountId, currency, amount), newId);
      }
      var slot := A.Slot(accountId, currency);
      if slot !in balances {
        return Failure(NotFound);
      }
      if key in processed {
        return Success(());
      }
      var row := balances[slot].(amount := balances[slot].amount + amount);
      if row.amount < 0 {
        return Failure(CheckViolation);
      }
      if newId in outbox {
        return Failure(UniqueViolation);
      }
      balances := balances[slot := row];
      processed := processed[key := DEPOSIT_PAID_SUCCESS];
      outbox := outbox[newId := A.OutboxEvent(slot, DEPOSIT_CREDITING_SUCCESS, DepositReply(eventId, transactionId),
                                              false)];
      r := Success(());
    }

    method TransferAndCreateOutboxEvent(key: Key, fromAccountId: Id, toAccountId: Id, currency: Currency, amount: int,
                                        eventId: Id, outId: Id, inId: Id, newId: Id) returns (r: Result<()>)
      modifies this
      ensures var spec := A.TransferAndCreateOutboxEvent(old(Db()), key, fromAccountId, toAccountId, currency, amount,
                                                         eventId, outId, inId, newId);
              && SameOutcome(r, spec)
              && Db() == if spec.Success? then spec.value else old(Db())
      ensures AL.NonNegative(old(balances)) && amount > 0 ==>
                && AL.NonNegative(balances)
                && forall c :: AL.Total(balances, c) == AL.Total(old(balances), c)
    {
      if AL.NonNegative(balances) && amount > 0 {
        AL.ExecuteTotals(Db(), key, TransferOrder(eventId, outId, inId, fromAccountId, toAccountId, currency,
                                                  amount), newId);
      }
      if key in processed {
        return Success(());
      }
      var senderSlot, receiverSlot := A.Slot(fromAccountId, currency), A.Slot(toAccountId, currency);
      FoundTwo(senderSlot, receiverSlot, balances.Keys);
      var rows := map slot | slot in {senderSlot, receiverSlot} * balances.Keys :: balances[slot];
      assert rows.Keys == {senderSlot, receiverSlot} * balances.Keys;
      if |rows.Keys| < 2 {
        return Failure(NotFound);
      }
      if senderSlot !in rows || receiverSlot !in rows {
        return Failure(NotFound);
      }
      if rows[senderSlot].blocked || rows[receiverSlot].blocked {
        return Failure(Blocked);
      }
      if rows[senderSlot].amount < amount {
        return Failure(InsufficientFunds);
      }
      var updated := balances;
      updated := updated[senderSlot := updated[senderSlot].(amount := updated[senderSlot].amount - amount)];
      if updated[senderSlot].amount < 0 {
        return Failure(CheckViolation);
      }
      updated := updated[receiverSlot := updated[receiverSlot].(amount := updated[receiverSlot].amount + amount)];
      if updated[receiverSlot].amount < 0 {
        return Failure(CheckViolation);
      }
      if newId in outbox {
        return Failure(UniqueViolation);
      }
      balances := updated;
      processed := processed[key := TRANSFER_INITED];
      outbox := outbox[newId := A.OutboxEvent(senderSlot, TRANSFER_SUCCESS, TransferReply(eventId, outId, inId),
                                              false)];
      r := Success(());
    }

    method CreateOutboxEvent(accountId: Id, currency: Currency, topic: Topic, payload: Payload, newId: Id)
      returns (r: Result<()>)
      modifies this`outbox
      ensures var spec := A.CreateOutboxEvent(old(Db()), accountId, currency, topic, payload, newId);
              && SameOutcome(r, spec)
              && Db() == if spec.Success? then spec.value else old(Db())
    {
      var slot := A.Slot(accountId, currency);
      if slot !in balances {
        return Failure(NotFound);
      }
      if newId in outbox {
        return Failure(UniqueViolation);
      }
      outbox := outbox[newId := A.OutboxEvent(slot, topic, payload, false)];
      r := Success(());
    }

    method MarkEventsAsProcessed(ids: set<Id>)
      modifies this`outbox
      ensures outbox.Keys == old(outbox.Keys)
      ensures forall id | id in outbox ::
                && (outbox[id].processed <==> old(outbox)[id].processed || id in ids)
                && outbox[id] == old(outbox)[id].(processed := outbox[id].processed)
      ensures Db() == A.MarkEventsAsProcessed(old(Db()), ids)
    {
      outbox := map id | id in outbox :: if id in ids then outbox[id].(processed := true) else outbox[id];
    }

    method ResetAllBalances()
      modifies this`balances
      ensures Db() == A.ResetAllBalances(old(Db()))
      ensures AL.NonNegative(balances) && balances.Keys == old(balances.Keys)
      ensures forall c :: AL.Total(balances, c) == 0
    {
      balances := map slot | slot in balances :: balances[slot].(amount := 0);
      forall c ensures AL.Total(balances, c) == 0 {
        AL.SumZero(balances, AL.SlotsOf(balances, c));
      }
    }
  }

  class BalanceKafkaService {
    const balanceRepo: BalanceRepository

    constructor (balanceRepo: BalanceRepository)
      ensures this.balanceRepo == balanceRepo
    {
      this.balanceRepo := balanceRepo;
    }

    /** The call in the try block: the transaction of the order's kind. */
    method Apply(key: Key, p: Payload, newId: Id) returns (r: Result<()>)
      requires p.IsOrder()
      modifies balanceRepo
      ensures var spec := A.Execute(old(balanceRepo.Db()), key, p, newId);
              && SameOutcome(r, spec)
              && balanceRepo.Db() == if spec.Success? then spec.value else old(balanceRepo.Db())
    {
      match p {
        case DepositOrder(e, t, a, c, n) =>
          r := balanceRepo.DepositAndCreateOutboxEvent(key, c, n, a, t, e, newId);
        case TransferOrder(e, o, i, f, t, c, n) =>
          r := balanceRepo.TransferAndCreateOutboxEvent(key, f, t, c, n, e, o, i, newId);
      }
    }

    /** The try block. */
    method Try(header: Option<Key>, p: Payload, newId: Id, fault: A.Fault) returns (threw: bool)
      requires p.IsOrder()
      modifies balanceRepo
      ensures (balanceRepo.Db(), threw) == A.Attempt(old(balanceRepo.Db()), header, p, newId, fault)
    {
      threw := header.None? || header.value == "" || fault == A.BeforeCommit;
      if !threw {
        var r := Apply(header.value, p, newId);
        threw := r.Failure? || fault == A.AfterCommit;
      }
    }

    /** The catch block. */
    method Report(p: Payload, newId: Id)
      requires p.IsOrder()
      modifies balanceRepo
      ensures var spec := A.Report(old(balanceRepo.Db()), p, newId);
              balanceRepo.Db() == if spec.Success? then spec.value else old(balanceRepo.Db())
    {
      var accountId := if p.DepositOrder? then p.accountId else p.fromAccountId;
      var _ := balanceRepo.CreateOutboxEvent(accountId, p.currency, p.FailedTopic(), p.Reply(), newId);
    }

    /** One handler: the order's transaction, and a failure report if anything in the try block throws. */
    method Handle(header: Option<Key>, p: Payload, newId: Id, fault: A.Fault, reportId: Id, reportFails: bool)
      requires p.IsOrder()
      modifies balanceRepo
      ensures balanceRepo.Db() == A.Handled(old(balanceRepo.Db()), header, p, newId, fault, reportId, reportFails)
      ensures AL.NonNegative(old(balanceRepo.balances)) && p.amount > 0 ==>
                && AL.NonNegative(balanceRepo.balances)
                && (p.TransferOrder? ==>
                      forall c :: AL.Total(balanceRepo.balances, c) == AL.Total(old(balanceRepo.balances), c))
    {
      if AL.NonNegative(balanceRepo.balances) && p.amount > 0 {
        AL.HandledTotals(balanceRepo.Db(), header, p, newId, fault, reportId, reportFails);
      }
      var threw := Try(header, p, newId, fault);
      if threw && !reportFails {
        Report(p, reportId);
      }
    }
  }
}
