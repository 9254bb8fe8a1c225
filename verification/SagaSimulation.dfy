/** The saga does what the views of SagaView say. */
module SagaSimulation {
  import opened Common
  import opened Saga
  import opened SagaView
  import L = Ledger
  import A = Accounts

  const SLOT := A.Slot(1, "RUB")
  const ORDER := DepositOrder(20, 10, 1, "RUB", 100)
  const REPLY := DepositReply(20, 10)

  /** One account, one paid deposit of 100, its order published once. */
  function Paid(x: Keys): seq<Step> {
    [CreateAccount(1), DepositRub(10, 1, 100, "d", "pay"), Webhook(L.PaymentSucceeded, "pay", Some("pay"), 20),
     PublishOrder(20, x.m1)]
  }

  ghost predicate SameOrder(e: L.OutboxEvent) {
    e.transactionId == 10 && e.topic == DEPOSIT_PAID_SUCCESS && e.payload == ORDER
  }

  ghost predicate LedgerIs(led: L.Db, rows: set<Id>, retried: nat, failed: bool, answered: set<Key>) {
    match led
    case Db(transactions, outbox, processed) =>
      && 20 in rows && outbox.Keys == rows && (forall r | r in rows :: SameOrder(outbox[r]))
      && transactions.Keys == {10}
      && transactions[10].typ == L.DEPOSIT && transactions[10].retryCount == retried
      && transactions[10].status == (if failed then L.FAILED else L.COMPLETED)
      && processed.Keys == answered
  }

  ghost predicate AccountsAre(acc: A.Db, applied: set<Key>, replies: set<Id>, reports: set<Id>, amount: nat) {
    match acc
    case Db(balances, outbox, processed) =>
      && processed.Keys == applied
      && outbox.Keys == replies && reports <= replies
      && (forall r | r in reports :: outbox[r].topic == DEPOSIT_CREDITING_FAILED && outbox[r].payload == REPLY)
      && SLOT in balances && balances[SLOT].amount == amount
  }

  ghost predicate MessagesAre(msgs: map<Key, Message>, orders: set<Key>, failures: set<Key>) {
    && msgs.Keys == orders + failures
    && (forall k | k in orders ::
          msgs[k].from == LedgerSide && msgs[k].topic == DEPOSIT_PAID_SUCCESS && msgs[k].payload == ORDER)
    && (forall k | k in failures ::
          msgs[k].from == AccountsSide && msgs[k].topic == DEPOSIT_CREDITING_FAILED && msgs[k].payload == REPLY)
  }

  ghost predicate Is(s: Sys, v: View) {
    match s
    case Sys(led, acc, msgs, failing, looked, hist) =>
      && LedgerIs(led, v.rows, v.retried, v.failed, v.answered)
      && AccountsAre(acc, v.applied, v.replies, v.reports, v.amount)
      && MessagesAre(msgs, v.orders, v.failures)
      && failing == v.failing && looked == v.looked
      && hist.sentByLedger == v.sent && hist.sentByAccounts == v.sentBack && hist.reported == v.reported
  }

  // ---- The brief description is right ----

  lemma PublishOrderIs(maxRetry: nat, s: Sys, v: View, step: Step)
    requires Is(s, v) && Enabled(maxRetry, v, step) && step.PublishOrder?
    ensures Is(Next(maxRetry, s, step), After(maxRetry, v, step)) && (Breaks(s, step, 10) <==> BreaksIt(v, step))
  {
  }

  lemma PublishReplyIs(maxRetry: nat, s: Sys, v: View, step: Step)
    requires Is(s, v) && Enabled(maxRetry, v, step) && step.PublishReply?
    ensures Is(Next(maxRetry, s, step), After(maxRetry, v, step)) && (Breaks(s, step, 10) <==> BreaksIt(v, step))
  {
  }

  lemma HandleIs(maxRetry: nat, s: Sys, v: View, step: Step)
    requires Is(s, v) && Enabled(maxRetry, v, step) && step.HandleOrder?
    ensures Is(Next(maxRetry, s, step), After(maxRetry, v, step)) && (Breaks(s, step, 10) <==> BreaksIt(v, step))
  {
    if step.fault.BeforeCommit? {
      assert DoHandleOrder(s, step.key, step.newId, step.fault) == s.(failing := s.failing + multiset{step.key});
    } else {
      AppliedIs(maxRetry, s, v, step.key, step.newId);
    }
  }

  lemma AppliedIs(maxRetry: nat, s: Sys, v: View, key: Key, newId: Id)
    requires Is(s, v) && key in v.orders && newId !in v.replies && key !in v.applied
    ensures var step := HandleOrder(key, newId, A.NoFault);
            && Is(DoHandleOrder(s, key, newId, A.NoFault), After(maxRetry, v, step))
            && (Breaks(s, step, 10) <==> BreaksIt(v, step))
  {
    Applies(s.acc, key, newId);
  }

  lemma Applies(db: A.Db, key: Key, newId: Id)
    requires SLOT in db.balances && db.balances[SLOT].amount >= 0 && key !in db.processed && newId !in db.outbox
    ensures A.Execute(db, key, ORDER, newId)
         == Success(A.Db(db.balances[SLOT := db.balances[SLOT].(amount := db.balances[SLOT].amount + 100)],
                         db.outbox[newId := A.OutboxEvent(SLOT, DEPOSIT_CREDITING_SUCCESS, REPLY, false)],
                         db.processed[key := DEPOSIT_PAID_SUCCESS]))
  {
  }

  lemma ReportIs(maxRetry: nat, s: Sys, v: View, step: Step)
    requires Is(s, v) && Enabled(maxRetry, v, step) && step.ReportFailure?
    ensures Is(Next(maxRetry, s, step), After(maxRetry, v, step)) && (Breaks(s, step, 10) <==> BreaksIt(v, step))
  {
    Reports(s.acc, step.newId);
    ReportedIs(maxRetry, s, v, step.key, step.newId);
  }

  lemma Reports(db: A.Db, newId: Id)
    requires SLOT in db.balances && newId !in db.outbox
    ensures A.Report(db, ORDER, newId)
         == Success(db.(outbox := db.outbox[newId := A.OutboxEvent(SLOT, DEPOSIT_CREDITING_FAILED, REPLY, false)]))
  {
  }

  lemma ReportedIs(maxRetry: nat, s: Sys, v: View, key: Key, newId: Id)
    requires Is(s, v) && key in v.orders && key in v.failing && newId !in v.replies
    ensures Is(DoReportFailure(s, key, newId), After(maxRetry, v, ReportFailure(key, newId)))
  {
    Reports(s.acc, newId);
    ReportAdded(s.acc, v.applied, v.replies, v.reports, v.amount, newId);
  }

  lemma ReportAdded(acc: A.Db, applied: set<Key>, replies: set<Id>, reports: set<Id>, amount: nat, newId: Id)
    requires AccountsAre(acc, applied, replies, reports, amount) && newId !in replies
    ensures var e := A.OutboxEvent(SLOT, DEPOSIT_CREDITING_FAILED, REPLY, false);
            AccountsAre(acc.(outbox := acc.outbox[newId := e]), applied, replies + {newId}, reports + {newId}, amount)
  {
  }

  lemma LookUpIs(maxRetry: nat, s: Sys, v: View, step: Step)
    requires Is(s, v) && Enabled(maxRetry, v, step) && step.LookUpReply?
    ensures Is(Next(maxRetry, s, step), After(maxRetry, v, step)) && (Breaks(s, step, 10) <==> BreaksIt(v, step))
  {
    assert DoLookUpReply(s, step.key) == s.(looked := s.looked + multiset{step.key});
  }

  lemma CommitIs(maxRetry: nat, s: Sys, v: View, step: Step)
    requires Is(s, v) && Enabled(maxRetry, v, step) && step.CommitReply?
    ensures Is(Next(maxRetry, s, step), After(maxRetry, v, step)) && (Breaks(s, step, 10) <==> BreaksIt(v, step))
  {
    ReplyIs(maxRetry, s, v, step.key, step.newId, step.outFirst);
  }

  lemma ReplyIs(maxRetry: nat, s: Sys, v: View, key: Key, newId: Id, outFirst: bool)
    requires Is(s, v) && Enabled(maxRetry, v, CommitReply(key, newId, outFirst, false))
    ensures Is(DoCommitReply(maxRetry, s, key, newId, outFirst),
               After(maxRetry, v, CommitReply(key, newId, outFirst, false)))
  {
    Commits(maxRetry, s.led, v.rows, v.retried, v.failed, v.answered, key, newId, outFirst);
  }

  lemma Commits(maxRetry: nat, led: L.Db, rows: set<Id>, retried: nat, failed: bool, answered: set<Key>,
                key: Key, newId: Id, outFirst: bool)
    requires LedgerIs(led, rows, retried, failed, answered)
    requires retried + 1 < maxRetry ==> key !in answered && newId !in rows
    ensures var led' := L.ApplyReply(led, key, DEPOSIT_CREDITING_FAILED, REPLY, maxRetry, newId, outFirst);
            if retried + 1 < maxRetry then LedgerIs(led', rows + {newId}, retried + 1, failed, answered + {key})
            else LedgerIs(led', rows, retried + 1, true, answered)
  {
  }

  lemma StepIs(maxRetry: nat, s: Sys, v: View, step: Step)
    requires Is(s, v) && Enabled(maxRetry, v, step)
    ensures Is(Next(maxRetry, s, step), After(maxRetry, v, step)) && (Breaks(s, step, 10) <==> BreaksIt(v, step))
  {
    match step {
      case PublishOrder(_, _) => PublishOrderIs(maxRetry, s, v, step);
      case PublishReply(_, _) => PublishReplyIs(maxRetry, s, v, step);
      case HandleOrder(_, _, _) => HandleIs(maxRetry, s, v, step);
      case ReportFailure(_, _) => ReportIs(maxRetry, s, v, step);
      case LookUpReply(_) => LookUpIs(maxRetry, s, v, step);
      case CommitReply(_, _, _, _) => CommitIs(maxRetry, s, v, step);
    }
  }

  /** The state after the first `i` of the steps that follow the payment. */
  ghost function Along(maxRetry: nat, x: Keys, more: seq<Step>, i: nat): Sys
    requires i <= |more|
  {
    if i == 0 then Run(maxRetry, Paid(x)) else Next(maxRetry, Along(maxRetry, x, more, i - 1), more[i - 1])
  }

  lemma {:induction false} AlongRun(maxRetry: nat, x: Keys, more: seq<Step>, i: nat)
    requires i <= |more|
    ensures Along(maxRetry, x, more, i) == Run(maxRetry, Paid(x) + more[..i])
  {
    if i == 0 {
      assert Paid(x) + more[..0] == Paid(x);
    } else {
      AlongRun(maxRetry, x, more, i - 1);
      assert (Paid(x) + more[..i])[..3 + i] == Paid(x) + more[..i - 1];
    }
  }

  lemma {:induction false} ReachedBefore(maxRetry: nat, x: Keys, more: seq<Step>, n: nat, i: nat, j: nat)
    requires j <= i <= |more| && Reached(maxRetry, x, more, n, i).Some?
    ensures Reached(maxRetry, x, more, n, j).Some?
    ensures j < i ==> Judge(maxRetry, Reached(maxRetry, x, more, n, j).value, more[j]) == Told(n, j)
  {
    if j < i {
      ReachedBefore(maxRetry, x, more, n, i - 1, j);
    }
  }

  lemma {:induction false} Follows(maxRetry: nat, x: Keys, more: seq<Step>, n: nat, i: nat, v: View)
    requires i <= |more| && Fresh(x) && Reached(maxRetry, x, more, n, i) == Some(v)
    ensures Is(Along(maxRetry, x, more, i), v)
  {
    if i == 0 {
      PaidRun(maxRetry, x);
    } else {
      var u := Reached(maxRetry, x, more, n, i - 1).value;
      Follows(maxRetry, x, more, n, i - 1, u);
      FollowsOn(maxRetry, x, more, n, i, u, v);
    }
  }

  lemma FollowsOn(maxRetry: nat, x: Keys, more: seq<Step>, n: nat, i: nat, u: View, v: View)
    requires 0 < i <= |more|
    requires Reached(maxRetry, x, more, n, i - 1) == Some(u) && Reached(maxRetry, x, more, n, i) == Some(v)
    requires Is(Along(maxRetry, x, more, i - 1), u)
    ensures Is(Along(maxRetry, x, more, i), v)
  {
    StepIs(maxRetry, Along(maxRetry, x, more, i - 1), u, more[i - 1]);
  }

  lemma BreaksAt(maxRetry: nat, x: Keys, more: seq<Step>, n: nat, i: nat)
    requires i < |more| && Fresh(x) && Reached(maxRetry, x, more, n, |more|).Some?
    ensures Breaks(Along(maxRetry, x, more, i), more[i], 10) <==> i == n
  {
    ReachedBefore(maxRetry, x, more, n, |more|, i);
    var v := Reached(maxRetry, x, more, n, i).value;
    Follows(maxRetry, x, more, n, i, v);
    StepIs(maxRetry, Along(maxRetry, x, more, i), v, more[i]);
  }

  // ---- The first four steps ----

  lemma PaidWebhook(db: L.Db, t: L.Transaction)
    requires t == L.Transaction(1, 100, "RUB", L.DEPOSIT, L.PENDING, "d", 0, Some("pay"), None)
    requires db == L.Db(map[10 := t], map[], map[])
    ensures L.Webhook(db, L.PaymentSucceeded, "pay", Some("pay"), 20)
         == L.Db(map[10 := t.(status := L.COMPLETED)],
                 map[20 := L.OutboxEvent(10, DEPOSIT_PAID_SUCCESS, ORDER, false)], map[])
  {
    assert 10 in db.transactions && db.transactions[10].providerPaymentId == Some("pay");
    assert L.FindByPayment(db.transactions, "pay") == Some(10);
  }

  lemma PaidStates(maxRetry: nat, x: Keys)
    ensures Run(maxRetry, []) == INITIAL
    ensures forall i | 0 <= i < 4 ::
              Run(maxRetry, Paid(x)[..i + 1]) == Next(maxRetry, Run(maxRetry, Paid(x)[..i]), Paid(x)[i])
  {
    forall i | 0 <= i < 4
      ensures Run(maxRetry, Paid(x)[..i + 1]) == Next(maxRetry, Run(maxRetry, Paid(x)[..i]), Paid(x)[i])
    {
      assert Paid(x)[..i + 1][..i] == Paid(x)[..i];
    }
  }

  lemma PaidRun(maxRetry: nat, x: Keys)
    requires Fresh(x)
    ensures Is(Run(maxRetry, Paid(x)), Start(x))
  {
    PaidStates(maxRetry, x);
    assert Paid(x)[..0] == [] && Paid(x)[..4] == Paid(x);
    var s1, s2, s3 := Run(maxRetry, Paid(x)[..1]), Run(maxRetry, Paid(x)[..2]), Run(maxRetry, Paid(x)[..3]);
    assert s1 == Next(maxRetry, INITIAL, Paid(x)[0]);
    assert s2 == Next(maxRetry, s1, Paid(x)[1]);
    assert s3 == Next(maxRetry, s2, Paid(x)[2]);
    PaidLedger(maxRetry, x, s1, s2, s3);
    PaidOrder(s3, x);
  }

  lemma PaidLedger(maxRetry: nat, x: Keys, s1: Sys, s2: Sys, s3: Sys)
    requires s1 == Next(maxRetry, INITIAL, Paid(x)[0]) && s2 == Next(maxRetry, s1, Paid(x)[1])
               && s3 == Next(maxRetry, s2, Paid(x)[2])
    ensures Unpublished(s3)
  {
    assert s1 == INITIAL.(acc := A.CreateAccount(INITIAL.acc, 1));
    assert s2 == s1.(led := L.DepositRub(s1.led, 10, 1, 100, "d", "pay"));
    assert s3 == s2.(led := L.Webhook(s2.led, L.PaymentSucceeded, "pay", Some("pay"), 20));
    PaidState(s1, s2, s3);
  }

  lemma PaidState(s1: Sys, s2: Sys, s3: Sys)
    requires s1 == INITIAL.(acc := A.CreateAccount(INITIAL.acc, 1))
    requires s2 == s1.(led := L.DepositRub(s1.led, 10, 1, 100, "d", "pay"))
    requires s3 == s2.(led := L.Webhook(s2.led, L.PaymentSucceeded, "pay", Some("pay"), 20))
    ensures Unpublished(s3)
  {
    AccountOpened();
    var t := L.Transaction(1, 100, "RUB", L.DEPOSIT, L.PENDING, "d", 0, Some("pay"), None);
    DepositMade(t);
    PaidWebhook(s2.led, t);
  }

  lemma AccountOpened()
    ensures var b := A.CreateAccount(A.Db(map[], map[], map[]), 1);
            b.outbox == map[] && b.processed == map[] && SLOT in b.balances && b.balances[SLOT].amount == 0
  {
    assert "RUB" in A.CURRENCIES;
  }

  lemma DepositMade(t: L.Transaction)
    requires t == L.Transaction(1, 100, "RUB", L.DEPOSIT, L.PENDING, "d", 0, Some("pay"), None)
    ensures L.DepositRub(L.Db(map[], map[], map[]), 10, 1, 100, "d", "pay") == L.Db(map[10 := t], map[], map[])
  {
  }

  /** The deposit is paid, its order not yet published. */
  ghost predicate Unpublished(s: Sys) {
    && LedgerIs(s.led, {20}, 0, false, {}) && s.msgs == map[] && s.acc.processed == map[] && s.acc.outbox == map[]
    && SLOT in s.acc.balances && s.acc.balances[SLOT].amount == 0
    && s.failing == multiset{} && s.looked == multiset{} && s.hist == INITIAL.hist
  }

  lemma PaidOrder(s: Sys, x: Keys)
    requires Fresh(x) && Unpublished(s)
    ensures Is(DoPublishOrder(s, 20, x.m1), Start(x))
  {
  }

  lemma PaidClean(maxRetry: nat, x: Keys, i: nat)
    requires i < 4
    ensures !Breaks(Run(maxRetry, Paid(x)[..i]), Paid(x)[i], 10)
  {
    if i == 3 {
      PaidStates(maxRetry, x);
      assert Paid(x)[..0] == [];
      var s1, s2, s3 := Run(maxRetry, Paid(x)[..1]), Run(maxRetry, Paid(x)[..2]), Run(maxRetry, Paid(x)[..3]);
      assert s1 == Next(maxRetry, INITIAL, Paid(x)[0]);
      assert s2 == Next(maxRetry, s1, Paid(x)[1]);
      assert s3 == Next(maxRetry, s2, Paid(x)[2]);
      PaidLedger(maxRetry, x, s1, s2, s3);
    }
  }

  lemma BreaksOf(maxRetry: nat, x: Keys, more: seq<Step>, n: nat, i: nat)
    requires Fresh(x) && i < 4 + |more| && Reached(maxRetry, x, more, n, |more|).Some?
    ensures Breaks(Run(maxRetry, (Paid(x) + more)[..i]), (Paid(x) + more)[i], 10) <==> i == 4 + n
  {
    if i < 4 {
      assert (Paid(x) + more)[..i] == Paid(x)[..i] && (Paid(x) + more)[i] == Paid(x)[i];
      PaidClean(maxRetry, x, i);
    } else {
      assert (Paid(x) + more)[..i] == Paid(x) + more[..i - 4];
      AlongRun(maxRetry, x, more, i - 4);
      BreaksAt(maxRetry, x, more, n, i - 4);
    }
  }

  /** From the view to the run: what it ends in. */
  lemma EndsIn(maxRetry: nat, x: Keys, more: seq<Step>, n: nat)
    requires Fresh(x) && Reached(maxRetry, x, more, n, |more|).Some?
    ensures Is(Run(maxRetry, Paid(x) + more), Reached(maxRetry, x, more, n, |more|).value)
  {
    assert more[..|more|] == more;
    AlongRun(maxRetry, x, more, |more|);
    Follows(maxRetry, x, more, n, |more|, Reached(maxRetry, x, more, n, |more|).value);
  }
}
