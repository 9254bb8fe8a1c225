/** No started saga is stuck: from any reachable state it can still end, and without another broken condition. */
module SagaProgress {
  import opened Common
  import opened Saga
  import opened SagaInvariant
  import opened SagaTokens
  import opened SagaTheorems
  import L = Ledger
  import LI = LedgerInvariant
  import A = Accounts
  import AL = AccountsLaws

  // ---- What a saga needs to go on ----

  /** Every account has a balance in every currency, and the ledger uses no other currency. */
  ghost predicate HomesOk(s: Sys) {
    && (forall slot, c | slot in s.acc.balances && c in A.CURRENCIES :: A.Slot(slot.accountId, c) in s.acc.balances)
    && (forall t | t in s.led.transactions :: s.led.transactions[t].currency in A.CURRENCIES)
  }

  /** Row `r` says that order `k` was applied. */
  predicate Confirms(s: Sys, r: Id, k: Key) {
    && r in s.acc.outbox && s.acc.outbox[r].topic == s.acc.outbox[r].payload.SuccessTopic()
    && r in s.hist.cause && s.hist.cause[r] == k
  }

  ghost predicate CreditsConfirmed(s: Sys) {
    forall k | k in s.acc.processed :: exists r :: Confirms(s, r, k)
  }

  ghost predicate Live(s: Sys, maxRetry: nat) {
    Flow(s, maxRetry) && HomesOk(s) && CreditsConfirmed(s)
  }

  /** The balance rows are still there, and so are the rows of the outbox; no order was applied. */
  lemma LiveGrows(s: Sys, s': Sys, maxRetry: nat)
    requires Live(s, maxRetry) && Flow(s', maxRetry) && Grows(s, s')
    requires s'.acc.balances.Keys == s.acc.balances.Keys && s'.acc.processed == s.acc.processed
    ensures Live(s', maxRetry)
  {
    forall k | k in s'.acc.processed ensures exists r :: Confirms(s', r, k) {
      var r :| Confirms(s, r, k);
      assert ReplyOk(s, r);
      assert Confirms(s', r, k);
    }
  }

  lemma LiveLedger(s: Sys, s': Sys, maxRetry: nat)
    requires Live(s, maxRetry) && Flow(s', maxRetry) && OnlyLedger(s, s')
    requires forall t | t in s'.led.transactions :: s'.led.transactions[t].currency in A.CURRENCIES
    ensures Live(s', maxRetry)
  {
    forall k | k in s'.acc.processed ensures exists r :: Confirms(s', r, k) {
      var r :| Confirms(s, r, k);
      assert Confirms(s', r, k);
    }
  }

  lemma StartLives(s: Sys, step: Step, maxRetry: nat)
    requires Live(s, maxRetry) && (step.DepositRub? || step.TransferRub? || step.Webhook?)
    requires Flow(Next(maxRetry, s, step), maxRetry)
    ensures Live(Next(maxRetry, s, step), maxRetry)
  {
    assert "RUB" in A.CURRENCIES;
    match step {
      case DepositRub(id, a, n, k, p) =>
        if n > 0 { LiveLedger(s, s.(led := L.DepositRub(s.led, id, a, n, k, p)), maxRetry); }
      case TransferRub(f, t, n, available, k, o, i, e) =>
        if n > 0 { LiveLedger(s, s.(led := L.TransferRub(s.led, f, t, n, available, k, o, i, e)), maxRetry); }
      case Webhook(event, p, v, e) => LiveLedger(s, s.(led := L.Webhook(s.led, event, p, v, e)), maxRetry);
    }
  }

  lemma ReplyLives(s: Sys, key: Key, newId: Id, outFirst: bool, maxRetry: nat)
    requires Live(s, maxRetry) && Flow(DoCommitReply(maxRetry, s, key, newId, outFirst), maxRetry)
    ensures Live(DoCommitReply(maxRetry, s, key, newId, outFirst), maxRetry)
  {
    var s' := DoCommitReply(maxRetry, s, key, newId, outFirst);
    if s' != s {
      ReplyMessage(s, key, maxRetry);
      var m := s.msgs[key];
      LI.ApplyReplyShape(s.led, key, m.topic, m.payload, newId, outFirst, maxRetry);
      LiveLedger(s, s', maxRetry);
    }
  }

  lemma HandlingLives(s: Sys, key: Key, newId: Id, fault: A.Fault, maxRetry: nat)
    requires Live(s, maxRetry) && Flow(DoHandleOrder(s, key, newId, fault), maxRetry)
    ensures Live(DoHandleOrder(s, key, newId, fault), maxRetry)
  {
    var s' := DoHandleOrder(s, key, newId, fault);
    HandleOrderShape(s, key, newId, fault);
    if s'.acc == s.acc {
      LiveGrows(s, s', maxRetry);
    } else {
      AL.ExecuteRows(s.acc, key, s.msgs[key].payload, newId);
      CreditLives(s, s', key, newId, maxRetry);
    }
  }

  lemma CreditLives(s: Sys, s': Sys, key: Key, newId: Id, maxRetry: nat)
    requires Live(s, maxRetry) && Flow(s', maxRetry) && IsOrder(s, key) && newId !in s.acc.outbox
    requires s'.led == s.led && s'.acc.balances.Keys == s.acc.balances.Keys
    requires s'.acc.processed.Keys == s.acc.processed.Keys + {key} && s'.hist.cause == s.hist.cause[newId := key]
    requires var p := s.msgs[key].payload;
             s'.acc.outbox == s.acc.outbox[newId := A.OutboxEvent(AL.Home(p), p.SuccessTopic(), p.Reply(), false)]
    ensures Live(s', maxRetry)
  {
    forall k | k in s'.acc.processed ensures exists r :: Confirms(s', r, k) {
      if k == key {
        assert Confirms(s', newId, key);
      } else {
        var r :| Confirms(s, r, k);
        assert Confirms(s', r, k);
      }
    }
  }

  lemma ReportLives(s: Sys, key: Key, newId: Id, maxRetry: nat)
    requires Live(s, maxRetry) && Flow(DoReportFailure(s, key, newId), maxRetry)
    ensures Live(DoReportFailure(s, key, newId), maxRetry)
  {
    ReportShape(s, key, newId);
    LiveGrows(s, DoReportFailure(s, key, newId), maxRetry);
  }

  lemma IdleLives(s: Sys, step: Step, maxRetry: nat)
    requires Live(s, maxRetry) && Idle(step) && Flow(Next(maxRetry, s, step), maxRetry)
    ensures Live(Next(maxRetry, s, step), maxRetry)
  {
    IdleRests(s, step, maxRetry);
    IdleHomes(s, step, maxRetry);
    var s' := Next(maxRetry, s, step);
    forall k | k in s'.acc.processed ensures exists r :: Confirms(s', r, k) {
      var r :| Confirms(s, r, k);
      assert Confirms(s', r, k);
    }
  }

  lemma IdleHomes(s: Sys, step: Step, maxRetry: nat)
    requires HomesOk(s) && Idle(step)
    ensures HomesOk(Next(maxRetry, s, step))
  {
    IdleRests(s, step, maxRetry);
    if step.CreateAccount? {
      NewHome(s, step.accountId);
    } else {
      IdleKeys(s, step, maxRetry);
      SameHomes(s, Next(maxRetry, s, step));
    }
  }

  lemma IdleKeys(s: Sys, step: Step, maxRetry: nat)
    requires Idle(step) && !step.CreateAccount?
    ensures Next(maxRetry, s, step).acc.balances.Keys == s.acc.balances.Keys
  {
    match step {
      case MarkReplies(_) =>
      case CrashHandler(_) =>
      case LookUpReply(_) =>
      case CommitReply(_, _, _, _) =>
      case ResetAllBalances =>
      case SetBlocked(_, _) =>
    }
  }

  lemma SameHomes(s: Sys, s': Sys)
    requires HomesOk(s) && s'.acc.balances.Keys == s.acc.balances.Keys && s'.led == s.led
    ensures HomesOk(s')
  {
  }

  lemma NewHome(s: Sys, accountId: Id)
    requires HomesOk(s)
    ensures HomesOk(s.(acc := A.CreateAccount(s.acc, accountId)))
  {
    AL.CreateAccountDoes(s.acc, accountId);
  }

  lemma WorkLives(s: Sys, step: Step, maxRetry: nat)
    requires Live(s, maxRetry) && (step.MarkOrders? || step.PublishOrder? || step.PublishReply?)
    requires Flow(Next(maxRetry, s, step), maxRetry)
    ensures Live(Next(maxRetry, s, step), maxRetry)
  {
    match step {
      case MarkOrders(ids) => LiveLedger(s, s.(led := L.MarkEventsAsProcessed(s.led, ids)), maxRetry);
      case PublishOrder(r, k) => LiveGrows(s, DoPublishOrder(s, r, k), maxRetry);
      case PublishReply(r, k) => LiveGrows(s, DoPublishReply(s, r, k), maxRetry);
    }
  }

  lemma LiveKeeps(s: Sys, step: Step, maxRetry: nat)
    requires Live(s, maxRetry)
    ensures Live(Next(maxRetry, s, step), maxRetry)
  {
    FlowKeeps(s, step, maxRetry);
    match step {
      case DepositRub(_, _, _, _, _) => StartLives(s, step, maxRetry);
      case TransferRub(_, _, _, _, _, _, _, _) => StartLives(s, step, maxRetry);
      case Webhook(_, _, _, _) => StartLives(s, step, maxRetry);
      case MarkOrders(_) => WorkLives(s, step, maxRetry);
      case PublishOrder(_, _) => WorkLives(s, step, maxRetry);
      case PublishReply(_, _) => WorkLives(s, step, maxRetry);
      case HandleOrder(k, n, f) => HandlingLives(s, k, n, f, maxRetry);
      case ReportFailure(k, n) => ReportLives(s, k, n, maxRetry);
      case CommitReply(k, n, first, rolledBack) =>
        if rolledBack { IdleLives(s, step, maxRetry); } else { ReplyLives(s, k, n, first, maxRetry); }
      case _ => IdleLives(s, step, maxRetry);
    }
  }

  lemma {:induction false} RunLives(maxRetry: nat, steps: seq<Step>)
    ensures Live(Run(maxRetry, steps), maxRetry)
  {
    if steps == [] {
      RunKeeps(maxRetry, steps);
    } else {
      RunLives(maxRetry, steps[..|steps| - 1]);
      LiveKeeps(Run(maxRetry, steps[..|steps| - 1]), steps[|steps| - 1], maxRetry);
    }
  }

  // ---- Ways to go on ----

  /** The saga is confirmed, or has failed with a failure that stands. */
  ghost predicate Ended(s: Sys, t: Id) {
    && t in s.led.transactions
    && match s.led.transactions[t].status
       case BALANCE_UPDATED => true
       case FAILED => Failures(s, t) != {}
       case _ => false
  }

  /** None of `more`, taken from `s`, breaks a condition for saga `t`. */
  ghost predicate CleanFrom(maxRetry: nat, s: Sys, more: seq<Step>, t: Id)
    decreases |more|
  {
    more == [] || (!Breaks(s, more[0], t) && CleanFrom(maxRetry, Next(maxRetry, s, more[0]), more[1..], t))
  }

  ghost predicate CanEnd(maxRetry: nat, s: Sys, t: Id) {
    exists more :: CleanFrom(maxRetry, s, more, t) && Ended(Continued(maxRetry, s, more), t)
  }

  lemma EndedCanEnd(maxRetry: nat, s: Sys, t: Id)
    requires Ended(s, t)
    ensures CanEnd(maxRetry, s, t)
  {
    assert CleanFrom(maxRetry, s, [], t) && Ended(Continued(maxRetry, s, []), t);
  }

  lemma StepCanEnd(maxRetry: nat, s: Sys, step: Step, t: Id)
    requires !Breaks(s, step, t) && CanEnd(maxRetry, Next(maxRetry, s, step), t)
    ensures CanEnd(maxRetry, s, t)
  {
    var s' := Next(maxRetry, s, step);
    var more :| CleanFrom(maxRetry, s', more, t) && Ended(Continued(maxRetry, s', more), t);
    assert ([step] + more)[1..] == more;
    assert CleanFrom(maxRetry, s, [step] + more, t) && Ended(Continued(maxRetry, s, [step] + more), t);
  }

  lemma {:induction false} Bound(ids: set<Id>) returns (n: Id)
    ensures forall r | r in ids :: r <= n
  {
    if ids == {} {
      n := 0;
    } else {
      var r :| r in ids;
      var m := Bound(ids - {r});
      n := Max(m, r);
      forall q | q in ids ensures q <= n {
        assert q == r || q in ids - {r};
      }
    }
  }

  lemma FreshId(ids: set<Id>) returns (n: Id)
    ensures n !in ids
  {
    var m := Bound(ids);
    n := m + 1;
  }

  lemma FreshKey(keys: set<Key>) returns (k: Key)
    ensures k !in keys && k != ""
  {
    var lengths := set q | q in keys :: |q|;
    var n := Bound(lengths);
    k := seq(n + 1, _ => 'k');
    forall q | q in keys ensures q != k {
      assert |q| in lengths;
    }
  }

  // ---- A failure: from order to report to retry, until no retry is left ----

  /** A step that breaks nothing for the saga and leaves the ledger as it is. */
  ghost predicate Harmless(maxRetry: nat, s: Sys, step: Step, t: Id, s': Sys) {
    Next(maxRetry, s, step) == s' && !Breaks(s, step, t) && Live(s', maxRetry) && s'.led == s.led
  }

  lemma RowGoesOut(maxRetry: nat, s: Sys, t: Id, r: Id, key: Key)
    requires Live(s, maxRetry) && Holds(s, t, Row(r)) && key !in s.msgs && key != ""
    ensures var s' := DoPublishOrder(s, r, key);
            Harmless(maxRetry, s, PublishOrder(r, key), t, s') && Holds(s', t, Order(key))
  {
    PublishOrderMoves(s, r, key, t, maxRetry);
    LiveKeeps(s, PublishOrder(r, key), maxRetry);
  }

  lemma AccountMade(maxRetry: nat, s: Sys, t: Id, k: Key, a: Id)
    requires Live(s, maxRetry) && Holds(s, t, Order(k))
    ensures var s' := s.(acc := A.CreateAccount(s.acc, a));
            Harmless(maxRetry, s, CreateAccount(a), t, s') && Holds(s', t, Order(k))
  {
    LiveKeeps(s, CreateAccount(a), maxRetry);
    QuietHolds(s, CreateAccount(a), t, Order(k), maxRetry);
  }

  lemma OrderHome(s: Sys, k: Key, maxRetry: nat)
    requires Live(s, maxRetry) && OrderKey(s, k)
    ensures IsOrder(s, k)
    ensures var home := AL.Home(s.msgs[k].payload);
            home in s.acc.balances || home in A.CreateAccount(s.acc, home.accountId).balances
  {
    OrderMessage(s, k, maxRetry);
    var home := AL.Home(s.msgs[k].payload);
    assert home.currency in A.CURRENCIES;
    if slot :| slot in s.acc.balances && slot.accountId == home.accountId {
      assert A.Slot(slot.accountId, home.currency) in s.acc.balances;
    }
  }

  lemma OrderThrows(maxRetry: nat, s: Sys, t: Id, k: Key, newId: Id)
    requires Live(s, maxRetry) && Holds(s, t, Order(k)) && IsOrder(s, k)
    ensures var s' := s.(failing := s.failing + multiset{k});
            Harmless(maxRetry, s, HandleOrder(k, newId, A.BeforeCommit), t, s') && Holds(s', t, Order(k))
  {
    LiveKeeps(s, HandleOrder(k, newId, A.BeforeCommit), maxRetry);
  }

  lemma OrderReported(maxRetry: nat, s: Sys, t: Id, k: Key, newId: Id)
    requires Live(s, maxRetry) && Holds(s, t, Order(k)) && IsOrder(s, k) && k in s.failing
    requires newId !in s.acc.outbox && AL.Home(s.msgs[k].payload) in s.acc.balances
    ensures var s' := DoReportFailure(s, k, newId);
            Harmless(maxRetry, s, ReportFailure(k, newId), t, s') && Holds(s', t, ReportRow(newId))
  {
    LiveKeeps(s, ReportFailure(k, newId), maxRetry);
    ReportFailureMoves(s, k, newId, t, maxRetry);
    ReportShape(s, k, newId);
  }

  lemma ReportGoesOut(maxRetry: nat, s: Sys, t: Id, r: Id, key: Key)
    requires Live(s, maxRetry) && Holds(s, t, ReportRow(r)) && key !in s.msgs && key != ""
    ensures var s' := DoPublishReply(s, r, key);
            Harmless(maxRetry, s, PublishReply(r, key), t, s') && Holds(s', t, Report(key))
  {
    PublishReplyMoves(s, r, key, t, maxRetry);
    LiveKeeps(s, PublishReply(r, key), maxRetry);
  }

  lemma ReplyLookedUp(maxRetry: nat, s: Sys, t: Id, k: Key)
    requires Live(s, maxRetry) && ReplyKey(s, k) && k !in s.led.processed
    ensures Harmless(maxRetry, s, LookUpReply(k), t, s.(looked := s.looked + multiset{k}))
  {
    LiveKeeps(s, LookUpReply(k), maxRetry);
  }

  /** At the limit the saga is given up, with its failure standing. */
  lemma ReportGivesUp(maxRetry: nat, s: Sys, t: Id, k: Key, newId: Id)
    requires Live(s, maxRetry) && t in s.led.transactions && Holds(s, t, Report(k)) && k in s.looked
    requires s.led.transactions[t].retryCount + 1 >= maxRetry
    ensures Ended(DoCommitReply(maxRetry, s, k, newId, true), t)
  {
    FailureAnswered(maxRetry, s, k, newId, true);
    assert k in Failures(DoCommitReply(maxRetry, s, k, newId, true), t);
  }

  /** Below it a new order is written, and a retry is used up. */
  lemma ReportRetried(maxRetry: nat, s: Sys, t: Id, k: Key, newId: Id)
    requires Live(s, maxRetry) && t in s.led.transactions && Holds(s, t, Report(k)) && k in s.looked
    requires s.led.transactions[t].retryCount + 1 < maxRetry && newId !in s.led.outbox
    ensures var s' := DoCommitReply(maxRetry, s, k, newId, true);
            && Live(s', maxRetry) && t in s'.led.transactions && Holds(s', t, Row(newId))
            && s'.led.transactions[t].retryCount == s.led.transactions[t].retryCount + 1
  {
    LiveKeeps(s, CommitReply(k, newId, true, false), maxRetry);
    RetryWritten(maxRetry, s, t, k, newId);
    CommitReplyMoves(s, k, newId, true, t, maxRetry);
  }

  lemma RetryWritten(maxRetry: nat, s: Sys, t: Id, k: Key, newId: Id)
    requires Live(s, maxRetry) && t in s.led.transactions && Holds(s, t, Report(k)) && k in s.looked
    requires s.led.transactions[t].retryCount + 1 < maxRetry && newId !in s.led.outbox
    ensures var led := DoCommitReply(maxRetry, s, k, newId, true).led;
            && newId in led.outbox && t in led.transactions
            && led.transactions[t].retryCount == s.led.transactions[t].retryCount + 1
  {
    FailureAnswered(maxRetry, s, k, newId, true);
  }

  /** The retries that are left to a saga. */
  function Left(s: Sys, t: Id, maxRetry: nat): nat
    requires t in s.led.transactions
  {
    Max(0, maxRetry - s.led.transactions[t].retryCount)
  }

  lemma RowEnds(maxRetry: nat, s: Sys, t: Id, r: Id)
    requires Live(s, maxRetry) && t in s.led.transactions && Holds(s, t, Row(r))
    ensures CanEnd(maxRetry, s, t)
    decreases Left(s, t, maxRetry), 5
  {
    var key := FreshKey(s.msgs.Keys);
    RowGoesOut(maxRetry, s, t, r, key);
    OrderEnds(maxRetry, DoPublishOrder(s, r, key), t, key);
    StepCanEnd(maxRetry, s, PublishOrder(r, key), t);
  }

  /** An order that was neither applied nor reported can fail, once its account is there. */
  lemma OrderEnds(maxRetry: nat, s: Sys, t: Id, k: Key)
    requires Live(s, maxRetry) && t in s.led.transactions && Holds(s, t, Order(k))
    ensures CanEnd(maxRetry, s, t)
    decreases Left(s, t, maxRetry), 4
  {
    OrderHome(s, k, maxRetry);
    var home := AL.Home(s.msgs[k].payload);
    if home in s.acc.balances {
      OrderFails(maxRetry, s, t, k);
    } else {
      AccountMade(maxRetry, s, t, k, home.accountId);
      OrderFails(maxRetry, s.(acc := A.CreateAccount(s.acc, home.accountId)), t, k);
      StepCanEnd(maxRetry, s, CreateAccount(home.accountId), t);
    }
  }

  lemma OrderFails(maxRetry: nat, s: Sys, t: Id, k: Key)
    requires Live(s, maxRetry) && t in s.led.transactions && Holds(s, t, Order(k))
    requires IsOrder(s, k) && AL.Home(s.msgs[k].payload) in s.acc.balances
    ensures CanEnd(maxRetry, s, t)
    decreases Left(s, t, maxRetry), 3
  {
    var newId := FreshId(s.acc.outbox.Keys);
    var s1 := s.(failing := s.failing + multiset{k});
    OrderThrows(maxRetry, s, t, k, newId);
    OrderReported(maxRetry, s1, t, k, newId);
    ReportRowEnds(maxRetry, DoReportFailure(s1, k, newId), t, newId);
    StepCanEnd(maxRetry, s1, ReportFailure(k, newId), t);
    StepCanEnd(maxRetry, s, HandleOrder(k, newId, A.BeforeCommit), t);
  }

  lemma ReportRowEnds(maxRetry: nat, s: Sys, t: Id, r: Id)
    requires Live(s, maxRetry) && t in s.led.transactions && Holds(s, t, ReportRow(r))
    ensures CanEnd(maxRetry, s, t)
    decreases Left(s, t, maxRetry), 2
  {
    var key := FreshKey(s.msgs.Keys);
    ReportGoesOut(maxRetry, s, t, r, key);
    ReportEnds(maxRetry, DoPublishReply(s, r, key), t, key);
    StepCanEnd(maxRetry, s, PublishReply(r, key), t);
  }

  /** A failure that comes back is retried, or makes the ledger give up while it stands. */
  lemma ReportEnds(maxRetry: nat, s: Sys, t: Id, k: Key)
    requires Live(s, maxRetry) && t in s.led.transactions && Holds(s, t, Report(k))
    ensures CanEnd(maxRetry, s, t)
    decreases Left(s, t, maxRetry), 1
  {
    ReplyLookedUp(maxRetry, s, t, k);
    LookedUpEnds(maxRetry, s.(looked := s.looked + multiset{k}), t, k);
    StepCanEnd(maxRetry, s, LookUpReply(k), t);
  }

  lemma CommitCanEnd(maxRetry: nat, s: Sys, t: Id, k: Key, newId: Id)
    requires CanEnd(maxRetry, DoCommitReply(maxRetry, s, k, newId, true), t)
    ensures CanEnd(maxRetry, s, t)
  {
    StepCanEnd(maxRetry, s, CommitReply(k, newId, true, false), t);
  }

  lemma LookedUpEnds(maxRetry: nat, s: Sys, t: Id, k: Key)
    requires Live(s, maxRetry) && t in s.led.transactions && Holds(s, t, Report(k)) && k in s.looked
    ensures CanEnd(maxRetry, s, t)
    decreases Left(s, t, maxRetry), 0
  {
    var newId := FreshId(s.led.outbox.Keys);
    var s' := DoCommitReply(maxRetry, s, k, newId, true);
    if s.led.transactions[t].retryCount + 1 >= maxRetry {
      ReportGivesUp(maxRetry, s, t, k, newId);
      EndedCanEnd(maxRetry, s', t);
    } else {
      ReportRetried(maxRetry, s, t, k, newId);
      RowEnds(maxRetry, s', t, newId);
    }
    CommitCanEnd(maxRetry, s, t, k, newId);
  }

  // ---- A success ----

  /** A deposit that is FAILED stays so, whatever success is reported. */
  predicate FailedDeposit(s: Sys, t: Id) {
    t in s.led.transactions && s.led.transactions[t].typ == L.DEPOSIT && s.led.transactions[t].status == L.FAILED
  }

  /** A success report of saga `t` that the ledger has not processed. */
  predicate SuccessFor(s: Sys, t: Id, key: Key) {
    && ReplyKey(s, key) && key !in s.led.processed
    && s.msgs[key].topic == s.msgs[key].payload.SuccessTopic() && s.msgs[key].payload.SagaId() == t
  }

  lemma ConfirmationGoesOut(maxRetry: nat, s: Sys, t: Id, k: Key, r: Id, key: Key)
    requires Live(s, maxRetry) && Holds(s, t, Credit(k)) && Confirms(s, r, k) && key !in s.msgs && key != ""
    ensures var s' := DoPublishReply(s, r, key);
            Harmless(maxRetry, s, PublishReply(r, key), t, s') && SuccessFor(s', t, key)
  {
    LiveKeeps(s, PublishReply(r, key), maxRetry);
    assert ReplyOk(s, r);
    assert key in s.led.processed ==> ReplyKey(s, key);
  }

  lemma SuccessAnswered(maxRetry: nat, s: Sys, t: Id, key: Key)
    requires Live(s, maxRetry) && t in s.led.transactions && !FailedDeposit(s, t)
    requires SuccessFor(s, t, key) && key in s.looked
    ensures s.led.transactions[t].status == L.BALANCE_UPDATED || Ended(DoCommitReply(maxRetry, s, key, 0, true), t)
  {
    ReplyMessage(s, key, maxRetry);
    var m := s.msgs[key];
    LI.ApplyReplyShape(s.led, key, m.topic, m.payload, 0, true, maxRetry);
  }

  lemma SuccessEnds(maxRetry: nat, s: Sys, t: Id, key: Key)
    requires Live(s, maxRetry) && t in s.led.transactions && !FailedDeposit(s, t) && SuccessFor(s, t, key)
    requires s.led.transactions[t].status != L.BALANCE_UPDATED
    ensures CanEnd(maxRetry, s, t)
  {
    var s1 := s.(looked := s.looked + multiset{key});
    ReplyLookedUp(maxRetry, s, t, key);
    SuccessAnswered(maxRetry, s1, t, key);
    EndedCanEnd(maxRetry, DoCommitReply(maxRetry, s1, key, 0, true), t);
    CommitCanEnd(maxRetry, s1, t, key, 0);
    StepCanEnd(maxRetry, s, LookUpReply(key), t);
  }

  /** What was credited can be confirmed, but for a deposit that is FAILED. */
  lemma CreditEnds(maxRetry: nat, s: Sys, t: Id, k: Key)
    requires Live(s, maxRetry) && t in s.led.transactions && !FailedDeposit(s, t) && Holds(s, t, Credit(k))
    ensures CanEnd(maxRetry, s, t)
  {
    if s.led.transactions[t].status == L.BALANCE_UPDATED {
      EndedCanEnd(maxRetry, s, t);
    } else {
      var r :| Confirms(s, r, k);
      var key := FreshKey(s.msgs.Keys);
      ConfirmationGoesOut(maxRetry, s, t, k, r, key);
      SuccessEnds(maxRetry, DoPublishReply(s, r, key), t, key);
      StepCanEnd(maxRetry, s, PublishReply(r, key), t);
    }
  }

  // ---- When a saga can still end ----

  /** A deposit that is FAILED although all that stands for it is credits. */
  ghost predicate Stuck(s: Sys, t: Id) {
    FailedDeposit(s, t) && Quiescent(s, t)
  }

  lemma TokenEnds(maxRetry: nat, s: Sys, t: Id, tok: Token)
    requires Live(s, maxRetry) && t in s.led.transactions && Holds(s, t, tok) && (tok.Credit? ==> !FailedDeposit(s, t))
    ensures CanEnd(maxRetry, s, t)
  {
    match tok {
      case Row(r) => RowEnds(maxRetry, s, t, r);
      case Order(k) => OrderEnds(maxRetry, s, t, k);
      case ReportRow(r) => ReportRowEnds(maxRetry, s, t, r);
      case Report(k) => ReportEnds(maxRetry, s, t, k);
      case Credit(k) => CreditEnds(maxRetry, s, t, k);
    }
  }

  lemma NotStuckCanEnd(maxRetry: nat, s: Sys, t: Id)
    requires Live(s, maxRetry) && t in s.led.transactions && !Stuck(s, t)
    requires exists tok :: Holds(s, t, tok)
    ensures CanEnd(maxRetry, s, t)
  {
    if tok :| Holds(s, t, tok) && !tok.Credit? {
      TokenEnds(maxRetry, s, t, tok);
    } else {
      var tok :| Holds(s, t, tok);
      TokenEnds(maxRetry, s, t, tok);
    }
  }

  // ---- A stuck deposit stays stuck ----

  lemma MoveStaysQuiescent(s: Sys, s': Sys, t: Id, gone: Token, come: Token)
    requires Quiescent(s, t) && !gone.Credit? && Anomalies(s'.hist, t) == Anomalies(s.hist, t)
    requires exists change :: Moves(s, s', t, change, gone, come)
    ensures Quiescent(s', t)
  {
    var change :| Moves(s, s', t, change, gone, come);
    assert change == Same;
    forall tok | Holds(s', t, tok) ensures tok.Credit? {
      assert Holds(s, t, tok);
    }
  }

  lemma StartStaysQuiescent(maxRetry: nat, s: Sys, step: Step, t: Id)
    requires Flow(s, maxRetry) && Started(s, t) && Quiescent(s, t)
    requires step.DepositRub? || step.TransferRub? || step.Webhook?
    ensures Quiescent(Next(maxRetry, s, step), t)
  {
    var s' := Next(maxRetry, s, step);
    var e := NewOrder(s, step, maxRetry);
    OthersTokens(s, s', e, t, maxRetry);
    forall tok | Holds(s', t, tok) ensures tok.Credit? {
      TokenIs(s, t, tok);
      TokenIs(s', t, tok);
    }
  }

  lemma OthersTokens(s: Sys, s': Sys, e: Id, t: Id, maxRetry: nat)
    requires Flow(s, maxRetry) && Started(s, t)
    requires s' == s.(led := s'.led) && s'.led.processed == s.led.processed && OrderStarted(s, s', e)
    ensures Tokens(s', t) == Tokens(s, t)
  {
    if s'.led.outbox == s.led.outbox {
      SameOutboxTokens(s, s', t);
    } else {
      NewOrderTokens(s, s', e, t, maxRetry);
    }
  }

  /** Without another broken condition nothing comes to stand for a saga but its credits. */
  lemma StaysQuiescent(maxRetry: nat, s: Sys, step: Step, t: Id)
    requires Flow(s, maxRetry) && Started(s, t) && Quiescent(s, t) && !Breaks(s, step, t)
    ensures Quiescent(Next(maxRetry, s, step), t)
  {
    BreaksCounted(maxRetry, s, step, t);
    var s' := Next(maxRetry, s, step);
    match step {
      case PublishOrder(r, k) =>
        PublishOrderMoves(s, r, k, t, maxRetry);
        MoveStaysQuiescent(s, s', t, Row(r), Order(k));
      case PublishReply(r, k) =>
        PublishReplyMoves(s, r, k, t, maxRetry);
        MoveStaysQuiescent(s, s', t, ReportRow(r), Report(k));
      case HandleOrder(k, n, f) =>
        HandleOrderMoves(s, k, n, f, t, maxRetry);
        MoveStaysQuiescent(s, s', t, Order(k), Credit(k));
      case ReportFailure(k, n) =>
        ReportFailureMoves(s, k, n, t, maxRetry);
        MoveStaysQuiescent(s, s', t, Order(k), ReportRow(n));
      case CommitReply(k, n, first, rolledBack) =>
        if rolledBack {
          QuietStaysQuiescent(maxRetry, s, step, t);
        } else {
          CommitReplyMoves(s, k, n, first, t, maxRetry);
          MoveStaysQuiescent(s, s', t, Report(k), Row(n));
        }
      case _ =>
        if Quiet(step) {
          QuietStaysQuiescent(maxRetry, s, step, t);
        } else {
          StartStaysQuiescent(maxRetry, s, step, t);
        }
    }
  }

  lemma QuietStaysQuiescent(maxRetry: nat, s: Sys, step: Step, t: Id)
    requires Quiescent(s, t) && Quiet(step)
    ensures Quiescent(Next(maxRetry, s, step), t)
  {
    forall tok | Holds(Next(maxRetry, s, step), t, tok) ensures tok.Credit? {
      QuietHolds(s, step, t, tok, maxRetry);
    }
  }

  /** A deposit that has failed changes its status by a retry only, and no retry is left to it. */
  lemma StaysFailed(maxRetry: nat, s: Sys, step: Step, t: Id)
    requires Flow(s, maxRetry) && FailedDeposit(s, t)
    ensures FailedDeposit(Next(maxRetry, s, step), t)
  {
    match step {
      case CommitReply(k, n, first, rolledBack) =>
        if rolledBack { IdleRests(s, step, maxRetry); } else { ReplyLeavesFailed(maxRetry, s, k, n, first, t); }
      case HandleOrder(k, n, f) => HandleOrderShape(s, k, n, f);
      case _ =>
        if step.DepositRub? || step.TransferRub? || step.Webhook? {
          StartLeavesRow(maxRetry, s, step, t);
        } else {
          LedgerRests(s, step, maxRetry);
        }
    }
  }

  lemma ReplyLeavesFailed(maxRetry: nat, s: Sys, key: Key, newId: Id, outFirst: bool, t: Id)
    requires Flow(s, maxRetry) && FailedDeposit(s, t)
    ensures FailedDeposit(DoCommitReply(maxRetry, s, key, newId, outFirst), t)
  {
    if ReplyKey(s, key) {
      ReplyMessage(s, key, maxRetry);
      var m := s.msgs[key];
      LI.ApplyReplyShape(s.led, key, m.topic, m.payload, newId, outFirst, maxRetry);
      assert LI.EventOk(s.led, m.payload.eventId);
      assert t in LI.Rows(m.payload) ==> m.payload == DepositReply(m.payload.eventId, t);
    }
  }

  lemma {:induction false} StuckLasts(maxRetry: nat, s: Sys, more: seq<Step>, t: Id)
    requires Flow(s, maxRetry) && Stuck(s, t) && CleanFrom(maxRetry, s, more, t)
    ensures Stuck(Continued(maxRetry, s, more), t)
    decreases |more|
  {
    if more != [] {
      FlowKeeps(s, more[0], maxRetry);
      StaysFailed(maxRetry, s, more[0], t);
      StaysQuiescent(maxRetry, s, more[0], t);
      StuckLasts(maxRetry, Next(maxRetry, s, more[0]), more[1..], t);
    }
  }

  lemma StuckIsNotEnded(s: Sys, t: Id)
    requires Stuck(s, t)
    ensures !Ended(s, t)
  {
    forall k ensures k !in Failures(s, t) {
      assert k in Failures(s, t) ==> Holds(s, t, Report(k));
    }
  }

  // ---- Every run ----

  lemma {:induction false} CleanFromCounts(maxRetry: nat, s: Sys, more: seq<Step>, t: Id)
    requires CleanFrom(maxRetry, s, more, t)
    ensures Anomalies(Continued(maxRetry, s, more).hist, t) == Anomalies(s.hist, t)
    decreases |more|
  {
    if more != [] {
      BreaksCounted(maxRetry, s, more[0], t);
      CleanFromCounts(maxRetry, Next(maxRetry, s, more[0]), more[1..], t);
    }
  }

  /**
   From every reachable state, whatever went wrong before, a started saga can still end without another broken
   condition, confirmed or with a failure that stands. The exception is a deposit that is FAILED while nothing but
   credits stands for it, and for that one there is no way out.
   */
  lemma EndsIff(maxRetry: nat, steps: seq<Step>, t: Id)
    requires Started(Run(maxRetry, steps), t)
    ensures (exists more :: CleanFrom(maxRetry, Run(maxRetry, steps), more, t) && Ended(Run(maxRetry, steps + more), t))
            <==> !Stuck(Run(maxRetry, steps), t)
  {
    var s := Run(maxRetry, steps);
    RunLives(maxRetry, steps);
    if Stuck(s, t) {
      forall more | CleanFrom(maxRetry, s, more, t) ensures !Ended(Run(maxRetry, steps + more), t) {
        RunContinued(maxRetry, steps, more);
        StuckLasts(maxRetry, s, more, t);
        StuckIsNotEnded(Continued(maxRetry, s, more), t);
      }
    } else {
      NothingLost(maxRetry, steps, t);
      NotStuckCanEnd(maxRetry, s, t);
      var more :| CleanFrom(maxRetry, s, more, t) && Ended(Continued(maxRetry, s, more), t);
      RunContinued(maxRetry, steps, more);
    }
  }

  /** A saga that was never given up unduly can always end, and a clean run of it can end cleanly. */
  lemma DueCanEnd(maxRetry: nat, steps: seq<Step>, t: Id)
    requires Started(Run(maxRetry, steps), t) && Due(maxRetry, steps, t)
    ensures exists more :: Ended(Run(maxRetry, steps + more), t)
              && (Clean(maxRetry, steps, t) ==> Clean(maxRetry, steps + more, t))
  {
    var s := Run(maxRetry, steps);
    DueStands(maxRetry, steps, t);
    if Stuck(s, t) {
      StuckIsNotEnded(s, t);
    }
    EndsIff(maxRetry, steps, t);
    var more :| CleanFrom(maxRetry, s, more, t) && Ended(Run(maxRetry, steps + more), t);
    RunContinued(maxRetry, steps, more);
    CleanFromCounts(maxRetry, s, more, t);
    CleanRun(maxRetry, steps, t);
    CleanRun(maxRetry, steps + more, t);
  }
}
