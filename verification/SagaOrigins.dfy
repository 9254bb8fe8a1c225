/** Where ledger rows, orders and settlements come from: each goes back to a call in the run, with what it asked for. */
module SagaOrigins {
  import opened Common
  import opened Saga
  import opened SagaInvariant
  import opened SagaTokens
  import opened SagaTheorems
  import L = Ledger
  import LC = LedgerCalls
  import LI = LedgerInvariant

  /** The step asks for just this row. */
  predicate Asks(step: Step, t: Id, row: L.Transaction) {
    match step
    case DepositRub(id, a, n, k, p) =>
      && t == id && row.typ == L.DEPOSIT && row.accountId == a && row.amount == n && n > 0
      && row.idempotencyKey == k && row.providerPaymentId == Some(p) && row.referenceId == None
      && row.currency == "RUB"
    case TransferRub(f, to, n, available, k, o, i, _) =>
      && f != to && 0 < n <= available && row.providerPaymentId == None && row.currency == "RUB"
      && if row.typ == L.TRANSFER_OUT then
           t == o && row.accountId == f && row.amount == -n && row.idempotencyKey == k && row.referenceId == Some(i)
         else
           && t == i && row.typ == L.TRANSFER_IN && row.accountId == to && row.amount == n
           && row.idempotencyKey == k + "_in" && row.referenceId == Some(o)
    case _ => false
  }

  /** The step asks for the row, and for the other leg with it if there is one. */
  ghost predicate AsksFor(step: Step, txs: map<Id, L.Transaction>, t: Id)
    requires t in txs
  {
    && Asks(step, t, txs[t])
    && match txs[t].referenceId
       case None => true
       case Some(q) => q in txs && Asks(step, q, txs[q])
  }

  /** A confirmed webhook for the payment of the row, of the event its status says. */
  predicate Settles(step: Step, row: L.Transaction) {
    match step
    case Webhook(event, payment, verified, _) =>
      if row.status == L.TIMEOUT then
        event == L.PaymentCanceled && verified.Some? && row.providerPaymentId == Some(payment)
      else event == L.PaymentSucceeded && verified.Some? && row.providerPaymentId == verified
    case _ => false
  }

  /** The status of a deposit before and after a step. */
  predicate StatusMoves(step: Step, old_: L.Transaction, new_: L.Transaction) {
    old_.typ == L.DEPOSIT ==>
      || new_.status == old_.status
      || (old_.status == L.PENDING && Settles(step, new_))
      || (old_.status !in {L.PENDING, L.TIMEOUT} && new_.status !in {L.PENDING, L.TIMEOUT})
  }

  /** What a step may do to one row: it stays, and only its status and its counter ever change. */
  ghost predicate RowMoves(step: Step, txs: map<Id, L.Transaction>, txs': map<Id, L.Transaction>, t: Id) {
    if t in txs then
      && t in txs'
      && txs'[t] == txs[t].(status := txs'[t].status, retryCount := txs'[t].retryCount)
      && StatusMoves(step, txs[t], txs'[t])
    else t in txs' ==> AsksFor(step, txs', t) && txs'[t].status == L.PENDING
  }

  lemma StartMoves(maxRetry: nat, s: Sys, step: Step, t: Id)
    requires step.DepositRub? || step.TransferRub?
    ensures RowMoves(step, s.led.transactions, Next(maxRetry, s, step).led.transactions, t)
  {
    match step {
      case DepositRub(id, a, n, k, p) => LC.DepositRubDoes(s.led, id, a, n, k, p);
      case TransferRub(f, to, n, available, k, o, i, e) => LC.TransferRubDoes(s.led, f, to, n, available, k, o, i, e);
    }
  }

  lemma WebhookMoves(s: Sys, event: L.WebhookEvent, payment: string, v: Option<string>, e: Id, t: Id)
    ensures RowMoves(Webhook(event, payment, v, e), s.led.transactions,
                     L.Webhook(s.led, event, payment, v, e).transactions, t)
  {
  }

  lemma ReplyMoves(maxRetry: nat, s: Sys, key: Key, newId: Id, outFirst: bool, t: Id)
    requires Flow(s, maxRetry)
    ensures RowMoves(CommitReply(key, newId, outFirst, false), s.led.transactions,
                     DoCommitReply(maxRetry, s, key, newId, outFirst).led.transactions, t)
  {
    var led' := DoCommitReply(maxRetry, s, key, newId, outFirst).led;
    if led' != s.led {
      ReplyMessage(s, key, maxRetry);
      var m := s.msgs[key];
      var status, retried := LI.ApplyReplyReplied(s.led, key, m.topic, m.payload, newId, outFirst, maxRetry);
      UpdatedMoves(s.led.transactions, LI.Rows(m.payload), m.payload.SagaId(), status, retried,
                   CommitReply(key, newId, outFirst, false), t);
    }
  }

  lemma UpdatedMoves(txs: map<Id, L.Transaction>, ids: set<Id>, saga: Id, status: L.Status, retried: nat, step: Step,
                     t: Id)
    requires LI.Closed(txs, ids, saga) && (status !in {L.PENDING, L.TIMEOUT} || status == txs[saga].status)
    ensures RowMoves(step, txs, LI.Updated(txs, ids, status, retried), t)
  {
  }

  lemma StepMoves(maxRetry: nat, s: Sys, step: Step, t: Id)
    requires Flow(s, maxRetry)
    ensures RowMoves(step, s.led.transactions, Next(maxRetry, s, step).led.transactions, t)
  {
    match step {
      case DepositRub(_, _, _, _, _) => StartMoves(maxRetry, s, step, t);
      case TransferRub(_, _, _, _, _, _, _, _) => StartMoves(maxRetry, s, step, t);
      case Webhook(event, p, v, e) => WebhookMoves(s, event, p, v, e, t);
      case CommitReply(k, n, first, rolledBack) =>
        if rolledBack { IdleRests(s, step, maxRetry); } else { ReplyMoves(maxRetry, s, k, n, first, t); }
      case HandleOrder(k, n, f) => HandleOrderShape(s, k, n, f);
      case _ => LedgerRests(s, step, maxRetry);
    }
  }

  // ---- Every run ----

  ghost predicate Asked(steps: seq<Step>, txs: map<Id, L.Transaction>, t: Id)
    requires t in txs
  {
    exists n :: 0 <= n < |steps| && AsksFor(steps[n], txs, t)
  }

  ghost predicate SettledIn(steps: seq<Step>, row: L.Transaction) {
    exists n :: 0 <= n < |steps| && Settles(steps[n], row)
  }

  /** A row was asked for, and a deposit that is not pending was settled. */
  ghost predicate Explained(steps: seq<Step>, txs: map<Id, L.Transaction>, t: Id)
    requires t in txs
  {
    && Asked(steps, txs, t)
    && (txs[t].typ == L.DEPOSIT && txs[t].status != L.PENDING ==> SettledIn(steps, txs[t]))
  }

  lemma StillAsked(steps: seq<Step>, step: Step, txs: map<Id, L.Transaction>, txs': map<Id, L.Transaction>, t: Id)
    requires steps != [] && step == steps[|steps| - 1] && t in txs && Asked(steps[..|steps| - 1], txs, t)
    requires forall q :: RowMoves(step, txs, txs', q)
    ensures t in txs' && Asked(steps, txs', t)
  {
    var before := steps[..|steps| - 1];
    var n :| 0 <= n < |before| && AsksFor(before[n], txs, t);
    assert RowMoves(step, txs, txs', t);
    if txs[t].referenceId.Some? {
      assert RowMoves(step, txs, txs', txs[t].referenceId.value);
    }
    assert AsksFor(steps[n], txs', t);
  }

  lemma StillSettled(steps: seq<Step>, row: L.Transaction, row': L.Transaction)
    requires steps != [] && row' == row.(status := row'.status, retryCount := row'.retryCount)
    requires StatusMoves(steps[|steps| - 1], row, row') && row.typ == L.DEPOSIT
    requires row.status != L.PENDING ==> SettledIn(steps[..|steps| - 1], row)
    ensures row'.status != L.PENDING ==> SettledIn(steps, row')
  {
    var before := steps[..|steps| - 1];
    if row.status == L.PENDING {
      assert row'.status != L.PENDING ==> Settles(steps[|steps| - 1], row');
    } else {
      var m :| 0 <= m < |before| && Settles(before[m], row);
      assert Settles(steps[m], row');
    }
  }

  /**
   Every ledger row goes back to a call that asked for it, the two legs of a transfer to the same call, and every
   settled deposit to a confirmed webhook for its payment, of the event its status says.
   */
  lemma {:induction false} RowsExplained(maxRetry: nat, steps: seq<Step>, t: Id)
    requires t in Run(maxRetry, steps).led.transactions
    ensures Explained(steps, Run(maxRetry, steps).led.transactions, t)
  {
    var n := |steps| - 1;
    var s, s' := Run(maxRetry, steps[..n]), Run(maxRetry, steps);
    var txs, txs' := s.led.transactions, s'.led.transactions;
    RunKeeps(maxRetry, steps[..n]);
    forall q ensures RowMoves(steps[n], txs, txs', q) {
      StepMoves(maxRetry, s, steps[n], q);
    }
    assert RowMoves(steps[n], txs, txs', t);
    if t in txs {
      RowsExplained(maxRetry, steps[..n], t);
      StillAsked(steps, steps[n], txs, txs', t);
      if txs[t].typ == L.DEPOSIT {
        StillSettled(steps, txs[t], txs'[t]);
      }
    } else {
      assert AsksFor(steps[n], txs', t);
    }
  }

  /** The client call an order goes back to. */
  predicate OrderedBy(step: Step, p: Payload) {
    match p
    case DepositOrder(_, t, a, c, n) =>
      step.DepositRub? && step.id == t && step.accountId == a && step.amount == n && c == "RUB"
    case TransferOrder(_, o, i, f, to, c, n) =>
      && step.TransferRub? && step.outId == o && step.inId == i && step.fromAccountId == f && step.toAccountId == to
      && step.amount == n && c == "RUB" && f != to && n <= step.available
    case _ => false
  }

  lemma AskedIsOrdered(step: Step, txs: map<Id, L.Transaction>, p: Payload)
    requires LI.OrderMatches(txs, p) && p.SagaId() in txs && AsksFor(step, txs, p.SagaId())
    ensures OrderedBy(step, p)
  {
  }

  /**
   Every order on its way, so every order that moves money, carries the accounts and the amount of one client call in
   the run.
   */
  lemma OrdersAsked(maxRetry: nat, steps: seq<Step>, k: Key)
    requires OrderKey(Run(maxRetry, steps), k)
    ensures exists n :: 0 <= n < |steps| && OrderedBy(steps[n], Run(maxRetry, steps).msgs[k].payload)
  {
    RunKeeps(maxRetry, steps);
    var s := Run(maxRetry, steps);
    OrderMessage(s, k, maxRetry);
    var p := s.msgs[k].payload;
    RowsExplained(maxRetry, steps, p.SagaId());
    var n :| 0 <= n < |steps| && AsksFor(steps[n], s.led.transactions, p.SagaId());
    AskedIsOrdered(steps[n], s.led.transactions, p);
  }

  /** A deposit has an order, a message or a credit only if its payment was announced and confirmed as succeeded. */
  lemma OrderedIsPaid(maxRetry: nat, steps: seq<Step>, t: Id)
    requires var s := Run(maxRetry, steps);
             && t in s.led.transactions && s.led.transactions[t].typ == L.DEPOSIT
             && ((exists r :: r in s.led.outbox && s.led.outbox[r].payload.SagaId() == t)
                 || (exists k :: k in s.msgs && s.msgs[k].payload.SagaId() == t)
                 || Credits(s, t) != {})
    ensures var row := Run(maxRetry, steps).led.transactions[t];
            exists n :: 0 <= n < |steps| && steps[n].Webhook? && steps[n].event == L.PaymentSucceeded
              && steps[n].verified.Some? && row.providerPaymentId == steps[n].verified
  {
    var row := Run(maxRetry, steps).led.transactions[t];
    if row.status in {L.PENDING, L.TIMEOUT} {
      UnpaidIsUncredited(maxRetry, steps, t);
      assert false;
    }
    RowsExplained(maxRetry, steps, t);
    var n :| 0 <= n < |steps| && Settles(steps[n], row);
  }

  // ---- And every call takes effect ----

  lemma UniqueMoves(step: Step, txs: map<Id, L.Transaction>, txs': map<Id, L.Transaction>)
    requires L.Unique(txs) && txs'.Keys == txs.Keys && forall t :: RowMoves(step, txs, txs', t)
    ensures L.Unique(txs')
  {
    forall t | t in txs
      ensures txs'[t].idempotencyKey == txs[t].idempotencyKey
           && txs'[t].providerPaymentId == txs[t].providerPaymentId
    {
      assert RowMoves(step, txs, txs', t);
    }
  }

  lemma StartUnique(maxRetry: nat, s: Sys, step: Step)
    requires (step.DepositRub? || step.TransferRub?) && L.Unique(s.led.transactions)
    ensures L.Unique(Next(maxRetry, s, step).led.transactions)
  {
    match step {
      case DepositRub(id, a, n, k, p) =>
        LC.DepositRubDoes(s.led, id, a, n, k, p);
        if LC.DepositFree(s.led, id, k, p) {
          LC.UniqueInserted(s.led.transactions, id,
                            L.Transaction(a, n, "RUB", L.DEPOSIT, L.PENDING, k, 0, Some(p), None));
        }
      case TransferRub(f, to, n, available, k, o, i, e) =>
        LC.TransferRubDoes(s.led, f, to, n, available, k, o, i, e);
        var led' := L.TransferRub(s.led, f, to, n, available, k, o, i, e);
        if f != to && n <= available && LC.TransferFree(s.led, k, o, i, e) {
          LC.TransferUnique(s.led, led', f, to, n, "RUB", k, o, i, e);
        }
    }
  }

  lemma StepUnique(maxRetry: nat, s: Sys, step: Step)
    requires Flow(s, maxRetry) && L.Unique(s.led.transactions)
    ensures L.Unique(Next(maxRetry, s, step).led.transactions)
  {
    if step.DepositRub? || step.TransferRub? {
      StartUnique(maxRetry, s, step);
    } else {
      var txs, txs' := s.led.transactions, Next(maxRetry, s, step).led.transactions;
      forall t ensures RowMoves(step, txs, txs', t) && (t in txs <==> t in txs') {
        StepMoves(maxRetry, s, step, t);
      }
      UniqueMoves(step, txs, txs');
    }
  }

  /** The unique indexes of the ledger hold in every run. */
  lemma {:induction false} RunUnique(maxRetry: nat, steps: seq<Step>)
    ensures L.Unique(Run(maxRetry, steps).led.transactions)
  {
    if steps != [] {
      RunUnique(maxRetry, steps[..|steps| - 1]);
      RunKeeps(maxRetry, steps[..|steps| - 1]);
      StepUnique(maxRetry, Run(maxRetry, steps[..|steps| - 1]), steps[|steps| - 1]);
    }
  }

  /** The ledger after a client's call. */
  lemma CallTakesEffect(maxRetry: nat, s: Sys, step: Step)
    ensures var led' := Next(maxRetry, s, step).led;
            match step
            case DepositRub(id, a, n, k, p) =>
              led' == if n > 0 && LC.DepositFree(s.led, id, k, p) then
                        var row := L.Transaction(a, n, "RUB", L.DEPOSIT, L.PENDING, k, 0, Some(p), None);
                        L.Db(s.led.transactions[id := row], s.led.outbox, s.led.processed)
                      else s.led
            case TransferRub(f, to, n, available, k, o, i, e) =>
              if 0 < n <= available && f != to && LC.TransferFree(s.led, k, o, i, e)
              then LC.TransferMade(s.led, led', f, to, n, "RUB", k, o, i, e)
              else led' == s.led
            case _ => true
  {
    match step {
      case DepositRub(id, a, n, k, p) => LC.DepositRubDoes(s.led, id, a, n, k, p);
      case TransferRub(f, to, n, available, k, o, i, e) => LC.TransferRubDoes(s.led, f, to, n, available, k, o, i, e);
      case _ =>
    }
  }

  /** The ledger after a confirmed webhook, in any run, for the deposit `t` of its payment. */
  lemma WebhookTakesEffect(maxRetry: nat, steps: seq<Step>, event: L.WebhookEvent, payment: string,
                           verified: Option<string>, e: Id, t: Id)
    requires verified.Some? && event != L.Unknown
    requires LC.PaysFor(Run(maxRetry, steps).led, if event == L.PaymentSucceeded then verified.value else payment, t)
    ensures var led := Run(maxRetry, steps).led;
            var led' := Run(maxRetry, steps + [Webhook(event, payment, verified, e)]).led;
            var pending := led.transactions[t].status == L.PENDING;
            led' == if pending && event == L.PaymentCanceled then LC.TimedOut(led, t)
                    else if pending && event == L.PaymentSucceeded && e !in led.outbox then LC.Paid(led, t, e)
                    else led
  {
    var s, step := Run(maxRetry, steps), Webhook(event, payment, verified, e);
    RunUnique(maxRetry, steps);
    assert (steps + [step])[..|steps|] == steps;
    if event == L.PaymentSucceeded {
      LC.SucceededDoes(s.led, payment, verified.value, e, t);
    } else {
      LC.CanceledDoes(s.led, payment, verified.value, e, t);
    }
  }
}
