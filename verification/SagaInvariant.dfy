/** The inductive invariant of the saga: where every message comes from and what every status means. */
module SagaInvariant {
  import opened Common
  import opened Saga
  import L = Ledger
  import LI = LedgerInvariant
  import A = Accounts
  import AL = AccountsLaws

  /** A message repeats the outbox row it was published from. */
  ghost predicate MsgOk(s: Sys, k: Key)
    requires k in s.msgs
  {
    var m := s.msgs[k];
    && k != ""
    && match m.from
       case LedgerSide =>
         && m.rowId in s.hist.sentByLedger && m.rowId in s.led.outbox
         && m.topic == s.led.outbox[m.rowId].topic && m.payload == s.led.outbox[m.rowId].payload
       case AccountsSide =>
         && m.rowId in s.hist.sentByAccounts && m.rowId in s.acc.outbox
         && m.topic == s.acc.outbox[m.rowId].topic && m.payload == s.acc.outbox[m.rowId].payload
  }

  ghost predicate MsgsOk(s: Sys) {
    && (forall k {:trigger MsgOk(s, k)} | k in s.msgs :: MsgOk(s, k))
    && s.hist.sentByLedger <= s.led.outbox.Keys
    && s.hist.sentByAccounts <= s.acc.outbox.Keys
  }

  /** An outbox row of the balance side answers the order that caused it, truthfully. */
  ghost predicate ReplyOk(s: Sys, r: Id)
    requires r in s.acc.outbox
  {
    var e := s.acc.outbox[r];
    && r in s.hist.cause
    && OrderKey(s, s.hist.cause[r])
    && e.payload == s.msgs[s.hist.cause[r]].payload.Reply()
    && (e.topic == e.payload.SuccessTopic() || e.topic == e.payload.FailedTopic())
    && (e.topic == e.payload.SuccessTopic() ==> s.hist.cause[r] in s.acc.processed)
  }

  ghost predicate RepliesOk(s: Sys) {
    forall r {:trigger ReplyOk(s, r)} | r in s.acc.outbox :: ReplyOk(s, r)
  }

  ghost predicate KeysOk(s: Sys) {
    && (forall k {:trigger OrderKey(s, k)} | k in s.acc.processed || k in s.hist.reported :: OrderKey(s, k))
    && (forall k {:trigger ReplyKey(s, k)} | k in s.led.processed :: ReplyKey(s, k))
  }

  // ---- The saga a ledger row belongs to, and what became of it ----

  /** A transfer goes by its outgoing leg. */
  function SagaOf(txs: map<Id, L.Transaction>, t: Id): Id
    requires t in txs
  {
    if txs[t].typ == L.TRANSFER_IN && txs[t].referenceId.Some? then txs[t].referenceId.value else t
  }

  /** The orders of saga `t` that were applied to the balances. */
  function Credits(s: Sys, t: Id): set<Key> {
    set k | k in s.acc.processed && k in s.msgs && s.msgs[k].payload.SagaId() == t
  }

  ghost predicate StatusOk(s: Sys, t: Id)
    requires t in s.led.transactions
  {
    && (s.led.transactions[t].status == L.BALANCE_UPDATED ==> Credits(s, SagaOf(s.led.transactions, t)) != {})
    && (s.led.transactions[t].status == L.FAILED ==>
          var saga := SagaOf(s.led.transactions, t); Failures(s, saga) != {} || saga in s.hist.undue)
  }

  ghost predicate StatusesOk(s: Sys) {
    forall t {:trigger StatusOk(s, t)} | t in s.led.transactions :: StatusOk(s, t)
  }

  ghost predicate Flow(s: Sys, maxRetry: nat) {
    && LI.Inv(s.led, maxRetry)
    && MsgsOk(s)
    && RepliesOk(s)
    && KeysOk(s)
    && StatusesOk(s)
  }

  // ---- Consequences ----

  lemma OrderMessage(s: Sys, k: Key, maxRetry: nat)
    requires Flow(s, maxRetry) && OrderKey(s, k)
    ensures var p := s.msgs[k].payload;
            && IsOrder(s, k) && s.msgs[k].rowId in s.led.outbox
            && s.msgs[k].topic == p.OrderTopic()
            && LI.OrderMatches(s.led.transactions, p)
            && p.eventId in s.led.outbox && s.led.outbox[p.eventId].payload == p
            && p.SagaId() in s.led.transactions
  {
    assert MsgOk(s, k);
    assert LI.EventOk(s.led, s.msgs[k].rowId);
  }

  /** Whatever comes back names an order the ledger really sent. */
  lemma ReplyMessage(s: Sys, k: Key, maxRetry: nat)
    requires Flow(s, maxRetry) && ReplyKey(s, k)
    ensures k != ""
    ensures LI.Answers(s.led, s.msgs[k].payload)
    ensures s.msgs[k].topic == s.msgs[k].payload.SuccessTopic() || s.msgs[k].topic == s.msgs[k].payload.FailedTopic()
    ensures s.msgs[k].topic == s.msgs[k].payload.SuccessTopic() ==> Credits(s, s.msgs[k].payload.SagaId()) != {}
  {
    assert MsgOk(s, k);
    var r := s.msgs[k].rowId;
    assert ReplyOk(s, r);
    var c := s.hist.cause[r];
    OrderMessage(s, c, maxRetry);
    assert c in s.acc.processed ==> c in Credits(s, s.msgs[c].payload.SagaId());
  }

  // ---- Steps that change the ledger only ----

  /** Rows are never removed and never change but for the `processed` mark. */
  ghost predicate Extends(db: L.Db, db': L.Db) {
    && db.transactions.Keys <= db'.transactions.Keys
    && (forall r | r in db.outbox :: r in db'.outbox && LI.SameEvent(db.outbox[r], db'.outbox[r]))
  }

  ghost predicate OnlyLedger(s: Sys, s': Sys) {
    s' == s.(led := s'.led, looked := s'.looked, hist := s.hist.(undue := s'.hist.undue))
  }

  lemma LedgerStep(s: Sys, s': Sys, maxRetry: nat)
    requires Flow(s, maxRetry) && LI.Inv(s'.led, maxRetry)
    requires OnlyLedger(s, s') && Extends(s.led, s'.led)
    requires forall k | k in s'.led.processed :: ReplyKey(s, k)
    ensures MsgsOk(s') && RepliesOk(s') && KeysOk(s')
  {
    forall k | k in s'.msgs ensures MsgOk(s', k) {
      assert MsgOk(s, k);
    }
    forall r | r in s'.acc.outbox ensures ReplyOk(s', r) {
      assert ReplyOk(s, r);
    }
    forall k | k in s'.acc.processed || k in s'.hist.reported ensures OrderKey(s', k) {
      assert OrderKey(s, k);
    }
  }

  /** Steps of the ledger that confirm or fail nothing. */
  lemma QuietLedgerStep(s: Sys, s': Sys, maxRetry: nat)
    requires Flow(s, maxRetry) && LI.Inv(s'.led, maxRetry)
    requires s' == s.(led := s'.led) && Extends(s.led, s'.led)
    requires s'.led.processed == s.led.processed
    requires forall t | t in s'.led.transactions && s'.led.transactions[t].status in {L.BALANCE_UPDATED, L.FAILED} ::
               t in s.led.transactions && s.led.transactions[t] == s'.led.transactions[t]
    ensures Flow(s', maxRetry)
  {
    forall k | k in s'.led.processed ensures ReplyKey(s, k) {
    }
    LedgerStep(s, s', maxRetry);
    forall t | t in s'.led.transactions ensures StatusOk(s', t) {
      if s'.led.transactions[t].status in {L.BALANCE_UPDATED, L.FAILED} {
        assert StatusOk(s, t);
        var saga := SagaOf(s.led.transactions, t);
        assert Credits(s', saga) == Credits(s, saga);
        assert Failures(s', saga) == Failures(s, saga);
      }
    }
  }

  lemma DepositRubFlow(s: Sys, id: Id, a: Id, n: int, k: Key, payment: string, maxRetry: nat)
    requires Flow(s, maxRetry) && n > 0
    ensures Flow(s.(led := L.DepositRub(s.led, id, a, n, k, payment)), maxRetry)
  {
    LI.DepositRubKeeps(s.led, id, a, n, k, payment, maxRetry);
    QuietLedgerStep(s, s.(led := L.DepositRub(s.led, id, a, n, k, payment)), maxRetry);
  }

  lemma TransferRubFlow(s: Sys, f: Id, t: Id, n: int, available: int, k: Key, o: Id, i: Id, e: Id, maxRetry: nat)
    requires Flow(s, maxRetry) && n > 0
    ensures Flow(s.(led := L.TransferRub(s.led, f, t, n, available, k, o, i, e)), maxRetry)
  {
    LI.TransferRubKeeps(s.led, f, t, n, available, k, o, i, e, maxRetry);
    QuietLedgerStep(s, s.(led := L.TransferRub(s.led, f, t, n, available, k, o, i, e)), maxRetry);
  }

  lemma WebhookFlow(s: Sys, event: L.WebhookEvent, payment: string, v: Option<string>, e: Id, maxRetry: nat)
    requires Flow(s, maxRetry)
    ensures Flow(s.(led := L.Webhook(s.led, event, payment, v, e)), maxRetry)
  {
    LI.WebhookKeeps(s.led, event, payment, v, e, maxRetry);
    QuietLedgerStep(s, s.(led := L.Webhook(s.led, event, payment, v, e)), maxRetry);
  }

  lemma MarkOrdersFlow(s: Sys, ids: set<Id>, maxRetry: nat)
    requires Flow(s, maxRetry)
    ensures Flow(s.(led := L.MarkEventsAsProcessed(s.led, ids)), maxRetry)
  {
    LI.MarkKeeps(s.led, ids, maxRetry);
    QuietLedgerStep(s, s.(led := L.MarkEventsAsProcessed(s.led, ids)), maxRetry);
  }

  lemma CommitReplyKeeps(s: Sys, key: Key, newId: Id, outFirst: bool, maxRetry: nat)
    requires Flow(s, maxRetry)
    ensures Flow(DoCommitReply(maxRetry, s, key, newId, outFirst), maxRetry)
  {
    var s' := DoCommitReply(maxRetry, s, key, newId, outFirst);
    if s'.led == s.led {
      GrowKeeps(s, s', maxRetry);
    } else {
      ReplyMessage(s, key, maxRetry);
      var p, topic := s.msgs[key].payload, s.msgs[key].topic;
      LI.ApplyReplyKeeps(s.led, key, topic, p, newId, outFirst, maxRetry);
      var status, retried := LI.ApplyReplyReplied(s.led, key, topic, p, newId, outFirst, maxRetry);
      ReplyKeeps(s, s', key, status, retried, maxRetry);
    }
  }

  /** A failure that stands, or a note that there is none, comes with every reply that made the ledger give up. */
  ghost predicate Noted(s: Sys, s': Sys, key: Key)
    requires ReplyKey(s, key)
  {
    var saga := s.msgs[key].payload.SagaId();
    && s.hist.undue <= s'.hist.undue
    && (key in s.led.processed && Failures(s, saga) == {} ==> saga in s'.hist.undue)
  }

  lemma ReplyKeeps(s: Sys, s': Sys, key: Key, status: L.Status, retried: nat, maxRetry: nat)
    requires Flow(s, maxRetry) && LI.Inv(s'.led, maxRetry) && ReplyKey(s, key) && OnlyLedger(s, s') && Noted(s, s', key)
    requires var p, topic := s.msgs[key].payload, s.msgs[key].topic;
             && LI.Answers(s.led, p)
             && (topic == p.SuccessTopic() ==> Credits(s, p.SagaId()) != {})
             && LI.Closed(s.led.transactions, LI.Rows(p), p.SagaId())
             && LI.Replied(s.led, s'.led, key, topic, p, status, retried, maxRetry)
    ensures Flow(s', maxRetry)
  {
    forall k | k in s'.led.processed ensures ReplyKey(s, k) {
      assert k in s.led.processed ==> ReplyKey(s, k);
    }
    LedgerStep(s, s', maxRetry);
    forall t | t in s'.led.transactions ensures StatusOk(s', t) {
      ReplyStatus(s, s', key, t, status, retried, maxRetry);
    }
  }

  lemma ReplyStatus(s: Sys, s': Sys, key: Key, t: Id, status: L.Status, retried: nat, maxRetry: nat)
    requires Flow(s, maxRetry) && ReplyKey(s, key) && t in s.led.transactions
    requires OnlyLedger(s, s') && Noted(s, s', key)
    requires var p, topic := s.msgs[key].payload, s.msgs[key].topic;
             && LI.Answers(s.led, p)
             && (topic == p.SuccessTopic() ==> Credits(s, p.SagaId()) != {})
             && LI.Closed(s.led.transactions, LI.Rows(p), p.SagaId())
             && LI.Replied(s.led, s'.led, key, topic, p, status, retried, maxRetry)
    ensures StatusOk(s', t)
  {
    var p := s.msgs[key].payload;
    var saga := SagaOf(s.led.transactions, t);
    assert SagaOf(s'.led.transactions, t) == saga;
    assert StatusOk(s, t);
    assert LI.TransactionOk(s.led.transactions, t);
    assert Credits(s', saga) == Credits(s, saga);
    assert t in LI.Rows(p) <==> saga == p.SagaId();
    if saga != p.SagaId() {
      assert Failures(s', saga) == Failures(s, saga);
    } else if s'.led.transactions[t].status == L.FAILED {
      assert LI.FailuresOk(s.led.transactions, maxRetry);
      assert s'.led.processed == s.led.processed;
      assert Failures(s', saga) == Failures(s, saga);
      assert key !in s.led.processed ==> key in Failures(s, saga);
    } else if s'.led.transactions[t].status == L.BALANCE_UPDATED {
      assert s.led.transactions[t].status == L.BALANCE_UPDATED || s.msgs[key].topic == p.SuccessTopic();
    }
  }

  // ---- Steps that leave the ledger alone ----

  /** Messages, rows, keys and history are only added to. */
  ghost predicate Grows(s: Sys, s': Sys) {
    && s'.led == s.led
    && (forall k | k in s.msgs :: k in s'.msgs && s'.msgs[k] == s.msgs[k])
    && s.hist.sentByLedger <= s'.hist.sentByLedger
    && s.hist.sentByAccounts <= s'.hist.sentByAccounts
    && s.hist.undue <= s'.hist.undue
    && (forall r | r in s.acc.outbox ::
          && r in s'.acc.outbox && s'.acc.outbox[r].topic == s.acc.outbox[r].topic
          && s'.acc.outbox[r].payload == s.acc.outbox[r].payload
          && (r in s.hist.cause ==> r in s'.hist.cause && s'.hist.cause[r] == s.hist.cause[r]))
    && s.acc.processed.Keys <= s'.acc.processed.Keys
  }

  lemma MsgGrows(s: Sys, s': Sys, k: Key)
    requires Grows(s, s') && k in s.msgs && MsgOk(s, k)
    ensures MsgOk(s', k)
  {
  }

  lemma ReplyGrows(s: Sys, s': Sys, r: Id)
    requires Grows(s, s') && r in s.acc.outbox && ReplyOk(s, r)
    ensures ReplyOk(s', r)
  {
  }

  lemma StatusGrows(s: Sys, s': Sys, t: Id)
    requires Grows(s, s') && t in s.led.transactions && StatusOk(s, t)
    ensures StatusOk(s', t)
  {
    var saga := SagaOf(s.led.transactions, t);
    assert Credits(s, saga) <= Credits(s', saga);
    assert Failures(s, saga) <= Failures(s', saga);
  }

  lemma GrowKeeps(s: Sys, s': Sys, maxRetry: nat)
    requires Flow(s, maxRetry) && Grows(s, s')
    requires forall k {:trigger MsgOk(s', k)} | k in s'.msgs && k !in s.msgs :: MsgOk(s', k)
    requires forall r {:trigger ReplyOk(s', r)} | r in s'.acc.outbox && r !in s.acc.outbox :: ReplyOk(s', r)
    requires forall k {:trigger OrderKey(s', k)} | k in s'.acc.processed || k in s'.hist.reported ::
               k in s.acc.processed || k in s.hist.reported || OrderKey(s', k)
    requires s'.hist.sentByLedger <= s'.led.outbox.Keys && s'.hist.sentByAccounts <= s'.acc.outbox.Keys
    ensures Flow(s', maxRetry)
  {
    forall k | k in s'.msgs ensures MsgOk(s', k) {
      if k in s.msgs {
        assert MsgOk(s, k);
        MsgGrows(s, s', k);
      }
    }
    forall r | r in s'.acc.outbox ensures ReplyOk(s', r) {
      if r in s.acc.outbox {
        assert ReplyOk(s, r);
        ReplyGrows(s, s', r);
      }
    }
    forall k | k in s'.acc.processed || k in s'.hist.reported ensures OrderKey(s', k) {
      assert k in s.acc.processed || k in s.hist.reported ==> OrderKey(s, k);
    }
    forall k | k in s'.led.processed ensures ReplyKey(s', k) {
      assert ReplyKey(s, k);
    }
    forall t | t in s'.led.transactions ensures StatusOk(s', t) {
      assert StatusOk(s, t);
      StatusGrows(s, s', t);
    }
  }

  lemma PublishOrderKeeps(s: Sys, rowId: Id, key: Key, maxRetry: nat)
    requires Flow(s, maxRetry)
    ensures Flow(DoPublishOrder(s, rowId, key), maxRetry)
  {
    var s' := DoPublishOrder(s, rowId, key);
    if s' != s {
      assert MsgOk(s', key);
      GrowKeeps(s, s', maxRetry);
    }
  }

  lemma PublishReplyKeeps(s: Sys, rowId: Id, key: Key, maxRetry: nat)
    requires Flow(s, maxRetry)
    ensures Flow(DoPublishReply(s, rowId, key), maxRetry)
  {
    var s' := DoPublishReply(s, rowId, key);
    if s' != s {
      assert MsgOk(s', key);
      GrowKeeps(s, s', maxRetry);
    }
  }

  /** What the try block of an order changes, apart from the money. */
  lemma HandleOrderShape(s: Sys, key: Key, newId: Id, fault: A.Fault)
    ensures var s' := DoHandleOrder(s, key, newId, fault);
            && s'.led == s.led && s'.msgs == s.msgs && s'.looked == s.looked
            && (s'.acc == s.acc ==> s'.hist == s.hist)
            && (s'.acc != s.acc ==>
                  && IsOrder(s, key) && key !in s.acc.processed && newId !in s.acc.outbox
                  && var p := s.msgs[key].payload;
                  && A.Execute(s.acc, key, p, newId) == Success(s'.acc)
                  && s'.acc.processed.Keys == s.acc.processed.Keys + {key}
                  && s'.acc.outbox
                     == s.acc.outbox[newId := A.OutboxEvent(AL.Home(p), p.SuccessTopic(), p.Reply(), false)]
                  && s'.hist == Note(s.hist, p.SagaId(), key in s.hist.reported)
                                .(cause := s.hist.cause[newId := key], journal := s.hist.journal + [key]))
  {
    if IsOrder(s, key) {
      AL.ExecuteRows(s.acc, key, s.msgs[key].payload, newId);
    }
  }

  lemma HandleOrderKeeps(s: Sys, key: Key, newId: Id, fault: A.Fault, maxRetry: nat)
    requires Flow(s, maxRetry)
    ensures Flow(DoHandleOrder(s, key, newId, fault), maxRetry)
  {
    HandleOrderShape(s, key, newId, fault);
    var s' := DoHandleOrder(s, key, newId, fault);
    if s'.acc != s.acc {
      OrderApplied(s, s', key, newId, maxRetry);
    } else {
      GrowKeeps(s, s', maxRetry);
    }
  }

  lemma OrderApplied(s: Sys, s': Sys, key: Key, newId: Id, maxRetry: nat)
    requires Flow(s, maxRetry) && IsOrder(s, key) && newId !in s.acc.outbox
    requires s'.led == s.led && s'.msgs == s.msgs && s'.acc.processed.Keys == s.acc.processed.Keys + {key}
    requires var p := s.msgs[key].payload;
             && s'.acc.outbox == s.acc.outbox[newId := A.OutboxEvent(AL.Home(p), p.SuccessTopic(), p.Reply(), false)]
             && s'.hist == Note(s.hist, p.SagaId(), key in s.hist.reported)
                           .(cause := s.hist.cause[newId := key], journal := s.hist.journal + [key])
    ensures Flow(s', maxRetry)
  {
    assert OrderKey(s', key);
    assert ReplyOk(s', newId);
    GrowKeeps(s, s', maxRetry);
  }

  /** A failure report was written. */
  ghost predicate Reported(s: Sys, s': Sys, key: Key, newId: Id) {
    && IsOrder(s, key) && newId !in s.acc.outbox
    && s'.led == s.led && s'.msgs == s.msgs
    && s'.acc.balances == s.acc.balances && s'.acc.processed == s.acc.processed
    && var p := s.msgs[key].payload;
    && s'.acc.outbox == s.acc.outbox[newId := A.OutboxEvent(AL.Home(p), p.FailedTopic(), p.Reply(), false)]
    && s'.hist == Note(s.hist, p.SagaId(), key in s.acc.processed || key in s.hist.reported)
                  .(cause := s.hist.cause[newId := key], reported := s.hist.reported + {key})
  }

  lemma ReportShape(s: Sys, key: Key, newId: Id)
    ensures var s' := DoReportFailure(s, key, newId);
            if s'.acc == s.acc then s'.led == s.led && s'.msgs == s.msgs && s'.looked == s.looked && s'.hist == s.hist
            else Reported(s, s', key, newId)
  {
  }

  lemma ReportFailureKeeps(s: Sys, key: Key, newId: Id, maxRetry: nat)
    requires Flow(s, maxRetry)
    ensures Flow(DoReportFailure(s, key, newId), maxRetry)
  {
    ReportShape(s, key, newId);
    var s' := DoReportFailure(s, key, newId);
    if s'.acc == s.acc {
      GrowKeeps(s, s', maxRetry);
    } else {
      ReportedKeeps(s, s', key, newId, maxRetry);
    }
  }

  lemma ReportedKeeps(s: Sys, s': Sys, key: Key, newId: Id, maxRetry: nat)
    requires Flow(s, maxRetry) && Reported(s, s', key, newId)
    ensures Flow(s', maxRetry)
  {
    assert OrderKey(s', key);
    assert ReplyOk(s', newId);
    GrowKeeps(s, s', maxRetry);
  }

  /** Marks of replies, crashes, lookups, rollbacks and changes of the balance table. */
  predicate Idle(step: Step) {
    || step.MarkReplies? || step.CrashHandler? || step.LookUpReply? || (step.CommitReply? && step.rolledBack)
    || step.ResetAllBalances? || step.CreateAccount? || step.SetBlocked?
  }

  /** Nothing changed but balances, marks, the journal and the handlers under way. */
  ghost predicate Rests(s: Sys, s': Sys) {
    && s'.led == s.led && s'.msgs == s.msgs
    && s'.hist == s.hist.(journal := s'.hist.journal)
    && s'.acc.processed == s.acc.processed && s'.acc.outbox.Keys == s.acc.outbox.Keys
    && (forall r | r in s.acc.outbox ::
          s'.acc.outbox[r].topic == s.acc.outbox[r].topic && s'.acc.outbox[r].payload == s.acc.outbox[r].payload)
  }

  lemma IdleRests(s: Sys, step: Step, maxRetry: nat)
    requires Idle(step)
    ensures Rests(s, Next(maxRetry, s, step))
  {
    match step {
      case CrashHandler(k) => assert Rests(s, DoCrashHandler(s, k));
      case LookUpReply(k) => assert Rests(s, DoLookUpReply(s, k));
      case CommitReply(k, _, _, _) => assert Rests(s, DoRollBackReply(s, k));
      case _ => AccountsRest(s, step, maxRetry);
    }
  }

  lemma AccountsRest(s: Sys, step: Step, maxRetry: nat)
    requires step.MarkReplies? || step.ResetAllBalances? || step.CreateAccount? || step.SetBlocked?
    ensures Rests(s, Next(maxRetry, s, step))
  {
    match step {
      case MarkReplies(ids) => assert Rests(s, s.(acc := A.MarkEventsAsProcessed(s.acc, ids)));
      case ResetAllBalances =>
        assert Rests(s, s.(acc := A.ResetAllBalances(s.acc), hist := s.hist.(journal := [])));
      case CreateAccount(a) => assert Rests(s, s.(acc := A.CreateAccount(s.acc, a)));
      case SetBlocked(slot, b) => assert Rests(s, s.(acc := A.SetBlocked(s.acc, slot, b)));
    }
  }

  lemma RestKeeps(s: Sys, s': Sys, maxRetry: nat)
    requires Flow(s, maxRetry) && Rests(s, s')
    ensures Flow(s', maxRetry)
  {
    GrowKeeps(s, s', maxRetry);
  }

  lemma IdleKeeps(s: Sys, step: Step, maxRetry: nat)
    requires Flow(s, maxRetry) && Idle(step)
    ensures Flow(Next(maxRetry, s, step), maxRetry)
  {
    IdleRests(s, step, maxRetry);
    RestKeeps(s, Next(maxRetry, s, step), maxRetry);
  }

  /** The flow of messages and statuses is in order after every step, whatever is lost, late or repeated. */
  lemma FlowKeeps(s: Sys, step: Step, maxRetry: nat)
    requires Flow(s, maxRetry)
    ensures Flow(Next(maxRetry, s, step), maxRetry)
  {
    match step {
      case DepositRub(id, a, n, k, p) => if n > 0 { DepositRubFlow(s, id, a, n, k, p, maxRetry); }
      case TransferRub(f, t, n, available, k, o, i, e) =>
        if n > 0 { TransferRubFlow(s, f, t, n, available, k, o, i, e, maxRetry); }
      case Webhook(event, p, v, e) => WebhookFlow(s, event, p, v, e, maxRetry);
      case MarkOrders(ids) => MarkOrdersFlow(s, ids, maxRetry);
      case PublishOrder(r, k) => PublishOrderKeeps(s, r, k, maxRetry);
      case PublishReply(r, k) => PublishReplyKeeps(s, r, k, maxRetry);
      case HandleOrder(k, n, f) => HandleOrderKeeps(s, k, n, f, maxRetry);
      case ReportFailure(k, n) => ReportFailureKeeps(s, k, n, maxRetry);
      case CommitReply(k, n, first, rolledBack) =>
        if rolledBack { IdleKeeps(s, step, maxRetry); } else { CommitReplyKeeps(s, k, n, first, maxRetry); }
      case _ => IdleKeeps(s, step, maxRetry);
    }
  }
}
