/**
 Exactly once, as a conservation law: a settled deposit or a created transfer is held by one token
 that moves along the saga. Every broken run condition adds exactly one more.
 */
module SagaTokens {
  import opened Common
  import opened Saga
  import opened SagaInvariant
  import L = Ledger
  import LI = LedgerInvariant
  import A = Accounts
  import AL = AccountsLaws

  datatype Token =
    | Row(id: Id) // an order that was not published yet
    | Order(key: Key) // a published order, neither applied nor reported
    | ReportRow(id: Id) // a failure report that was not published yet
    | Report(key: Key) // a published failure report that led to no retry
    | Credit(key: Key) // an order applied to the balances

  predicate Holds(s: Sys, t: Id, tok: Token) {
    match tok
    case Row(r) => r in s.led.outbox && r !in s.hist.sentByLedger && s.led.outbox[r].payload.SagaId() == t
    case Order(k) =>
      OrderKey(s, k) && s.msgs[k].payload.SagaId() == t && k !in s.acc.processed && k !in s.hist.reported
    case ReportRow(r) =>
      && r in s.acc.outbox && r !in s.hist.sentByAccounts
      && s.acc.outbox[r].topic == s.acc.outbox[r].payload.FailedTopic() && s.acc.outbox[r].payload.SagaId() == t
    case Report(k) => IsFailure(s, t, k)
    case Credit(k) => k in s.acc.processed && k in s.msgs && s.msgs[k].payload.SagaId() == t
  }

  /** Everything that stands for saga `t`: something on its way, a last failure, or a credit. */
  function Tokens(s: Sys, t: Id): set<Token> {
    (set r | r in s.led.outbox && Holds(s, t, Row(r)) :: Row(r))
    + (set k | k in s.msgs && Holds(s, t, Order(k)) :: Order(k))
    + (set r | r in s.acc.outbox && Holds(s, t, ReportRow(r)) :: ReportRow(r))
    + (set k | k in s.msgs && Holds(s, t, Report(k)) :: Report(k))
    + (set k | k in s.acc.processed && Holds(s, t, Credit(k)) :: Credit(k))
  }

  lemma TokensAre(s: Sys, t: Id)
    ensures forall tok :: tok in Tokens(s, t) <==> Holds(s, t, tok)
  {
  }

  lemma TokenIs(s: Sys, t: Id, tok: Token)
    ensures tok in Tokens(s, t) <==> Holds(s, t, tok)
  {
  }

  /** The saga has been handed to the outbox: a transfer at once, a deposit when it is paid. */
  ghost predicate Started(s: Sys, t: Id) {
    && t in s.led.transactions
    && !LI.OrdersDueNone(s.led.transactions[t])
  }

  ghost predicate Conserved(s: Sys, t: Id) {
    if Started(s, t) then |Tokens(s, t)| == 1 + Anomalies(s.hist, t)
    else Tokens(s, t) == {} && Anomalies(s.hist, t) == 0
  }

  /** Before its first order a saga has nothing anywhere: no row, no message, no credit. */
  lemma NothingBeforeStart(s: Sys, t: Id, maxRetry: nat)
    requires Flow(s, maxRetry) && !Started(s, t)
    ensures Tokens(s, t) == {}
    ensures forall r | r in s.led.outbox :: s.led.outbox[r].payload.SagaId() != t
    ensures forall k | k in s.msgs :: s.msgs[k].payload.SagaId() != t
    ensures forall r | r in s.acc.outbox :: s.acc.outbox[r].payload.SagaId() != t
  {
    forall r | r in s.led.outbox ensures s.led.outbox[r].payload.SagaId() != t {
      assert LI.EventOk(s.led, r);
    }
    forall k | OrderKey(s, k) ensures s.msgs[k].payload.SagaId() != t {
      assert MsgOk(s, k);
    }
    forall r | r in s.acc.outbox ensures s.acc.outbox[r].payload.SagaId() != t {
      assert ReplyOk(s, r);
      OrderMessage(s, s.hist.cause[r], maxRetry);
    }
    forall k | k in s.msgs ensures s.msgs[k].payload.SagaId() != t {
      assert MsgOk(s, k);
    }
  }

  // ---- How a step may change the tokens of one saga ----

  datatype Change = Same | Swap | Add

  /** Whether `tok` is there afterwards, given whether it was: `come` replaces `gone`, or is added. */
  predicate After(held: bool, change: Change, gone: Token, come: Token, tok: Token) {
    match change
    case Same => held
    case Swap => (held && tok != gone) || tok == come
    case Add => held || tok == come
  }

  /** An addition is noted as an anomaly. */
  ghost predicate Moves(s: Sys, s': Sys, t: Id, change: Change, gone: Token, come: Token) {
    && (forall tok {:trigger Holds(s', t, tok)} ::
          Holds(s', t, tok) <==> After(Holds(s, t, tok), change, gone, come, tok))
    && (change == Swap ==> Holds(s, t, gone))
    && (change != Same ==> !Holds(s, t, come))
    && Anomalies(s'.hist, t) == Anomalies(s.hist, t) + if change == Add then 1 else 0
  }

  lemma Count(before: set<Token>, after: set<Token>, change: Change, gone: Token, come: Token)
    requires forall tok {:trigger tok in after} :: tok in after <==> After(tok in before, change, gone, come, tok)
    requires (change == Swap ==> gone in before) && (change != Same ==> come !in before)
    ensures |after| == |before| + if change == Add then 1 else 0
  {
    match change {
      case Same =>
        assert after == before;
      case Swap =>
        assert after == before - {gone} + {come};
      case Add =>
        assert after == before + {come};
    }
  }

  lemma MovesConserve(s: Sys, s': Sys, t: Id, change: Change, gone: Token, come: Token)
    requires Conserved(s, t) && Moves(s, s', t, change, gone, come)
    requires Started(s, t) && Started(s', t)
    ensures Conserved(s', t)
  {
    TokensAre(s, t);
    TokensAre(s', t);
    forall tok ensures tok in Tokens(s', t) <==> After(tok in Tokens(s, t), change, gone, come, tok) {
      assert Holds(s', t, tok) <==> After(Holds(s, t, tok), change, gone, come, tok);
    }
    Count(Tokens(s, t), Tokens(s', t), change, gone, come);
  }

  // ---- The steps: what each does to any one token ----

  lemma PublishOrderMoves(s: Sys, rowId: Id, key: Key, t: Id, maxRetry: nat)
    requires Flow(s, maxRetry)
    ensures var s' := DoPublishOrder(s, rowId, key);
            var change := if s' == s || s.led.outbox[rowId].payload.SagaId() != t then Same
                          else if rowId in s.hist.sentByLedger then Add else Swap;
            Moves(s, s', t, change, Row(rowId), Order(key))
  {
    assert key in s.acc.processed || key in s.hist.reported ==> OrderKey(s, key);
    var s' := DoPublishOrder(s, rowId, key);
    if s' == s {
      SameMoves(s, s', t, Row(rowId), Order(key));
    } else {
      OrderPublished(s, s', rowId, key, t);
    }
  }

  lemma OrderPublished(s: Sys, s': Sys, rowId: Id, key: Key, t: Id)
    requires rowId in s.led.outbox && key !in s.msgs && key !in s.acc.processed && key !in s.hist.reported
    requires var e := s.led.outbox[rowId];
             && s' == s.(msgs := s.msgs[key := Message(LedgerSide, rowId, e.topic, e.payload)], hist := s'.hist)
             && s'.hist == Note(s.hist, e.payload.SagaId(), rowId in s.hist.sentByLedger)
                           .(sentByLedger := s.hist.sentByLedger + {rowId})
    ensures var change := if s.led.outbox[rowId].payload.SagaId() != t then Same
                          else if rowId in s.hist.sentByLedger then Add else Swap;
            Moves(s, s', t, change, Row(rowId), Order(key))
  {
  }

  lemma PublishReplyMoves(s: Sys, rowId: Id, key: Key, t: Id, maxRetry: nat)
    requires Flow(s, maxRetry)
    ensures var s' := DoPublishReply(s, rowId, key);
            var change := if s' == s || s.acc.outbox[rowId].payload.SagaId() != t
                             || s.acc.outbox[rowId].topic != s.acc.outbox[rowId].payload.FailedTopic() then Same
                          else if rowId in s.hist.sentByAccounts then Add else Swap;
            Moves(s, s', t, change, ReportRow(rowId), Report(key))
  {
    assert key in s.acc.processed ==> OrderKey(s, key);
    assert key in s.led.processed ==> ReplyKey(s, key);
    var s' := DoPublishReply(s, rowId, key);
    if s' == s {
      SameMoves(s, s', t, ReportRow(rowId), Report(key));
    } else {
      ReplyPublished(s, s', rowId, key, t);
    }
  }

  lemma ReplyPublished(s: Sys, s': Sys, rowId: Id, key: Key, t: Id)
    requires rowId in s.acc.outbox && key !in s.msgs && key !in s.acc.processed && key !in s.led.processed
    requires var e := s.acc.outbox[rowId];
             && s' == s.(msgs := s.msgs[key := Message(AccountsSide, rowId, e.topic, e.payload)], hist := s'.hist)
             && s'.hist == Note(s.hist, e.payload.SagaId(),
                                rowId in s.hist.sentByAccounts && e.topic == e.payload.FailedTopic())
                           .(sentByAccounts := s.hist.sentByAccounts + {rowId})
    ensures var e := s.acc.outbox[rowId];
            var change := if e.payload.SagaId() != t || e.topic != e.payload.FailedTopic() then Same
                          else if rowId in s.hist.sentByAccounts then Add else Swap;
            Moves(s, s', t, change, ReportRow(rowId), Report(key))
  {
  }

  lemma HandleOrderMoves(s: Sys, key: Key, newId: Id, fault: A.Fault, t: Id, maxRetry: nat)
    requires Flow(s, maxRetry)
    ensures var s' := DoHandleOrder(s, key, newId, fault);
            var change := if s'.acc == s.acc || s.msgs[key].payload.SagaId() != t then Same
                          else if key in s.hist.reported then Add else Swap;
            Moves(s, s', t, change, Order(key), Credit(key))
  {
    HandleOrderShape(s, key, newId, fault);
    var s' := DoHandleOrder(s, key, newId, fault);
    if s'.acc == s.acc {
      SameMoves(s, s', t, Order(key), Credit(key));
    } else {
      CreditMoves(s, s', key, newId, t);
    }
  }

  /** A step that changes none of what the tokens are made of. */
  lemma SameMoves(s: Sys, s': Sys, t: Id, gone: Token, come: Token)
    requires s'.led == s.led && s'.msgs == s.msgs && s'.acc == s.acc && s'.hist == s.hist
    ensures Moves(s, s', t, Same, gone, come)
  {
  }

  lemma CreditMoves(s: Sys, s': Sys, key: Key, newId: Id, t: Id)
    requires IsOrder(s, key) && key !in s.acc.processed && newId !in s.acc.outbox
    requires s'.led == s.led && s'.msgs == s.msgs && s'.acc.processed.Keys == s.acc.processed.Keys + {key}
    requires var p := s.msgs[key].payload;
             && s'.acc.outbox == s.acc.outbox[newId := A.OutboxEvent(AL.Home(p), p.SuccessTopic(), p.Reply(), false)]
             && s'.hist == Note(s.hist, p.SagaId(), key in s.hist.reported)
                           .(cause := s.hist.cause[newId := key], journal := s.hist.journal + [key])
    ensures var change := if s.msgs[key].payload.SagaId() != t then Same
                          else if key in s.hist.reported then Add else Swap;
            Moves(s, s', t, change, Order(key), Credit(key))
  {
    var change := if s.msgs[key].payload.SagaId() != t then Same else if key in s.hist.reported then Add else Swap;
    forall tok ensures Holds(s', t, tok) <==> After(Holds(s, t, tok), change, Order(key), Credit(key), tok) {
      CreditHolds(s, s', key, newId, t, tok);
    }
  }

  lemma CreditHolds(s: Sys, s': Sys, key: Key, newId: Id, t: Id, tok: Token)
    requires IsOrder(s, key) && key !in s.acc.processed && newId !in s.acc.outbox
    requires s'.led == s.led && s'.msgs == s.msgs && s'.acc.processed.Keys == s.acc.processed.Keys + {key}
    requires var p := s.msgs[key].payload;
             s'.acc.outbox == s.acc.outbox[newId := A.OutboxEvent(AL.Home(p), p.SuccessTopic(), p.Reply(), false)]
    requires s'.hist.sentByLedger == s.hist.sentByLedger && s'.hist.sentByAccounts == s.hist.sentByAccounts
    requires s'.hist.reported == s.hist.reported
    ensures var change := if s.msgs[key].payload.SagaId() != t then Same
                          else if key in s.hist.reported then Add else Swap;
            Holds(s', t, tok) <==> After(Holds(s, t, tok), change, Order(key), Credit(key), tok)
  {
  }

  lemma ReportFailureMoves(s: Sys, key: Key, newId: Id, t: Id, maxRetry: nat)
    requires Flow(s, maxRetry)
    ensures var s' := DoReportFailure(s, key, newId);
            var change := if s'.acc == s.acc || s.msgs[key].payload.SagaId() != t then Same
                          else if key in s.acc.processed || key in s.hist.reported then Add else Swap;
            Moves(s, s', t, change, Order(key), ReportRow(newId))
  {
    ReportShape(s, key, newId);
    var s' := DoReportFailure(s, key, newId);
    if s'.acc == s.acc {
      SameMoves(s, s', t, Order(key), ReportRow(newId));
    } else {
      FailureReported(s, s', key, newId, t, maxRetry);
    }
  }

  lemma FailureReported(s: Sys, s': Sys, key: Key, newId: Id, t: Id, maxRetry: nat)
    requires Flow(s, maxRetry) && Reported(s, s', key, newId)
    ensures var change := if s.msgs[key].payload.SagaId() != t then Same
                          else if key in s.acc.processed || key in s.hist.reported then Add else Swap;
            Moves(s, s', t, change, Order(key), ReportRow(newId))
  {
    assert newId in s.hist.sentByAccounts ==> newId in s.acc.outbox;
    var change := if s.msgs[key].payload.SagaId() != t then Same
                  else if key in s.acc.processed || key in s.hist.reported then Add else Swap;
    forall tok ensures Holds(s', t, tok) <==> After(Holds(s, t, tok), change, Order(key), ReportRow(newId), tok) {
      ReportHolds(s, s', key, newId, t, tok);
    }
  }

  lemma ReportHolds(s: Sys, s': Sys, key: Key, newId: Id, t: Id, tok: Token)
    requires IsOrder(s, key) && newId !in s.acc.outbox && newId !in s.hist.sentByAccounts
    requires s'.led == s.led && s'.msgs == s.msgs && s'.acc.processed == s.acc.processed
    requires var p := s.msgs[key].payload;
             s'.acc.outbox == s.acc.outbox[newId := A.OutboxEvent(AL.Home(p), p.FailedTopic(), p.Reply(), false)]
    requires s'.hist.sentByLedger == s.hist.sentByLedger && s'.hist.sentByAccounts == s.hist.sentByAccounts
    requires s'.hist.reported == s.hist.reported + {key}
    ensures var change := if s.msgs[key].payload.SagaId() != t then Same
                          else if key in s.acc.processed || key in s.hist.reported then Add else Swap;
            Holds(s', t, tok) <==> After(Holds(s, t, tok), change, Order(key), ReportRow(newId), tok)
  {
  }

  lemma CommitReplyMoves(s: Sys, key: Key, newId: Id, outFirst: bool, t: Id, maxRetry: nat)
    requires Flow(s, maxRetry)
    ensures var s' := DoCommitReply(maxRetry, s, key, newId, outFirst);
            var change := if s'.led.outbox == s.led.outbox || s.msgs[key].payload.SagaId() != t then Same else Swap;
            Moves(s, s', t, change, Report(key), Row(newId))
  {
    var s' := DoCommitReply(maxRetry, s, key, newId, outFirst);
    if s'.led != s.led {
      ReplyMessage(s, key, maxRetry);
      var m := s.msgs[key];
      LI.ApplyReplyShape(s.led, key, m.topic, m.payload, newId, outFirst, maxRetry);
      LI.AnswersEvent(s.led, m.payload, maxRetry);
      assert newId in s.hist.sentByLedger ==> newId in s.led.outbox;
      ReplyMoves(s, s', key, newId, t);
    }
  }

  /** A confirmation or a last failure moves no token; a retry turns the report into a new row. */
  lemma ReplyMoves(s: Sys, s': Sys, key: Key, newId: Id, t: Id)
    requires OnlyLedger(s, s') && ReplyKey(s, key)
    requires var m := s.msgs[key];
             || (s'.led.outbox == s.led.outbox && s'.led.processed == s.led.processed)
             || (&& s'.led.outbox == s.led.outbox && s'.led.processed == s.led.processed[key := m.topic]
                 && m.topic != m.payload.FailedTopic())
             || (&& m.topic == m.payload.FailedTopic() && key !in s.led.processed
                 && newId !in s.led.outbox && newId !in s.hist.sentByLedger && newId in s'.led.outbox
                 && s'.led.outbox == s.led.outbox[newId := s'.led.outbox[newId]]
                 && s'.led.outbox[newId].payload.SagaId() == m.payload.SagaId()
                 && s'.led.processed == s.led.processed[key := m.topic])
    ensures var change := if s'.led.outbox == s.led.outbox || s.msgs[key].payload.SagaId() != t then Same else Swap;
            Moves(s, s', t, change, Report(key), Row(newId))
  {
  }

  /** Starting a saga: its first order is its only token. */
  lemma StartConserves(s: Sys, step: Step, t: Id, maxRetry: nat)
    requires Flow(s, maxRetry) && Conserved(s, t)
    requires step.DepositRub? || step.TransferRub? || step.Webhook?
    ensures Conserved(Next(maxRetry, s, step), t)
  {
    FlowKeeps(s, step, maxRetry);
    var e := NewOrder(s, step, maxRetry);
    OrderAdded(s, Next(maxRetry, s, step), e, t, maxRetry);
  }

  lemma OrderAdded(s: Sys, s': Sys, e: Id, t: Id, maxRetry: nat)
    requires Flow(s, maxRetry) && Flow(s', maxRetry) && Conserved(s, t)
    requires s' == s.(led := s'.led) && s'.led.processed == s.led.processed && OrderStarted(s, s', e)
    ensures Conserved(s', t)
  {
    if !Started(s', t) {
      if Started(s, t) { StaysStarted(s, s', t, maxRetry); }
      NothingBeforeStart(s', t, maxRetry);
    } else if s'.led.outbox == s.led.outbox {
      SameOutboxTokens(s, s', t);
    } else {
      NewOrderTokens(s, s', e, t, maxRetry);
    }
  }

  /** A started saga has its first order in the outbox, and rows are never removed. */
  lemma StaysStarted(s: Sys, s': Sys, t: Id, maxRetry: nat)
    requires Flow(s, maxRetry) && Flow(s', maxRetry) && Extends(s.led, s'.led) && Started(s, t)
    ensures Started(s', t)
  {
    assert |LI.EventsOf(s.led.outbox, t)| >= 1;
    var r :| r in LI.EventsOf(s.led.outbox, t);
    assert LI.EventOk(s.led, r);
    if !Started(s', t) {
      NothingBeforeStart(s', t, maxRetry);
    }
  }

  lemma SameOutboxTokens(s: Sys, s': Sys, t: Id)
    requires s' == s.(led := s'.led) && s'.led.processed == s.led.processed && s'.led.outbox == s.led.outbox
    ensures Tokens(s', t) == Tokens(s, t)
  {
    SameTokens(s, s', t);
  }

  /** At most one order is new, and it starts a saga that had not started. */
  ghost predicate OrderStarted(s: Sys, s': Sys, e: Id) {
    && s.led.transactions.Keys <= s'.led.transactions.Keys
    && ((&& s'.led.outbox == s.led.outbox && forall t :: Started(s', t) ==> Started(s, t))
        || (&& e !in s.led.outbox && e in s'.led.outbox && s'.led.outbox == s.led.outbox[e := s'.led.outbox[e]]
            && !Started(s, s'.led.outbox[e].payload.SagaId())
            && forall t :: Started(s', t) ==> Started(s, t) || t == s'.led.outbox[e].payload.SagaId()))
  }

  lemma NewOrderTokens(s: Sys, s': Sys, e: Id, t: Id, maxRetry: nat)
    requires Flow(s, maxRetry)
    requires s' == s.(led := s'.led) && s'.led.processed == s.led.processed
    requires e !in s.led.outbox && e in s'.led.outbox && s'.led.outbox == s.led.outbox[e := s'.led.outbox[e]]
    requires Started(s, t) || t == s'.led.outbox[e].payload.SagaId()
    requires !Started(s, s'.led.outbox[e].payload.SagaId())
    ensures Tokens(s', t) == if Started(s, t) then Tokens(s, t) else {Row(e)}
  {
    if !Started(s, t) {
      NothingBeforeStart(s, t, maxRetry);
      TokensAre(s, t);
    }
    assert e !in s.hist.sentByLedger;
    var first := if Started(s, t) then {} else {Row(e)};
    forall tok ensures tok in Tokens(s', t) <==> tok in Tokens(s, t) + first {
      assert Holds(s', t, tok) <==> Holds(s, t, tok) || tok in first;
      TokenIs(s, t, tok);
      TokenIs(s', t, tok);
    }
  }

  /** A starting step adds at most one order, for a saga that had not started. */
  lemma NewOrder(s: Sys, step: Step, maxRetry: nat) returns (e: Id)
    requires Flow(s, maxRetry) && (step.DepositRub? || step.TransferRub? || step.Webhook?)
    ensures var s' := Next(maxRetry, s, step);
            s' == s.(led := s'.led) && s'.led.processed == s.led.processed && OrderStarted(s, s', e)
  {
    match step {
      case DepositRub(id, a, n, k, p) =>
        e := 0;
        NewDeposit(s, id, a, n, k, p);
      case TransferRub(f, t, n, available, k, o, i, id) =>
        e := id;
        NewTransfer(s, f, t, n, available, k, o, i, id);
      case Webhook(event, p, v, id) =>
        e := id;
        NewPayment(s, event, p, v, id, maxRetry);
    }
  }

  lemma NewDeposit(s: Sys, id: Id, a: Id, n: int, k: Key, payment: string)
    ensures var s' := s.(led := L.DepositRub(s.led, id, a, n, k, payment));
            s'.led.processed == s.led.processed && OrderStarted(s, s', 0)
  {
  }

  lemma NewTransfer(s: Sys, f: Id, t: Id, n: int, available: int, k: Key, o: Id, i: Id, e: Id)
    ensures var s' := s.(led := L.TransferRub(s.led, f, t, n, available, k, o, i, e));
            s'.led.processed == s.led.processed && OrderStarted(s, s', e)
  {
  }

  lemma NewPayment(s: Sys, event: L.WebhookEvent, payment: string, v: Option<string>, e: Id, maxRetry: nat)
    requires Flow(s, maxRetry)
    ensures var s' := s.(led := L.Webhook(s.led, event, payment, v, e));
            s'.led.processed == s.led.processed && OrderStarted(s, s', e)
  {
    forall t | t in s.led.transactions ensures LI.TransactionOk(s.led.transactions, t) {
    }
  }

  /** The law of the saga, step by step and for every saga. */
  lemma ConservedKeeps(s: Sys, step: Step, t: Id, maxRetry: nat)
    requires Flow(s, maxRetry) && Conserved(s, t)
    ensures Conserved(Next(maxRetry, s, step), t)
  {
    var s' := Next(maxRetry, s, step);
    FlowKeeps(s, step, maxRetry);
    if step.DepositRub? || step.TransferRub? || step.Webhook? {
      StartConserves(s, step, t, maxRetry);
    } else {
      StartedSame(s, step, t, maxRetry);
      if !Started(s, t) {
        NothingBeforeStart(s', t, maxRetry);
        NothingToBreak(s, step, t, maxRetry);
      } else {
        var change, gone, come := OtherMoves(s, step, t, maxRetry);
        MovesConserve(s, s', t, change, gone, come);
      }
    }
  }

  /** Every broken condition is about a row or a message of a saga that has started. */
  lemma NothingToBreak(s: Sys, step: Step, t: Id, maxRetry: nat)
    requires Flow(s, maxRetry) && !Started(s, t)
    ensures Anomalies(Next(maxRetry, s, step).hist, t) == Anomalies(s.hist, t)
  {
    NothingBeforeStart(s, t, maxRetry);
    match step {
      case PublishOrder(r, k) => OrderOfOthers(s, r, k, t);
      case PublishReply(r, k) => ReplyOfOthers(s, r, k, t);
      case HandleOrder(k, n, f) => HandlingOfOthers(s, k, n, f, t);
      case ReportFailure(k, n) => ReportOfOthers(s, k, n, t);
      case _ => OtherCount(maxRetry, s, step, t);
    }
  }

  lemma OrderOfOthers(s: Sys, rowId: Id, key: Key, t: Id)
    requires forall r | r in s.led.outbox :: s.led.outbox[r].payload.SagaId() != t
    ensures Anomalies(DoPublishOrder(s, rowId, key).hist, t) == Anomalies(s.hist, t)
  {
  }

  lemma ReplyOfOthers(s: Sys, rowId: Id, key: Key, t: Id)
    requires forall r | r in s.acc.outbox :: s.acc.outbox[r].payload.SagaId() != t
    ensures Anomalies(DoPublishReply(s, rowId, key).hist, t) == Anomalies(s.hist, t)
  {
  }

  lemma HandlingOfOthers(s: Sys, key: Key, newId: Id, fault: A.Fault, t: Id)
    requires forall k | k in s.msgs :: s.msgs[k].payload.SagaId() != t
    ensures Anomalies(DoHandleOrder(s, key, newId, fault).hist, t) == Anomalies(s.hist, t)
  {
    HandleOrderShape(s, key, newId, fault);
  }

  lemma ReportOfOthers(s: Sys, key: Key, newId: Id, t: Id)
    requires forall k | k in s.msgs :: s.msgs[k].payload.SagaId() != t
    ensures Anomalies(DoReportFailure(s, key, newId).hist, t) == Anomalies(s.hist, t)
  {
  }

  lemma OtherCount(maxRetry: nat, s: Sys, step: Step, t: Id)
    requires !step.PublishOrder? && !step.PublishReply? && !step.HandleOrder? && !step.ReportFailure?
    ensures Anomalies(Next(maxRetry, s, step).hist, t) == Anomalies(s.hist, t)
  {
  }

  /** Marks, crashes, lookups, rollbacks, resets and account changes move no token. */
  predicate Quiet(step: Step) {
    step.MarkOrders? || Idle(step)
  }

  lemma QuietHolds(s: Sys, step: Step, t: Id, tok: Token, maxRetry: nat)
    requires Quiet(step)
    ensures Holds(Next(maxRetry, s, step), t, tok) <==> Holds(s, t, tok)
  {
    match step {
      case MarkOrders(ids) => MarkedHolds(s, s.(led := L.MarkEventsAsProcessed(s.led, ids)), t, tok);
      case _ =>
        IdleRests(s, step, maxRetry);
        RestsHold(s, Next(maxRetry, s, step), t, tok);
    }
  }

  lemma RestsHold(s: Sys, s': Sys, t: Id, tok: Token)
    requires Rests(s, s')
    ensures Holds(s', t, tok) <==> Holds(s, t, tok)
  {
    MarkedHolds(s, s', t, tok);
  }

  /** No token depends on a mark or on a balance. */
  lemma MarkedHolds(s: Sys, s': Sys, t: Id, tok: Token)
    requires s'.msgs == s.msgs && s'.led.processed == s.led.processed && s'.acc.processed == s.acc.processed
    requires s'.hist.sentByLedger == s.hist.sentByLedger && s'.hist.sentByAccounts == s.hist.sentByAccounts
    requires s'.hist.reported == s.hist.reported
    requires s'.led.outbox.Keys == s.led.outbox.Keys && s'.acc.outbox.Keys == s.acc.outbox.Keys
    requires forall r | r in s.led.outbox :: s'.led.outbox[r].payload == s.led.outbox[r].payload
    requires forall r | r in s.acc.outbox :: s'.acc.outbox[r].payload == s.acc.outbox[r].payload
                                             && s'.acc.outbox[r].topic == s.acc.outbox[r].topic
    ensures Holds(s', t, tok) <==> Holds(s, t, tok)
  {
  }

  lemma SameTokens(s: Sys, s': Sys, t: Id)
    requires forall tok {:trigger Holds(s', t, tok)} :: Holds(s', t, tok) <==> Holds(s, t, tok)
    ensures Tokens(s', t) == Tokens(s, t)
  {
    forall tok ensures tok in Tokens(s', t) <==> tok in Tokens(s, t) {
      TokenIs(s, t, tok);
      TokenIs(s', t, tok);
    }
  }

  lemma QuietAnomalies(s: Sys, step: Step, t: Id, maxRetry: nat)
    requires Quiet(step)
    ensures Anomalies(Next(maxRetry, s, step).hist, t) == Anomalies(s.hist, t)
  {
    match step {
      case MarkOrders(_) =>
      case _ => IdleRests(s, step, maxRetry);
    }
  }

  lemma QuietMoves(s: Sys, step: Step, t: Id, maxRetry: nat, gone: Token, come: Token)
    requires Quiet(step)
    ensures Moves(s, Next(maxRetry, s, step), t, Same, gone, come)
  {
    QuietAnomalies(s, step, t, maxRetry);
    forall tok ensures Holds(Next(maxRetry, s, step), t, tok) <==> Holds(s, t, tok) {
      QuietHolds(s, step, t, tok, maxRetry);
    }
  }

  /** What every other step does to the tokens of one saga. */
  lemma OtherMoves(s: Sys, step: Step, t: Id, maxRetry: nat) returns (change: Change, gone: Token, come: Token)
    requires Flow(s, maxRetry) && !step.DepositRub? && !step.TransferRub? && !step.Webhook?
    ensures Moves(s, Next(maxRetry, s, step), t, change, gone, come)
  {
    if Quiet(step) {
      change, gone, come := Same, Order(""), Order("");
      QuietMoves(s, step, t, maxRetry, gone, come);
    } else if step.PublishOrder? || step.PublishReply? {
      change, gone, come := PublicationMoves(s, step, t, maxRetry);
    } else {
      change, gone, come := HandlingMoves(s, step, t, maxRetry);
    }
  }

  lemma PublicationMoves(s: Sys, step: Step, t: Id, maxRetry: nat) returns (change: Change, gone: Token, come: Token)
    requires Flow(s, maxRetry) && (step.PublishOrder? || step.PublishReply?)
    ensures Moves(s, Next(maxRetry, s, step), t, change, gone, come)
  {
    match step {
      case PublishOrder(r, k) =>
        PublishOrderMoves(s, r, k, t, maxRetry);
        gone, come := Row(r), Order(k);
        change := Chosen(s, DoPublishOrder(s, r, k), t, gone, come);
      case PublishReply(r, k) =>
        PublishReplyMoves(s, r, k, t, maxRetry);
        gone, come := ReportRow(r), Report(k);
        change := Chosen(s, DoPublishReply(s, r, k), t, gone, come);
    }
  }

  lemma HandlingMoves(s: Sys, step: Step, t: Id, maxRetry: nat) returns (change: Change, gone: Token, come: Token)
    requires Flow(s, maxRetry)
    requires step.HandleOrder? || step.ReportFailure? || (step.CommitReply? && !step.rolledBack)
    ensures Moves(s, Next(maxRetry, s, step), t, change, gone, come)
  {
    match step {
      case HandleOrder(k, n, f) =>
        HandleOrderMoves(s, k, n, f, t, maxRetry);
        gone, come := Order(k), Credit(k);
        change := Chosen(s, DoHandleOrder(s, k, n, f), t, gone, come);
      case ReportFailure(k, n) =>
        ReportFailureMoves(s, k, n, t, maxRetry);
        gone, come := Order(k), ReportRow(n);
        change := Chosen(s, DoReportFailure(s, k, n), t, gone, come);
      case CommitReply(k, n, first, _) =>
        CommitReplyMoves(s, k, n, first, t, maxRetry);
        gone, come := Report(k), Row(n);
        change := Chosen(s, DoCommitReply(maxRetry, s, k, n, first), t, gone, come);
    }
  }

  lemma Chosen(s: Sys, s': Sys, t: Id, gone: Token, come: Token) returns (change: Change)
    requires exists change :: Moves(s, s', t, change, gone, come)
    ensures Moves(s, s', t, change, gone, come)
  {
    change :| Moves(s, s', t, change, gone, come);
  }

  lemma StartedSame(s: Sys, step: Step, t: Id, maxRetry: nat)
    requires Flow(s, maxRetry) && !step.DepositRub? && !step.TransferRub? && !step.Webhook?
    ensures Started(Next(maxRetry, s, step), t) <==> Started(s, t)
  {
    match step {
      case CommitReply(k, n, first, rolledBack) =>
        if rolledBack { IdleRests(s, step, maxRetry); } else { RepliedStarted(s, k, n, first, t, maxRetry); }
      case HandleOrder(k, n, f) => HandleOrderShape(s, k, n, f);
      case _ => LedgerRests(s, step, maxRetry);
    }
  }

  lemma RepliedStarted(s: Sys, key: Key, newId: Id, outFirst: bool, t: Id, maxRetry: nat)
    requires Flow(s, maxRetry)
    ensures Started(DoCommitReply(maxRetry, s, key, newId, outFirst), t) <==> Started(s, t)
  {
    if ReplyKey(s, key) {
      ReplyMessage(s, key, maxRetry);
      var m := s.msgs[key];
      LI.ApplyReplyShape(s.led, key, m.topic, m.payload, newId, outFirst, maxRetry);
      if t in s.led.transactions {
        LI.OutcomeDue(s.led, key, m.topic, m.payload, newId, maxRetry, t);
      } else {
        LI.OutcomeDue(s.led, key, m.topic, m.payload, newId, maxRetry, m.payload.SagaId());
      }
    }
  }

  lemma LedgerRests(s: Sys, step: Step, maxRetry: nat)
    requires !step.DepositRub? && !step.TransferRub? && !step.Webhook?
    requires !step.CommitReply? && !step.HandleOrder?
    ensures Next(maxRetry, s, step).led.transactions == s.led.transactions
  {
    match step {
      case PublishOrder(r, k) =>
      case PublishReply(r, k) =>
      case MarkOrders(_) =>
      case ReportFailure(k, n) => ReportRests(s, k, n);
      case _ => IdleRests(s, step, maxRetry);
    }
  }

  lemma ReportRests(s: Sys, key: Key, newId: Id)
    ensures DoReportFailure(s, key, newId).led == s.led
  {
  }
}
