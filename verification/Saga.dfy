/**
 The choreographed saga as one state machine: both databases, the messages between them and the
 steps of the two services. A message stays deliverable for ever, so it may arrive late, out of
 order, many times or never.
 */
module Saga {
  import opened Common
  import L = Ledger
  import A = Accounts

  datatype Side = LedgerSide | AccountsSide

  /** A published outbox row; Kafka's own key is the row id. */
  datatype Message = Message(from: Side, rowId: Id, topic: Topic, payload: Payload)

  /** What has happened so far, for the statements below; no step depends on it. */
  datatype History = History(
    sentByLedger: set<Id>, // ledger outbox rows published at least once
    sentByAccounts: set<Id>, // likewise on the balance side
    cause: map<Id, Key>, // the message whose handling wrote an outbox row of the balance side
    reported: set<Key>, // orders for which a failure was reported
    journal: seq<Key>, // orders applied to the balances since the last reset, in order
    anomalies: map<Id, nat>, // for each saga, how often a run condition was broken
    undue: set<Id>) // sagas that were declared FAILED while no failure stood

  datatype Sys = Sys(
    led: L.Db,
    acc: A.Db,
    msgs: map<Key, Message>, // by idempotencyKey header
    failing: multiset<Key>, // order handlers that are in their catch block
    looked: multiset<Key>, // ledger transactions of a reply that looked its key up and did not find it
    hist: History)

  datatype Step =
    | DepositRub(id: Id, accountId: Id, amount: int, clientKey: Key, payment: string)
    | TransferRub(fromAccountId: Id, toAccountId: Id, amount: int, available: int, clientKey: Key,
                  outId: Id, inId: Id, eventId: Id)
    | Webhook(event: L.WebhookEvent, payment: string, verified: Option<string>, eventId: Id)
    | PublishOrder(rowId: Id, key: Key)
    | PublishReply(rowId: Id, key: Key)
    | MarkOrders(ids: set<Id>)
    | MarkReplies(ids: set<Id>)
    | HandleOrder(key: Key, newId: Id, fault: A.Fault)
    | ReportFailure(key: Key, newId: Id)
    | CrashHandler(key: Key)
    | LookUpReply(key: Key)
    | CommitReply(key: Key, newId: Id, outFirst: bool, rolledBack: bool)
    | ResetAllBalances
    | CreateAccount(accountId: Id)
    | SetBlocked(slot: A.Slot, blocked: bool)

  // ---- What may stand for a saga ----

  predicate OrderKey(s: Sys, k: Key) {
    k in s.msgs && s.msgs[k].from == LedgerSide
  }

  predicate ReplyKey(s: Sys, k: Key) {
    k in s.msgs && s.msgs[k].from == AccountsSide
  }

  predicate IsFailure(s: Sys, t: Id, k: Key) {
    && ReplyKey(s, k)
    && s.msgs[k].topic == s.msgs[k].payload.FailedTopic()
    && s.msgs[k].payload.SagaId() == t
    && k !in s.led.processed
  }

  /** The published failure reports of saga `t` that have not led to a retry. */
  function Failures(s: Sys, t: Id): set<Key> {
    set k | k in s.msgs && IsFailure(s, t, k)
  }

  // ---- The steps ----

  function Anomalies(h: History, t: Id): nat {
    if t in h.anomalies then h.anomalies[t] else 0
  }

  /** Counts one more broken run condition for saga `t`, if `broken`. */
  function Note(h: History, t: Id, broken: bool): History {
    if broken then h.(anomalies := h.anomalies[t := Anomalies(h, t) + 1]) else h
  }

  /**
   A worker publishes a row under a fresh header key. Nothing stops a stale worker from publishing
   a row that is marked already; each further publication of a row breaks a run condition.
   */
  function DoPublishOrder(s: Sys, rowId: Id, key: Key): Sys {
    if rowId !in s.led.outbox || key in s.msgs || key == "" then s
    else
      var e := s.led.outbox[rowId];
      var h := Note(s.hist, e.payload.SagaId(), rowId in s.hist.sentByLedger);
      s.(msgs := s.msgs[key := Message(LedgerSide, rowId, e.topic, e.payload)],
         hist := h.(sentByLedger := h.sentByLedger + {rowId}))
  }

  /** Here a further publication breaks a condition only for a failure report: it asks for another retry. */
  function DoPublishReply(s: Sys, rowId: Id, key: Key): Sys {
    if rowId !in s.acc.outbox || key in s.msgs || key == "" then s
    else
      var e := s.acc.outbox[rowId];
      var h := Note(s.hist, e.payload.SagaId(), rowId in s.hist.sentByAccounts && e.topic == e.payload.FailedTopic());
      s.(msgs := s.msgs[key := Message(AccountsSide, rowId, e.topic, e.payload)],
         hist := h.(sentByAccounts := h.sentByAccounts + {rowId}))
  }

  predicate IsOrder(s: Sys, key: Key) {
    key in s.msgs && s.msgs[key].from == LedgerSide && s.msgs[key].payload.IsOrder()
  }

  /**
   One run of the order handler's try block. Applying an order whose failure was reported breaks a
   condition.
   */
  function DoHandleOrder(s: Sys, key: Key, newId: Id, fault: A.Fault): Sys {
    if !IsOrder(s, key) then s
    else
      var p := s.msgs[key].payload;
      var r := if fault == A.BeforeCommit then Failure(Fault) else A.Execute(s.acc, key, p, newId);
      var s1 := if r.Failure? || fault == A.AfterCommit then s.(failing := s.failing + multiset{key}) else s;
      if r.Failure? || key in s.acc.processed then s1
      else
        var h := Note(s.hist, p.SagaId(), key in s.hist.reported);
        s1.(acc := r.value, hist := h.(cause := h.cause[newId := key], journal := h.journal + [key]))
  }

  /**
   The handler's catch block. Reporting an order that was applied breaks a condition, and so does
   reporting one that was reported before.
   */
  function DoReportFailure(s: Sys, key: Key, newId: Id): Sys {
    if !IsOrder(s, key) || key !in s.failing then s
    else
      var p := s.msgs[key].payload;
      var r := A.Report(s.acc, p, newId);
      var s1 := s.(failing := s.failing - multiset{key});
      if r.Failure? then s1
      else
        var h := Note(s.hist, p.SagaId(), key in s.acc.processed || key in s.hist.reported);
        s1.(acc := r.value, hist := h.(cause := h.cause[newId := key], reported := h.reported + {key}))
  }

  /** The handler ends in its catch block without a report. */
  function DoCrashHandler(s: Sys, key: Key): Sys {
    s.(failing := s.failing - multiset{key})
  }

  /**
   The first statement of a reply's transaction. A key that is found ends it; one that is not may be inserted by
   another delivery before this transaction goes on.
   */
  function DoLookUpReply(s: Sys, key: Key): Sys {
    if !ReplyKey(s, key) || key in s.led.processed then s else s.(looked := s.looked + multiset{key})
  }

  /**
   The rest of the transaction. It is one step because its first update, or its SELECT ... FOR UPDATE, locks the
   ledger rows of the reply, and every other transaction on them waits for the commit.
   */
  function DoCommitReply(maxRetry: nat, s: Sys, key: Key, newId: Id, outFirst: bool): Sys {
    if !ReplyKey(s, key) || key !in s.looked then s
    else
      var m := s.msgs[key];
      var led := L.ApplyReply(s.led, key, m.topic, m.payload, maxRetry, newId, outFirst);
      // with a processed key only giving up changes the ledger
      var undue := key in s.led.processed && led != s.led && Failures(s, m.payload.SagaId()) == {};
      s.(led := led, looked := s.looked - multiset{key},
         hist := if undue then s.hist.(undue := s.hist.undue + {m.payload.SagaId()}) else s.hist)
  }

  function DoRollBackReply(s: Sys, key: Key): Sys {
    s.(looked := s.looked - multiset{key})
  }

  /** The state after one step; a step that is not enabled changes nothing. Amounts are positive. */
  ghost function Next(maxRetry: nat, s: Sys, step: Step): Sys {
    match step
    case DepositRub(id, a, n, k, p) =>
      if n <= 0 then s else s.(led := L.DepositRub(s.led, id, a, n, k, p))
    case TransferRub(f, t, n, available, k, o, i, e) =>
      if n <= 0 then s else s.(led := L.TransferRub(s.led, f, t, n, available, k, o, i, e))
    case Webhook(event, p, v, e) => s.(led := L.Webhook(s.led, event, p, v, e))
    case PublishOrder(r, k) => DoPublishOrder(s, r, k)
    case PublishReply(r, k) => DoPublishReply(s, r, k)
    case MarkOrders(ids) => s.(led := L.MarkEventsAsProcessed(s.led, ids))
    case MarkReplies(ids) => s.(acc := A.MarkEventsAsProcessed(s.acc, ids))
    case HandleOrder(k, n, f) => DoHandleOrder(s, k, n, f)
    case ReportFailure(k, n) => DoReportFailure(s, k, n)
    case CrashHandler(k) => DoCrashHandler(s, k)
    case LookUpReply(k) => DoLookUpReply(s, k)
    case CommitReply(k, n, first, rolledBack) =>
      if rolledBack then DoRollBackReply(s, k) else DoCommitReply(maxRetry, s, k, n, first)
    case ResetAllBalances => s.(acc := A.ResetAllBalances(s.acc), hist := s.hist.(journal := []))
    case CreateAccount(a) => s.(acc := A.CreateAccount(s.acc, a))
    case SetBlocked(slot, b) => s.(acc := A.SetBlocked(s.acc, slot, b))
  }

  /** The step breaks a run condition of saga `t`. */
  predicate Breaks(s: Sys, step: Step, t: Id) {
    match step
    case PublishOrder(r, k) =>
      // a row of the ledger outbox is published again
      r in s.hist.sentByLedger && r in s.led.outbox && k !in s.msgs && k != "" && s.led.outbox[r].payload.SagaId() == t
    case PublishReply(r, k) =>
      // a failure report is published again
      && r in s.hist.sentByAccounts && r in s.acc.outbox && k !in s.msgs && k != ""
      && s.acc.outbox[r].topic == s.acc.outbox[r].payload.FailedTopic() && s.acc.outbox[r].payload.SagaId() == t
    case HandleOrder(k, n, f) =>
      // an order is applied after it was reported failed
      && k in s.hist.reported && IsOrder(s, k) && k !in s.acc.processed && f != A.BeforeCommit
      && A.Execute(s.acc, k, s.msgs[k].payload, n).Success? && s.msgs[k].payload.SagaId() == t
    case ReportFailure(k, n) =>
      // an order is reported failed after it was applied, or twice
      && (k in s.acc.processed || k in s.hist.reported) && IsOrder(s, k) && k in s.failing
      && A.Report(s.acc, s.msgs[k].payload, n).Success? && s.msgs[k].payload.SagaId() == t
    case _ => false
  }

  const INITIAL := Sys(L.Db(map[], map[], map[]), A.Db(map[], map[], map[]), map[], multiset{}, multiset{},
                       History({}, {}, map[], {}, [], map[], {}))

  ghost function Run(maxRetry: nat, steps: seq<Step>): Sys {
    if steps == [] then INITIAL else Next(maxRetry, Run(maxRetry, steps[..|steps| - 1]), steps[|steps| - 1])
  }

  /** The state after `more` steps from `s`. */
  ghost function Continued(maxRetry: nat, s: Sys, more: seq<Step>): Sys
    decreases |more|
  {
    if more == [] then s else Continued(maxRetry, Next(maxRetry, s, more[0]), more[1..])
  }
}
