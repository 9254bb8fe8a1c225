/**
 The saga with one outbox worker on each side. The publications and the marks of the saga are those of the workers;
 if no pass ends without its mark, the two run conditions about publications hold by themselves.
 */
module SagaWorkers {
  import opened Common
  import opened Saga
  import opened SagaInvariant
  import opened SagaTheorems
  import L = Ledger
  import LI = LedgerInvariant
  import OutboxWorker
  import W = OutboxRuns

  predicate Publishes(s: Sys, step: Step, side: Side, id: Id) {
    match step
    case PublishOrder(r, k) => side == LedgerSide && r == id && r in s.led.outbox && k !in s.msgs && k != ""
    case PublishReply(r, k) => side == AccountsSide && r == id && r in s.acc.outbox && k !in s.msgs && k != ""
    case _ => false
  }

  /** How often row `id` of a side's outbox was published. */
  ghost function Publications(maxRetry: nat, steps: seq<Step>, side: Side, id: Id): nat {
    if steps == [] then 0
    else
      var n := |steps| - 1;
      Publications(maxRetry, steps[..n], side, id)
      + if Publishes(Run(maxRetry, steps[..n]), steps[n], side, id) then 1 else 0
  }

  predicate Sent(s: Sys, side: Side, id: Id) {
    if side == LedgerSide then id in s.hist.sentByLedger else id in s.hist.sentByAccounts
  }

  lemma SentBy(maxRetry: nat, s: Sys, step: Step, side: Side, id: Id)
    ensures Sent(Next(maxRetry, s, step), side, id) <==> Sent(s, side, id) || Publishes(s, step, side, id)
  {
    match step {
      case PublishOrder(r, k) =>
      case PublishReply(r, k) =>
      case _ => OthersSendNothing(maxRetry, s, step);
    }
  }

  lemma OthersSendNothing(maxRetry: nat, s: Sys, step: Step)
    requires !step.PublishOrder? && !step.PublishReply?
    ensures var h := Next(maxRetry, s, step).hist;
            h.sentByLedger == s.hist.sentByLedger && h.sentByAccounts == s.hist.sentByAccounts
  {
    match step {
      case HandleOrder(k, n, f) => HandleOrderShape(s, k, n, f);
      case ReportFailure(k, n) => ReportSendsNothing(s, k, n);
      case CommitReply(k, n, first, rolledBack) => CommitSendsNothing(maxRetry, s, k, n, first);
      case _ => RestSendsNothing(maxRetry, s, step);
    }
  }

  lemma RestSendsNothing(maxRetry: nat, s: Sys, step: Step)
    requires !step.PublishOrder? && !step.PublishReply?
    requires !step.HandleOrder? && !step.ReportFailure? && !step.CommitReply?
    ensures var h := Next(maxRetry, s, step).hist;
            h.sentByLedger == s.hist.sentByLedger && h.sentByAccounts == s.hist.sentByAccounts
  {
  }

  lemma ReportSendsNothing(s: Sys, key: Key, newId: Id)
    ensures var h := DoReportFailure(s, key, newId).hist;
            h.sentByLedger == s.hist.sentByLedger && h.sentByAccounts == s.hist.sentByAccounts
  {
  }

  lemma CommitSendsNothing(maxRetry: nat, s: Sys, key: Key, newId: Id, outFirst: bool)
    ensures var h := DoCommitReply(maxRetry, s, key, newId, outFirst).hist;
            h.sentByLedger == s.hist.sentByLedger && h.sentByAccounts == s.hist.sentByAccounts
  {
  }

  /** A row counts as sent just if it was published. */
  lemma {:induction false} SentIff(maxRetry: nat, steps: seq<Step>, side: Side, id: Id)
    ensures Sent(Run(maxRetry, steps), side, id) <==> Publications(maxRetry, steps, side, id) > 0
  {
    if steps != [] {
      var n := |steps| - 1;
      SentIff(maxRetry, steps[..n], side, id);
      SentBy(maxRetry, Run(maxRetry, steps[..n]), steps[n], side, id);
    }
  }

  lemma {:induction false} PublicationsGrow(maxRetry: nat, steps: seq<Step>, i: nat, side: Side, id: Id)
    requires i <= |steps|
    ensures Publications(maxRetry, steps[..i], side, id) <= Publications(maxRetry, steps, side, id)
    decreases |steps|
  {
    if i == |steps| {
      assert steps[..i] == steps;
    } else {
      assert steps[..|steps| - 1][..i] == steps[..i];
      PublicationsGrow(maxRetry, steps[..|steps| - 1], i, side, id);
    }
  }

  lemma PublishedAgain(maxRetry: nat, steps: seq<Step>, i: nat, side: Side, id: Id)
    requires i < |steps|
    requires Sent(Run(maxRetry, steps[..i]), side, id) && Publishes(Run(maxRetry, steps[..i]), steps[i], side, id)
    ensures Publications(maxRetry, steps, side, id) >= 2
  {
    SentIff(maxRetry, steps[..i], side, id);
    assert steps[..i + 1][..i] == steps[..i];
    PublicationsGrow(maxRetry, steps, i + 1, side, id);
  }

  // ---- The saga and its two workers, step by step ----

  datatype Act =
    | Elsewhere(step: Step) // a step of the saga that is not a worker's
    | Work(side: Side, work: W.Step, key: Key) // a step of a worker; a message it delivers goes out under `key`

  /** What the saga and each worker have done. */
  datatype Traces = Traces(saga: seq<Step>, ledger: seq<W.Step>, accounts: seq<W.Step>)

  function Of(tr: Traces, side: Side): seq<W.Step> {
    if side == LedgerSide then tr.ledger else tr.accounts
  }

  /** The outbox of a side as its worker sees it: the rows, and whether they are marked. */
  function Marks(s: Sys, side: Side): map<Id, bool> {
    if side == LedgerSide then map r | r in s.led.outbox :: s.led.outbox[r].processed
    else map r | r in s.acc.outbox :: s.acc.outbox[r].processed
  }

  predicate IsWork(step: Step) {
    step.PublishOrder? || step.PublishReply? || step.MarkOrders? || step.MarkReplies?
  }

  function PublishStep(side: Side, rowId: Id, key: Key): Step {
    if side == LedgerSide then PublishOrder(rowId, key) else PublishReply(rowId, key)
  }

  function MarkStep(side: Side, ids: set<Id>): Step {
    if side == LedgerSide then MarkOrders(ids) else MarkReplies(ids)
  }

  /** A row that has come to an outbox is there for its worker to find. */
  ghost function Arrived(before: map<Id, bool>, after: map<Id, bool>): seq<W.Step> {
    if exists r :: r in after && r !in before then
      var r :| r in after && r !in before;
      [W.Insert(r)]
    else []
  }

  function Acknowledged(p: W.Pass): set<Id> {
    set id | id in p.processedIds
  }

  function Marked(marks: map<Id, bool>, ids: set<Id>): map<Id, bool> {
    map r | r in marks :: marks[r] || r in ids
  }

  function Worked(tr: Traces, side: Side, w: W.Step, steps: seq<Step>): Traces {
    if side == LedgerSide then tr.(saga := tr.saga + steps, ledger := tr.ledger + [w])
    else tr.(saga := tr.saga + steps, accounts := tr.accounts + [w])
  }

  /** What a step of a worker does to the saga. */
  function Effect(state: W.State, side: Side, w: W.Step, key: Key): seq<Step> {
    match w
    case Publish(i, outcome) =>
      if i < |state.passes| && state.passes[i].todo != [] && outcome in OutboxWorker.DELIVERED
      then [PublishStep(side, state.passes[i].todo[0], key)] else []
    case Finish(i, marked) =>
      if i < |state.passes| && state.passes[i].todo == [] && marked
      then [MarkStep(side, Acknowledged(state.passes[i]))] else []
    case _ => []
  }

  /** A worker's own rows come from the saga only, and no two publications have the same key. */
  ghost function Play(maxRetry: nat, tr: Traces, act: Act): Traces {
    var s := Run(maxRetry, tr.saga);
    match act
    case Elsewhere(step) =>
      if IsWork(step) then tr
      else
        var s' := Next(maxRetry, s, step);
        Traces(tr.saga + [step], tr.ledger + Arrived(Marks(s, LedgerSide), Marks(s', LedgerSide)),
               tr.accounts + Arrived(Marks(s, AccountsSide), Marks(s', AccountsSide)))
    case Work(side, w, key) =>
      if w.Insert? || (w.Publish? && (key in s.msgs || key == "")) then tr
      else Worked(tr, side, w, Effect(W.Run(Of(tr, side)), side, w, key))
  }

  ghost function Played(maxRetry: nat, acts: seq<Act>): Traces {
    if acts == [] then Traces([], [], [])
    else Play(maxRetry, Played(maxRetry, acts[..|acts| - 1]), acts[|acts| - 1])
  }

  /** The worker knows the saga's rows and marks, and delivered row `id` as often as the saga published it. */
  ghost predicate Agree(maxRetry: nat, tr: Traces, side: Side, id: Id) {
    && W.Run(Of(tr, side)).rows == Marks(Run(maxRetry, tr.saga), side)
    && W.Run(Of(tr, side)).published[id] == Publications(maxRetry, tr.saga, side, id)
  }

  // ---- One step more ----

  lemma RunMore(maxRetry: nat, steps: seq<Step>, step: Step, side: Side, id: Id)
    ensures Run(maxRetry, steps + [step]) == Next(maxRetry, Run(maxRetry, steps), step)
    ensures Publications(maxRetry, steps + [step], side, id)
         == Publications(maxRetry, steps, side, id) + if Publishes(Run(maxRetry, steps), step, side, id) then 1 else 0
  {
    assert (steps + [step])[..|steps|] == steps;
  }

  lemma WorkMore(ws: seq<W.Step>, w: W.Step)
    ensures W.Run(ws + [w]) == W.Next(W.Run(ws), w)
  {
    assert (ws + [w])[..|ws|] == ws;
  }

  // ---- Steps of the saga ----

  ghost predicate AtMostOneNew(before: map<Id, bool>, after: map<Id, bool>) {
    after == before || exists r: Id :: r !in before && after == before[r := false]
  }

  lemma ArrivedRows(ws: seq<W.Step>, before: map<Id, bool>, after: map<Id, bool>)
    requires AtMostOneNew(before, after) && W.Run(ws).rows == before
    ensures W.Run(ws + Arrived(before, after)).rows == after
    ensures W.Run(ws + Arrived(before, after)).published == W.Run(ws).published
  {
    if after == before {
      assert ws + Arrived(before, after) == ws;
    } else {
      var r :| r !in before && after == before[r := false];
      assert r in after;
      assert Arrived(before, after) == [W.Insert(r)];
      WorkMore(ws, W.Insert(r));
    }
  }

  lemma StepAdds(maxRetry: nat, s: Sys, step: Step, side: Side)
    requires Flow(s, maxRetry) && !IsWork(step)
    ensures AtMostOneNew(Marks(s, side), Marks(Next(maxRetry, s, step), side))
  {
    match step {
      case HandleOrder(k, n, f) => HandlingAdds(s, k, n, f, side);
      case ReportFailure(k, n) => ReportAdds(s, k, n, side);
      case CommitReply(k, n, first, rolledBack) =>
        if rolledBack { IdleAdds(maxRetry, s, step, side); } else { ReplyAdds(maxRetry, s, k, n, first, side); }
      case _ =>
        if step.DepositRub? || step.TransferRub? || step.Webhook? {
          StartAdds(maxRetry, s, step, side);
        } else {
          IdleAdds(maxRetry, s, step, side);
        }
    }
  }

  lemma HandlingAdds(s: Sys, key: Key, newId: Id, fault: A.Fault, side: Side)
    ensures AtMostOneNew(Marks(s, side), Marks(DoHandleOrder(s, key, newId, fault), side))
  {
    HandleOrderShape(s, key, newId, fault);
    OneNew(s, DoHandleOrder(s, key, newId, fault), side, newId);
  }

  lemma ReportAdds(s: Sys, key: Key, newId: Id, side: Side)
    ensures AtMostOneNew(Marks(s, side), Marks(DoReportFailure(s, key, newId), side))
  {
    ReportShape(s, key, newId);
    OneNew(s, DoReportFailure(s, key, newId), side, newId);
  }

  /** Crashes, lookups, rollbacks and changes of the balance table add no row. */
  lemma IdleAdds(maxRetry: nat, s: Sys, step: Step, side: Side)
    requires Idle(step) && !step.MarkReplies?
    ensures Marks(Next(maxRetry, s, step), side) == Marks(s, side)
  {
    match step {
      case CrashHandler(_) =>
      case LookUpReply(_) =>
      case CommitReply(_, _, _, _) =>
      case ResetAllBalances =>
      case CreateAccount(_) =>
      case SetBlocked(_, _) =>
    }
  }

  /** At most the row `n` is new on either side, unmarked. */
  lemma OneNew(s: Sys, s': Sys, side: Side, n: Id)
    requires s'.led.outbox == s.led.outbox
             || (&& n !in s.led.outbox && n in s'.led.outbox && !s'.led.outbox[n].processed
                 && s'.led.outbox == s.led.outbox[n := s'.led.outbox[n]])
    requires s'.acc.outbox == s.acc.outbox
             || (&& n !in s.acc.outbox && n in s'.acc.outbox && !s'.acc.outbox[n].processed
                 && s'.acc.outbox == s.acc.outbox[n := s'.acc.outbox[n]])
    ensures AtMostOneNew(Marks(s, side), Marks(s', side))
  {
    if Marks(s', side) != Marks(s, side) {
      assert n !in Marks(s, side) && Marks(s', side) == Marks(s, side)[n := false];
    }
  }

  lemma StartAdds(maxRetry: nat, s: Sys, step: Step, side: Side)
    requires step.DepositRub? || step.TransferRub? || step.Webhook?
    ensures AtMostOneNew(Marks(s, side), Marks(Next(maxRetry, s, step), side))
  {
    match step {
      case DepositRub(id, a, n, k, p) => OneNew(s, s.(led := L.DepositRub(s.led, id, a, n, k, p)), side, 0);
      case TransferRub(f, t, n, available, k, o, i, e) =>
        OneNew(s, s.(led := L.TransferRub(s.led, f, t, n, available, k, o, i, e)), side, e);
      case Webhook(event, p, v, e) => OneNew(s, s.(led := L.Webhook(s.led, event, p, v, e)), side, e);
    }
  }

  lemma ReplyAdds(maxRetry: nat, s: Sys, key: Key, newId: Id, outFirst: bool, side: Side)
    requires Flow(s, maxRetry)
    ensures AtMostOneNew(Marks(s, side), Marks(DoCommitReply(maxRetry, s, key, newId, outFirst), side))
  {
    if ReplyKey(s, key) {
      ReplyMessage(s, key, maxRetry);
      var m := s.msgs[key];
      LI.ApplyReplyShape(s.led, key, m.topic, m.payload, newId, outFirst, maxRetry);
      OneNew(s, DoCommitReply(maxRetry, s, key, newId, outFirst), side, newId);
    }
  }

  lemma ElsewhereAgrees(maxRetry: nat, tr: Traces, step: Step, side: Side, id: Id)
    requires Agree(maxRetry, tr, side, id) && !IsWork(step)
    ensures Agree(maxRetry, Play(maxRetry, tr, Elsewhere(step)), side, id)
  {
    var s := Run(maxRetry, tr.saga);
    RunKeeps(maxRetry, tr.saga);
    StepAdds(maxRetry, s, step, side);
    ArrivedRows(Of(tr, side), Marks(s, side), Marks(Next(maxRetry, s, step), side));
    RunMore(maxRetry, tr.saga, step, side, id);
  }

  // ---- Steps of a worker ----

  lemma PublishStepDoes(maxRetry: nat, s: Sys, side: Side, rowId: Id, key: Key, q: Side, id: Id)
    requires rowId in Marks(s, side) && key !in s.msgs && key != ""
    ensures Marks(Next(maxRetry, s, PublishStep(side, rowId, key)), q) == Marks(s, q)
    ensures Publishes(s, PublishStep(side, rowId, key), q, id) <==> q == side && id == rowId
  {
  }

  lemma MarkStepDoes(maxRetry: nat, s: Sys, side: Side, ids: set<Id>, q: Side, id: Id)
    ensures Marks(Next(maxRetry, s, MarkStep(side, ids)), q)
         == if q == side then Marked(Marks(s, q), ids) else Marks(s, q)
    ensures !Publishes(s, MarkStep(side, ids), q, id)
  {
  }

  /** A step of one worker and what the saga does with it, seen from either side. */
  lemma WorkedAgrees(maxRetry: nat, tr: Traces, side: Side, w: W.Step, step: Step, q: Side, id: Id)
    requires Agree(maxRetry, tr, q, id)
    requires var s, state := Run(maxRetry, tr.saga), W.Run(Of(tr, side));
             && Marks(Next(maxRetry, s, step), q) == (if q == side then W.Next(state, w).rows else Marks(s, q))
             && (q == side ==> W.Next(state, w).published[id]
                               == state.published[id] + if Publishes(s, step, side, id) then 1 else 0)
             && (q != side ==> !Publishes(s, step, q, id))
    ensures Agree(maxRetry, Worked(tr, side, w, [step]), q, id)
  {
    WorkMore(Of(tr, side), w);
    RunMore(maxRetry, tr.saga, step, q, id);
  }

  lemma DeliveryDoes(state: W.State, i: nat, outcome: OutboxWorker.Outcome)
    requires W.Inv(state) && i < |state.passes| && state.passes[i].todo != [] && outcome in OutboxWorker.DELIVERED
    ensures var state' := W.Next(state, W.Publish(i, outcome));
            var id := state.passes[i].todo[0];
            id in state.rows && state'.rows == state.rows && state'.published == state.published + multiset{id}
  {
  }

  lemma PublishAgrees(maxRetry: nat, tr: Traces, side: Side, i: nat, outcome: OutboxWorker.Outcome, key: Key, q: Side,
                      id: Id)
    requires Agree(maxRetry, tr, side, id) && Agree(maxRetry, tr, q, id)
    requires outcome in OutboxWorker.DELIVERED && key !in Run(maxRetry, tr.saga).msgs && key != ""
    requires i < |W.Run(Of(tr, side)).passes| && W.Run(Of(tr, side)).passes[i].todo != []
    ensures var rowId := W.Run(Of(tr, side)).passes[i].todo[0];
            Agree(maxRetry, Worked(tr, side, W.Publish(i, outcome), [PublishStep(side, rowId, key)]), q, id)
  {
    var state := W.Run(Of(tr, side));
    W.RunKeeps(Of(tr, side));
    DeliveryDoes(state, i, outcome);
    var rowId := state.passes[i].todo[0];
    PublishStepDoes(maxRetry, Run(maxRetry, tr.saga), side, rowId, key, q, id);
    PublishStepDoes(maxRetry, Run(maxRetry, tr.saga), side, rowId, key, side, id);
    WorkedAgrees(maxRetry, tr, side, W.Publish(i, outcome), PublishStep(side, rowId, key), q, id);
  }

  lemma FinishDoes(state: W.State, i: nat)
    requires i < |state.passes| && state.passes[i].todo == []
    ensures var state' := W.Next(state, W.Finish(i, true));
            state'.rows == Marked(state.rows, Acknowledged(state.passes[i])) && state'.published == state.published
  {
  }

  lemma FinishAgrees(maxRetry: nat, tr: Traces, side: Side, i: nat, q: Side, id: Id)
    requires Agree(maxRetry, tr, side, id) && Agree(maxRetry, tr, q, id)
    requires i < |W.Run(Of(tr, side)).passes| && W.Run(Of(tr, side)).passes[i].todo == []
    ensures var ids := Acknowledged(W.Run(Of(tr, side)).passes[i]);
            Agree(maxRetry, Worked(tr, side, W.Finish(i, true), [MarkStep(side, ids)]), q, id)
  {
    var ids := Acknowledged(W.Run(Of(tr, side)).passes[i]);
    FinishDoes(W.Run(Of(tr, side)), i);
    MarkStepDoes(maxRetry, Run(maxRetry, tr.saga), side, ids, q, id);
    WorkedAgrees(maxRetry, tr, side, W.Finish(i, true), MarkStep(side, ids), q, id);
  }

  lemma UnmarkedDoes(state: W.State, i: nat)
    ensures var state' := W.Next(state, W.Finish(i, false));
            state'.rows == state.rows && state'.published == state.published
  {
    assert state.rows == map id | id in state.rows :: state.rows[id] || id in {};
  }

  lemma UnseenDoes(state: W.State, side: Side, w: W.Step, key: Key)
    requires !w.Insert? && Effect(state, side, w, key) == []
    ensures W.Next(state, w).rows == state.rows && W.Next(state, w).published == state.published
  {
    match w {
      case Tick(_) =>
      case Publish(_, _) =>
      case Finish(i, marked) => if !marked { UnmarkedDoes(state, i); }
      case Crash =>
    }
  }

  /** A step of a worker that the saga does not see. */
  lemma UnseenAgrees(maxRetry: nat, tr: Traces, side: Side, w: W.Step, key: Key, q: Side, id: Id)
    requires Agree(maxRetry, tr, q, id)
    requires !w.Insert? && Effect(W.Run(Of(tr, side)), side, w, key) == []
    ensures Agree(maxRetry, Worked(tr, side, w, []), q, id)
  {
    WorkMore(Of(tr, side), w);
    UnseenDoes(W.Run(Of(tr, side)), side, w, key);
    assert tr.saga + [] == tr.saga;
  }

  lemma WorkAgrees(maxRetry: nat, tr: Traces, side: Side, w: W.Step, key: Key, q: Side, id: Id)
    requires Agree(maxRetry, tr, side, id) && Agree(maxRetry, tr, q, id)
    ensures Agree(maxRetry, Play(maxRetry, tr, Work(side, w, key)), q, id)
  {
    if w.Insert? || (w.Publish? && (key in Run(maxRetry, tr.saga).msgs || key == "")) {
    } else if Effect(W.Run(Of(tr, side)), side, w, key) == [] {
      UnseenAgrees(maxRetry, tr, side, w, key, q, id);
    } else {
      match w {
        case Publish(i, outcome) => PublishAgrees(maxRetry, tr, side, i, outcome, key, q, id);
        case Finish(i, marked) => FinishAgrees(maxRetry, tr, side, i, q, id);
      }
    }
  }

  /**
   However the saga and the workers interleave, crashes included: each worker sees the rows and the marks of its
   outbox, and what it delivers is what the saga publishes.
   */
  lemma {:induction false} WorkersAgree(maxRetry: nat, acts: seq<Act>, side: Side, id: Id)
    ensures Agree(maxRetry, Played(maxRetry, acts), side, id)
  {
    if acts != [] {
      WorkersAgree(maxRetry, acts[..|acts| - 1], LedgerSide, id);
      WorkersAgree(maxRetry, acts[..|acts| - 1], AccountsSide, id);
      PlayAgrees(maxRetry, Played(maxRetry, acts[..|acts| - 1]), acts[|acts| - 1], side, id);
    }
  }

  lemma PlayAgrees(maxRetry: nat, tr: Traces, act: Act, side: Side, id: Id)
    requires Agree(maxRetry, tr, LedgerSide, id) && Agree(maxRetry, tr, AccountsSide, id)
    ensures Agree(maxRetry, Play(maxRetry, tr, act), side, id)
  {
    match act {
      case Elsewhere(step) => if !IsWork(step) { ElsewhereAgrees(maxRetry, tr, step, side, id); }
      case Work(q, w, key) => WorkAgrees(maxRetry, tr, q, w, key, side, id);
    }
  }

  // ---- What two diligent workers rule out ----

  /** A row is published once, and once more for every pass that delivered it and ended without its mark. */
  lemma PublicationsBounded(maxRetry: nat, acts: seq<Act>, side: Side, id: Id)
    ensures var tr := Played(maxRetry, acts);
            Publications(maxRetry, tr.saga, side, id) <= 1 + W.Run(Of(tr, side)).unmarked[id]
  {
    WorkersAgree(maxRetry, acts, side, id);
    W.PublishedAtMost(Of(Played(maxRetry, acts), side), id);
  }

  /** No pass ended without the mark of what it had delivered. */
  predicate Diligent(ws: seq<W.Step>) {
    W.Run(ws).unmarked == multiset{}
  }

  lemma NoRepublication(s: Sys, step: Step, t: Id)
    requires step.PublishOrder? || step.PublishReply?
    requires Breaks(s, step, t)
    ensures exists side :: Publishes(s, step, side, step.rowId) && Sent(s, side, step.rowId)
  {
    var side := if step.PublishOrder? then LedgerSide else AccountsSide;
    assert Publishes(s, step, side, step.rowId) && Sent(s, side, step.rowId);
  }

  lemma PublicationKeeps(maxRetry: nat, acts: seq<Act>, t: Id, i: nat)
    requires Diligent(Played(maxRetry, acts).ledger) && Diligent(Played(maxRetry, acts).accounts)
    requires var steps := Played(maxRetry, acts).saga;
             i < |steps| && (steps[i].PublishOrder? || steps[i].PublishReply?)
    ensures var steps := Played(maxRetry, acts).saga;
            !Breaks(Run(maxRetry, steps[..i]), steps[i], t)
  {
    var steps := Played(maxRetry, acts).saga;
    var s := Run(maxRetry, steps[..i]);
    if Breaks(s, steps[i], t) {
      NoRepublication(s, steps[i], t);
      var side :| Publishes(s, steps[i], side, steps[i].rowId) && Sent(s, side, steps[i].rowId);
      PublishedAgain(maxRetry, steps, i, side, steps[i].rowId);
      PublicationsBounded(maxRetry, acts, side, steps[i].rowId);
    }
  }

  /** With diligent workers on both sides a run is clean just if no handling and no report breaks a condition. */
  lemma CleanIffHandlersAre(maxRetry: nat, acts: seq<Act>, t: Id)
    requires Diligent(Played(maxRetry, acts).ledger) && Diligent(Played(maxRetry, acts).accounts)
    ensures var steps := Played(maxRetry, acts).saga;
            Clean(maxRetry, steps, t)
            <==> forall i {:trigger steps[i]} |
                   0 <= i < |steps| && (steps[i].HandleOrder? || steps[i].ReportFailure?) ::
                   !Breaks(Run(maxRetry, steps[..i]), steps[i], t)
  {
    var steps := Played(maxRetry, acts).saga;
    forall i | 0 <= i < |steps| && (steps[i].PublishOrder? || steps[i].PublishReply?)
      ensures !Breaks(Run(maxRetry, steps[..i]), steps[i], t)
    {
      PublicationKeeps(maxRetry, acts, t, i);
    }
  }
}
