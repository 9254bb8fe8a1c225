/** The balances are what the applied orders make them, in every reachable state. */
module SagaMoney {
  import opened Common
  import opened Saga
  import opened SagaInvariant
  import L = Ledger
  import LI = LedgerInvariant
  import A = Accounts
  import AL = AccountsLaws

  /** The sum of the effects of the journaled orders on one balance. */
  function Applied(msgs: map<Key, Message>, journal: seq<Key>, slot: A.Slot): int {
    if journal == [] then 0
    else
      var last := journal[|journal| - 1];
      Applied(msgs, journal[..|journal| - 1], slot) + if last in msgs then AL.Effect(msgs[last].payload, slot) else 0
  }

  /** The deposits of a currency among the journaled orders. */
  function Deposited(msgs: map<Key, Message>, journal: seq<Key>, currency: Currency): int {
    if journal == [] then 0
    else
      var last := journal[|journal| - 1];
      Deposited(msgs, journal[..|journal| - 1], currency)
      + if last in msgs && msgs[last].payload.DepositOrder? && msgs[last].payload.currency == currency
        then msgs[last].payload.amount else 0
  }

  function AmountIn(balances: map<A.Slot, A.Balance>, slot: A.Slot): int {
    if slot in balances then balances[slot].amount else 0
  }

  ghost predicate JournalOk(s: Sys) {
    && (forall i | 0 <= i < |s.hist.journal| :: s.hist.journal[i] in s.acc.processed && s.hist.journal[i] in s.msgs)
    && (forall i, j | 0 <= i < j < |s.hist.journal| :: s.hist.journal[i] != s.hist.journal[j])
  }

  ghost predicate BalancesAgree(s: Sys) {
    forall slot {:trigger AmountIn(s.acc.balances, slot)} ::
      AmountIn(s.acc.balances, slot) == Applied(s.msgs, s.hist.journal, slot)
  }

  ghost predicate TotalsAgree(s: Sys) {
    forall c {:trigger AL.Total(s.acc.balances, c)} ::
          AL.Total(s.acc.balances, c) == Deposited(s.msgs, s.hist.journal, c)
  }

  ghost predicate MoneyOk(s: Sys) {
    && JournalOk(s)
    && AL.NonNegative(s.acc.balances)
    && BalancesAgree(s)
    && TotalsAgree(s)
  }

  // ---- Frames ----

  lemma {:induction false} AppliedFrame(m1: map<Key, Message>, m2: map<Key, Message>, journal: seq<Key>, slot: A.Slot)
    requires forall i | 0 <= i < |journal| :: journal[i] in m1 && journal[i] in m2 && m1[journal[i]] == m2[journal[i]]
    ensures Applied(m1, journal, slot) == Applied(m2, journal, slot)
  {
    if journal != [] {
      AppliedFrame(m1, m2, journal[..|journal| - 1], slot);
    }
  }

  lemma {:induction false} DepositedFrame(m1: map<Key, Message>, m2: map<Key, Message>, journal: seq<Key>, c: Currency)
    requires forall i | 0 <= i < |journal| :: journal[i] in m1 && journal[i] in m2 && m1[journal[i]] == m2[journal[i]]
    ensures Deposited(m1, journal, c) == Deposited(m2, journal, c)
  {
    if journal != [] {
      DepositedFrame(m1, m2, journal[..|journal| - 1], c);
    }
  }

  lemma SameMoney(s: Sys, s': Sys)
    requires MoneyOk(s)
    requires s'.acc.balances == s.acc.balances && s'.hist.journal == s.hist.journal
    requires s.acc.processed.Keys <= s'.acc.processed.Keys
    requires forall k | k in s.msgs :: k in s'.msgs && s'.msgs[k] == s.msgs[k]
    ensures MoneyOk(s')
  {
    forall slot ensures AmountIn(s'.acc.balances, slot) == Applied(s'.msgs, s'.hist.journal, slot) {
      AppliedFrame(s.msgs, s'.msgs, s.hist.journal, slot);
    }
    forall c ensures AL.Total(s'.acc.balances, c) == Deposited(s'.msgs, s'.hist.journal, c) {
      DepositedFrame(s.msgs, s'.msgs, s.hist.journal, c);
    }
  }

  // ---- The steps that touch the balances ----

  lemma OrderAmount(s: Sys, k: Key, maxRetry: nat)
    requires Flow(s, maxRetry) && OrderKey(s, k)
    ensures IsOrder(s, k) && s.msgs[k].payload.amount > 0
  {
    OrderMessage(s, k, maxRetry);
    assert LI.TransactionOk(s.led.transactions, s.msgs[k].payload.SagaId());
  }

  lemma HandleOrderMoney(s: Sys, key: Key, newId: Id, fault: A.Fault, maxRetry: nat)
    requires Flow(s, maxRetry) && MoneyOk(s)
    ensures MoneyOk(DoHandleOrder(s, key, newId, fault))
  {
    HandleOrderShape(s, key, newId, fault);
    var s' := DoHandleOrder(s, key, newId, fault);
    if s'.acc == s.acc {
      SameMoney(s, s');
    } else {
      OrderAmount(s, key, maxRetry);
      OrderMoney(s, s', key, newId);
    }
  }

  lemma OrderMoney(s: Sys, s': Sys, key: Key, newId: Id)
    requires MoneyOk(s) && IsOrder(s, key) && s.msgs[key].payload.amount > 0 && key !in s.acc.processed
    requires A.Execute(s.acc, key, s.msgs[key].payload, newId) == Success(s'.acc)
    requires s'.msgs == s.msgs && s'.hist.journal == s.hist.journal + [key]
    ensures MoneyOk(s')
  {
    AL.ExecuteShape(s.acc, key, s.msgs[key].payload, newId);
    MoneyMoved(s, s', key);
  }

  lemma JournalStep(msgs: map<Key, Message>, journal: seq<Key>, key: Key, slot: A.Slot, c: Currency)
    requires key in msgs
    ensures var p := msgs[key].payload;
            && Applied(msgs, journal + [key], slot) == Applied(msgs, journal, slot) + AL.Effect(p, slot)
            && Deposited(msgs, journal + [key], c)
               == Deposited(msgs, journal, c) + if p.DepositOrder? && p.currency == c then p.amount else 0
  {
    assert (journal + [key])[..|journal|] == journal;
  }

  lemma MovedAmount(balances: map<A.Slot, A.Balance>, p: Payload, slot: A.Slot)
    requires AL.Admissible(balances, p)
    ensures AmountIn(AL.Moved(balances, p), slot) == AmountIn(balances, slot) + AL.Effect(p, slot)
  {
  }

  lemma BalancesMoved(b: map<A.Slot, A.Balance>, msgs: map<Key, Message>, journal: seq<Key>, key: Key, slot: A.Slot)
    requires key in msgs && AL.Admissible(b, msgs[key].payload)
    requires AmountIn(b, slot) == Applied(msgs, journal, slot)
    ensures AmountIn(AL.Moved(b, msgs[key].payload), slot) == Applied(msgs, journal + [key], slot)
  {
    MovedAmount(b, msgs[key].payload, slot);
    JournalStep(msgs, journal, key, slot, "");
  }

  lemma TotalsMoved(b: map<A.Slot, A.Balance>, msgs: map<Key, Message>, journal: seq<Key>, key: Key, c: Currency)
    requires key in msgs && AL.Admissible(b, msgs[key].payload)
    requires AL.Total(b, c) == Deposited(msgs, journal, c)
    ensures AL.Total(AL.Moved(b, msgs[key].payload), c) == Deposited(msgs, journal + [key], c)
  {
    AL.MovedTotal(b, msgs[key].payload, c);
    JournalStep(msgs, journal, key, AL.Home(msgs[key].payload), c);
  }

  lemma MoneyMoved(s: Sys, s': Sys, key: Key)
    requires MoneyOk(s)
    requires key in s.msgs && key !in s.acc.processed && s'.msgs == s.msgs
    requires var p := s.msgs[key].payload;
             && p.IsOrder() && p.amount > 0 && AL.Admissible(s.acc.balances, p)
             && s'.acc.balances == AL.Moved(s.acc.balances, p)
    requires s'.acc.processed.Keys == s.acc.processed.Keys + {key} && s'.hist.journal == s.hist.journal + [key]
    ensures MoneyOk(s')
  {
    AL.MovedNonNegative(s.acc.balances, s.msgs[key].payload);
    forall slot ensures AmountIn(s'.acc.balances, slot) == Applied(s'.msgs, s'.hist.journal, slot) {
      BalancesMoved(s.acc.balances, s.msgs, s.hist.journal, key, slot);
    }
    forall c ensures AL.Total(s'.acc.balances, c) == Deposited(s'.msgs, s'.hist.journal, c) {
      TotalsMoved(s.acc.balances, s.msgs, s.hist.journal, key, c);
    }
  }

  /** The other changes of the balance table, with their effect on a total. */
  lemma RestMoney(s: Sys, step: Step, maxRetry: nat)
    requires MoneyOk(s)
    requires step.ResetAllBalances? || step.CreateAccount? || step.SetBlocked?
    ensures MoneyOk(Next(maxRetry, s, step))
  {
    match step {
      case ResetAllBalances => ResetMoney(s, maxRetry);
      case CreateAccount(a) => CreateAccountMoney(s, a, maxRetry);
      case SetBlocked(slot, b) => SetBlockedMoney(s, slot, b, maxRetry);
    }
  }

  lemma ResetMoney(s: Sys, maxRetry: nat)
    requires MoneyOk(s)
    ensures MoneyOk(Next(maxRetry, s, ResetAllBalances))
    ensures var s' := Next(maxRetry, s, ResetAllBalances);
            && s'.hist.journal == [] && s'.acc.balances.Keys == s.acc.balances.Keys
            && forall slot | slot in s'.acc.balances :: s'.acc.balances[slot].amount == 0
  {
    var s' := Next(maxRetry, s, ResetAllBalances);
    forall c ensures AL.Total(s'.acc.balances, c) == 0 {
      AL.SumZero(s'.acc.balances, AL.SlotsOf(s'.acc.balances, c));
    }
  }

  lemma CreateAccountMoney(s: Sys, a: Id, maxRetry: nat)
    requires MoneyOk(s)
    ensures MoneyOk(Next(maxRetry, s, CreateAccount(a)))
  {
    NewAccountAmounts(s.acc, a);
  }

  /** A new account starts with nothing. */
  lemma NewAccountAmounts(db: A.Db, a: Id)
    ensures var b' := A.CreateAccount(db, a).balances;
            && (forall slot :: AmountIn(b', slot) == AmountIn(db.balances, slot))
            && (forall c :: AL.Total(b', c) == AL.Total(db.balances, c))
  {
    var b, b' := db.balances, A.CreateAccount(db, a).balances;
    assert forall slot :: AmountIn(b', slot) == AmountIn(b, slot);
    forall c ensures AL.Total(b', c) == AL.Total(b, c) {
      NewAccountTotal(b, b', a, c);
    }
  }

  lemma NewAccountTotal(b: map<A.Slot, A.Balance>, b': map<A.Slot, A.Balance>, a: Id, c: Currency)
    requires forall slot | slot in b :: slot in b' && b'[slot].amount == b[slot].amount
    requires forall slot | slot in b' && slot !in b :: slot.accountId == a && b'[slot].amount == 0
    ensures AL.Total(b', c) == AL.Total(b, c)
  {
    var slots, slots' := AL.SlotsOf(b, c), AL.SlotsOf(b', c);
    if slots' != slots {
      AL.SumSplit(b', slots', A.Slot(a, c));
      assert slots' - {A.Slot(a, c)} == slots;
    }
    AL.SumSame(b, b', slots);
  }

  lemma SetBlockedMoney(s: Sys, slot: A.Slot, blocked: bool, maxRetry: nat)
    requires MoneyOk(s)
    ensures MoneyOk(Next(maxRetry, s, SetBlocked(slot, blocked)))
    ensures var b, b' := s.acc.balances, Next(maxRetry, s, SetBlocked(slot, blocked)).acc.balances;
            && b'.Keys == b.Keys
            && forall q | q in b :: b'[q] == A.Balance(b[q].amount, if q == slot then blocked else b[q].blocked)
  {
    AL.SetBlockedDoes(s.acc, slot, blocked);
    var b, b' := s.acc.balances, Next(maxRetry, s, SetBlocked(slot, blocked)).acc.balances;
    assert forall q :: AmountIn(b', q) == AmountIn(b, q);
    forall c ensures AL.Total(b', c) == AL.Total(b, c) {
      assert AL.SlotsOf(b, c) == AL.SlotsOf(b', c);
      AL.SumSame(b, b', AL.SlotsOf(b, c));
    }
  }

  lemma MoneyKeeps(s: Sys, step: Step, maxRetry: nat)
    requires Flow(s, maxRetry) && MoneyOk(s)
    ensures MoneyOk(Next(maxRetry, s, step))
  {
    match step {
      case HandleOrder(k, n, f) => HandleOrderMoney(s, k, n, f, maxRetry);
      case ResetAllBalances => RestMoney(s, step, maxRetry);
      case CreateAccount(_) => RestMoney(s, step, maxRetry);
      case SetBlocked(_, _) => RestMoney(s, step, maxRetry);
      case PublishOrder(_, _) => MessageMoney(s, step, maxRetry);
      case PublishReply(_, _) => MessageMoney(s, step, maxRetry);
      case ReportFailure(_, _) => MessageMoney(s, step, maxRetry);
      case DepositRub(_, _, _, _, _) => StartMoney(s, step, maxRetry);
      case TransferRub(_, _, _, _, _, _, _, _) => StartMoney(s, step, maxRetry);
      case Webhook(_, _, _, _) => StartMoney(s, step, maxRetry);
      case CommitReply(k, n, first, rolledBack) =>
        if rolledBack { QuietMoney(s, step, maxRetry); } else { CommitReplyMoney(s, k, n, first, maxRetry); }
      case _ => QuietMoney(s, step, maxRetry);
    }
  }

  lemma MessageMoney(s: Sys, step: Step, maxRetry: nat)
    requires MoneyOk(s) && (step.PublishOrder? || step.PublishReply? || step.ReportFailure?)
    ensures MoneyOk(Next(maxRetry, s, step))
  {
    match step {
      case PublishOrder(r, k) => SameMoney(s, DoPublishOrder(s, r, k));
      case PublishReply(r, k) => SameMoney(s, DoPublishReply(s, r, k));
      case ReportFailure(k, n) =>
        ReportShape(s, k, n);
        SameMoney(s, DoReportFailure(s, k, n));
    }
  }

  /** The starting steps change the ledger only. */
  lemma StartMoney(s: Sys, step: Step, maxRetry: nat)
    requires MoneyOk(s)
    requires step.DepositRub? || step.TransferRub? || step.Webhook?
    ensures MoneyOk(Next(maxRetry, s, step))
  {
    match step {
      case DepositRub(id, a, n, k, p) => SameMoney(s, s.(led := L.DepositRub(s.led, id, a, n, k, p)));
      case TransferRub(f, t, n, available, k, o, i, e) =>
        SameMoney(s, s.(led := L.TransferRub(s.led, f, t, n, available, k, o, i, e)));
      case Webhook(event, p, v, e) => SameMoney(s, s.(led := L.Webhook(s.led, event, p, v, e)));
    }
  }

  lemma CommitReplyMoney(s: Sys, key: Key, newId: Id, outFirst: bool, maxRetry: nat)
    requires MoneyOk(s)
    ensures MoneyOk(DoCommitReply(maxRetry, s, key, newId, outFirst))
  {
    SameMoney(s, DoCommitReply(maxRetry, s, key, newId, outFirst));
  }

  lemma QuietMoney(s: Sys, step: Step, maxRetry: nat)
    requires MoneyOk(s)
    requires step.MarkOrders? || step.MarkReplies? || step.CrashHandler? || step.LookUpReply?
             || (step.CommitReply? && step.rolledBack)
    ensures MoneyOk(Next(maxRetry, s, step))
  {
    match step {
      case MarkOrders(ids) => SameMoney(s, s.(led := L.MarkEventsAsProcessed(s.led, ids)));
      case MarkReplies(ids) => SameMoney(s, s.(acc := A.MarkEventsAsProcessed(s.acc, ids)));
      case CrashHandler(k) => SameMoney(s, DoCrashHandler(s, k));
      case LookUpReply(k) => SameMoney(s, DoLookUpReply(s, k));
      case CommitReply(k, _, _, _) => SameMoney(s, DoRollBackReply(s, k));
    }
  }
}
