/** What holds after every run of the saga, and the exact conditions of exactly-once. */
module SagaTheorems {
  import opened Common
  import opened Saga
  import opened SagaInvariant
  import opened SagaTokens
  import opened SagaMoney
  import L = Ledger
  import LI = LedgerInvariant
  import A = Accounts
  import AL = AccountsLaws

  lemma {:induction false} RunKeeps(maxRetry: nat, steps: seq<Step>)
    ensures var s := Run(maxRetry, steps); Flow(s, maxRetry) && MoneyOk(s) && forall t :: Conserved(s, t)
  {
    if steps == [] {
      forall c ensures AL.Total(INITIAL.acc.balances, c) == 0 {
      }
    } else {
      var before, step := steps[..|steps| - 1], steps[|steps| - 1];
      RunKeeps(maxRetry, before);
      var s := Run(maxRetry, before);
      FlowKeeps(s, step, maxRetry);
      MoneyKeeps(s, step, maxRetry);
      forall t ensures Conserved(Next(maxRetry, s, step), t) {
        ConservedKeeps(s, step, t, maxRetry);
      }
    }
  }

  lemma TryStep(s: Sys, key: Key, newId: Id, fault: A.Fault)
    requires IsOrder(s, key) && key != ""
    ensures var s1 := DoHandleOrder(s, key, newId, fault);
            var (acc, threw) := A.Attempt(s.acc, Some(key), s.msgs[key].payload, newId, fault);
            && s1.acc == acc && s1.led == s.led && s1.msgs == s.msgs
            && s1.failing == s.failing + (if threw then multiset{key} else multiset{})
  {
    AL.ExecuteRows(s.acc, key, s.msgs[key].payload, newId);
  }

  lemma CatchStep(s: Sys, key: Key, newId: Id)
    requires IsOrder(s, key) && key in s.failing
    ensures var s1 := DoReportFailure(s, key, newId);
            var r := A.Report(s.acc, s.msgs[key].payload, newId);
            && s1.acc == (if r.Success? then r.value else s.acc) && s1.led == s.led && s1.msgs == s.msgs
            && s1.failing == s.failing - multiset{key}
  {
  }

  /** The order handler is two steps of the machine: its try block and, if that threw, its catch block. */
  lemma HandlerIsTwoSteps(s: Sys, key: Key, newId: Id, fault: A.Fault, reportId: Id, reportFails: bool)
    requires IsOrder(s, key) && key != ""
    ensures var p := s.msgs[key].payload;
            var s1 := DoHandleOrder(s, key, newId, fault);
            var threw := A.Attempt(s.acc, Some(key), p, newId, fault).1;
            var s2 := if !threw then s1
                      else if reportFails then DoCrashHandler(s1, key)
                      else DoReportFailure(s1, key, reportId);
            && s2.acc == A.Handled(s.acc, Some(key), p, newId, fault, reportId, reportFails)
            && s2.failing == s.failing
  {
    TryStep(s, key, newId, fault);
    var s1 := DoHandleOrder(s, key, newId, fault);
    if A.Attempt(s.acc, Some(key), s.msgs[key].payload, newId, fault).1 {
      assert s1.failing - multiset{key} == s.failing;
      if !reportFails {
        CatchStep(s1, key, reportId);
      }
    }
  }

  /** So is the handler of a reply: the lookup of the key and, if it was not found, the rest of the transaction. */
  lemma ReplyHandlerIsTwoSteps(maxRetry: nat, s: Sys, key: Key, newId: Id, outFirst: bool)
    requires ReplyKey(s, key) && key != ""
    ensures var m := s.msgs[key];
            var s1 := DoLookUpReply(s, key);
            var s2 := if key in s.led.processed then s1 else DoCommitReply(maxRetry, s1, key, newId, outFirst);
            && s2.led == L.HandleReply(s.led, Some(key), m.topic, m.payload, maxRetry, newId, outFirst)
            && s2.looked == s.looked
  {
    assert s.looked + multiset{key} - multiset{key} == s.looked;
  }

  // ---- Exactly once ----

  lemma CreditTokens(s: Sys, t: Id)
    ensures |Credits(s, t)| <= |Tokens(s, t)|
    ensures Failures(s, t) != {} ==> |Credits(s, t)| < |Tokens(s, t)|
  {
    var credits := set k | k in Credits(s, t) :: Credit(k);
    ImageSize(Credits(s, t), credits);
    CreditsAreTokens(s, t, credits);
    SubsetSize(credits, Tokens(s, t));
    if Failures(s, t) != {} {
      var k :| k in Failures(s, t);
      ReportIsToken(s, t, k);
      StrictSubsetSize(credits, Tokens(s, t), Report(k));
    }
  }

  lemma StrictSubsetSize(a: set<Token>, b: set<Token>, x: Token)
    requires a <= b && x in b && x !in a
    ensures |a| < |b|
  {
    SubsetSize(a + {x}, b);
  }

  lemma CreditsAreTokens(s: Sys, t: Id, credits: set<Token>)
    requires credits == set k | k in Credits(s, t) :: Credit(k)
    ensures credits <= Tokens(s, t)
  {
    forall tok | tok in credits ensures tok in Tokens(s, t) {
      assert Holds(s, t, tok);
      TokenIs(s, t, tok);
    }
  }

  lemma ReportIsToken(s: Sys, t: Id, k: Key)
    requires k in Failures(s, t)
    ensures Report(k) in Tokens(s, t)
  {
    assert Holds(s, t, Report(k));
    TokenIs(s, t, Report(k));
  }

  lemma {:induction false} ImageSize(keys: set<Key>, tokens: set<Token>)
    requires tokens == set k | k in keys :: Credit(k)
    ensures |tokens| == |keys|
  {
    if keys != {} {
      var k :| k in keys;
      assert tokens - {Credit(k)} == set q | q in keys - {k} :: Credit(q);
      ImageSize(keys - {k}, tokens - {Credit(k)});
    }
  }

  lemma {:induction false} SubsetSize<T>(a: set<T>, b: set<T>)
    requires a <= b
    ensures |a| <= |b|
  {
    if a != {} {
      var x :| x in a;
      SubsetSize(a - {x}, b - {x});
    }
  }

  /**
   The law of the saga. Whatever is lost, late or repeated, a started saga is held by one token, and by one
   more for each run condition that was broken.
   */
  lemma TokenLaw(maxRetry: nat, steps: seq<Step>, t: Id)
    ensures var s := Run(maxRetry, steps);
            |Tokens(s, t)| == if Started(s, t) then 1 + Anomalies(s.hist, t) else 0
  {
    RunKeeps(maxRetry, steps);
    assert Conserved(Run(maxRetry, steps), t);
  }

  /** In any run at all, each broken run condition costs at most one extra credit. */
  lemma CreditsBounded(maxRetry: nat, steps: seq<Step>, t: Id)
    ensures var s := Run(maxRetry, steps);
            && |Credits(s, t)| <= 1 + Anomalies(s.hist, t)
            && (!Started(s, t) ==> Credits(s, t) == {})
            && (Failures(s, t) != {} ==> |Credits(s, t)| <= Anomalies(s.hist, t))
  {
    TokenLaw(maxRetry, steps, t);
    var s := Run(maxRetry, steps);
    CreditTokens(s, t);
    if !Started(s, t) {
      assert |Credits(s, t)| == 0;
    }
  }

  /** The anomaly counter counts just these steps. */
  lemma BreaksCounted(maxRetry: nat, s: Sys, step: Step, t: Id)
    ensures Anomalies(Next(maxRetry, s, step).hist, t) == Anomalies(s.hist, t) + if Breaks(s, step, t) then 1 else 0
  {
    match step {
      case PublishOrder(r, k) =>
      case PublishReply(r, k) =>
      case HandleOrder(k, n, f) => HandlingCounted(maxRetry, s, k, n, f, t);
      case ReportFailure(k, n) => ReportCounted(maxRetry, s, k, n, t);
      case _ => OtherCount(maxRetry, s, step, t);
    }
  }

  lemma HandlingCounted(maxRetry: nat, s: Sys, key: Key, newId: Id, fault: A.Fault, t: Id)
    ensures var s' := DoHandleOrder(s, key, newId, fault);
            Anomalies(s'.hist, t)
            == Anomalies(s.hist, t) + if Breaks(s, HandleOrder(key, newId, fault), t) then 1 else 0
  {
  }

  lemma ReportCounted(maxRetry: nat, s: Sys, key: Key, newId: Id, t: Id)
    ensures var s' := DoReportFailure(s, key, newId);
            Anomalies(s'.hist, t) == Anomalies(s.hist, t) + if Breaks(s, ReportFailure(key, newId), t) then 1 else 0
  {
  }

  ghost predicate Clean(maxRetry: nat, steps: seq<Step>, t: Id) {
    forall i {:trigger steps[i]} | 0 <= i < |steps| :: !Breaks(Run(maxRetry, steps[..i]), steps[i], t)
  }

  lemma CleanBefore(maxRetry: nat, steps: seq<Step>, t: Id)
    requires steps != []
    ensures var n := |steps| - 1;
            Clean(maxRetry, steps, t)
            <==> Clean(maxRetry, steps[..n], t) && !Breaks(Run(maxRetry, steps[..n]), steps[n], t)
  {
    var n := |steps| - 1;
    forall i | 0 <= i < n ensures steps[..n][..i] == steps[..i] {
    }
    if Clean(maxRetry, steps[..n], t) && !Breaks(Run(maxRetry, steps[..n]), steps[n], t) {
      forall i | 0 <= i <= n ensures !Breaks(Run(maxRetry, steps[..i]), steps[i], t) {
        assert i < n ==> !Breaks(Run(maxRetry, steps[..n][..i]), steps[..n][i], t);
      }
    }
  }

  lemma {:induction false} CleanRun(maxRetry: nat, steps: seq<Step>, t: Id)
    ensures Clean(maxRetry, steps, t) <==> Anomalies(Run(maxRetry, steps).hist, t) == 0
  {
    if steps != [] {
      var n := |steps| - 1;
      CleanRun(maxRetry, steps[..n], t);
      CleanBefore(maxRetry, steps, t);
      BreaksCounted(maxRetry, Run(maxRetry, steps[..n]), steps[n], t);
    }
  }

  // ---- When FAILED means failed ----

  /**
   The step gives saga `t` up although no failure of it stands: another delivery of the same failure message
   has led to a retry since this one looked the key up, and the count is now at the limit.
   */
  predicate UndueFailure(maxRetry: nat, s: Sys, step: Step, t: Id) {
    && step.CommitReply? && !step.rolledBack
    && ReplyKey(s, step.key) && step.key in s.looked && step.key in s.led.processed
    && s.msgs[step.key].topic == s.msgs[step.key].payload.FailedTopic() && s.msgs[step.key].payload.SagaId() == t
    && t in s.led.transactions && s.led.transactions[t].retryCount + 1 >= maxRetry
    && Failures(s, t) == {}
  }

  ghost predicate Due(maxRetry: nat, steps: seq<Step>, t: Id) {
    forall i {:trigger steps[i]} | 0 <= i < |steps| :: !UndueFailure(maxRetry, Run(maxRetry, steps[..i]), steps[i], t)
  }

  /** The history notes just these steps. */
  lemma UndueNoted(maxRetry: nat, s: Sys, step: Step, t: Id)
    requires Flow(s, maxRetry)
    ensures t in Next(maxRetry, s, step).hist.undue <==> t in s.hist.undue || UndueFailure(maxRetry, s, step, t)
  {
    if step.CommitReply? && !step.rolledBack && ReplyKey(s, step.key) {
      ReplyMessage(s, step.key, maxRetry);
      var m := s.msgs[step.key];
      LI.ApplyReplyShape(s.led, step.key, m.topic, m.payload, step.newId, step.outFirst, maxRetry);
    } else {
      OtherSteps(maxRetry, s, step);
    }
  }

  lemma OtherSteps(maxRetry: nat, s: Sys, step: Step)
    requires step.CommitReply? ==> step.rolledBack || !ReplyKey(s, step.key)
    ensures Next(maxRetry, s, step).hist.undue == s.hist.undue
  {
    match step {
      case PublishOrder(r, k) =>
      case PublishReply(r, k) =>
      case HandleOrder(k, n, f) => HandleOrderShape(s, k, n, f);
      case ReportFailure(k, n) => ReportShape(s, k, n);
      case DepositRub(_, _, _, _, _) =>
      case TransferRub(_, _, _, _, _, _, _, _) =>
      case Webhook(_, _, _, _) =>
      case MarkOrders(_) =>
      case CommitReply(_, _, _, rolledBack) => if rolledBack { IdleRests(s, step, maxRetry); }
      case _ => IdleRests(s, step, maxRetry);
    }
  }

  lemma {:induction false} DueRun(maxRetry: nat, steps: seq<Step>, t: Id)
    ensures Due(maxRetry, steps, t) <==> t !in Run(maxRetry, steps).hist.undue
  {
    if steps != [] {
      var n := |steps| - 1;
      DueRun(maxRetry, steps[..n], t);
      DueBefore(maxRetry, steps, t);
      RunKeeps(maxRetry, steps[..n]);
      UndueNoted(maxRetry, Run(maxRetry, steps[..n]), steps[n], t);
    }
  }

  lemma DueBefore(maxRetry: nat, steps: seq<Step>, t: Id)
    requires steps != []
    ensures var n := |steps| - 1;
            Due(maxRetry, steps, t)
            <==> Due(maxRetry, steps[..n], t) && !UndueFailure(maxRetry, Run(maxRetry, steps[..n]), steps[n], t)
  {
    var n := |steps| - 1;
    forall i | 0 <= i < n ensures steps[..n][..i] == steps[..i] {
    }
    if Due(maxRetry, steps[..n], t) && !UndueFailure(maxRetry, Run(maxRetry, steps[..n]), steps[n], t) {
      forall i | 0 <= i <= n ensures !UndueFailure(maxRetry, Run(maxRetry, steps[..i]), steps[i], t) {
        assert i < n ==> !UndueFailure(maxRetry, Run(maxRetry, steps[..n][..i]), steps[..n][i], t);
      }
    }
  }

  /** A deposit or an outgoing leg that is FAILED has a failure report that led to no retry. */
  ghost predicate FailureStands(s: Sys, t: Id) {
    t in s.led.transactions && s.led.transactions[t].typ != L.TRANSFER_IN && s.led.transactions[t].status == L.FAILED
    ==>
      Failures(s, t) != {}
  }

  /** In every state of a run FAILED comes with a standing failure if, and only if, no step gave up unduly. */
  lemma FailureStandsIff(maxRetry: nat, steps: seq<Step>, t: Id)
    ensures (forall i {:trigger steps[..i]} | 0 <= i <= |steps| :: FailureStands(Run(maxRetry, steps[..i]), t))
            <==> Due(maxRetry, steps, t)
  {
    if Due(maxRetry, steps, t) {
      forall i | 0 <= i <= |steps| ensures FailureStands(Run(maxRetry, steps[..i]), t) {
        DuePrefix(maxRetry, steps, i, t);
        DueStands(maxRetry, steps[..i], t);
      }
    } else {
      var i :| 0 <= i < |steps| && UndueFailure(maxRetry, Run(maxRetry, steps[..i]), steps[i], t);
      UndueFailsAfter(maxRetry, steps, i, t);
      assert !FailureStands(Run(maxRetry, steps[..i + 1]), t);
    }
  }

  lemma UndueFailsAfter(maxRetry: nat, steps: seq<Step>, i: nat, t: Id)
    requires i < |steps| && UndueFailure(maxRetry, Run(maxRetry, steps[..i]), steps[i], t)
    ensures !FailureStands(Run(maxRetry, steps[..i + 1]), t)
  {
    assert steps[..i + 1][..i] == steps[..i];
    RunKeeps(maxRetry, steps[..i]);
    UndueFails(maxRetry, Run(maxRetry, steps[..i]), steps[i], t);
  }

  lemma DuePrefix(maxRetry: nat, steps: seq<Step>, i: nat, t: Id)
    requires i <= |steps| && Due(maxRetry, steps, t)
    ensures Due(maxRetry, steps[..i], t)
  {
    forall j | 0 <= j < i ensures !UndueFailure(maxRetry, Run(maxRetry, steps[..i][..j]), steps[..i][j], t) {
      assert steps[..i][..j] == steps[..j];
      assert !UndueFailure(maxRetry, Run(maxRetry, steps[..j]), steps[j], t);
    }
  }

  lemma DueStands(maxRetry: nat, steps: seq<Step>, t: Id)
    requires Due(maxRetry, steps, t)
    ensures FailureStands(Run(maxRetry, steps), t)
  {
    DueRun(maxRetry, steps, t);
    RunKeeps(maxRetry, steps);
    var s := Run(maxRetry, steps);
    if t in s.led.transactions {
      assert StatusOk(s, t);
    }
  }

  lemma UndueFails(maxRetry: nat, s: Sys, step: Step, t: Id)
    requires Flow(s, maxRetry) && UndueFailure(maxRetry, s, step, t)
    ensures !FailureStands(Next(maxRetry, s, step), t)
  {
    ReplyMessage(s, step.key, maxRetry);
    var m := s.msgs[step.key];
    LI.ApplyReplyShape(s.led, step.key, m.topic, m.payload, step.newId, step.outFirst, maxRetry);
    assert LI.TransactionOk(s.led.transactions, t);
    var s' := DoCommitReply(maxRetry, s, step.key, step.newId, step.outFirst);
    assert Failures(s', t) == Failures(s, t);
  }

  /**
   Exactly once. If no condition is broken for a deposit or transfer, redelivery, reordering, loss and
   crashes do no harm: it is credited at most once, and exactly once if its status says so. It is not credited
   at all if its status is FAILED and it was never given up unduly.
   */
  lemma ExactlyOnce(maxRetry: nat, steps: seq<Step>, t: Id)
    requires var s := Run(maxRetry, steps);
             t in s.led.transactions && Clean(maxRetry, steps, SagaOf(s.led.transactions, t))
    ensures var s := Run(maxRetry, steps);
            var saga := SagaOf(s.led.transactions, t);
            && |Credits(s, saga)| <= 1
            && (s.led.transactions[t].status == L.BALANCE_UPDATED ==> |Credits(s, saga)| == 1)
            && (s.led.transactions[t].status == L.FAILED && Due(maxRetry, steps, saga) ==> Credits(s, saga) == {})
  {
    var s := Run(maxRetry, steps);
    var saga := SagaOf(s.led.transactions, t);
    CleanRun(maxRetry, steps, saga);
    DueRun(maxRetry, steps, saga);
    CreditsBounded(maxRetry, steps, saga);
    RunKeeps(maxRetry, steps);
    assert StatusOk(s, t);
  }

  /**
   With no condition broken, a failure that stands says exactly that nothing else stands for the saga: no order
   and no report is on its way, and there is no credit.
   */
  lemma FailureIsFinalIff(maxRetry: nat, steps: seq<Step>, t: Id)
    requires Started(Run(maxRetry, steps), t) && Clean(maxRetry, steps, t)
    ensures var s := Run(maxRetry, steps);
            Failures(s, t) != {} <==> forall tok {:trigger Holds(s, t, tok)} | Holds(s, t, tok) :: tok.Report?
  {
    var s := Run(maxRetry, steps);
    TokenLaw(maxRetry, steps, t);
    CleanRun(maxRetry, steps, t);
    OnlyReport(s, t);
  }

  lemma OnlyReport(s: Sys, t: Id)
    requires |Tokens(s, t)| == 1
    ensures Failures(s, t) != {} <==> forall tok {:trigger Holds(s, t, tok)} | Holds(s, t, tok) :: tok.Report?
  {
    if k :| k in Failures(s, t) {
      assert Holds(s, t, Report(k));
      forall tok | Holds(s, t, tok) ensures tok.Report? {
        OneToken(s, t, tok, Report(k));
      }
    } else {
      SomeToken(s, t);
      var tok :| Holds(s, t, tok);
      if tok.Report? {
        ReportStands(s, t, tok);
      }
    }
  }

  lemma ReportStands(s: Sys, t: Id, tok: Token)
    requires Holds(s, t, tok) && tok.Report?
    ensures Failures(s, t) != {}
  {
    assert tok.key in Failures(s, t);
  }

  /** Nothing of saga `t` is on its way and no failure is left: all that stands for it are its credits. */
  ghost predicate Quiescent(s: Sys, t: Id) {
    forall tok {:trigger Holds(s, t, tok)} | Holds(s, t, tok) :: tok.Credit?
  }

  /**
   Where exactly-once ends: a quiescent saga was credited once if, and only if, no condition was broken for it.
   */
  lemma ExactlyOnceIff(maxRetry: nat, steps: seq<Step>, t: Id)
    requires var s := Run(maxRetry, steps); Started(s, t) && Quiescent(s, t)
    ensures var s := Run(maxRetry, steps);
            && |Credits(s, t)| == 1 + Anomalies(s.hist, t)
            && (|Credits(s, t)| == 1 <==> Clean(maxRetry, steps, t))
  {
    var s := Run(maxRetry, steps);
    TokenLaw(maxRetry, steps, t);
    CleanRun(maxRetry, steps, t);
    var credits := set k | k in Credits(s, t) :: Credit(k);
    ImageSize(Credits(s, t), credits);
    QuiescentTokens(s, t, credits);
  }

  lemma QuiescentTokens(s: Sys, t: Id, credits: set<Token>)
    requires Quiescent(s, t) && credits == set k | k in Credits(s, t) :: Credit(k)
    ensures Tokens(s, t) == credits
  {
    CreditsAreTokens(s, t, credits);
    forall tok | tok in Tokens(s, t) ensures tok in credits {
      TokenIs(s, t, tok);
      assert Holds(s, t, tok) && tok.key in Credits(s, t);
    }
  }

  /**
   Nothing is lost: a started saga always has an order or a failure report on its way, a last failure
   that exhausted the retries, or a credit; and without an anomaly exactly one of these.
   */
  lemma NothingLost(maxRetry: nat, steps: seq<Step>, t: Id)
    requires Started(Run(maxRetry, steps), t)
    ensures var s := Run(maxRetry, steps);
            && (exists tok :: Holds(s, t, tok))
            && ((forall a, b :: Holds(s, t, a) && Holds(s, t, b) ==> a == b) <==> Clean(maxRetry, steps, t))
  {
    var s := Run(maxRetry, steps);
    TokenLaw(maxRetry, steps, t);
    CleanRun(maxRetry, steps, t);
    SomeToken(s, t);
    if Clean(maxRetry, steps, t) {
      forall a, b | Holds(s, t, a) && Holds(s, t, b) ensures a == b {
        OneToken(s, t, a, b);
      }
    } else {
      var a, b := TwoTokens(s, t);
      assert a != b;
    }
  }

  lemma TwoElements<T>(s: set<T>) returns (a: T, b: T)
    requires |s| >= 2
    ensures a in s && b in s && a != b
  {
    a :| a in s;
    assert |s - {a}| == |s| - 1;
    b :| b in s - {a};
  }

  lemma TwoTokens(s: Sys, t: Id) returns (a: Token, b: Token)
    requires |Tokens(s, t)| >= 2
    ensures a != b && Holds(s, t, a) && Holds(s, t, b)
  {
    a, b := TwoElements(Tokens(s, t));
    TokenIs(s, t, a);
    TokenIs(s, t, b);
  }

  lemma SomeToken(s: Sys, t: Id)
    requires |Tokens(s, t)| >= 1
    ensures exists tok :: Holds(s, t, tok)
  {
    var tok :| tok in Tokens(s, t);
    TokenIs(s, t, tok);
  }

  lemma OneToken(s: Sys, t: Id, a: Token, b: Token)
    requires |Tokens(s, t)| <= 1 && Holds(s, t, a) && Holds(s, t, b)
    ensures a == b
  {
    TokenIs(s, t, a);
    TokenIs(s, t, b);
    SubsetSize({a, b}, Tokens(s, t));
  }

  // ---- Causality ----

  /** A deposit that is pending or timed out has no row, no message and no credit anywhere. */
  lemma UnpaidIsUncredited(maxRetry: nat, steps: seq<Step>, t: Id)
    requires var s := Run(maxRetry, steps);
             && t in s.led.transactions && s.led.transactions[t].typ == L.DEPOSIT
             && s.led.transactions[t].status in {L.PENDING, L.TIMEOUT}
    ensures var s := Run(maxRetry, steps);
            && (forall r | r in s.led.outbox :: s.led.outbox[r].payload.SagaId() != t)
            && (forall k | k in s.msgs :: s.msgs[k].payload.SagaId() != t)
            && (forall r | r in s.acc.outbox :: s.acc.outbox[r].payload.SagaId() != t)
            && Credits(s, t) == {}
  {
    RunKeeps(maxRetry, steps);
    NothingBeforeStart(Run(maxRetry, steps), t, maxRetry);
  }

  lemma {:induction false} RunContinued(maxRetry: nat, steps: seq<Step>, more: seq<Step>)
    ensures Run(maxRetry, steps + more) == Continued(maxRetry, Run(maxRetry, steps), more)
    decreases |more|
  {
    if more == [] {
      assert steps + more == steps;
    } else {
      assert steps + [more[0]] + more[1..] == steps + more;
      assert (steps + [more[0]])[..|steps|] == steps;
      RunContinued(maxRetry, steps + [more[0]], more[1..]);
    }
  }

  /** Starting or settling another deposit or transfer leaves a row alone that is not pending. */
  lemma StartLeavesRow(maxRetry: nat, s: Sys, step: Step, t: Id)
    requires step.DepositRub? || step.TransferRub? || step.Webhook?
    requires t in s.led.transactions && s.led.transactions[t].status != L.PENDING
    ensures var led' := Next(maxRetry, s, step).led;
            t in led'.transactions && led'.transactions[t] == s.led.transactions[t]
  {
    match step {
      case DepositRub(_, _, _, _, _) =>
      case TransferRub(_, _, _, _, _, _, _, _) =>
      case Webhook(_, _, _, _) =>
    }
  }

  ghost predicate TimedOut(s: Sys, t: Id, row: L.Transaction) {
    t in s.led.transactions && s.led.transactions[t] == row && row.typ == L.DEPOSIT && row.status == L.TIMEOUT
  }

  /** A deposit that timed out has the same row after every step. */
  lemma TimeoutStays(maxRetry: nat, s: Sys, step: Step, t: Id, row: L.Transaction)
    requires Flow(s, maxRetry) && TimedOut(s, t, row)
    ensures TimedOut(Next(maxRetry, s, step), t, row)
  {
    match step {
      case CommitReply(k, n, first, rolledBack) =>
        if rolledBack { IdleRests(s, step, maxRetry); } else { TimeoutUnanswered(maxRetry, s, k, n, first, t, row); }
      case HandleOrder(k, n, f) => HandleOrderShape(s, k, n, f);
      case _ =>
        if step.DepositRub? || step.TransferRub? || step.Webhook? {
          StartLeavesRow(maxRetry, s, step, t);
        } else {
          LedgerRests(s, step, maxRetry);
        }
    }
  }

  /** No reply is about a deposit that timed out. */
  lemma TimeoutUnanswered(maxRetry: nat, s: Sys, key: Key, newId: Id, outFirst: bool, t: Id, row: L.Transaction)
    requires Flow(s, maxRetry) && TimedOut(s, t, row)
    ensures TimedOut(DoCommitReply(maxRetry, s, key, newId, outFirst), t, row)
  {
    if ReplyKey(s, key) {
      ReplyMessage(s, key, maxRetry);
      var m := s.msgs[key];
      LI.ApplyReplyShape(s.led, key, m.topic, m.payload, newId, outFirst, maxRetry);
      assert t !in LI.Rows(m.payload);
    }
  }

  lemma {:induction false} TimeoutLasts(maxRetry: nat, s: Sys, more: seq<Step>, t: Id, row: L.Transaction)
    requires Flow(s, maxRetry) && TimedOut(s, t, row)
    ensures TimedOut(Continued(maxRetry, s, more), t, row)
    decreases |more|
  {
    if more != [] {
      FlowKeeps(s, more[0], maxRetry);
      TimeoutStays(maxRetry, s, more[0], t, row);
      TimeoutLasts(maxRetry, Next(maxRetry, s, more[0]), more[1..], t, row);
    }
  }

  /** TIMEOUT is final: a deposit that timed out is never credited, whatever happens afterwards. */
  lemma TimeoutIsFinal(maxRetry: nat, steps: seq<Step>, more: seq<Step>, t: Id)
    requires var s := Run(maxRetry, steps);
             && t in s.led.transactions && s.led.transactions[t].typ == L.DEPOSIT
             && s.led.transactions[t].status == L.TIMEOUT
    ensures var s, s' := Run(maxRetry, steps), Run(maxRetry, steps + more);
            && t in s'.led.transactions && s'.led.transactions[t] == s.led.transactions[t]
            && (forall k | k in s'.msgs :: s'.msgs[k].payload.SagaId() != t)
            && Credits(s', t) == {}
  {
    RunKeeps(maxRetry, steps);
    RunContinued(maxRetry, steps, more);
    TimeoutLasts(maxRetry, Run(maxRetry, steps), more, t, Run(maxRetry, steps).led.transactions[t]);
    UnpaidIsUncredited(maxRetry, steps + more, t);
  }

  /** A confirmed row has an applied order with its own account, currency and amount. */
  lemma ConfirmedIsCredited(maxRetry: nat, steps: seq<Step>, t: Id)
    requires var s := Run(maxRetry, steps);
             t in s.led.transactions && s.led.transactions[t].status == L.BALANCE_UPDATED
    ensures var s := Run(maxRetry, steps);
            var row := s.led.transactions[t];
            exists k :: k in s.acc.processed && k in s.msgs
              && s.msgs[k].payload.SagaId() == SagaOf(s.led.transactions, t)
              && s.msgs[k].payload.IsOrder()
              && AL.Effect(s.msgs[k].payload, A.Slot(row.accountId, row.currency))
                 == row.amount
  {
    RunKeeps(maxRetry, steps);
    var s := Run(maxRetry, steps);
    assert StatusOk(s, t);
    assert LI.TransactionOk(s.led.transactions, t);
    var k :| k in Credits(s, SagaOf(s.led.transactions, t));
    assert OrderKey(s, k);
    OrderMessage(s, k, maxRetry);
  }

  // ---- Retries ----

  /** However often and under whatever keys failures are delivered. */
  lemma RetryBound(maxRetry: nat, steps: seq<Step>, t: Id)
    ensures var s := Run(maxRetry, steps);
            && |LI.EventsOf(s.led.outbox, t)| <= Max(1, maxRetry)
            && (t in s.led.transactions ==>
                  |LI.EventsOf(s.led.outbox, t)| == LI.OrdersDue(s.led.transactions[t], maxRetry))
  {
    RunKeeps(maxRetry, steps);
    var s := Run(maxRetry, steps);
    if t !in s.led.transactions {
      LI.NoEvents(s.led, t);
    }
  }

  /**
   A failure that comes back is answered by a copy of the original order or by the status FAILED, whichever leg
   the database returns first. A transaction that lost the race for the key makes no copy, but still gives up.
   */
  lemma RetryFidelity(maxRetry: nat, steps: seq<Step>, k: Key, newId: Id, first: bool)
    requires var s := Run(maxRetry, steps);
             && ReplyKey(s, k) && s.msgs[k].topic == s.msgs[k].payload.FailedTopic()
             && k in s.looked && newId !in s.led.outbox
    ensures var s := Run(maxRetry, steps);
            var p := s.msgs[k].payload;
            var led' := DoCommitReply(maxRetry, s, k, newId, first).led;
            && p.SagaId() in s.led.transactions && p.eventId in s.led.outbox
            && led' == DoCommitReply(maxRetry, s, k, newId, !first).led
            && var retried := s.led.transactions[p.SagaId()].retryCount + 1;
            && p.SagaId() in led'.transactions
            && if retried >= maxRetry then
                 && led'.outbox == s.led.outbox
                 && forall r | r in LI.Rows(p) :: r in led'.transactions && led'.transactions[r].status == L.FAILED
               else if k in s.led.processed then led' == s.led
               else
                 && led'.transactions[p.SagaId()].retryCount == retried
                 && newId in led'.outbox && k in led'.processed
                 && led'.outbox[newId].payload == s.led.outbox[p.eventId].payload
                 && led'.outbox[newId].payload.Reply() == p
                 && led'.outbox[newId].topic == p.OrderTopic()
                 && led'.outbox[newId].transactionId == p.SagaId()
  {
    RunKeeps(maxRetry, steps);
    var s := Run(maxRetry, steps);
    FailureAnswered(maxRetry, s, k, newId, first);
    FailureAnswered(maxRetry, s, k, newId, !first);
    FailureOutcome(s.led, k, s.msgs[k].payload, newId, maxRetry);
  }

  lemma FailureAnswered(maxRetry: nat, s: Sys, k: Key, newId: Id, first: bool)
    requires Flow(s, maxRetry) && ReplyKey(s, k) && s.msgs[k].topic == s.msgs[k].payload.FailedTopic()
    requires k in s.looked
    ensures var p := s.msgs[k].payload;
            && LI.Answers(s.led, p) && LI.Closed(s.led.transactions, LI.Rows(p), p.SagaId())
            && s.led.outbox[p.eventId].topic == p.OrderTopic() && s.led.outbox[p.eventId].transactionId == p.SagaId()
            && DoCommitReply(maxRetry, s, k, newId, first).led
               == LI.Outcome(s.led, k, p.FailedTopic(), p, newId, maxRetry)
  {
    ReplyMessage(s, k, maxRetry);
    var m := s.msgs[k];
    LI.ApplyReplyShape(s.led, k, m.topic, m.payload, newId, first, maxRetry);
    assert LI.EventOk(s.led, m.payload.eventId);
  }

  lemma FailureOutcome(led: L.Db, k: Key, p: Payload, newId: Id, maxRetry: nat)
    requires LI.Answers(led, p) && LI.Closed(led.transactions, LI.Rows(p), p.SagaId())
    requires led.outbox[p.eventId].topic == p.OrderTopic() && led.outbox[p.eventId].transactionId == p.SagaId()
    requires newId !in led.outbox
    ensures var led' := LI.Outcome(led, k, p.FailedTopic(), p, newId, maxRetry);
            var retried := led.transactions[p.SagaId()].retryCount + 1;
            && p.SagaId() in led'.transactions
            && if retried >= maxRetry then
                 && led'.outbox == led.outbox
                 && forall r | r in LI.Rows(p) :: r in led'.transactions && led'.transactions[r].status == L.FAILED
               else if k in led.processed then led' == led
               else
                 && led'.transactions[p.SagaId()].retryCount == retried
                 && newId in led'.outbox && k in led'.processed
                 && led'.outbox[newId].payload == led.outbox[p.eventId].payload
                 && led'.outbox[newId].payload.Reply() == p
                 && led'.outbox[newId].topic == p.OrderTopic()
                 && led'.outbox[newId].transactionId == p.SagaId()
  {
  }

  /** The legs of a transfer never part, and every transfer message names both of them. */
  lemma LegsInStep(maxRetry: nat, steps: seq<Step>)
    ensures var s := Run(maxRetry, steps);
            && (forall t | t in s.led.transactions && s.led.transactions[t].typ == L.TRANSFER_OUT ::
                  s.led.transactions[t].referenceId.Some?
                  && LI.Pair(s.led.transactions, t, s.led.transactions[t].referenceId.value))
            && (forall t | t in s.led.transactions && s.led.transactions[t].typ == L.TRANSFER_IN ::
                  s.led.transactions[t].referenceId.Some?
                  && LI.Pair(s.led.transactions, s.led.transactions[t].referenceId.value, t))
            && (forall k | k in s.msgs && (s.msgs[k].payload.TransferOrder? || s.msgs[k].payload.TransferReply?) ::
                  LI.Pair(s.led.transactions, s.msgs[k].payload.outId, s.msgs[k].payload.inId))
  {
    RunKeeps(maxRetry, steps);
    var s := Run(maxRetry, steps);
    forall t | t in s.led.transactions ensures LI.TransactionOk(s.led.transactions, t) {
    }
    forall k | k in s.msgs && (s.msgs[k].payload.TransferOrder? || s.msgs[k].payload.TransferReply?)
      ensures LI.Pair(s.led.transactions, s.msgs[k].payload.outId, s.msgs[k].payload.inId)
    {
      if OrderKey(s, k) {
        OrderMessage(s, k, maxRetry);
      } else {
        ReplyMessage(s, k, maxRetry);
        assert LI.EventOk(s.led, s.msgs[k].payload.eventId);
      }
    }
  }

  // ---- Money ----

  /**
   Every balance is the sum of the effects of the distinct orders applied since the last reset and is
   never negative; the total of a currency is what was deposited in it, so transfers add nothing.
   */
  lemma Conservation(maxRetry: nat, steps: seq<Step>)
    ensures var s := Run(maxRetry, steps);
            && (forall slot | slot in s.acc.balances ::
                  0 <= s.acc.balances[slot].amount == Applied(s.msgs, s.hist.journal, slot))
            && (forall c :: AL.Total(s.acc.balances, c) == Deposited(s.msgs, s.hist.journal, c))
            && (forall i, j | 0 <= i < j < |s.hist.journal| :: s.hist.journal[i] != s.hist.journal[j])
            && (forall i | 0 <= i < |s.hist.journal| :: s.hist.journal[i] in s.acc.processed)
  {
    RunKeeps(maxRetry, steps);
    var s := Run(maxRetry, steps);
    forall slot | slot in s.acc.balances
      ensures s.acc.balances[slot].amount == Applied(s.msgs, s.hist.journal, slot)
    {
      assert AmountIn(s.acc.balances, slot) == Applied(s.msgs, s.hist.journal, slot);
    }
  }
}
