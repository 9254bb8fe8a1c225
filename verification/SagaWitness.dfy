/**
 Runs of one deposit that show where exactly-once ends. Five pay it out twice, each breaking one run condition
 once and no other; in the last no condition is broken and the deposit is FAILED, yet credited.
 */
module SagaWitness {
  import opened Common
  import opened Saga
  import opened SagaInvariant
  import opened SagaTokens
  import opened SagaTheorems
  import opened SagaProgress
  import opened SagaView
  import opened SagaSimulation
  import L = Ledger
  import A = Accounts

  /** Both orders of the deposit were applied, and its amount was paid out twice. */
  ghost predicate CreditedTwice(s: Sys, j: Key, k: Key) {
    && j != k && j in Credits(s, 10) && k in Credits(s, 10)
    && SLOT in s.acc.balances && s.acc.balances[SLOT].amount == 200
  }

  /** Of all steps of the run just step `n` breaks a condition for the deposit. */
  ghost predicate OnlyBreak(maxRetry: nat, steps: seq<Step>, n: nat) {
    && n < |steps|
    && forall i {:trigger steps[i]} | 0 <= i < |steps| :: Breaks(Run(maxRetry, steps[..i]), steps[i], 10) <==> i == n
  }

  lemma PaidTwice(maxRetry: nat, x: Keys, more: seq<Step>, n: nat, j: Key, k: Key)
    requires Fresh(x) && j != k && PaysTwice(maxRetry, x, more, n, j, k)
    ensures CreditedTwice(Run(maxRetry, Paid(x) + more), j, k) && OnlyBreak(maxRetry, Paid(x) + more, 4 + n)
  {
    EndsIn(maxRetry, x, more, n);
    TwoCredits(Run(maxRetry, Paid(x) + more), Reached(maxRetry, x, more, n, |more|).value, j, k);
    forall i | 0 <= i < |Paid(x) + more|
      ensures Breaks(Run(maxRetry, (Paid(x) + more)[..i]), (Paid(x) + more)[i], 10) <==> i == 4 + n
    {
      BreaksOf(maxRetry, x, more, n, i);
    }
  }

  lemma TwoCredits(s: Sys, v: View, j: Key, k: Key)
    requires Is(s, v) && j != k && j in v.applied && k in v.applied && j in v.orders && k in v.orders && v.amount == 200
    ensures CreditedTwice(s, j, k)
  {
  }

  /** The order is published again. */
  lemma RepublishedTwice(maxRetry: nat, x: Keys)
    requires Fresh(x)
    ensures CreditedTwice(Run(maxRetry, Paid(x) + Republished(x)), x.m1, x.m2)
    ensures OnlyBreak(maxRetry, Paid(x) + Republished(x), 5) && Republished(x)[1] == PublishOrder(20, x.m2)
  {
    RepublishedChecked(maxRetry, x);
    PaidTwice(maxRetry, x, Republished(x), 1, x.m1, x.m2);
  }

  /** The failure report is published again. */
  lemma ReportRepublishedTwice(maxRetry: nat, x: Keys)
    requires Fresh(x) && maxRetry >= 3
    ensures CreditedTwice(Run(maxRetry, Paid(x) + ReportRepublished(x)), x.m2, x.m3)
    ensures OnlyBreak(maxRetry, Paid(x) + ReportRepublished(x), 7) && ReportRepublished(x)[3] == PublishReply(30, x.f2)
  {
    ReportRepublishedChecked(maxRetry, x);
    PaidTwice(maxRetry, x, ReportRepublished(x), 3, x.m2, x.m3);
  }

  /** The order is applied after it was reported failed. */
  lemma HandledAfterReportTwice(maxRetry: nat, x: Keys)
    requires Fresh(x) && maxRetry >= 2
    ensures CreditedTwice(Run(maxRetry, Paid(x) + HandledAfterReport(x)), x.m1, x.m2)
    ensures OnlyBreak(maxRetry, Paid(x) + HandledAfterReport(x), 6)
              && HandledAfterReport(x)[2] == HandleOrder(x.m1, 31, A.NoFault)
  {
    HandledAfterReportChecked(maxRetry, x);
    PaidTwice(maxRetry, x, HandledAfterReport(x), 2, x.m1, x.m2);
  }

  /** The order is reported failed after it was applied. */
  lemma ReportedAfterAppliedTwice(maxRetry: nat, x: Keys)
    requires Fresh(x) && maxRetry >= 2
    ensures CreditedTwice(Run(maxRetry, Paid(x) + ReportedAfterApplied(x)), x.m1, x.m2)
    ensures OnlyBreak(maxRetry, Paid(x) + ReportedAfterApplied(x), 6)
              && ReportedAfterApplied(x)[2] == ReportFailure(x.m1, 31)
  {
    ReportedAfterAppliedChecked(maxRetry, x);
    PaidTwice(maxRetry, x, ReportedAfterApplied(x), 2, x.m1, x.m2);
  }

  /** The order is reported failed twice. */
  lemma ReportedTwiceTwice(maxRetry: nat, x: Keys)
    requires Fresh(x) && maxRetry >= 3
    ensures CreditedTwice(Run(maxRetry, Paid(x) + ReportedTwice(x)), x.m2, x.m3)
    ensures OnlyBreak(maxRetry, Paid(x) + ReportedTwice(x), 7) && ReportedTwice(x)[3] == ReportFailure(x.m1, 31)
  {
    ReportedTwiceChecked(maxRetry, x);
    PaidTwice(maxRetry, x, ReportedTwice(x), 3, x.m2, x.m3);
  }

  /**
   No condition is broken, yet a FAILED deposit is credited: with a limit of two, the second delivery of its
   failure report gives it up after the first has made the retry.
   */
  lemma FailedYetCredited(x: Keys)
    requires Fresh(x)
    ensures var s := Run(2, Paid(x) + GivenUp(x));
            && Clean(2, Paid(x) + GivenUp(x), 10)
            && 10 in s.led.transactions && s.led.transactions[10].status == L.FAILED
            && s.led.transactions[10].typ == L.DEPOSIT && Credits(s, 10) == {x.m2}
    ensures !Due(2, Paid(x) + GivenUp(x), 10)
  {
    GivenUpChecked(x);
    EndsIn(2, x, GivenUp(x), 9);
    forall i | 0 <= i < |Paid(x) + GivenUp(x)|
      ensures !Breaks(Run(2, (Paid(x) + GivenUp(x))[..i]), (Paid(x) + GivenUp(x))[i], 10)
    {
      BreaksOf(2, x, GivenUp(x), 9, i);
    }
    FailedIsCredited(Run(2, Paid(x) + GivenUp(x)), Reached(2, x, GivenUp(x), 9, 9).value, x);
    FailedIsUndue(Paid(x) + GivenUp(x));
  }

  lemma FailedIsCredited(s: Sys, v: View, x: Keys)
    requires Is(s, v) && v.failed && v.orders == {x.m1, x.m2} && v.applied == {x.m2}
    ensures 10 in s.led.transactions && s.led.transactions[10].status == L.FAILED
              && s.led.transactions[10].typ == L.DEPOSIT
    ensures Credits(s, 10) == {x.m2}
  {
    assert x.m2 in Credits(s, 10);
  }

  lemma FailedIsUndue(steps: seq<Step>)
    requires var s := Run(2, steps);
             && Clean(2, steps, 10) && 10 in s.led.transactions && s.led.transactions[10].status == L.FAILED
             && s.led.transactions[10].typ == L.DEPOSIT && Credits(s, 10) != {}
    ensures !Due(2, steps, 10)
  {
    ExactlyOnce(2, steps, 10);
  }

  /** And there it stays: no steps that break no condition end this deposit. */
  lemma FailedForEver(x: Keys, more: seq<Step>)
    requires Fresh(x) && CleanFrom(2, Run(2, Paid(x) + GivenUp(x)), more, 10)
    ensures !Ended(Run(2, Paid(x) + GivenUp(x) + more), 10)
  {
    FailedYetCredited(x);
    CreditedIsStuck(Paid(x) + GivenUp(x), x.m2);
    EndsIff(2, Paid(x) + GivenUp(x), 10);
  }

  lemma CreditedIsStuck(steps: seq<Step>, k: Key)
    requires var s := Run(2, steps);
             && Clean(2, steps, 10) && 10 in s.led.transactions && s.led.transactions[10].status == L.FAILED
             && s.led.transactions[10].typ == L.DEPOSIT && k in Credits(s, 10)
    ensures Started(Run(2, steps), 10) && Stuck(Run(2, steps), 10)
  {
    var s := Run(2, steps);
    CleanRun(2, steps, 10);
    TokenLaw(2, steps, 10);
    assert Holds(s, 10, Credit(k));
    forall tok | Holds(s, 10, tok) ensures tok.Credit? {
      OneToken(s, 10, tok, Credit(k));
    }
  }
}
