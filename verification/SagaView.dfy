/** Six runs that begin with one paid deposit, told by the few things that vary in them. */
module SagaView {
  import opened Common
  import opened Saga
  import A = Accounts

  /** Header keys: of orders, and of failure reports. */
  datatype Keys = Keys(m1: Key, m2: Key, m3: Key, f1: Key, f2: Key)

  predicate Fresh(x: Keys) {
    && x.m1 != x.m2 && x.m1 != x.m3 && x.m1 != x.f1 && x.m1 != x.f2
    && x.m2 != x.m3 && x.m2 != x.f1 && x.m2 != x.f2
    && x.m3 != x.f1 && x.m3 != x.f2 && x.f1 != x.f2
    && x.m1 != "" && x.m2 != "" && x.m3 != "" && x.f1 != "" && x.f2 != ""
  }

  /** The few things that vary in these runs. */
  datatype View = View(
    rows: set<Id>, // copies of the order in the ledger outbox
    retried: nat,
    failed: bool,
    answered: set<Key>, // keys the ledger has processed
    orders: set<Key>, // published orders
    failures: set<Key>, // published failure reports
    applied: set<Key>,
    replies: set<Id>, // rows in the outbox of the balance side
    reports: set<Id>, // those of them that report a failure
    failing: multiset<Key>,
    looked: multiset<Key>,
    sent: set<Id>,
    sentBack: set<Id>,
    reported: set<Key>,
    amount: nat)

  function Start(x: Keys): View {
    View({20}, 0, false, {}, {x.m1}, {}, {}, {}, {}, multiset{}, multiset{}, {20}, {}, {}, 0)
  }

  predicate Enabled(maxRetry: nat, v: View, step: Step) {
    match step
    case PublishOrder(r, k) => r in v.rows && k !in v.orders + v.failures && k != ""
    case PublishReply(r, k) => r in v.reports && k !in v.orders + v.failures && k != ""
    case HandleOrder(k, n, fault) =>
      k in v.orders && n !in v.replies && (fault.BeforeCommit? || (fault.NoFault? && k !in v.applied))
    case ReportFailure(k, n) => k in v.orders && k in v.failing && n !in v.replies
    case LookUpReply(k) => k in v.failures && k !in v.answered
    case CommitReply(k, n, _, rolledBack) =>
      !rolledBack && k in v.failures && k in v.looked && (v.retried + 1 < maxRetry ==> k !in v.answered && n !in v.rows)
    case _ => false
  }

  function After(maxRetry: nat, v: View, step: Step): View {
    match step
    case PublishOrder(r, k) => v.(orders := v.orders + {k}, sent := v.sent + {r})
    case PublishReply(r, k) => v.(failures := v.failures + {k}, sentBack := v.sentBack + {r})
    case HandleOrder(k, n, fault) =>
      if fault.BeforeCommit? then v.(failing := v.failing + multiset{k})
      else v.(applied := v.applied + {k}, replies := v.replies + {n}, amount := v.amount + 100)
    case ReportFailure(k, n) =>
      v.(failing := v.failing - multiset{k}, replies := v.replies + {n}, reports := v.reports + {n},
         reported := v.reported + {k})
    case LookUpReply(k) => v.(looked := v.looked + multiset{k})
    case CommitReply(k, n, _, _) =>
      var v1 := v.(looked := v.looked - multiset{k}, retried := v.retried + 1);
      if v.retried + 1 < maxRetry then v1.(rows := v.rows + {n}, answered := v.answered + {k}) else v1.(failed := true)
    case _ => v
  }

  predicate BreaksIt(v: View, step: Step) {
    match step
    case PublishOrder(r, _) => r in v.sent
    case PublishReply(r, _) => r in v.sentBack
    case HandleOrder(k, _, fault) => fault.NoFault? && k in v.reported
    case ReportFailure(k, _) => k in v.applied || k in v.reported
    case _ => false
  }

  /** Whether a step can be taken, and whether it then breaks a condition. */
  datatype Verdict = Disabled | Harmless | Breaking

  function Judge(maxRetry: nat, v: View, step: Step): Verdict {
    if !Enabled(maxRetry, v, step) then Disabled else if BreaksIt(v, step) then Breaking else Harmless
  }

  function Told(n: nat, i: nat): Verdict {
    if i == n then Breaking else Harmless
  }

  /** The view after `i` steps of which step `n` breaks a condition and the others are harmless; None if not so. */
  function Reached(maxRetry: nat, x: Keys, more: seq<Step>, n: nat, i: nat): Option<View>
    requires i <= |more|
  {
    if i == 0 then Some(Start(x))
    else
      match Reached(maxRetry, x, more, n, i - 1)
      case None => None
      case Some(v) =>
        if Judge(maxRetry, v, more[i - 1]) == Told(n, i - 1) then Some(After(maxRetry, v, more[i - 1])) else None
  }

  ghost predicate Reaches(maxRetry: nat, x: Keys, more: seq<Step>, n: nat, i: nat, v: View) {
    i <= |more| && Reached(maxRetry, x, more, n, i).Some? && Reached(maxRetry, x, more, n, i).value == v
  }

  lemma Check(maxRetry: nat, x: Keys, more: seq<Step>, n: nat, i: nat, v: View, step: Step) returns (v': View)
    requires i < |more| && more[i] == step && Reached(maxRetry, x, more, n, i) == Some(v)
    requires Judge(maxRetry, v, step) == Told(n, i)
    ensures v' == After(maxRetry, v, step) && Reached(maxRetry, x, more, n, i + 1) == Some(v')
  {
    v' := After(maxRetry, v, step);
  }

  // ---- The six runs ----

  /** A failure report is retried, and the retry is applied. */
  function RetryOne(x: Keys, row: Id): seq<Step> {
    [PublishReply(row, x.f1), LookUpReply(x.f1), CommitReply(x.f1, 21, true, false), PublishOrder(21, x.m2),
     HandleOrder(x.m2, 32, A.NoFault)]
  }

  /** Two failure reports are retried, and both retries are applied. */
  function RetryBoth(x: Keys): seq<Step> {
    [LookUpReply(x.f1), CommitReply(x.f1, 21, true, false), LookUpReply(x.f2), CommitReply(x.f2, 22, true, false),
     PublishOrder(21, x.m2), PublishOrder(22, x.m3), HandleOrder(x.m2, 32, A.NoFault), HandleOrder(x.m3, 33, A.NoFault)]
  }

  /** A published row is not marked, so the next pass publishes it again. */
  function Republished(x: Keys): seq<Step> {
    [HandleOrder(x.m1, 30, A.NoFault), PublishOrder(20, x.m2), HandleOrder(x.m2, 31, A.NoFault)]
  }

  /** A failure report is published twice, and the ledger retries twice for one failure. */
  function ReportRepublished(x: Keys): seq<Step> {
    [HandleOrder(x.m1, 30, A.BeforeCommit), ReportFailure(x.m1, 30), PublishReply(30, x.f1), PublishReply(30, x.f2)]
    + RetryBoth(x)
  }

  /** An order is reported failed, then redelivered and applied; the retry is applied as well. */
  function HandledAfterReport(x: Keys): seq<Step> {
    [HandleOrder(x.m1, 30, A.BeforeCommit), ReportFailure(x.m1, 30), HandleOrder(x.m1, 31, A.NoFault)]
    + RetryOne(x, 30)
  }

  /** An applied order is redelivered, the redelivery fails and is reported; it is not handled again. */
  function ReportedAfterApplied(x: Keys): seq<Step> {
    [HandleOrder(x.m1, 30, A.NoFault), HandleOrder(x.m1, 31, A.BeforeCommit), ReportFailure(x.m1, 31)]
    + RetryOne(x, 31)
  }

  /** An order fails and is reported at two deliveries; both reports are answered by a retry. */
  function ReportedTwice(x: Keys): seq<Step> {
    [HandleOrder(x.m1, 30, A.BeforeCommit), ReportFailure(x.m1, 30),
     HandleOrder(x.m1, 31, A.BeforeCommit), ReportFailure(x.m1, 31),
     PublishReply(30, x.f1), PublishReply(31, x.f2)]
    + RetryBoth(x)
  }

  /**
   Two deliveries of one failure report look its key up before either commits. The first makes the retry, the
   second reaches the limit and gives up; then the retry is applied.
   */
  function GivenUp(x: Keys): seq<Step> {
    [HandleOrder(x.m1, 30, A.BeforeCommit), ReportFailure(x.m1, 30), PublishReply(30, x.f1), LookUpReply(x.f1),
     LookUpReply(x.f1), CommitReply(x.f1, 21, true, false), CommitReply(x.f1, 22, true, false), PublishOrder(21, x.m2),
     HandleOrder(x.m2, 31, A.NoFault)]
  }

  ghost predicate PaysTwice(maxRetry: nat, x: Keys, more: seq<Step>, n: nat, j: Key, k: Key) {
    && n < |more|
    && match Reached(maxRetry, x, more, n, |more|)
       case None => false
       case Some(v) => j in v.applied && k in v.applied && j in v.orders && k in v.orders && v.amount == 200
  }

  lemma RepublishedPart1(maxRetry: nat, x: Keys)
    requires Fresh(x)
    ensures Reaches(maxRetry, x, Republished(x), 1, 2,
              Start(x).(orders := {x.m1} + {x.m2}, applied := {x.m1}, replies := {30}, amount := 100))
  {
    var m := Republished(x);
    var v1 := Check(maxRetry, x, m, 1, 0, Start(x), HandleOrder(x.m1, 30, A.NoFault));
    var v2 := Check(maxRetry, x, m, 1, 1, v1, PublishOrder(20, x.m2));
  }

  lemma RepublishedChecked(maxRetry: nat, x: Keys)
    requires Fresh(x)
    ensures PaysTwice(maxRetry, x, Republished(x), 1, x.m1, x.m2)
  {
    var m := Republished(x);
    RepublishedPart1(maxRetry, x);
    var w := Start(x).(orders := {x.m1} + {x.m2}, applied := {x.m1}, replies := {30}, amount := 100);
    var v3 := Check(maxRetry, x, m, 1, 2, w, HandleOrder(x.m2, 31, A.NoFault));
  }

  lemma ReportRepublishedPart1(maxRetry: nat, x: Keys)
    requires Fresh(x) && maxRetry >= 3
    ensures Reaches(maxRetry, x, ReportRepublished(x), 3, 2,
              Start(x).(replies := {30}, reports := {30}, reported := {x.m1}))
  {
    var m := ReportRepublished(x);
    var v1 := Check(maxRetry, x, m, 3, 0, Start(x), HandleOrder(x.m1, 30, A.BeforeCommit));
    var v2 := Check(maxRetry, x, m, 3, 1, v1, ReportFailure(x.m1, 30));
  }

  lemma ReportRepublishedPart2(maxRetry: nat, x: Keys)
    requires Fresh(x) && maxRetry >= 3
    ensures Reaches(maxRetry, x, ReportRepublished(x), 3, 4,
              Start(x).(failures := {x.f1} + {x.f2}, replies := {30}, reports := {30}, sentBack := {30},
                reported := {x.m1}))
  {
    var m := ReportRepublished(x);
    ReportRepublishedPart1(maxRetry, x);
    var w := Start(x).(replies := {30}, reports := {30}, reported := {x.m1});
    var v3 := Check(maxRetry, x, m, 3, 2, w, PublishReply(30, x.f1));
    var v4 := Check(maxRetry, x, m, 3, 3, v3, PublishReply(30, x.f2));
  }

  lemma ReportRepublishedPart3(maxRetry: nat, x: Keys)
    requires Fresh(x) && maxRetry >= 3
    ensures Reaches(maxRetry, x, ReportRepublished(x), 3, 6,
              Start(x).(rows := {20} + {21}, retried := 1, answered := {x.f1}, failures := {x.f1} + {x.f2},
                replies := {30}, reports := {30}, sentBack := {30}, reported := {x.m1}))
  {
    var m := ReportRepublished(x);
    ReportRepublishedPart2(maxRetry, x);
    var w := Start(x).(failures := {x.f1} + {x.f2}, replies := {30}, reports := {30}, sentBack := {30},
                    reported := {x.m1});
    var v5 := Check(maxRetry, x, m, 3, 4, w, LookUpReply(x.f1));
    var v6 := Check(maxRetry, x, m, 3, 5, v5, CommitReply(x.f1, 21, true, false));
  }

  lemma ReportRepublishedPart4(maxRetry: nat, x: Keys)
    requires Fresh(x) && maxRetry >= 3
    ensures Reaches(maxRetry, x, ReportRepublished(x), 3, 8,
              Start(x).(rows := {20} + {21} + {22}, retried := 2, answered := {x.f1} + {x.f2},
                failures := {x.f1} + {x.f2}, replies := {30}, reports := {30}, sentBack := {30},
                reported := {x.m1}))
  {
    var m := ReportRepublished(x);
    ReportRepublishedPart3(maxRetry, x);
    var w := Start(x).(rows := {20} + {21}, retried := 1, answered := {x.f1}, failures := {x.f1} + {x.f2},
                    replies := {30}, reports := {30}, sentBack := {30}, reported := {x.m1});
    var v7 := Check(maxRetry, x, m, 3, 6, w, LookUpReply(x.f2));
    var v8 := Check(maxRetry, x, m, 3, 7, v7, CommitReply(x.f2, 22, true, false));
  }

  lemma ReportRepublishedPart5(maxRetry: nat, x: Keys)
    requires Fresh(x) && maxRetry >= 3
    ensures Reaches(maxRetry, x, ReportRepublished(x), 3, 10,
              Start(x).(rows := {20} + {21} + {22}, retried := 2, answered := {x.f1} + {x.f2},
                orders := {x.m1} + {x.m2} + {x.m3}, failures := {x.f1} + {x.f2}, replies := {30},
                reports := {30}, sent := {20} + {21} + {22}, sentBack := {30}, reported := {x.m1}))
  {
    var m := ReportRepublished(x);
    ReportRepublishedPart4(maxRetry, x);
    var w := Start(x).(rows := {20} + {21} + {22}, retried := 2, answered := {x.f1} + {x.f2},
                    failures := {x.f1} + {x.f2}, replies := {30}, reports := {30}, sentBack := {30},
                    reported := {x.m1});
    var v9 := Check(maxRetry, x, m, 3, 8, w, PublishOrder(21, x.m2));
    var v10 := Check(maxRetry, x, m, 3, 9, v9, PublishOrder(22, x.m3));
  }

  lemma ReportRepublishedChecked(maxRetry: nat, x: Keys)
    requires Fresh(x) && maxRetry >= 3
    ensures PaysTwice(maxRetry, x, ReportRepublished(x), 3, x.m2, x.m3)
  {
    var m := ReportRepublished(x);
    ReportRepublishedPart5(maxRetry, x);
    var w := Start(x).(rows := {20} + {21} + {22}, retried := 2, answered := {x.f1} + {x.f2},
                    orders := {x.m1} + {x.m2} + {x.m3}, failures := {x.f1} + {x.f2}, replies := {30},
                    reports := {30}, sent := {20} + {21} + {22}, sentBack := {30}, reported := {x.m1});
    var v11 := Check(maxRetry, x, m, 3, 10, w, HandleOrder(x.m2, 32, A.NoFault));
    var v12 := Check(maxRetry, x, m, 3, 11, v11, HandleOrder(x.m3, 33, A.NoFault));
  }

  lemma HandledAfterReportPart1(maxRetry: nat, x: Keys)
    requires Fresh(x) && maxRetry >= 2
    ensures Reaches(maxRetry, x, HandledAfterReport(x), 2, 2,
              Start(x).(replies := {30}, reports := {30}, reported := {x.m1}))
  {
    var m := HandledAfterReport(x);
    var v1 := Check(maxRetry, x, m, 2, 0, Start(x), HandleOrder(x.m1, 30, A.BeforeCommit));
    var v2 := Check(maxRetry, x, m, 2, 1, v1, ReportFailure(x.m1, 30));
  }

  lemma HandledAfterReportPart2(maxRetry: nat, x: Keys)
    requires Fresh(x) && maxRetry >= 2
    ensures Reaches(maxRetry, x, HandledAfterReport(x), 2, 4,
              Start(x).(failures := {x.f1}, applied := {x.m1}, replies := {30} + {31}, reports := {30},
                sentBack := {30}, reported := {x.m1}, amount := 100))
  {
    var m := HandledAfterReport(x);
    HandledAfterReportPart1(maxRetry, x);
    var w := Start(x).(replies := {30}, reports := {30}, reported := {x.m1});
    var v3 := Check(maxRetry, x, m, 2, 2, w, HandleOrder(x.m1, 31, A.NoFault));
    var v4 := Check(maxRetry, x, m, 2, 3, v3, PublishReply(30, x.f1));
  }

  lemma HandledAfterReportPart3(maxRetry: nat, x: Keys)
    requires Fresh(x) && maxRetry >= 2
    ensures Reaches(maxRetry, x, HandledAfterReport(x), 2, 6,
              Start(x).(rows := {20} + {21}, retried := 1, answered := {x.f1}, failures := {x.f1}, applied := {x.m1},
                replies := {30} + {31}, reports := {30}, sentBack := {30}, reported := {x.m1}, amount := 100))
  {
    var m := HandledAfterReport(x);
    HandledAfterReportPart2(maxRetry, x);
    var w := Start(x).(failures := {x.f1}, applied := {x.m1}, replies := {30} + {31}, reports := {30},
                    sentBack := {30}, reported := {x.m1}, amount := 100);
    var v5 := Check(maxRetry, x, m, 2, 4, w, LookUpReply(x.f1));
    var v6 := Check(maxRetry, x, m, 2, 5, v5, CommitReply(x.f1, 21, true, false));
  }

  lemma HandledAfterReportChecked(maxRetry: nat, x: Keys)
    requires Fresh(x) && maxRetry >= 2
    ensures PaysTwice(maxRetry, x, HandledAfterReport(x), 2, x.m1, x.m2)
  {
    var m := HandledAfterReport(x);
    HandledAfterReportPart3(maxRetry, x);
    var w := Start(x).(rows := {20} + {21}, retried := 1, answered := {x.f1}, failures := {x.f1},
                    applied := {x.m1}, replies := {30} + {31}, reports := {30}, sentBack := {30},
                    reported := {x.m1}, amount := 100);
    var v7 := Check(maxRetry, x, m, 2, 6, w, PublishOrder(21, x.m2));
    var v8 := Check(maxRetry, x, m, 2, 7, v7, HandleOrder(x.m2, 32, A.NoFault));
  }

  lemma ReportedAfterAppliedPart1(maxRetry: nat, x: Keys)
    requires Fresh(x) && maxRetry >= 2
    ensures Reaches(maxRetry, x, ReportedAfterApplied(x), 2, 2,
              Start(x).(applied := {x.m1}, replies := {30}, failing := multiset{x.m1}, amount := 100))
  {
    var m := ReportedAfterApplied(x);
    var v1 := Check(maxRetry, x, m, 2, 0, Start(x), HandleOrder(x.m1, 30, A.NoFault));
    var v2 := Check(maxRetry, x, m, 2, 1, v1, HandleOrder(x.m1, 31, A.BeforeCommit));
  }

  lemma ReportedAfterAppliedPart2(maxRetry: nat, x: Keys)
    requires Fresh(x) && maxRetry >= 2
    ensures Reaches(maxRetry, x, ReportedAfterApplied(x), 2, 4,
              Start(x).(failures := {x.f1}, applied := {x.m1}, replies := {30} + {31}, reports := {31},
                sentBack := {31}, reported := {x.m1}, amount := 100))
  {
    var m := ReportedAfterApplied(x);
    ReportedAfterAppliedPart1(maxRetry, x);
    var w := Start(x).(applied := {x.m1}, replies := {30}, failing := multiset{x.m1}, amount := 100);
    var v3 := Check(maxRetry, x, m, 2, 2, w, ReportFailure(x.m1, 31));
    var v4 := Check(maxRetry, x, m, 2, 3, v3, PublishReply(31, x.f1));
  }

  lemma ReportedAfterAppliedPart3(maxRetry: nat, x: Keys)
    requires Fresh(x) && maxRetry >= 2
    ensures Reaches(maxRetry, x, ReportedAfterApplied(x), 2, 6,
              Start(x).(rows := {20} + {21}, retried := 1, answered := {x.f1}, failures := {x.f1}, applied := {x.m1},
                replies := {30} + {31}, reports := {31}, sentBack := {31}, reported := {x.m1}, amount := 100))
  {
    var m := ReportedAfterApplied(x);
    ReportedAfterAppliedPart2(maxRetry, x);
    var w := Start(x).(failures := {x.f1}, applied := {x.m1}, replies := {30} + {31}, reports := {31},
                    sentBack := {31}, reported := {x.m1}, amount := 100);
    var v5 := Check(maxRetry, x, m, 2, 4, w, LookUpReply(x.f1));
    var v6 := Check(maxRetry, x, m, 2, 5, v5, CommitReply(x.f1, 21, true, false));
  }

  lemma ReportedAfterAppliedChecked(maxRetry: nat, x: Keys)
    requires Fresh(x) && maxRetry >= 2
    ensures PaysTwice(maxRetry, x, ReportedAfterApplied(x), 2, x.m1, x.m2)
  {
    var m := ReportedAfterApplied(x);
    ReportedAfterAppliedPart3(maxRetry, x);
    var w := Start(x).(rows := {20} + {21}, retried := 1, answered := {x.f1}, failures := {x.f1},
                    applied := {x.m1}, replies := {30} + {31}, reports := {31}, sentBack := {31},
                    reported := {x.m1}, amount := 100);
    var v7 := Check(maxRetry, x, m, 2, 6, w, PublishOrder(21, x.m2));
    var v8 := Check(maxRetry, x, m, 2, 7, v7, HandleOrder(x.m2, 32, A.NoFault));
  }

  lemma ReportedTwicePart1(maxRetry: nat, x: Keys)
    requires Fresh(x) && maxRetry >= 3
    ensures Reaches(maxRetry, x, ReportedTwice(x), 3, 2,
              Start(x).(replies := {30}, reports := {30}, reported := {x.m1}))
  {
    var m := ReportedTwice(x);
    var v1 := Check(maxRetry, x, m, 3, 0, Start(x), HandleOrder(x.m1, 30, A.BeforeCommit));
    var v2 := Check(maxRetry, x, m, 3, 1, v1, ReportFailure(x.m1, 30));
  }

  lemma ReportedTwicePart2(maxRetry: nat, x: Keys)
    requires Fresh(x) && maxRetry >= 3
    ensures Reaches(maxRetry, x, ReportedTwice(x), 3, 4,
              Start(x).(replies := {30} + {31}, reports := {30} + {31}, reported := {x.m1}))
  {
    var m := ReportedTwice(x);
    ReportedTwicePart1(maxRetry, x);
    var w := Start(x).(replies := {30}, reports := {30}, reported := {x.m1});
    var v3 := Check(maxRetry, x, m, 3, 2, w, HandleOrder(x.m1, 31, A.BeforeCommit));
    var v4 := Check(maxRetry, x, m, 3, 3, v3, ReportFailure(x.m1, 31));
  }

  lemma ReportedTwicePart3(maxRetry: nat, x: Keys)
    requires Fresh(x) && maxRetry >= 3
    ensures Reaches(maxRetry, x, ReportedTwice(x), 3, 6,
              Start(x).(failures := {x.f1} + {x.f2}, replies := {30} + {31}, reports := {30} + {31},
                sentBack := {30} + {31}, reported := {x.m1}))
  {
    var m := ReportedTwice(x);
    ReportedTwicePart2(maxRetry, x);
    var w := Start(x).(replies := {30} + {31}, reports := {30} + {31}, reported := {x.m1});
    var v5 := Check(maxRetry, x, m, 3, 4, w, PublishReply(30, x.f1));
    var v6 := Check(maxRetry, x, m, 3, 5, v5, PublishReply(31, x.f2));
  }

  lemma ReportedTwicePart4(maxRetry: nat, x: Keys)
    requires Fresh(x) && maxRetry >= 3
    ensures Reaches(maxRetry, x, ReportedTwice(x), 3, 8,
              Start(x).(rows := {20} + {21}, retried := 1, answered := {x.f1}, failures := {x.f1} + {x.f2},
                replies := {30} + {31}, reports := {30} + {31}, sentBack := {30} + {31}, reported := {x.m1}))
  {
    var m := ReportedTwice(x);
    ReportedTwicePart3(maxRetry, x);
    var w := Start(x).(failures := {x.f1} + {x.f2}, replies := {30} + {31}, reports := {30} + {31},
                    sentBack := {30} + {31}, reported := {x.m1});
    var v7 := Check(maxRetry, x, m, 3, 6, w, LookUpReply(x.f1));
    var v8 := Check(maxRetry, x, m, 3, 7, v7, CommitReply(x.f1, 21, true, false));
  }

  lemma ReportedTwicePart5(maxRetry: nat, x: Keys)
    requires Fresh(x) && maxRetry >= 3
    ensures Reaches(maxRetry, x, ReportedTwice(x), 3, 10,
              Start(x).(rows := {20} + {21} + {22}, retried := 2, answered := {x.f1} + {x.f2},
                failures := {x.f1} + {x.f2}, replies := {30} + {31}, reports := {30} + {31},
                sentBack := {30} + {31}, reported := {x.m1}))
  {
    var m := ReportedTwice(x);
    ReportedTwicePart4(maxRetry, x);
    var w := Start(x).(rows := {20} + {21}, retried := 1, answered := {x.f1}, failures := {x.f1} + {x.f2},
                    replies := {30} + {31}, reports := {30} + {31}, sentBack := {30} + {31},
                    reported := {x.m1});
    var v9 := Check(maxRetry, x, m, 3, 8, w, LookUpReply(x.f2));
    var v10 := Check(maxRetry, x, m, 3, 9, v9, CommitReply(x.f2, 22, true, false));
  }

  lemma ReportedTwicePart6(maxRetry: nat, x: Keys)
    requires Fresh(x) && maxRetry >= 3
    ensures Reaches(maxRetry, x, ReportedTwice(x), 3, 12,
              Start(x).(rows := {20} + {21} + {22}, retried := 2, answered := {x.f1} + {x.f2},
                orders := {x.m1} + {x.m2} + {x.m3}, failures := {x.f1} + {x.f2}, replies := {30} + {31},
                reports := {30} + {31}, sent := {20} + {21} + {22}, sentBack := {30} + {31},
                reported := {x.m1}))
  {
    var m := ReportedTwice(x);
    ReportedTwicePart5(maxRetry, x);
    var w := Start(x).(rows := {20} + {21} + {22}, retried := 2, answered := {x.f1} + {x.f2},
                    failures := {x.f1} + {x.f2}, replies := {30} + {31}, reports := {30} + {31},
                    sentBack := {30} + {31}, reported := {x.m1});
    var v11 := Check(maxRetry, x, m, 3, 10, w, PublishOrder(21, x.m2));
    var v12 := Check(maxRetry, x, m, 3, 11, v11, PublishOrder(22, x.m3));
  }

  lemma ReportedTwiceChecked(maxRetry: nat, x: Keys)
    requires Fresh(x) && maxRetry >= 3
    ensures PaysTwice(maxRetry, x, ReportedTwice(x), 3, x.m2, x.m3)
  {
    var m := ReportedTwice(x);
    ReportedTwicePart6(maxRetry, x);
    var w := Start(x).(rows := {20} + {21} + {22}, retried := 2, answered := {x.f1} + {x.f2},
                    orders := {x.m1} + {x.m2} + {x.m3}, failures := {x.f1} + {x.f2}, replies := {30} + {31},
                    reports := {30} + {31}, sent := {20} + {21} + {22}, sentBack := {30} + {31},
                    reported := {x.m1});
    var v13 := Check(maxRetry, x, m, 3, 12, w, HandleOrder(x.m2, 32, A.NoFault));
    var v14 := Check(maxRetry, x, m, 3, 13, v13, HandleOrder(x.m3, 33, A.NoFault));
  }

  lemma GivenUpPart1(x: Keys)
    requires Fresh(x)
    ensures Reaches(2, x, GivenUp(x), 9, 2,
              Start(x).(replies := {30}, reports := {30}, reported := {x.m1}))
  {
    var m := GivenUp(x);
    var v1 := Check(2, x, m, 9, 0, Start(x), HandleOrder(x.m1, 30, A.BeforeCommit));
    var v2 := Check(2, x, m, 9, 1, v1, ReportFailure(x.m1, 30));
  }

  lemma GivenUpPart2(x: Keys)
    requires Fresh(x)
    ensures Reaches(2, x, GivenUp(x), 9, 4,
              Start(x).(failures := {x.f1}, replies := {30}, reports := {30}, looked := multiset{x.f1},
                sentBack := {30}, reported := {x.m1}))
  {
    var m := GivenUp(x);
    GivenUpPart1(x);
    var w := Start(x).(replies := {30}, reports := {30}, reported := {x.m1});
    var v3 := Check(2, x, m, 9, 2, w, PublishReply(30, x.f1));
    var v4 := Check(2, x, m, 9, 3, v3, LookUpReply(x.f1));
  }

  lemma GivenUpPart3(x: Keys)
    requires Fresh(x)
    ensures Reaches(2, x, GivenUp(x), 9, 6,
              Start(x).(rows := {20} + {21}, retried := 1, answered := {x.f1}, failures := {x.f1}, replies := {30},
                reports := {30}, looked := multiset{x.f1}, sentBack := {30}, reported := {x.m1}))
  {
    var m := GivenUp(x);
    GivenUpPart2(x);
    var w := Start(x).(failures := {x.f1}, replies := {30}, reports := {30}, looked := multiset{x.f1},
                    sentBack := {30}, reported := {x.m1});
    var v5 := Check(2, x, m, 9, 4, w, LookUpReply(x.f1));
    var v6 := Check(2, x, m, 9, 5, v5, CommitReply(x.f1, 21, true, false));
  }

  lemma GivenUpChecked(x: Keys)
    requires Fresh(x)
    ensures match Reached(2, x, GivenUp(x), 9, 9)
            case None => false
            case Some(v) => v.failed && v.orders == {x.m1, x.m2} && v.applied == {x.m2}
  {
    var m := GivenUp(x);
    GivenUpPart3(x);
    var w := Start(x).(rows := {20} + {21}, retried := 1, answered := {x.f1}, failures := {x.f1}, replies := {30},
                    reports := {30}, looked := multiset{x.f1}, sentBack := {30}, reported := {x.m1});
    var v7 := Check(2, x, m, 9, 6, w, CommitReply(x.f1, 22, true, false));
    var v8 := Check(2, x, m, 9, 7, v7, PublishOrder(21, x.m2));
    var v9 := Check(2, x, m, 9, 8, v8, HandleOrder(x.m2, 31, A.NoFault));
  }
}
