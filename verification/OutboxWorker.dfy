/**
 The outbox worker (outbox-worker.abstract.ts): one pass finds unprocessed rows, publishes them and
 marks those whose publication was acknowledged.
 */
module OutboxWorker {
  import opened Common

  datatype Row = Row(id: Id, createdAt: int, processed: bool)

  /** The broker may have taken a message and still fail the call. */
  datatype Outcome = Acknowledged | LostAcknowledgement | Rejected

  /** The table in the order of the query, oldest first. */
  ghost predicate TableOk(table: seq<Row>) {
    && (forall i, j | 0 <= i < j < |table| :: table[i].createdAt <= table[j].createdAt)
    && (forall i, j | 0 <= i < j < |table| :: table[i].id != table[j].id)
  }

  function Pending(table: seq<Row>): seq<Id> {
    if table == [] then []
    else (if table[0].processed then [] else [table[0].id]) + Pending(table[1..])
  }

  function FindUnprocessed(table: seq<Row>, limit: nat): seq<Id> {
    var pending := Pending(table);
    pending[..Min(limit, |pending|)]
  }

  function Mark(table: seq<Row>, ids: seq<Id>): seq<Row> {
    seq(|table|, i requires 0 <= i < |table| =>
      if table[i].id in ids then table[i].(processed := true) else table[i])
  }

  /** The rows whose publication had one of the outcomes. */
  function Select(events: seq<Id>, outcomes: seq<Outcome>, wanted: set<Outcome>): seq<Id>
    requires |events| <= |outcomes|
  {
    if events == [] then []
    else
      var last := |events| - 1;
      Select(events[..last], outcomes, wanted) + if outcomes[last] in wanted then [events[last]] else []
  }

  const ACKNOWLEDGED: set<Outcome> := {Acknowledged}
  const DELIVERED: set<Outcome> := {Acknowledged, LostAcknowledgement}

  /** How many of the first `k` outcomes are wanted. */
  function Rank(outcomes: seq<Outcome>, wanted: set<Outcome>, k: nat): nat
    requires k <= |outcomes|
  {
    if k == 0 then 0 else Rank(outcomes, wanted, k - 1) + if outcomes[k - 1] in wanted then 1 else 0
  }

  lemma {:induction false} RankGrows(outcomes: seq<Outcome>, wanted: set<Outcome>, k: nat, n: nat)
    requires k < n <= |outcomes| && outcomes[k] in wanted
    ensures Rank(outcomes, wanted, k) < Rank(outcomes, wanted, n)
  {
    if k + 1 < n {
      RankGrows(outcomes, wanted, k, n - 1);
    }
  }

  lemma {:induction false} SelectSize(events: seq<Id>, outcomes: seq<Outcome>, wanted: set<Outcome>)
    requires |events| <= |outcomes|
    ensures |Select(events, outcomes, wanted)| == Rank(outcomes, wanted, |events|)
  {
    if events != [] {
      SelectSize(events[..|events| - 1], outcomes, wanted);
    }
  }

  /** Every row with a wanted outcome is selected, after just the selected ones before it. */
  lemma {:induction false} SelectIs(events: seq<Id>, outcomes: seq<Outcome>, wanted: set<Outcome>, k: nat)
    requires k < |events| <= |outcomes| && outcomes[k] in wanted
    ensures Rank(outcomes, wanted, k) < |Select(events, outcomes, wanted)|
    ensures Select(events, outcomes, wanted)[Rank(outcomes, wanted, k)] == events[k]
  {
    var last := |events| - 1;
    SelectSize(events[..last], outcomes, wanted);
    if k < last {
      RankGrows(outcomes, wanted, k, last);
      SelectIs(events[..last], outcomes, wanted, k);
    }
  }

  /** And no other row is. */
  lemma {:induction false} Selected(events: seq<Id>, outcomes: seq<Outcome>, wanted: set<Outcome>, x: Id)
    requires |events| <= |outcomes|
    ensures x in Select(events, outcomes, wanted)
            <==> exists k :: 0 <= k < |events| && events[k] == x && outcomes[k] in wanted
  {
    if events != [] {
      var last := |events| - 1;
      Selected(events[..last], outcomes, wanted, x);
      if k :| 0 <= k < last && events[k] == x && outcomes[k] in wanted {
        assert events[..last][k] == x;
      }
    }
  }

  /** Row by row: what a pass over `events` with these outcomes does to the table. */
  ghost predicate MarkedAs(before: seq<Row>, after: seq<Row>, events: seq<Id>, outcomes: seq<Outcome>, markOk: bool)
    requires |events| <= |outcomes|
  {
    && |after| == |before|
    && forall i {:trigger after[i]} | 0 <= i < |after| ::
         && after[i].id == before[i].id && after[i].createdAt == before[i].createdAt
         && (after[i].processed <==>
               || before[i].processed
               || (markOk && exists k :: 0 <= k < |events| && events[k] == after[i].id && outcomes[k] == Acknowledged))
  }

  /** What the broker takes: the rows whose publication was not rejected. */
  ghost predicate DeliveredAs(delivered: seq<Id>, events: seq<Id>, outcomes: seq<Outcome>)
    requires |events| <= |outcomes|
  {
    forall x :: x in delivered <==> exists k :: 0 <= k < |events| && events[k] == x && outcomes[k] != Rejected
  }

  /** What was marked was delivered. */
  ghost predicate MarkedIsDelivered(before: seq<Row>, after: seq<Row>, delivered: seq<Id>)
    requires |before| == |after|
  {
    forall i | 0 <= i < |after| && after[i].processed && !before[i].processed :: after[i].id in delivered
  }

  /** The outcomes of a pass, told of the table and of what the broker took. */
  lemma PassDoes(table: seq<Row>, events: seq<Id>, outcomes: seq<Outcome>, markOk: bool)
    requires |events| <= |outcomes|
    ensures var after := if markOk then Mark(table, Select(events, outcomes, ACKNOWLEDGED)) else table;
            var delivered := Select(events, outcomes, DELIVERED);
            && MarkedAs(table, after, events, outcomes, markOk)
            && DeliveredAs(delivered, events, outcomes)
            && MarkedIsDelivered(table, after, delivered)
  {
    forall x ensures x in Select(events, outcomes, ACKNOWLEDGED)
                     <==> exists k :: 0 <= k < |events| && events[k] == x && outcomes[k] == Acknowledged {
      Selected(events, outcomes, ACKNOWLEDGED, x);
    }
    forall x ensures x in Select(events, outcomes, DELIVERED)
                     <==> exists k :: 0 <= k < |events| && events[k] == x && outcomes[k] != Rejected {
      Selected(events, outcomes, DELIVERED, x);
    }
  }

  lemma RowsOfRest(was: seq<Delivery>, now: seq<Delivery>, rest: seq<Id>)
    requires was <= now && Rows(now) == Rows(was) + rest
    ensures Rows(now[|was|..]) == rest
  {
    assert Rows(now)[|was|..] == rest;
  }

  /** Of the rows a pass found, exactly those are marked that were acknowledged, if the mark succeeds. */
  lemma FoundMarked(before: seq<Row>, after: seq<Row>, limit: nat, outcomes: seq<Outcome>, markOk: bool, i: nat, k: nat)
    requires TableOk(before) && |FindUnprocessed(before, limit)| <= |outcomes| && i < |after|
    requires MarkedAs(before, after, FindUnprocessed(before, limit), outcomes, markOk)
    requires k < |FindUnprocessed(before, limit)| && FindUnprocessed(before, limit)[k] == after[i].id
    ensures after[i].processed <==> markOk && outcomes[k] == Acknowledged
  {
    PendingRows(before);
    var events := FindUnprocessed(before, limit);
    assert events[k] in Pending(before);
    var j :| 0 <= j < |before| && before[j].id == events[k] && !before[j].processed;
    assert before[i].id == after[i].id;
    assert j == i;
  }

  /** A message in the broker: the row it was published from, and the header made for this publication. */
  datatype Delivery = Delivery(rowId: Id, idempotencyKey: nat)

  function Rows(broker: seq<Delivery>): seq<Id> {
    seq(|broker|, i requires 0 <= i < |broker| => broker[i].rowId)
  }

  class AbstractOutboxWorkerService {
    const limit: nat
    var isProcessing: bool
    var table: seq<Row>
    var broker: seq<Delivery>
    var nextKey: nat // stands for the generator of UUIDs

    /** No two deliveries carry the same header key, so the consumer never takes one for a repetition. */
    ghost predicate Valid()
      reads this
    {
      && (forall i | 0 <= i < |broker| :: broker[i].idempotencyKey < nextKey)
      && (forall i, j | 0 <= i < j < |broker| :: broker[i].idempotencyKey != broker[j].idempotencyKey)
    }

    constructor (limit: nat, table: seq<Row>)
      ensures this.limit == limit && this.table == table && this.broker == [] && !isProcessing && Valid()
    {
      this.limit, this.table := limit, table;
      isProcessing, broker, nextKey := false, [], 0;
    }

    /** The key is made before the outcome is known; the broker may keep the message although the call fails. */
    method PublishEvent(id: Id, outcome: Outcome) returns (ok: bool)
      requires Valid()
      modifies this`broker, this`nextKey
      ensures Valid() && old(broker) <= broker
      ensures Rows(broker) == Rows(old(broker)) + if outcome in DELIVERED then [id] else []
      ensures ok ==> |broker| > |old(broker)|
      ensures ok <==> outcome == Acknowledged
    {
      var key := nextKey;
      nextKey := nextKey + 1;
      if outcome in DELIVERED {
        broker := broker + [Delivery(id, key)];
      }
      ok := outcome == Acknowledged;
    }

    /**
     One tick of the cron job. The outcomes are the environment's; `findOk` and `markOk` say whether the
     two queries succeed. Whatever fails, the guard is released.
     */
    method ProcessOutbox(findOk: bool, outcomes: seq<Outcome>, markOk: bool)
      requires Valid() && limit <= |outcomes|
      modifies this
      ensures Valid() && old(broker) <= broker
      ensures old(isProcessing) || !findOk ==> table == old(table) && broker == old(broker)
      ensures isProcessing == old(isProcessing)
      ensures !old(isProcessing) && findOk ==>
                var events := FindUnprocessed(old(table), limit);
                && Rows(broker) == Rows(old(broker)) + Select(events, outcomes, DELIVERED)
                && table == if markOk then Mark(old(table), Select(events, outcomes, ACKNOWLEDGED)) else old(table)
      ensures !old(isProcessing) && findOk ==>
                var events := FindUnprocessed(old(table), limit);
                && MarkedAs(old(table), table, events, outcomes, markOk)
                && DeliveredAs(Rows(broker[|old(broker)|..]), events, outcomes)
                && MarkedIsDelivered(old(table), table, Rows(broker[|old(broker)|..]))
    {
      if isProcessing {
        return;
      }
      isProcessing := true;
      if findOk {
        var events := FindUnprocessed(table, limit);
        var processedIds: seq<Id> := [];
        for k := 0 to |events|
          invariant isProcessing && table == old(table)
          invariant Valid() && old(broker) <= broker
          invariant processedIds == Select(events[..k], outcomes, ACKNOWLEDGED)
          invariant Rows(broker) == Rows(old(broker)) + Select(events[..k], outcomes, DELIVERED)
        {
          assert events[..k + 1][..k] == events[..k];
          var ok := PublishEvent(events[k], outcomes[k]);
          if ok {
            processedIds := processedIds + [events[k]];
          }
        }
        assert events[..|events|] == events;
        if processedIds != [] && markOk {
          table := Mark(table, processedIds);
        } else {
          assert Mark(table, []) == table;
        }
        PassDoes(old(table), events, outcomes, markOk);
        RowsOfRest(old(broker), broker, Select(events, outcomes, DELIVERED));
      }
      isProcessing := false;
    }
  }

  // ---- Draining ----

  lemma {:induction false} PendingMarked(table: seq<Row>, ids: seq<Id>)
    ensures Pending(Mark(table, ids)) == Without(Pending(table), ids)
  {
    if table != [] {
      assert Mark(table, ids)[1..] == Mark(table[1..], ids);
      PendingMarked(table[1..], ids);
      WithoutConcat(if table[0].processed then [] else [table[0].id], Pending(table[1..]), ids);
    }
  }

  function Without(s: seq<Id>, ids: seq<Id>): seq<Id> {
    if s == [] then [] else (if s[0] in ids then [] else [s[0]]) + Without(s[1..], ids)
  }

  lemma {:induction false} WithoutConcat(a: seq<Id>, b: seq<Id>, ids: seq<Id>)
    ensures Without(a + b, ids) == Without(a, ids) + Without(b, ids)
  {
    if a == [] {
      assert a + b == b;
    } else {
      assert (a + b)[1..] == a[1..] + b;
      WithoutConcat(a[1..], b, ids);
    }
  }

  lemma {:induction false} WithoutDisjoint(s: seq<Id>, ids: seq<Id>)
    requires forall x | x in s :: x !in ids
    ensures Without(s, ids) == s
  {
    if s != [] {
      WithoutDisjoint(s[1..], ids);
    }
  }

  lemma {:induction false} WithoutAll(s: seq<Id>, ids: seq<Id>)
    requires forall x | x in s :: x in ids
    ensures Without(s, ids) == []
  {
    if s != [] {
      WithoutAll(s[1..], ids);
    }
  }

  lemma {:induction false} PendingRows(table: seq<Row>)
    requires forall i, j | 0 <= i < j < |table| :: table[i].id != table[j].id
    ensures forall x :: x in Pending(table) <==> exists i :: 0 <= i < |table| && table[i].id == x && !table[i].processed
    ensures forall i, j | 0 <= i < j < |Pending(table)| :: Pending(table)[i] != Pending(table)[j]
  {
    if table != [] {
      PendingRows(table[1..]);
      assert forall x :: x in Pending(table) <==> (x == table[0].id && !table[0].processed) || x in Pending(table[1..]);
      forall i | 0 <= i < |table[1..]| ensures table[1..][i].id != table[0].id {
        assert table[i + 1].id != table[0].id;
      }
      assert table[0].id !in Pending(table[1..]);
      forall x ensures x in Pending(table)
            <==> exists i :: 0 <= i < |table| && table[i].id == x && !table[i].processed {
        if x in Pending(table[1..]) {
          var i :| 0 <= i < |table[1..]| && table[1..][i].id == x && !table[1..][i].processed;
          assert table[i + 1].id == x;
        }
        if i :| 0 <= i < |table| && table[i].id == x && !table[i].processed {
          assert i > 0 ==> table[1..][i - 1].id == x && !table[1..][i - 1].processed;
        }
      }
    }
  }

  lemma {:induction false} SelectAll(events: seq<Id>, outcomes: seq<Outcome>, wanted: set<Outcome>)
    requires |events| <= |outcomes| && forall k | 0 <= k < |events| :: outcomes[k] in wanted
    ensures Select(events, outcomes, wanted) == events
  {
    if events != [] {
      SelectAll(events[..|events| - 1], outcomes, wanted);
    }
  }

  /** A pass in which everything succeeds publishes the oldest pending rows, in order, and only those. */
  lemma GoodPass(table: seq<Row>, limit: nat)
    requires TableOk(table)
    ensures var events := FindUnprocessed(table, limit);
            && Pending(Mark(table, events)) == Pending(table)[|events|..]
            && TableOk(Mark(table, events))
  {
    var pending, events := Pending(table), FindUnprocessed(table, limit);
    PendingMarked(table, events);
    PendingRows(table);
    WithoutPrefix(pending, |events|);
  }

  lemma WithoutPrefix(s: seq<Id>, n: nat)
    requires n <= |s| && forall i, j | 0 <= i < j < |s| :: s[i] != s[j]
    ensures Without(s, s[..n]) == s[n..]
  {
    assert s == s[..n] + s[n..];
    WithoutConcat(s[..n], s[n..], s[..n]);
    WithoutAll(s[..n], s[..n]);
    WithoutDisjoint(s[n..], s[..n]);
  }

  function AllAcknowledged(limit: nat): seq<Outcome> {
    seq(limit, _ => Acknowledged)
  }

  /** The table and the publications after `passes` ticks in a row in which everything succeeds. */
  function GoodPasses(table: seq<Row>, limit: nat, passes: nat): (seq<Row>, seq<Id>) {
    if passes == 0 then (table, [])
    else
      var (before, published) := GoodPasses(table, limit, passes - 1);
      var events := FindUnprocessed(before, limit);
      var ok := AllAcknowledged(limit);
      (Mark(before, Select(events, ok, ACKNOWLEDGED)), published + Select(events, ok, DELIVERED))
  }

  lemma TakeMore(s: seq<Id>, done: nat, limit: nat)
    ensures var n, m := Min(done, |s|), Min(done + limit, |s|);
            var events := s[n..][..Min(limit, |s[n..]|)];
            n <= m && s[..n] + events == s[..m] && s[n..][|events|..] == s[m..]
  {
  }

  lemma OnePass(table: seq<Row>, before: seq<Row>, limit: nat, done: nat)
    requires TableOk(before) && Pending(before) == Pending(table)[Min(done, |Pending(table)|)..]
    ensures var events := FindUnprocessed(before, limit);
            var ok := AllAcknowledged(limit);
            var m := Min(done + limit, |Pending(table)|);
            && Select(events, ok, ACKNOWLEDGED) == Select(events, ok, DELIVERED) == events
            && TableOk(Mark(before, events))
            && Pending(table)[..Min(done, |Pending(table)|)] + events == Pending(table)[..m]
            && Pending(Mark(before, events)) == Pending(table)[m..]
  {
    var events := FindUnprocessed(before, limit);
    var ok := AllAcknowledged(limit);
    GoodPass(before, limit);
    SelectAll(events, ok, ACKNOWLEDGED);
    SelectAll(events, ok, DELIVERED);
    TakeMore(Pending(table), done, limit);
  }

  /** The rows a number of passes can take. */
  function Capacity(limit: nat, passes: nat): nat {
    if passes == 0 then 0 else Capacity(limit, passes - 1) + limit
  }

  lemma {:induction false} CapacityIs(limit: nat, passes: nat)
    ensures Capacity(limit, passes) == passes * limit
  {
    if passes > 0 {
      CapacityIs(limit, passes - 1);
      assert passes * limit == (passes - 1) * limit + limit;
    }
  }

  /** So many passes published the first of the rows that were pending, and left the others. */
  ghost predicate Taken(table: seq<Row>, limit: nat, passes: nat) {
    var n := Min(Capacity(limit, passes), |Pending(table)|);
    match GoodPasses(table, limit, passes)
    case (rows, published) => TableOk(rows) && published == Pending(table)[..n] && Pending(rows) == Pending(table)[n..]
  }

  lemma TakenMore(table: seq<Row>, limit: nat, passes: nat)
    requires passes > 0 && Taken(table, limit, passes - 1)
    ensures Taken(table, limit, passes)
  {
    OnePass(table, GoodPasses(table, limit, passes - 1).0, limit, Capacity(limit, passes - 1));
  }

  lemma {:induction false} PassesTake(table: seq<Row>, limit: nat, passes: nat)
    requires TableOk(table)
    ensures Taken(table, limit, passes)
  {
    if passes > 0 {
      PassesTake(table, limit, passes - 1);
      TakenMore(table, limit, passes);
    }
  }

  /** Every pass publishes the next `limit` rows of what was pending at first. */
  lemma PassesPublish(table: seq<Row>, limit: nat, passes: nat)
    requires TableOk(table)
    ensures var n := Min(Capacity(limit, passes), |Pending(table)|);
            && TableOk(GoodPasses(table, limit, passes).0)
            && GoodPasses(table, limit, passes).1 == Pending(table)[..n]
            && Pending(GoodPasses(table, limit, passes).0) == Pending(table)[n..]
  {
    PassesTake(table, limit, passes);
  }

  /** The passes it takes to publish `n` rows, `limit` at a time. */
  function PassesFor(n: nat, limit: nat): nat
    requires limit > 0
  {
    if n == 0 then 0 else 1 + PassesFor(n - Min(n, limit), limit)
  }

  lemma {:induction false} PassesForBounds(n: nat, limit: nat)
    requires limit > 0
    ensures Capacity(limit, PassesFor(n, limit)) >= n
    ensures PassesFor(n, limit) > 0 ==> Capacity(limit, PassesFor(n, limit) - 1) < n
  {
    if n > 0 {
      PassesForBounds(n - Min(n, limit), limit);
    }
  }

  /** This is ceil(n / limit), the least number of passes that can take `n` rows. */
  lemma PassesForIs(n: nat, limit: nat)
    requires limit > 0
    ensures n <= PassesFor(n, limit) * limit
    ensures PassesFor(n, limit) > 0 ==> (PassesFor(n, limit) - 1) * limit < n
  {
    var k := PassesFor(n, limit);
    PassesForBounds(n, limit);
    CapacityIs(limit, k);
    if k > 0 {
      CapacityIs(limit, k - 1);
    }
  }

  lemma DrainedBy(table: seq<Row>, limit: nat, passes: nat)
    requires TableOk(table) && Capacity(limit, passes) >= |Pending(table)|
    requires passes > 0 ==> Capacity(limit, passes - 1) < |Pending(table)|
    ensures GoodPasses(table, limit, passes).1 == Pending(table)
    ensures Pending(GoodPasses(table, limit, passes).0) == []
    ensures passes > 0 ==> Pending(GoodPasses(table, limit, passes - 1).0) != []
  {
    PassesPublish(table, limit, passes);
    if passes > 0 {
      PassesPublish(table, limit, passes - 1);
    }
  }

  /** n pending rows are all published, oldest first and once each, after ceil(n / limit) passes and no sooner. */
  lemma Drained(table: seq<Row>, limit: nat)
    requires TableOk(table) && limit > 0
    ensures var passes := PassesFor(|Pending(table)|, limit);
            && GoodPasses(table, limit, passes).1 == Pending(table)
            && Pending(GoodPasses(table, limit, passes).0) == []
            && (passes > 0 ==> Pending(GoodPasses(table, limit, passes - 1).0) != [])
  {
    PassesForBounds(|Pending(table)|, limit);
    DrainedBy(table, limit, PassesFor(|Pending(table)|, limit));
  }

  /** Rows are published in the order they were created. */
  lemma {:induction false} PendingInOrder(table: seq<Row>, a: nat, b: nat)
    requires TableOk(table) && a < |table| && b < |table| && !table[a].processed && !table[b].processed
    requires table[a].createdAt < table[b].createdAt
    ensures exists i, j :: 0 <= i < j < |Pending(table)| && Pending(table)[i] == table[a].id
              && Pending(table)[j] == table[b].id
  {
    var first := if table[0].processed then [] else [table[0].id];
    if a == 0 {
      PendingRows(table[1..]);
      assert table[1..][b - 1].id in Pending(table[1..]);
      var j :| 0 <= j < |Pending(table[1..])| && Pending(table[1..])[j] == table[b].id;
      assert Pending(table)[0] == table[a].id && Pending(table)[j + 1] == table[b].id;
    } else {
      PendingInOrder(table[1..], a - 1, b - 1);
      var i, j :| 0 <= i < j < |Pending(table[1..])| && Pending(table[1..])[i] == table[a].id
            && Pending(table[1..])[j] == table[b].id;
      assert Pending(table)[i + |first|] == table[a].id && Pending(table)[j + |first|] == table[b].id;
    }
  }
}
