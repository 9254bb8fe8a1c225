/**
 One worker instance with its awaits taken apart: ticks may arrive in the middle of a pass, rows may be
 inserted at any time, and the process may crash and restart between any two steps.
 */
module OutboxRuns {
  import opened Common
  import W = OutboxWorker

  /** A running invocation: rows still to publish, rows acknowledged, rows delivered. */
  datatype Pass = Pass(todo: seq<Id>, processedIds: seq<Id>, delivered: set<Id>)

  datatype State = State(
    rows: map<Id, bool>, // whether a row is marked processed
    isProcessing: bool,
    passes: seq<Pass>, // the invocations that have not returned
    published: multiset<Id>, // deliveries so far
    unmarked: multiset<Id>) // rows of passes that delivered them and ended without marking them

  datatype Step =
    | Insert(id: Id)
    | Tick(found: seq<Id>) // what the query returns, in its order
    | Publish(pass: nat, outcome: W.Outcome)
    | Finish(pass: nat, marked: bool) // the mark query, the catch block and the finally block
    | Crash

  /** What the query may return: distinct rows, none of them processed. */
  predicate Findable(s: State, found: seq<Id>) {
    && (forall i | 0 <= i < |found| :: found[i] in s.rows && !s.rows[found[i]])
    && (forall i, j | 0 <= i < j < |found| :: found[i] != found[j])
  }

  function Remove(passes: seq<Pass>, i: nat): seq<Pass>
    requires i < |passes|
  {
    passes[..i] + passes[i + 1..]
  }

  function Next(s: State, step: Step): State {
    match step
    case Insert(id) => if id in s.rows then s else s.(rows := s.rows[id := false])
    case Tick(found) =>
      if s.isProcessing || !Findable(s, found) then s
      else s.(isProcessing := true, passes := s.passes + [Pass(found, [], {})])
    case Publish(i, outcome) =>
      if i >= |s.passes| || s.passes[i].todo == [] then s
      else
        var p := s.passes[i];
        var id := p.todo[0];
        var p1 := p.(todo := p.todo[1..],
                     processedIds := p.processedIds + (if outcome == W.Acknowledged then [id] else []),
                     delivered := p.delivered + (if outcome in W.DELIVERED then {id} else {}));
        s.(passes := s.passes[i := p1],
           published := s.published + (if outcome in W.DELIVERED then multiset{id} else multiset{}))
    case Finish(i, marked) =>
      if i >= |s.passes| || s.passes[i].todo != [] then s
      else
        var p := s.passes[i];
        var ids := if marked then set id | id in p.processedIds else {};
        s.(rows := map id | id in s.rows :: s.rows[id] || id in ids,
           isProcessing := false,
           passes := Remove(s.passes, i),
           unmarked := s.unmarked + multiset(p.delivered - ids))
    case Crash =>
      s.(isProcessing := false, passes := [],
         unmarked := s.unmarked + if s.passes == [] then multiset{} else multiset(s.passes[0].delivered))
  }

  const INITIAL := State(map[], false, [], multiset{}, multiset{})

  function Run(steps: seq<Step>): State {
    if steps == [] then INITIAL else Next(Run(steps[..|steps| - 1]), steps[|steps| - 1])
  }

  function B(b: bool): nat {
    if b then 1 else 0
  }

  ghost predicate PassOk(rows: map<Id, bool>, p: Pass) {
    && (forall id | id in p.todo || id in p.processedIds || id in p.delivered :: id in rows && !rows[id])
    && (forall i, j | 0 <= i < j < |p.todo| :: p.todo[i] != p.todo[j])
    && (forall id | id in p.todo :: id !in p.delivered)
    && (forall id | id in p.processedIds :: id in p.delivered)
  }

  predicate InFlight(s: State, id: Id) {
    s.passes != [] && id in s.passes[0].delivered
  }

  /** Every delivery of a row is accounted for: by its mark, by the running pass or by a pass without mark. */
  ghost predicate Inv(s: State) {
    && |s.passes| == B(s.isProcessing)
    && (s.passes != [] ==> PassOk(s.rows, s.passes[0]))
    && (forall id {:trigger s.published[id]} ::
          s.published[id] == s.unmarked[id] + B(id in s.rows && s.rows[id]) + B(InFlight(s, id)))
  }

  lemma NextKeeps(s: State, step: Step)
    requires Inv(s)
    ensures Inv(Next(s, step))
  {
    match step {
      case Insert(id) =>
      case Tick(found) =>
      case Publish(i, outcome) => PublishKeeps(s, i, outcome);
      case Finish(i, marked) => FinishKeeps(s, i, marked);
      case Crash =>
    }
  }

  lemma PublishKeeps(s: State, i: nat, outcome: W.Outcome)
    requires Inv(s)
    ensures Inv(Next(s, Publish(i, outcome)))
  {
    var s' := Next(s, Publish(i, outcome));
    if s' != s {
      var p, p' := s.passes[0], s'.passes[0];
      var id := p.todo[0];
      forall q | q in p'.todo ensures q !in p'.delivered {
        var k :| 0 <= k < |p'.todo| && p'.todo[k] == q;
        assert p.todo[k + 1] == q;
      }
      assert PassOk(s'.rows, p');
    }
  }

  lemma FinishKeeps(s: State, i: nat, marked: bool)
    requires Inv(s)
    ensures Inv(Next(s, Finish(i, marked)))
  {
    var s' := Next(s, Finish(i, marked));
    if s' != s {
      assert s'.passes == [];
    }
  }

  lemma {:induction false} RunKeeps(steps: seq<Step>)
    ensures Inv(Run(steps))
  {
    if steps != [] {
      RunKeeps(steps[..|steps| - 1]);
      NextKeeps(Run(steps[..|steps| - 1]), steps[|steps| - 1]);
    }
  }

  /**
   Passes of one instance never overlap; a marked row was delivered; and a row is delivered once more
   only for every pass that delivered it and ended without its mark, crashes included.
   */
  lemma PublishedAtMost(steps: seq<Step>, id: Id)
    ensures var s := Run(steps);
            && |s.passes| <= 1
            && s.published[id] <= 1 + s.unmarked[id]
            && (id in s.rows && s.rows[id] ==> s.published[id] == 1 + s.unmarked[id])
            && (s.published[id] > s.unmarked[id] ==> (id in s.rows && s.rows[id]) || InFlight(s, id))
  {
    RunKeeps(steps);
    var s := Run(steps);
    assert s.published[id] == s.unmarked[id] + B(id in s.rows && s.rows[id]) + B(InFlight(s, id));
    assert !((id in s.rows && s.rows[id]) && InFlight(s, id));
  }

  /** Once marked, a row is never delivered again. */
  lemma {:induction false} MarkedIsFinal(s: State, steps: seq<Step>, id: Id)
    requires Inv(s) && id in s.rows && s.rows[id]
    ensures var s' := Continue(s, steps); Inv(s') && id in s'.rows && s'.rows[id] && s'.published[id] == s.published[id]
    decreases |steps|
  {
    if steps != [] {
      NextKeeps(s, steps[0]);
      MarkedIsFinal(Next(s, steps[0]), steps[1..], id);
    }
  }

  function Continue(s: State, steps: seq<Step>): State
    decreases |steps|
  {
    if steps == [] then s else Continue(Next(s, steps[0]), steps[1..])
  }

  // ---- A pass of the worker, as a run of these steps ----

  /** The rows of a table and their marks. */
  ghost predicate Shows(rows: map<Id, bool>, table: seq<W.Row>) {
    && (forall id :: id in rows <==> exists i :: 0 <= i < |table| && table[i].id == id)
    && (forall i {:trigger table[i]} | 0 <= i < |table| :: rows[table[i].id] == table[i].processed)
  }

  /** The publications from the `k`-th row on. */
  function Publications(outcomes: seq<W.Outcome>, k: nat, n: nat): seq<Step>
    requires k <= n <= |outcomes|
    decreases n - k
  {
    if k == n then [] else [Publish(0, outcomes[k])] + Publications(outcomes, k + 1, n)
  }

  function PassSteps(found: seq<Id>, outcomes: seq<W.Outcome>, markOk: bool): seq<Step>
    requires |found| <= |outcomes|
  {
    [Tick(found)] + (Publications(outcomes, 0, |found|) + [Finish(0, markOk)])
  }

  /** In the middle of a pass over `found`, with the first `k` rows behind it. */
  ghost predicate Midway(s: State, rows: map<Id, bool>, published: multiset<Id>, found: seq<Id>,
                         outcomes: seq<W.Outcome>, k: nat)
    requires k <= |found| <= |outcomes|
  {
    && s.rows == rows && s.isProcessing && |s.passes| == 1
    && s.passes[0].todo == found[k..]
    && s.passes[0].processedIds == W.Select(found[..k], outcomes, {W.Acknowledged})
    && s.published == published + multiset(W.Select(found[..k], outcomes, W.DELIVERED))
  }

  lemma MidwayOn(s: State, rows: map<Id, bool>, published: multiset<Id>, found: seq<Id>, outcomes: seq<W.Outcome>,
                 k: nat)
    requires k < |found| <= |outcomes| && Midway(s, rows, published, found, outcomes, k)
    ensures Midway(Next(s, Publish(0, outcomes[k])), rows, published, found, outcomes, k + 1)
  {
    assert found[..k + 1][..k] == found[..k] && found[k..][1..] == found[k + 1..];
  }

  lemma {:induction false} PublishesAll(s: State, rows: map<Id, bool>, published: multiset<Id>, found: seq<Id>,
                                        outcomes: seq<W.Outcome>, k: nat, last: Step) returns (s': State)
    requires k <= |found| <= |outcomes| && Midway(s, rows, published, found, outcomes, k)
    ensures Midway(s', rows, published, found, outcomes, |found|)
    ensures Continue(s, Publications(outcomes, k, |found|) + [last]) == Next(s', last)
    decreases |found| - k
  {
    var steps := Publications(outcomes, k, |found|) + [last];
    if k == |found| {
      s' := s;
      assert steps == [last] && steps[1..] == [];
    } else {
      MidwayOn(s, rows, published, found, outcomes, k);
      s' := PublishesAll(Next(s, steps[0]), rows, published, found, outcomes, k + 1, last);
      assert steps[1..] == Publications(outcomes, k + 1, |found|) + [last];
    }
  }

  /** The query of the worker returns what the machine may find. */
  lemma FoundIsFindable(s: State, table: seq<W.Row>, limit: nat)
    requires W.TableOk(table) && Shows(s.rows, table)
    ensures Findable(s, W.FindUnprocessed(table, limit))
  {
    var found := W.FindUnprocessed(table, limit);
    W.PendingRows(table);
    forall i | 0 <= i < |found| ensures found[i] in s.rows && !s.rows[found[i]] {
      assert found[i] in W.Pending(table);
      var j :| 0 <= j < |table| && table[j].id == found[i] && !table[j].processed;
    }
  }

  lemma FinishShows(s: State, table: seq<W.Row>, ids: seq<Id>, marked: bool)
    requires Shows(s.rows, table) && |s.passes| == 1 && s.passes[0].todo == [] && s.passes[0].processedIds == ids
    ensures var s' := Next(s, Finish(0, marked));
            && Shows(s'.rows, if marked then W.Mark(table, ids) else table)
            && !s'.isProcessing && s'.passes == [] && s'.published == s.published
  {
    var after := if marked then W.Mark(table, ids) else table;
    forall i | 0 <= i < |table| ensures after[i].id == table[i].id {
    }
    assert Next(s, Finish(0, marked)).passes == [];
    forall id ensures id in s.rows <==> exists i :: 0 <= i < |after| && after[i].id == id {
      if i :| 0 <= i < |table| && table[i].id == id {
        assert after[i].id == id;
      }
      if i :| 0 <= i < |after| && after[i].id == id {
        assert table[i].id == id;
      }
    }
  }

  /**
   A pass of the worker is a tick, the publications with their outcomes and the finish: run as these steps, it
   leaves the same marks and the same deliveries as in OutboxWorker.
   */
  lemma PassIsSteps(s: State, table: seq<W.Row>, limit: nat, outcomes: seq<W.Outcome>, markOk: bool)
    requires W.TableOk(table) && limit <= |outcomes|
    requires Shows(s.rows, table) && !s.isProcessing && s.passes == []
    ensures var found := W.FindUnprocessed(table, limit);
            var s' := Continue(s, PassSteps(found, outcomes, markOk));
            && Shows(s'.rows, if markOk then W.Mark(table, W.Select(found, outcomes, W.ACKNOWLEDGED)) else table)
            && s'.published == s.published + multiset(W.Select(found, outcomes, W.DELIVERED))
            && !s'.isProcessing && s'.passes == []
  {
    var found := W.FindUnprocessed(table, limit);
    FoundIsFindable(s, table, limit);
    var s1 := Next(s, Tick(found));
    assert Midway(s1, s.rows, s.published, found, outcomes, 0);
    var s2 := PublishesAll(s1, s.rows, s.published, found, outcomes, 0, Finish(0, markOk));
    assert PassSteps(found, outcomes, markOk)[1..] == Publications(outcomes, 0, |found|) + [Finish(0, markOk)];
    assert found[..|found|] == found;
    FinishShows(s2, table, W.Select(found, outcomes, {W.Acknowledged}), markOk);
  }
}
