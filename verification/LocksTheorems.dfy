/** Serializability, at-most-once and freedom from deadlock of the balance transactions. */
module LocksTheorems {
  import opened Common
  import opened Locks
  import opened LocksProofs
  import A = Accounts
  import AL = AccountsLaws

  function Init(db: A.Db): State {
    State(db, map[], [], [])
  }

  function After(db: A.Db, actions: seq<Action>): State {
    if actions == [] then Init(db) else Next(After(db, actions[..|actions| - 1]), actions[|actions| - 1])
  }

  /** The atomic transactions of the log, one after the other. */
  function Replay(db: A.Db, log: seq<Entry>): A.Db {
    if log == [] then db else ApplyEntry(Replay(db, log[..|log| - 1]), log[|log| - 1])
  }

  ghost predicate Once(s: State) {
    && (forall i {:trigger s.log[i]} | 0 <= i < |s.log| && s.log[i].Applied? :: s.log[i].key in s.db.processed)
    && (forall i, j {:trigger s.log[i], s.log[j]} | 0 <= i < j < |s.log| && s.log[i].Applied? && s.log[j].Applied? ::
          s.log[i].key != s.log[j].key)
  }

  lemma NextKeeps(db: A.Db, s: State, a: Action)
    requires Inv(s) && Replay(db, s.log) == s.db && Once(s)
    ensures var s' := Next(s, a); Inv(s') && Replay(db, s'.log) == s'.db && Once(s')
  {
    var s' := Next(s, a);
    match a {
      case Begin(w) => BeginKeeps(s, w);
      case Run(i) => if Runs(s, i) { RunKeeps(s, i); }
      case Abort(i) => if s' != s { FinishKeeps(s, i, false); }
      case Block(slot, b) => BlockKeeps(s, slot, b);
    }
    if s'.log != s.log {
      LogGrows(db, s, s');
    }
  }

  lemma LogGrows(db: A.Db, s: State, s': State)
    requires Replay(db, s.log) == s.db && Once(s)
    requires exists e :: s'.log == s.log + [e] && s'.db == ApplyEntry(s.db, e)
               && (e.Applied? ==> e.key !in s.db.processed && e.key in s'.db.processed)
    ensures Replay(db, s'.log) == s'.db && Once(s')
  {
    assert s'.log[..|s.log|] == s.log;
    var e := s'.log[|s.log|];
    assert s.db.processed.Keys <= s'.db.processed.Keys by {
      if e.Applied? && e.order.IsOrder() {
        AL.ExecuteRows(s.db, e.key, e.order, e.newId);
      }
    }
  }

  /**
   Whatever the interleaving, the committed tables are those of the atomic transactions run one after
   the other in commit order, and no key takes effect twice.
   */
  lemma {:induction false} Serializable(db: A.Db, actions: seq<Action>)
    requires AL.NonNegative(db.balances)
    ensures var s := After(db, actions); Inv(s) && Replay(db, s.log) == s.db && Once(s)
  {
    if actions != [] {
      Serializable(db, actions[..|actions| - 1]);
      NextKeeps(db, After(db, actions[..|actions| - 1]), actions[|actions| - 1]);
    }
  }

  /**
   When a transfer decrements, the balance it tested is still the balance, so neither its updates nor
   the column check can fail any more.
   */
  lemma TestedBalanceHolds(db: A.Db, actions: seq<Action>, i: nat)
    requires AL.NonNegative(db.balances)
    requires var s := After(db, actions);
             i < |s.txns| && s.txns[i].phase == UpdateFirst && s.txns[i].work.Order?
                   && s.txns[i].work.order.TransferOrder?
    ensures var s := After(db, actions);
            var sender := AL.Home(s.txns[i].work.order);
            && Runs(s, i) && sender in s.txns[i].read && sender in s.db.balances
            && s.db.balances[sender] == s.txns[i].read[sender]
            && s.db.balances[sender].amount >= s.txns[i].work.order.amount
            && Statement(s, i).value.txns[i].phase == UpdateSecond
            && Runs(Statement(s, i).value, i)
            && Statement(Statement(s, i).value, i).value.txns[i].phase == InsertKey
  {
    Serializable(db, actions);
    TestedAt(After(db, actions), i);
  }

  lemma TestedAt(s: State, i: nat)
    requires Inv(s) && Decrements(s, i)
    ensures var sender := AL.Home(s.txns[i].work.order);
            && Runs(s, i) && sender in s.txns[i].read && sender in s.db.balances
            && s.db.balances[sender] == s.txns[i].read[sender]
            && s.db.balances[sender].amount >= s.txns[i].work.order.amount
            && Statement(s, i).value.txns[i].phase == UpdateSecond
            && Runs(Statement(s, i).value, i)
            && Statement(Statement(s, i).value, i).value.txns[i].phase == InsertKey
  {
    assert TxnOk(s, i);
    FirstUpdate(s, i);
    OrderKeeps(s, i);
    SecondUpdate(Statement(s, i).value, i);
  }

  /** Transaction `i` is a transfer about to decrement the sender's balance. */
  predicate Decrements(s: State, i: nat) {
    i < |s.txns| && s.txns[i].phase == UpdateFirst && s.txns[i].work.Order? && s.txns[i].work.order.TransferOrder?
  }

  lemma FirstUpdate(s: State, i: nat)
    requires Inv(s) && Decrements(s, i) && WorkOk(s.db, s.txns[i].work)
    ensures var sender := AL.Home(s.txns[i].work.order);
            && Runs(s, i) && sender in s.txns[i].read && sender in s.db.balances
            && s.db.balances[sender] == s.txns[i].read[sender]
            && s.db.balances[sender].amount >= s.txns[i].work.order.amount
    ensures var t' := Statement(s, i).value.txns[i]; t'.phase == UpdateSecond && t'.work == s.txns[i].work
  {
    UpdatesSucceed(s, i);
  }

  lemma SecondUpdate(s: State, i: nat)
    requires Inv(s) && i < |s.txns| && s.txns[i].phase == UpdateSecond
    requires s.txns[i].work.Order? && s.txns[i].work.order.TransferOrder?
    ensures Runs(s, i) && Statement(s, i).value.txns[i].phase == InsertKey
  {
    assert TxnOk(s, i);
    UpdatesSucceed(s, i);
  }

  // ---- No deadlock ----

  predicate OnlyOrders(s: State) {
    forall i {:trigger s.txns[i]} | 0 <= i < |s.txns| :: s.txns[i].work.Order?
  }

  predicate Unfinished(s: State, i: nat) {
    i < |s.txns| && !s.txns[i].phase.Finished?
  }

  /** `i` waits for a row lock of `j`, or for `j` to decide the fate of the key both insert. */
  predicate WaitsFor(s: State, i: nat, j: nat) {
    && i < |s.txns| && j < |s.txns| && i != j
    && ((s.txns[i].phase.Lock? && s.txns[i].phase.todo != [] && s.txns[i].phase.todo[0] in s.locks
         && s.locks[s.txns[i].phase.todo[0]] == j)
        || (s.txns[i].phase == InsertKey && s.txns[i].work.Order? && HasKey(s.txns[j], s.txns[i].work.key)))
  }

  function Stage(t: Txn): nat {
    if t.phase == CheckFirst || (t.phase.Lock? && t.phase.todo != []) then 0
    else if t.phase == Commit || t.phase.Finished? then 2
    else 1
  }

  /** The account whose row the transaction wants next. */
  function Wanted(t: Txn): nat {
    if t.phase.Lock? && t.phase.todo != [] then t.phase.todo[0].accountId else 0
  }

  /** Because rows are locked in account order, every wait goes up in (stage, account). */
  lemma WaitsRise(s: State, i: nat, j: nat)
    requires Inv(s) && OnlyOrders(s) && WaitsFor(s, i, j)
    ensures Unfinished(s, j)
    ensures Stage(s.txns[i]) < Stage(s.txns[j])
            || (Stage(s.txns[i]) == Stage(s.txns[j]) == 0 && Wanted(s.txns[i]) < Wanted(s.txns[j]))
  {
    assert TxnOk(s, i) && TxnOk(s, j);
    var u := s.txns[j];
    if s.txns[i].phase.Lock? {
      var slot := s.txns[i].phase.todo[0];
      assert slot in u.read;
      if u.phase.Lock? && u.phase.todo != [] {
        SecondRow(s.db, u, slot);
      }
    }
  }

  /** A transaction that holds one row and wants another wants a higher account. */
  lemma SecondRow(db: A.Db, u: Txn, slot: Slot)
    requires WorkOk(db, u.work) && u.work.Order? && PhaseOk(db, u)
    requires u.phase.Lock? && u.phase.todo != [] && slot in u.read
    ensures slot.accountId < u.phase.todo[0].accountId
  {
    var p := u.work.order;
    var sender := AL.Home(p);
    ExistingOne(db, sender);
    if p.TransferOrder? {
      var receiver := A.Slot(p.toAccountId, p.currency);
      ExistingTwo(db, sender, receiver);
      ExistingTwo(db, receiver, sender);
    }
  }

  lemma BlockedWaits(s: State, i: nat) returns (j: nat)
    requires Inv(s) && Unfinished(s, i) && !Runs(s, i) && s.txns[i].work.Order?
    ensures WaitsFor(s, i, j)
  {
    assert TxnOk(s, i);
    var t := s.txns[i];
    if t.phase.Lock? {
      j := s.locks[t.phase.todo[0]];
    } else {
      j :| 0 <= j < |s.txns| && HasKey(s.txns[j], t.work.key);
    }
  }

  function HighestWanted(txns: seq<Txn>): nat {
    if txns == [] then 0 else Max(Wanted(txns[0]), HighestWanted(txns[1..]))
  }

  lemma {:induction false} HighestIsHighest(txns: seq<Txn>, i: nat)
    requires i < |txns|
    ensures Wanted(txns[i]) <= HighestWanted(txns)
  {
    if i > 0 {
      HighestIsHighest(txns[1..], i - 1);
    }
  }

  /** From any unfinished transaction the waits lead to one that can run. */
  lemma {:induction false} SomeoneRuns(s: State, i: nat) returns (j: nat)
    requires Inv(s) && OnlyOrders(s) && Unfinished(s, i)
    ensures Runs(s, j)
    decreases 2 - Stage(s.txns[i]), HighestWanted(s.txns) - Wanted(s.txns[i])
  {
    if Runs(s, i) {
      j := i;
    } else {
      var k := BlockedWaits(s, i);
      WaitsRise(s, i, k);
      HighestIsHighest(s.txns, k);
      HighestIsHighest(s.txns, i);
      j := SomeoneRuns(s, k);
    }
  }

  // ---- Everybody gets done ----

  function Left(t: Txn): nat {
    match t.phase
    case CheckFirst => 10
    case Lock(todo) => 7 + |todo|
    case CheckLocked => 6
    case Test => 5
    case UpdateFirst => 4
    case UpdateSecond => 3
    case InsertKey => 2
    case Commit => 1
    case Finished(_) => 0
  }

  function TotalLeft(txns: seq<Txn>): nat {
    if txns == [] then 0 else Left(txns[0]) + TotalLeft(txns[1..])
  }

  lemma {:induction false} LeftUpdate(txns: seq<Txn>, i: nat, t: Txn)
    requires i < |txns|
    ensures TotalLeft(txns[i := t]) == TotalLeft(txns) - Left(txns[i]) + Left(t)
  {
    if i > 0 {
      assert txns[i := t][1..] == txns[1..][i - 1 := t];
      LeftUpdate(txns[1..], i - 1, t);
    } else {
      assert txns[i := t][1..] == txns[1..];
    }
  }

  ghost predicate Falls(s: State, s': State, i: nat)
    requires i < |s.txns|
  {
    && |s'.txns| == |s.txns| && s'.txns == s.txns[i := s'.txns[i]]
    && s'.txns[i].work == s.txns[i].work
    && Left(s'.txns[i]) < Left(s.txns[i])
  }

  lemma LockFalls(s: State, i: nat)
    requires Runs(s, i) && s.txns[i].work.Order? && s.txns[i].phase.Lock?
    ensures Falls(s, Statement(s, i).value, i)
  {
  }

  lemma FinishFalls(s: State, i: nat, applied: bool)
    requires i < |s.txns| && !s.txns[i].phase.Finished?
    ensures Falls(s, Finish(s, i, applied), i)
  {
  }

  lemma IncrementFalls(s: State, i: nat, slot: Slot, p: Payload, next: Phase)
    requires i < |s.txns| && Left(s.txns[i].(phase := next)) < Left(s.txns[i])
    ensures Falls(s, Increment(s, i, slot, p, next), i)
  {
  }

  lemma OrderFalls(s: State, i: nat)
    requires Runs(s, i) && s.txns[i].work.Order? && |LockList(s.db, s.txns[i].work)| <= 2
    requires !s.txns[i].phase.Lock?
    ensures Falls(s, Statement(s, i).value, i)
  {
    var p := s.txns[i].work.order;
    FinishFalls(s, i, false);
    if s.txns[i].phase == UpdateFirst {
      IncrementFalls(s, i, AL.Home(p), p, if p.TransferOrder? then UpdateSecond else InsertKey);
    } else if s.txns[i].phase == UpdateSecond {
      if p.TransferOrder? {
        IncrementFalls(s, i, A.Slot(p.toAccountId, p.currency), p, InsertKey);
      }
    } else if s.txns[i].phase == Commit {
      FinishFalls(s, i, true);
    }
  }

  lemma StatementProgresses(s: State, i: nat)
    requires Inv(s) && OnlyOrders(s) && Runs(s, i)
    ensures var s' := Statement(s, i).value;
            TotalLeft(s'.txns) < TotalLeft(s.txns) && OnlyOrders(s') && |s'.txns| == |s.txns|
  {
    ShortList(s.db, s.txns[i].work);
    if s.txns[i].phase.Lock? { LockFalls(s, i); } else { OrderFalls(s, i); }
    LeftUpdate(s.txns, i, Statement(s, i).value.txns[i]);
  }

  lemma ShortList(db: A.Db, w: Work)
    requires WorkOk(db, w) && w.Order?
    ensures |LockList(db, w)| <= 2
  {
    var sender := AL.Home(w.order);
    ExistingOne(db, sender);
    if w.order.TransferOrder? {
      var receiver := A.Slot(w.order.toAccountId, w.order.currency);
      ExistingTwo(db, sender, receiver);
      ExistingTwo(db, receiver, sender);
    }
  }

  function Schedule(s: State, order: seq<nat>): State
    decreases |order|
  {
    if order == [] then s else Schedule(Next(s, Run(order[0])), order[1..])
  }

  /** Any set of concurrent deposits and transfers can run to the end; no abort is ever needed to get there. */
  lemma {:induction false} NoDeadlock(s: State) returns (order: seq<nat>)
    requires Inv(s) && OnlyOrders(s)
    ensures var s' := Schedule(s, order);
            |s'.txns| == |s.txns| && forall i | 0 <= i < |s'.txns| :: s'.txns[i].phase.Finished?
    decreases TotalLeft(s.txns)
  {
    if i: nat :| Unfinished(s, i) {
      var j := SomeoneRuns(s, i);
      StatementProgresses(s, j);
      RunKeeps(s, j);
      var rest := NoDeadlock(Statement(s, j).value);
      order := [j] + rest;
      assert order[1..] == rest;
    } else {
      order := [];
      forall i | 0 <= i < |s.txns| ensures s.txns[i].phase.Finished? {
        assert !Unfinished(s, i);
      }
    }
  }
}
