/** What becomes of each transaction: an order is turned down for a reason only, and otherwise it is applied. */
module LocksOutcomes {
  import opened Common
  import opened Locks
  import opened LocksProofs
  import opened LocksTheorems
  import A = Accounts
  import AL = AccountsLaws

  /** A reason not to apply the order: its key is processed, it is not admissible, or the id of its reply is taken. */
  predicate Refusable(db: A.Db, w: Work)
    requires w.Order?
  {
    w.key in db.processed || !AL.Admissible(db.balances, w.order) || w.newId in db.outbox
  }

  // ---- One statement ----

  /** Of the rows an order needs, those that exist are locked and read. */
  lemma RowsRead(db: A.Db, t: Txn, slot: Slot)
    requires WorkOk(db, t.work) && t.work.Order? && slot in db.balances
    requires slot == AL.Home(t.work.order)
             || (t.work.order.TransferOrder? && slot == A.Slot(t.work.order.toAccountId, t.work.order.currency))
    ensures slot in Elements(LockList(db, t.work))
  {
    var p := t.work.order;
    ExistingOne(db, AL.Home(p));
    if p.TransferOrder? {
      ExistingTwo(db, AL.Home(p), A.Slot(p.toAccountId, p.currency));
      ExistingTwo(db, A.Slot(p.toAccountId, p.currency), AL.Home(p));
    }
  }

  lemma {:induction false} ExistingExist(db: A.Db, slots: seq<Slot>)
    ensures forall slot | slot in Existing(db, slots) :: slot in db.balances
  {
    if slots != [] {
      ExistingExist(db, slots[1..]);
    }
  }

  lemma LockListExists(db: A.Db, w: Work)
    requires WorkOk(db, w)
    ensures forall slot | slot in LockList(db, w) :: slot in db.balances
  {
    match w {
      case Reset(rows) =>
      case Order(_, p, _) =>
        ExistingExist(db, [AL.Home(p)]);
        if p.TransferOrder? {
          ExistingExist(db, [AL.Home(p), A.Slot(p.toAccountId, p.currency)]);
          ExistingExist(db, [A.Slot(p.toAccountId, p.currency), AL.Home(p)]);
        }
    }
  }

  /** What a transfer reads is what the table says, so it passes its tests if the table admits it. */
  lemma AdmissibleRead(s: State, i: nat)
    requires Inv(s) && i < |s.txns| && s.txns[i].work.Order? && s.txns[i].phase == Test
    requires AL.Admissible(s.db.balances, s.txns[i].work.order)
    ensures s.txns[i].work.order.TransferOrder? && Passes(s.txns[i].read, s.txns[i].work.order)
  {
    assert TxnOk(s, i);
    var t := s.txns[i];
    var p := t.work.order;
    var sender, receiver := AL.Home(p), A.Slot(p.toAccountId, p.currency);
    RowsRead(s.db, t, sender);
    RowsRead(s.db, t, receiver);
    ReadersHold(s, i, sender);
    ReadersHold(s, i, receiver);
    PassesIff(s.db, t);
  }

  lemma LockedIsThere(s: State, i: nat)
    requires Inv(s) && i < |s.txns| && s.txns[i].phase.Lock? && s.txns[i].phase.todo != []
    ensures s.txns[i].phase.todo[0] in s.db.balances
  {
    assert TxnOk(s, i);
    LockListExists(s.db, s.txns[i].work);
    assert s.txns[i].phase.todo[0] in LockList(s.db, s.txns[i].work);
  }

  /** A deposit that holds its locks and read no row has none. */
  lemma NothingToLock(s: State, i: nat)
    requires Inv(s) && i < |s.txns| && s.txns[i].phase == Lock([])
    requires WorkOk(s.db, s.txns[i].work) && s.txns[i].work.Order?
    requires AL.Home(s.txns[i].work.order) !in s.txns[i].read
    ensures !AL.Admissible(s.db.balances, s.txns[i].work.order)
  {
    assert TxnOk(s, i);
    var all := LockList(s.db, s.txns[i].work);
    assert all[..|all|] == all;
    var home := AL.Home(s.txns[i].work.order);
    if home in s.db.balances {
      RowsRead(s.db, s.txns[i], home);
    }
  }

  /** No statement turns an order down without a reason, and none turns a reset down. */
  lemma RefusedFor(s: State, i: nat)
    requires Inv(s) && Runs(s, i) && Statement(s, i).value.txns[i].phase == Finished(false)
    ensures s.txns[i].work.Order? && Refusable(s.db, s.txns[i].work)
  {
    assert TxnOk(s, i);
    var t := s.txns[i];
    if t.phase.Lock? {
      if t.phase.todo != [] {
        LockedIsThere(s, i);
      } else if t.work.Order? && AL.Home(t.work.order) !in t.read {
        NothingToLock(s, i);
      }
    } else if t.work.Order? {
      OrderRefusedFor(s, i);
    }
  }

  lemma OrderRefusedFor(s: State, i: nat)
    requires Inv(s) && Runs(s, i) && Statement(s, i).value.txns[i].phase == Finished(false)
    requires s.txns[i].work.Order? && !s.txns[i].phase.Lock?
    ensures Refusable(s.db, s.txns[i].work)
  {
    var t := s.txns[i];
    match t.phase {
      case CheckFirst =>
      case CheckLocked =>
      case Test => if AL.Admissible(s.db.balances, t.work.order) { AdmissibleRead(s, i); }
      case UpdateFirst => UpdatesSucceed(s, i);
      case UpdateSecond => UpdatesSucceed(s, i);
      case InsertKey =>
      case Commit =>
    }
  }

  // ---- Over runs ----

  /** A statement of one transaction leaves the others as they are, and what it was asked to do. */
  lemma OnlyOwn(s: State, i: nat)
    requires Runs(s, i)
    ensures var s' := Statement(s, i).value;
            && |s'.txns| == |s.txns| && s'.txns == s.txns[i := s'.txns[i]] && s'.txns[i].work == s.txns[i].work
    ensures !s.txns[i].phase.Finished?
  {
    if !s.txns[i].phase.Lock? && s.txns[i].work.Order? {
      OrderOnlyOwn(s, i);
    }
  }

  lemma OrderOnlyOwn(s: State, i: nat)
    requires Runs(s, i) && s.txns[i].work.Order? && !s.txns[i].phase.Lock?
    ensures var s' := Statement(s, i).value;
            && |s'.txns| == |s.txns| && s'.txns == s.txns[i := s'.txns[i]] && s'.txns[i].work == s.txns[i].work
  {
  }

  /** The action ends order `i` unapplied: it aborts it, or runs it when there is a reason to turn it down. */
  ghost predicate TurnsDown(s: State, a: Action, i: nat, w: Work) {
    && i < |s.txns| && w.Order? && s.txns[i].work == w && !s.txns[i].phase.Finished?
    && (a == Abort(i) || (a == Run(i) && Refusable(s.db, w)))
  }

  ghost predicate TurnedDown(db: A.Db, actions: seq<Action>, i: nat, w: Work) {
    exists n :: 0 <= n < |actions| && TurnsDown(After(db, actions[..n]), actions[n], i, w)
  }

  /** Every order that has ended was committed, or turned down by an action of the run. */
  ghost predicate Ended(db: A.Db, actions: seq<Action>, i: nat, t: Txn, log: seq<Entry>) {
    t.work.Order? && t.phase.Finished? ==>
      if t.phase.applied then Applied(t.work.key, t.work.order, t.work.newId) in log
      else TurnedDown(db, actions, i, t.work)
  }

  lemma TurnedDownBefore(db: A.Db, actions: seq<Action>, i: nat, w: Work)
    requires actions != [] && TurnedDown(db, actions[..|actions| - 1], i, w)
    ensures TurnedDown(db, actions, i, w)
  {
    var before := actions[..|actions| - 1];
    var n :| 0 <= n < |before| && TurnsDown(After(db, before[..n]), before[n], i, w);
    assert before[..n] == actions[..n] && before[n] == actions[n];
  }

  /** What an action may do to one transaction, as far as ending it goes. */
  ghost predicate EndsWell(s: State, a: Action, s': State, i: nat)
    requires i < |s'.txns|
  {
    match s'.txns[i]
    case Txn(Order(key, order, newId), Finished(applied), _, _) =>
      || (i < |s.txns| && s'.txns[i] == s.txns[i])
      || (if applied then Applied(key, order, newId) in s'.log else TurnsDown(s, a, i, s'.txns[i].work))
    case _ => true
  }

  lemma BeginEnds(s: State, w: Work, i: nat)
    requires i < |Next(s, Begin(w)).txns|
    ensures EndsWell(s, Begin(w), Next(s, Begin(w)), i)
  {
  }

  lemma AbortEnds(s: State, j: nat, i: nat)
    requires i < |Next(s, Abort(j)).txns|
    ensures EndsWell(s, Abort(j), Next(s, Abort(j)), i)
  {
  }

  lemma RunEnds(s: State, j: nat, i: nat)
    requires Inv(s) && Runs(s, j) && i < |Statement(s, j).value.txns|
    ensures EndsWell(s, Run(j), Statement(s, j).value, i)
  {
    OnlyOwn(s, j);
    if i == j && Statement(s, j).value.txns[i].phase == Finished(false) {
      RefusedFor(s, i);
    } else if i == j && Statement(s, j).value.txns[i].phase == Finished(true) && s.txns[i].work.Order? {
      AppliedLogs(s, i);
    }
  }

  lemma ActionEnds(s: State, a: Action, i: nat)
    requires Inv(s) && i < |Next(s, a).txns|
    ensures EndsWell(s, a, Next(s, a), i)
  {
    match a {
      case Begin(w) => BeginEnds(s, w, i);
      case Run(j) => if Runs(s, j) { RunEnds(s, j, i); }
      case Abort(j) => AbortEnds(s, j, i);
      case Block(_, _) =>
    }
  }

  lemma AppliedLogs(s: State, i: nat)
    requires Inv(s) && Runs(s, i) && s.txns[i].work.Order?
    requires Statement(s, i).value.txns[i].phase == Finished(true)
    ensures s.txns[i].phase == Commit
    ensures var w := s.txns[i].work; Statement(s, i).value.log == s.log + [Applied(w.key, w.order, w.newId)]
  {
  }

  lemma LogKept(s: State, a: Action)
    ensures s.log <= Next(s, a).log
  {
    match a {
      case Begin(w) =>
      case Run(i) =>
      case Abort(i) =>
      case Block(_, _) =>
    }
  }

  /**
   Every order that has ended is in the log, or it was aborted, or it was turned down by a statement that found, on
   the tables of that moment, its key processed, the order inadmissible or the id of its reply taken.
   */
  lemma {:induction false} OrdersAnswered(db: A.Db, actions: seq<Action>, i: nat)
    requires AL.NonNegative(db.balances) && i < |After(db, actions).txns|
    ensures Ended(db, actions, i, After(db, actions).txns[i], After(db, actions).log)
  {
    if actions != [] {
      var n := |actions| - 1;
      var s, a := After(db, actions[..n]), actions[n];
      Serializable(db, actions[..n]);
      ActionEnds(s, a, i);
      LogKept(s, a);
      if i < |s.txns| && Next(s, a).txns[i] == s.txns[i] {
        OrdersAnswered(db, actions[..n], i);
        if s.txns[i].work.Order? && s.txns[i].phase == Finished(false) {
          TurnedDownBefore(db, actions, i, s.txns[i].work);
        }
      }
    }
  }

  /** The transaction that committed the entry. */
  predicate Committed(s: State, e: Entry, i: nat) {
    && e.Applied? && i < |s.txns| && s.txns[i].phase == Finished(true)
    && s.txns[i].work == Order(e.key, e.order, e.newId)
  }

  lemma CommittedKept(s: State, a: Action, e: Entry, i: nat)
    requires Committed(s, e, i)
    ensures Committed(Next(s, a), e, i)
  {
    match a {
      case Begin(w) =>
      case Run(j) => if Runs(s, j) { OnlyOwn(s, j); }
      case Abort(j) =>
      case Block(_, _) =>
    }
  }

  lemma NewEntry(s: State, a: Action, e: Entry)
    requires e.Applied? && e in Next(s, a).log && e !in s.log
    ensures a.Run? && Committed(Next(s, a), e, a.i)
  {
    if a.Run? && Runs(s, a.i) {
      OnlyOwn(s, a.i);
    }
  }

  /** And nothing else is in the log: every entry of an order is that of a transaction that was asked for it. */
  lemma {:induction false} EntriesCommitted(db: A.Db, actions: seq<Action>, e: Entry) returns (i: nat)
    requires e.Applied? && e in After(db, actions).log
    ensures Committed(After(db, actions), e, i)
  {
    var n := |actions| - 1;
    var s := After(db, actions[..n]);
    if e in s.log {
      i := EntriesCommitted(db, actions[..n], e);
      CommittedKept(s, actions[n], e, i);
    } else {
      NewEntry(s, actions[n], e);
      i := actions[n].i;
    }
  }

  // ---- Alone ----

  /** Order `w` is the only transaction and has committed nothing yet. */
  ghost predicate Alone(db: A.Db, s: State, w: Work) {
    && Inv(s) && OnlyOrders(s) && |s.txns| == 1 && s.txns[0].work == w && s.db == db && s.log == []
    && !s.txns[0].phase.Finished?
  }

  lemma AloneRuns(db: A.Db, s: State, w: Work)
    requires Alone(db, s, w)
    ensures Runs(s, 0)
  {
    if !Runs(s, 0) {
      var j := BlockedWaits(s, 0);
      assert false;
    }
  }

  /** What the atomic transaction would do. */
  function Atomically(db: A.Db, w: Work): A.Db
    requires w.Order? && w.order.IsOrder()
  {
    var r := A.Execute(db, w.key, w.order, w.newId);
    if r.Success? then r.value else db
  }

  /** The one transaction has ended, applied just if there was no reason against it, as the atomic one. */
  ghost predicate EndedAs(db: A.Db, s: State, w: Work)
    requires w.Order? && w.order.IsOrder()
  {
    && |s.txns| == 1 && s.txns[0].work == w
    && s.txns[0].phase == Finished(!Refusable(db, w))
    && s.db == Atomically(db, w)
    && s.log == if Refusable(db, w) then [] else [Applied(w.key, w.order, w.newId)]
  }

  lemma RefusedAtomically(db: A.Db, w: Work)
    requires AL.NonNegative(db.balances) && WorkOk(db, w) && w.Order? && Refusable(db, w)
    ensures Atomically(db, w) == db
  {
    AL.ExecuteShape(db, w.key, w.order, w.newId);
  }

  lemma AloneStep(db: A.Db, s: State, w: Work)
    requires Alone(db, s, w) && Runs(s, 0) && w.Order? && w.order.IsOrder()
    ensures Alone(db, Statement(s, 0).value, w) || EndedAs(db, Statement(s, 0).value, w)
  {
    var s' := Statement(s, 0).value;
    assert TxnOk(s, 0);
    OnlyOwn(s, 0);
    RunKeeps(s, 0);
    StatementProgresses(s, 0);
    if s'.txns[0].phase == Finished(false) {
      RefusedFor(s, 0);
      RefusedAtomically(db, w);
      NothingCommitted(s, 0);
    } else if s'.txns[0].phase == Finished(true) {
      AppliedLogs(s, 0);
      CommittedFor(s, 0);
    } else {
      NothingCommitted(s, 0);
    }
  }

  lemma NothingCommitted(s: State, i: nat)
    requires Runs(s, i) && s.txns[i].work.Order? && Statement(s, i).value.txns[i].phase != Finished(true)
    ensures Statement(s, i).value.db == s.db && Statement(s, i).value.log == s.log
  {
  }

  lemma CommittedFor(s: State, i: nat)
    requires Inv(s) && Runs(s, i) && s.txns[i].work.Order? && s.txns[i].phase == Commit
    requires Statement(s, i).value.txns[i].phase == Finished(true)
    ensures !Refusable(s.db, s.txns[i].work)
    ensures A.Execute(s.db, s.txns[i].work.key, s.txns[i].work.order, s.txns[i].work.newId)
         == Success(Statement(s, i).value.db)
  {
    assert TxnOk(s, i);
    CommitRefines(s, i);
    var w := s.txns[i].work;
    AL.ExecuteShape(s.db, w.key, w.order, w.newId);
  }

  lemma {:induction false} AloneEnds(db: A.Db, s: State, w: Work) returns (n: nat, s': State)
    requires Alone(db, s, w) && w.Order? && w.order.IsOrder()
    ensures s' == Schedule(s, seq(n, _ => 0)) && EndedAs(db, s', w)
    decreases TotalLeft(s.txns)
  {
    AloneRuns(db, s, w);
    AloneStep(db, s, w);
    StatementProgresses(s, 0);
    var s1 := Statement(s, 0).value;
    if Alone(db, s1, w) {
      var m: nat;
      m, s' := AloneEnds(db, s1, w);
      n := m + 1;
      assert seq(n, _ => 0)[1..] == seq(m, _ => 0);
    } else {
      n, s' := 1, s1;
      assert seq(1, _ => 0)[1..] == [];
    }
  }

  /** A transaction that runs alone does what the atomic one does, and ends. */
  lemma AloneIsAtomic(db: A.Db, w: Work) returns (n: nat)
    requires AL.NonNegative(db.balances) && WorkOk(db, w) && w.Order?
    ensures EndedAs(db, Schedule(Next(Init(db), Begin(w)), seq(n, _ => 0)), w)
  {
    var s := Next(Init(db), Begin(w));
    BeginKeeps(Init(db), w);
    var s';
    n, s' := AloneEnds(db, s, w);
  }
}
