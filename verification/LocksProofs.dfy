/** Every interleaving of the balance transactions is a serial execution of the atomic ones. */
module LocksProofs {
  import opened Common
  import opened Locks
  import A = Accounts
  import AL = AccountsLaws

  // ---- Frames ----

  lemma {:induction false} SameExisting(db: A.Db, db': A.Db, slots: seq<Slot>)
    requires db'.balances.Keys == db.balances.Keys
    ensures Existing(db', slots) == Existing(db, slots)
  {
    if slots != [] {
      SameExisting(db, db', slots[1..]);
    }
  }

  lemma SameLockList(db: A.Db, db': A.Db, w: Work)
    requires db'.balances.Keys == db.balances.Keys && WorkOk(db, w)
    ensures WorkOk(db', w) && LockList(db', w) == LockList(db, w)
  {
    if w.Order? && w.order.DepositOrder? {
      SameExisting(db, db', [AL.Home(w.order)]);
    } else if w.Order? {
      var sender, receiver := AL.Home(w.order), A.Slot(w.order.toAccountId, w.order.currency);
      SameExisting(db, db', [sender]);
      SameExisting(db, db', [sender, receiver]);
      SameExisting(db, db', [receiver, sender]);
    }
  }

  /** A transaction does not notice a step of another that leaves its rows and its key alone. */
  lemma Undisturbed(s: State, s': State, j: nat)
    requires j < |s.txns| && TxnOk(s, j) && j < |s'.txns| && s'.txns[j] == s.txns[j]
    requires s'.db.balances.Keys == s.db.balances.Keys
    requires forall slot | slot in s.txns[j].read ::
               slot in s'.locks && s'.locks[slot] == j && s'.db.balances[slot] == s.db.balances[slot]
    requires s.txns[j].phase == Commit && s.txns[j].work.Order? ==> s.txns[j].work.key !in s'.db.processed
    ensures TxnOk(s', j)
  {
    SameLockList(s.db, s'.db, s.txns[j].work);
  }

  lemma ReadersHold(s: State, j: nat, slot: Slot)
    requires Inv(s) && j < |s.txns| && slot in s.txns[j].read
    ensures slot in s.locks && s.locks[slot] == j
    ensures slot in s.db.balances && s.db.balances[slot] == s.txns[j].read[slot]
  {
    assert TxnOk(s, j);
  }

  lemma FinishKeeps(s: State, i: nat, applied: bool)
    requires Inv(s) && i < |s.txns|
    ensures Inv(Finish(s, i, applied))
  {
    var s' := Finish(s, i, applied);
    forall j | 0 <= j < |s'.txns| ensures TxnOk(s', j) {
      assert TxnOk(s, j);
      if j != i {
        Undisturbed(s, s', j);
      }
    }
  }

  /** Only transaction `i` changes, without touching its locks. */
  lemma LocalKeeps(s: State, s': State, i: nat)
    requires Inv(s) && i < |s.txns|
    requires |s'.txns| == |s.txns| && s' == s.(txns := s.txns[i := s'.txns[i]])
    requires s'.txns[i].read == s.txns[i].read && TxnOk(s', i)
    requires s'.txns[i].phase == Commit && s'.txns[i].work.Order? ==>
               forall j | 0 <= j < |s.txns| :: j == i || !HasKey(s.txns[j], s'.txns[i].work.key)
    ensures Inv(s')
  {
    forall j | 0 <= j < |s'.txns| ensures TxnOk(s', j) {
      assert TxnOk(s, j);
      if j != i {
        Undisturbed(s, s', j);
      }
    }
  }

  lemma OneMore(all: seq<Slot>, n: nat)
    requires n < |all|
    ensures all[n..][1..] == all[n + 1..] && all[n..][0] == all[n]
    ensures Elements(all[..n + 1]) == Elements(all[..n]) + {all[n]}
  {
    assert all[..n + 1] == all[..n] + [all[n]];
  }

  /** The state after transaction `i` has locked and read `slot`. */
  ghost predicate Took(s: State, s': State, i: nat, slot: Slot)
    requires i < |s.txns|
  {
    var t := s.txns[i];
    && t.phase.Lock? && t.phase.todo != [] && t.phase.todo[0] == slot && slot in s.db.balances
    && (slot in s.locks ==> s.locks[slot] == i)
    && s'.db == s.db && s'.locks == s.locks[slot := i]
    && s'.txns == s.txns[i := t.(phase := Lock(t.phase.todo[1..]), read := t.read[slot := s.db.balances[slot]])]
  }

  lemma TookPhase(db: A.Db, t: Txn, t': Txn, slot: Slot)
    requires WorkOk(db, t.work) && PhaseOk(db, t)
    requires t.phase.Lock? && t.phase.todo != [] && t.phase.todo[0] == slot && slot in db.balances
    requires t' == t.(phase := Lock(t.phase.todo[1..]), read := t.read[slot := db.balances[slot]])
    ensures PhaseOk(db, t')
  {
    var all := LockList(db, t.work);
    var n := |all| - |t.phase.todo|;
    OneMore(all, n);
    assert t'.phase.todo == all[n + 1..] && |all| - |t'.phase.todo| == n + 1;
  }

  lemma TookTxn(s: State, s': State, i: nat, slot: Slot)
    requires i < |s.txns| && TxnOk(s, i) && Took(s, s', i, slot)
    ensures TxnOk(s', i)
  {
    TookPhase(s.db, s.txns[i], s'.txns[i], slot);
    assert Reads(s, i);
  }

  lemma LockKeeps(s: State, i: nat)
    requires Inv(s) && Runs(s, i) && s.txns[i].phase.Lock? && s.txns[i].phase.todo != []
    ensures Inv(Statement(s, i).value)
  {
    var slot := s.txns[i].phase.todo[0];
    if slot !in s.db.balances {
      FinishKeeps(s, i, false);
    } else {
      TookKeeps(s, Statement(s, i).value, i, slot);
    }
  }

  lemma TookKeeps(s: State, s': State, i: nat, slot: Slot)
    requires Inv(s) && i < |s.txns| && Took(s, s', i, slot)
    ensures Inv(s')
  {
    assert TxnOk(s, i);
    TookTxn(s, s', i, slot);
    forall j | 0 <= j < |s'.txns| ensures TxnOk(s', j) {
      if j != i {
        assert TxnOk(s, j);
        LockLeaves(s, s', i, j, slot);
      }
    }
  }

  lemma LockLeaves(s: State, s': State, i: nat, j: nat, slot: Slot)
    requires Inv(s) && i < |s.txns| && j < |s.txns| && j != i && TxnOk(s, j)
    requires slot in s.locks ==> s.locks[slot] == i
    requires s'.db == s.db && s'.locks == s.locks[slot := i] && |s'.txns| == |s.txns| && s'.txns[j] == s.txns[j]
    ensures TxnOk(s', j)
  {
    forall q | q in s.txns[j].read ensures q != slot && q in s.locks && s.locks[q] == j {
      ReadersHold(s, j, q);
    }
    Undisturbed(s, s', j);
  }

  lemma LockedKeeps(s: State, i: nat)
    requires Inv(s) && Runs(s, i) && s.txns[i].phase == Lock([])
    ensures Inv(Statement(s, i).value)
  {
    var t := s.txns[i];
    var s' := Statement(s, i).value;
    assert TxnOk(s, i);
    var all := LockList(s.db, t.work);
    assert all[..|all|] == all;
    if s'.txns[i].phase.Finished? {
      FinishKeeps(s, i, false);
    } else {
      LocalKeeps(s, s', i);
    }
  }

  /** The rows a transfer tested are the rows it updates, so neither update can fail. */
  lemma UpdatesSucceed(s: State, i: nat)
    requires Inv(s) && Runs(s, i) && (s.txns[i].phase == UpdateFirst || s.txns[i].phase == UpdateSecond)
    ensures var s' := Statement(s, i).value;
            && !s'.txns[i].phase.Finished? && TxnOk(s', i)
            && s' == s.(txns := s.txns[i := s'.txns[i]]) && s'.txns[i].read == s.txns[i].read
    ensures var p := s.txns[i].work.order;
            && AL.Home(p) in s.db.balances && AL.Home(p) in s.txns[i].read
            && s.db.balances[AL.Home(p)] == s.txns[i].read[AL.Home(p)]
            && (p.TransferOrder? ==> s.db.balances[AL.Home(p)].amount >= p.amount)
  {
    LockedRows(s, i);
    if s.txns[i].phase == UpdateFirst { FirstSucceeds(s, i); } else { SecondSucceeds(s, i); }
  }

  /** The rows an order updates are locked by it and are still as it read them. */
  lemma LockedRows(s: State, i: nat)
    requires Inv(s) && Runs(s, i) && (s.txns[i].phase == UpdateFirst || s.txns[i].phase == UpdateSecond)
    ensures s.txns[i].work.Order? && TxnOk(s, i)
    ensures var t := s.txns[i];
            && t.read.Keys == Touched(t.work.order)
            && AL.Admissible(t.read, t.work.order)
            && forall slot | slot in t.read :: slot in s.db.balances && s.db.balances[slot] == t.read[slot]
  {
    assert TxnOk(s, i);
    TouchedRead(s.db, s.txns[i]);
  }

  lemma FirstSucceeds(s: State, i: nat)
    requires Inv(s) && Runs(s, i) && s.txns[i].phase == UpdateFirst
    ensures var s' := Statement(s, i).value;
            && !s'.txns[i].phase.Finished? && TxnOk(s', i)
            && s' == s.(txns := s.txns[i := s'.txns[i]]) && s'.txns[i].read == s.txns[i].read
  {
    LockedRows(s, i);
  }

  lemma SecondSucceeds(s: State, i: nat)
    requires Inv(s) && Runs(s, i) && s.txns[i].phase == UpdateSecond
    ensures var s' := Statement(s, i).value;
            && !s'.txns[i].phase.Finished? && TxnOk(s', i)
            && s' == s.(txns := s.txns[i := s'.txns[i]]) && s'.txns[i].read == s.txns[i].read
  {
    LockedRows(s, i);
  }

  /** The locked rows are the rows the order touches. */
  lemma TouchedRead(db: A.Db, t: Txn)
    requires WorkOk(db, t.work) && t.work.Order?
    requires t.read.Keys == Elements(LockList(db, t.work)) && AL.Admissible(t.read, t.work.order)
    ensures t.read.Keys == Touched(t.work.order)
  {
    var p := t.work.order;
    if p.DepositOrder? {
      ExistingOne(db, A.Slot(p.accountId, p.currency));
    } else if p.fromAccountId < p.toAccountId {
      ExistingTwo(db, A.Slot(p.fromAccountId, p.currency), A.Slot(p.toAccountId, p.currency));
    } else {
      ExistingTwo(db, A.Slot(p.toAccountId, p.currency), A.Slot(p.fromAccountId, p.currency));
    }
  }

  function Touched(p: Payload): set<Slot> {
    match p
    case DepositOrder(_, _, a, c, _) => {A.Slot(a, c)}
    case TransferOrder(_, _, _, f, t, c, _) => {A.Slot(f, c), A.Slot(t, c)}
    case _ => {}
  }

  lemma ExistingOne(db: A.Db, a: Slot)
    ensures Existing(db, [a]) == if a in db.balances then [a] else []
  {
    assert [a][1..] == [];
  }

  lemma ExistingTwo(db: A.Db, a: Slot, b: Slot)
    ensures Existing(db, [a, b]) == (if a in db.balances then [a] else []) + (if b in db.balances then [b] else [])
  {
    assert [a, b][1..] == [b];
    ExistingOne(db, b);
  }

  lemma OrderTxn(s: State, i: nat)
    requires Inv(s) && Runs(s, i) && s.txns[i].work.Order?
    requires s.txns[i].phase in {CheckFirst, CheckLocked, InsertKey}
    requires !Statement(s, i).value.txns[i].phase.Finished?
    ensures TxnOk(Statement(s, i).value, i)
  {
    match s.txns[i].phase {
      case CheckFirst => CheckFirstTxn(s, i);
      case CheckLocked => CheckLockedTxn(s, i);
      case InsertKey => InsertKeyTxn(s, i);
    }
  }

  lemma CheckFirstTxn(s: State, i: nat)
    requires Inv(s) && Runs(s, i) && s.txns[i].work.Order? && s.txns[i].phase == CheckFirst
    requires !Statement(s, i).value.txns[i].phase.Finished?
    ensures TxnOk(Statement(s, i).value, i)
  {
    assert TxnOk(s, i);
    var all := LockList(s.db, s.txns[i].work);
    assert all[..0] == [] && all[0..] == all;
  }

  lemma CheckLockedTxn(s: State, i: nat)
    requires Inv(s) && Runs(s, i) && s.txns[i].work.Order? && s.txns[i].phase == CheckLocked
    requires !Statement(s, i).value.txns[i].phase.Finished?
    ensures TxnOk(Statement(s, i).value, i)
  {
    assert TxnOk(s, i);
  }

  lemma InsertKeyTxn(s: State, i: nat)
    requires Inv(s) && Runs(s, i) && s.txns[i].work.Order? && s.txns[i].phase == InsertKey
    requires !Statement(s, i).value.txns[i].phase.Finished?
    ensures TxnOk(Statement(s, i).value, i)
  {
    assert TxnOk(s, i);
  }

  lemma TestTxn(s: State, i: nat)
    requires Inv(s) && Runs(s, i) && s.txns[i].work.Order? && s.txns[i].phase == Test
    requires !Statement(s, i).value.txns[i].phase.Finished?
    ensures TxnOk(Statement(s, i).value, i)
  {
    assert TxnOk(s, i);
    PassesIff(s.db, s.txns[i]);
  }

  /** Two rows were returned, so they are the rows of two accounts: the tests establish admissibility. */
  lemma PassesIff(db: A.Db, t: Txn)
    requires WorkOk(db, t.work) && t.work.Order? && t.work.order.TransferOrder?
    requires t.read.Keys == Elements(LockList(db, t.work))
    ensures Passes(t.read, t.work.order) <==> AL.Admissible(t.read, t.work.order)
  {
    var p := t.work.order;
    var sender, receiver := AL.Home(p), A.Slot(p.toAccountId, p.currency);
    ExistingOne(db, sender);
    ExistingTwo(db, sender, receiver);
    ExistingTwo(db, receiver, sender);
    assert t.read.Keys == {sender, receiver} * t.read.Keys;
    FoundTwo(sender, receiver, t.read.Keys);
  }

  lemma OrderKeeps(s: State, i: nat)
    requires Inv(s) && Runs(s, i) && s.txns[i].work.Order?
    requires s.txns[i].phase != Commit && !s.txns[i].phase.Lock?
    ensures Inv(Statement(s, i).value)
  {
    if s.txns[i].phase == UpdateFirst || s.txns[i].phase == UpdateSecond {
      UpdatesSucceed(s, i);
      LocalKeeps(s, Statement(s, i).value, i);
    } else if Statement(s, i).value.txns[i].phase.Finished? {
      GivesUp(s, i);
    } else {
      if s.txns[i].phase == Test { TestTxn(s, i); } else { OrderTxn(s, i); }
      GoesOn(s, i);
    }
  }

  lemma GivesUp(s: State, i: nat)
    requires Inv(s) && Runs(s, i) && s.txns[i].work.Order?
    requires s.txns[i].phase in {CheckFirst, CheckLocked, Test, InsertKey}
    requires Statement(s, i).value.txns[i].phase.Finished?
    ensures Inv(Statement(s, i).value)
  {
    FinishKeeps(s, i, false);
  }

  lemma GoesOn(s: State, i: nat)
    requires Inv(s) && Runs(s, i) && s.txns[i].work.Order?
    requires s.txns[i].phase in {CheckFirst, CheckLocked, Test, InsertKey}
    requires !Statement(s, i).value.txns[i].phase.Finished? && TxnOk(Statement(s, i).value, i)
    ensures Inv(Statement(s, i).value)
  {
    LocalKeeps(s, Statement(s, i).value, i);
  }

  // ---- Commits ----

  function ApplyEntry(db: A.Db, e: Entry): A.Db {
    match e
    case Applied(key, p, newId) =>
      if p.IsOrder() && A.Execute(db, key, p, newId).Success? then A.Execute(db, key, p, newId).value else db
    case ResetDone => A.ResetAllBalances(db)
    case BlockDone(slot, b) => A.SetBlocked(db, slot, b)
  }

  /** At the commit the atomic transaction would succeed too, for the first time, with the same result. */
  lemma CommitRefines(s: State, i: nat)
    requires Inv(s) && Runs(s, i) && s.txns[i].phase == Commit && s.txns[i].work.Order?
    requires s.txns[i].work.newId !in s.db.outbox
    ensures var t := s.txns[i];
            var s' := Statement(s, i).value;
            && t.work.key !in s.db.processed
            && A.Execute(s.db, t.work.key, t.work.order, t.work.newId) == Success(s'.db)
            && s'.log == s.log + [Applied(t.work.key, t.work.order, t.work.newId)]
  {
    var t := s.txns[i];
    var p := t.work.order;
    assert TxnOk(s, i);
    forall slot | slot in t.read ensures slot in s.db.balances && s.db.balances[slot] == t.read[slot] {
      ReadersHold(s, i, slot);
    }
    assert AL.Admissible(s.db.balances, p);
    AL.ExecuteShape(s.db, t.work.key, p, t.work.newId);
    WritesMove(s.db, t);
  }

  lemma WritesMove(db: A.Db, t: Txn)
    requires WorkOk(db, t.work) && t.work.Order? && t.read.Keys == Elements(LockList(db, t.work))
    requires AL.Admissible(t.read, t.work.order) && Written(t, t.read.Keys)
    requires forall slot | slot in t.read :: slot in db.balances && db.balances[slot] == t.read[slot]
    ensures db.balances + t.writes == AL.Moved(db.balances, t.work.order)
  {
    TouchedRead(db, t);
    var after, moved := db.balances + t.writes, AL.Moved(db.balances, t.work.order);
    forall slot | slot in db.balances ensures after[slot] == moved[slot] {
      if slot !in t.writes {
        assert AL.Effect(t.work.order, slot) == 0;
      }
    }
  }

  lemma CommitKeeps(s: State, i: nat)
    requires Inv(s) && Runs(s, i) && s.txns[i].phase == Commit && s.txns[i].work.Order?
    ensures Inv(Statement(s, i).value)
  {
    var t := s.txns[i];
    if t.work.newId in s.db.outbox {
      FinishKeeps(s, i, false);
    } else {
      CommitWrites(s, i);
      Published(s, Statement(s, i).value, i);
    }
  }

  lemma CommitWrites(s: State, i: nat)
    requires Inv(s) && Runs(s, i) && s.txns[i].phase == Commit && s.txns[i].work.Order?
    requires s.txns[i].work.newId !in s.db.outbox
    ensures var t := s.txns[i];
            var db' := Statement(s, i).value.db;
            && db'.balances.Keys == s.db.balances.Keys && AL.NonNegative(db'.balances)
            && (forall slot | slot in s.db.balances && slot !in t.read ::
                  db'.balances[slot] == s.db.balances[slot])
            && db'.processed.Keys == s.db.processed.Keys + {t.work.key}
  {
    CommitRefines(s, i);
    CommitAmounts(s, i);
    CommitTouches(s, i);
  }

  lemma CommitAmounts(s: State, i: nat)
    requires Inv(s) && Runs(s, i) && s.txns[i].phase == Commit && s.txns[i].work.Order?
    requires s.txns[i].work.newId !in s.db.outbox
    ensures var t := s.txns[i];
            var db' := Statement(s, i).value.db;
            && AL.NonNegative(db'.balances) && db'.processed.Keys == s.db.processed.Keys + {t.work.key}
  {
    var t := s.txns[i];
    CommitRefines(s, i);
    assert TxnOk(s, i);
    AL.ExecuteShape(s.db, t.work.key, t.work.order, t.work.newId);
    AL.MovedNonNegative(s.db.balances, t.work.order);
  }

  /** Only rows the transaction has locked and read are written. */
  lemma CommitTouches(s: State, i: nat)
    requires Inv(s) && Runs(s, i) && s.txns[i].phase == Commit && s.txns[i].work.Order?
    requires s.txns[i].work.newId !in s.db.outbox
    ensures var b, b' := s.db.balances, Statement(s, i).value.db.balances;
            && b'.Keys == b.Keys && forall slot | slot in b && slot !in s.txns[i].read :: b'[slot] == b[slot]
  {
    assert TxnOk(s, i);
    forall slot | slot in s.txns[i].read ensures slot in s.db.balances {
      ReadersHold(s, i, slot);
    }
  }

  /** A commit changes only rows locked by the committer. */
  lemma Published(s: State, s': State, i: nat)
    requires Inv(s) && i < |s.txns|
    requires s'.txns == Finish(s, i, true).txns && s'.locks == Finish(s, i, true).locks
    requires s'.db.balances.Keys == s.db.balances.Keys && AL.NonNegative(s'.db.balances)
    requires forall slot | slot in s.db.balances && slot !in s.txns[i].read ::
               s'.db.balances[slot] == s.db.balances[slot]
    requires s.txns[i].work.Order? ==>
               s.txns[i].phase == Commit && s'.db.processed.Keys == s.db.processed.Keys + {s.txns[i].work.key}
    requires s.txns[i].work.Reset? ==> s'.db.processed == s.db.processed
    ensures Inv(s')
  {
    forall j | 0 <= j < |s'.txns| ensures TxnOk(s', j) {
      if j != i { PublishedOther(s, s', i, j); } else { PublishedOwn(s, s', i); }
    }
  }

  lemma PublishedOther(s: State, s': State, i: nat, j: nat)
    requires Inv(s) && i < |s.txns| && j < |s.txns| && j != i
    requires s'.txns == Finish(s, i, true).txns && s'.locks == Finish(s, i, true).locks
    requires s'.db.balances.Keys == s.db.balances.Keys
    requires forall slot | slot in s.db.balances && slot !in s.txns[i].read ::
               s'.db.balances[slot] == s.db.balances[slot]
    requires s.txns[i].work.Order? ==>
               s.txns[i].phase == Commit && s'.db.processed.Keys == s.db.processed.Keys + {s.txns[i].work.key}
    requires s.txns[i].work.Reset? ==> s'.db.processed == s.db.processed
    ensures TxnOk(s', j)
  {
    assert TxnOk(s, j);
    forall slot | slot in s.txns[j].read
      ensures slot in s'.locks && s'.locks[slot] == j && s'.db.balances[slot] == s.db.balances[slot]
    {
      ReadersHold(s, j, slot);
      if slot in s.txns[i].read {
        ReadersHold(s, i, slot);
      }
    }
    Undisturbed(s, s', j);
  }

  lemma PublishedOwn(s: State, s': State, i: nat)
    requires Inv(s) && i < |s.txns| && s'.txns == Finish(s, i, true).txns
    requires s'.db.balances.Keys == s.db.balances.Keys
    ensures TxnOk(s', i)
  {
    assert TxnOk(s, i);
    SameLockList(s.db, s'.db, s.txns[i].work);
  }

  lemma ResetRefines(s: State, i: nat)
    requires Inv(s) && Runs(s, i) && s.txns[i].work.Reset? && s.txns[i].phase == Commit
    ensures var s' := Statement(s, i).value;
            s'.db == A.ResetAllBalances(s.db) && s'.log == s.log + [ResetDone]
    ensures Inv(Statement(s, i).value)
  {
    ResetZeroes(s, i);
    Published(s, Statement(s, i).value, i);
  }

  lemma ResetReads(s: State, i: nat)
    requires Inv(s) && Runs(s, i) && s.txns[i].work.Reset? && s.txns[i].phase == Commit
    ensures s.txns[i].read.Keys == s.db.balances.Keys
  {
    assert TxnOk(s, i);
  }

  lemma ResetZeroes(s: State, i: nat)
    requires Inv(s) && Runs(s, i) && s.txns[i].work.Reset? && s.txns[i].phase == Commit
    ensures s.txns[i].read.Keys == s.db.balances.Keys
    ensures Statement(s, i).value.db == A.ResetAllBalances(s.db)
  {
    var t := s.txns[i];
    ResetReads(s, i);
    forall slot | slot in s.db.balances ensures s.db.balances[slot] == t.read[slot] {
      ReadersHold(s, i, slot);
    }
    assert Statement(s, i).value.db.balances == A.ResetAllBalances(s.db).balances;
  }

  // ---- Every action ----

  lemma BeginKeeps(s: State, w: Work)
    requires Inv(s)
    ensures Inv(Next(s, Begin(w)))
  {
    var s' := Next(s, Begin(w));
    if s' != s {
      var all := LockList(s.db, w);
      assert all[..0] == [] && all[0..] == all;
      forall j | 0 <= j < |s'.txns| ensures TxnOk(s', j) {
        if j < |s.txns| {
          assert TxnOk(s, j);
          Undisturbed(s, s', j);
        }
      }
    }
  }

  lemma BlockKeeps(s: State, slot: Slot, b: bool)
    requires Inv(s)
    ensures Inv(Next(s, Block(slot, b)))
  {
    var s' := Next(s, Block(slot, b));
    if s' != s {
      forall j | 0 <= j < |s'.txns| ensures TxnOk(s', j) {
        assert TxnOk(s, j);
        forall q | q in s.txns[j].read ensures q != slot && q in s.locks && s.locks[q] == j {
          ReadersHold(s, j, q);
        }
        Undisturbed(s, s', j);
      }
    }
  }

  lemma CommitLogs(s: State, i: nat)
    requires Inv(s) && Runs(s, i) && s.txns[i].phase == Commit && s.txns[i].work.Order?
    ensures var s' := Statement(s, i).value;
            || (s'.db == s.db && s'.log == s.log)
            || exists e :: s'.log == s.log + [e] && s'.db == ApplyEntry(s.db, e)
                           && (e.Applied? ==> e.key !in s.db.processed && e.key in s'.db.processed)
  {
    var t := s.txns[i];
    if t.work.newId !in s.db.outbox {
      CommitRefines(s, i);
      assert Statement(s, i).value.db == ApplyEntry(s.db, Applied(t.work.key, t.work.order, t.work.newId));
    }
  }

  lemma RunKeeps(s: State, i: nat)
    requires Inv(s) && Runs(s, i)
    ensures var s' := Statement(s, i).value;
            && Inv(s')
            && ((s'.db == s.db && s'.log == s.log)
                || exists e :: s'.log == s.log + [e] && s'.db == ApplyEntry(s.db, e)
                               && (e.Applied? ==> e.key !in s.db.processed && e.key in s'.db.processed))
  {
    var t := s.txns[i];
    assert TxnOk(s, i);
    if t.phase.Lock? {
      if t.phase.todo == [] {
        LockedKeeps(s, i);
      } else {
        LockKeeps(s, i);
      }
    } else if t.work.Reset? {
      ResetRefines(s, i);
    } else if t.phase == Commit {
      CommitKeeps(s, i);
      CommitLogs(s, i);
    } else {
      OrderKeeps(s, i);
    }
  }
}
