/**
 The balance transactions statement by statement, under row locks and read-committed isolation: any
 number of them interleave, each reading committed rows, writing privately and publishing at commit.
 The set of balance rows is fixed.
 */
module Locks {
  import opened Common
  import A = Accounts
  import AL = AccountsLaws

  type Slot = A.Slot

  type Rows = map<Slot, A.Balance>

  datatype Work =
    | Order(key: Key, order: Payload, newId: Id)
    | Reset(rows: seq<Slot>) // in whatever order the database visits them

  /** The statement a transaction is about to run. */
  datatype Phase =
    | CheckFirst // a transfer looks for its key before it locks
    | Lock(todo: seq<Slot>) // SELECT ... FOR UPDATE, or UPDATE, row by row
    | CheckLocked // a deposit looks for its key under its lock
    | Test // a transfer tests the rows its SELECT returned
    | UpdateFirst // the deposit, or the sender of the transfer
    | UpdateSecond // the receiver of the transfer
    | InsertKey // waits while another transaction has inserted the same key
    | Commit
    | Finished(applied: bool)

  datatype Txn = Txn(work: Work, phase: Phase, read: Rows, writes: Rows)

  datatype State = State(db: A.Db, locks: map<Slot, nat>, txns: seq<Txn>, log: seq<Entry>)

  /** What took effect, in commit order. */
  datatype Entry = Applied(key: Key, order: Payload, newId: Id) | ResetDone | BlockDone(slot: Slot, blocked: bool)

  datatype Action = Begin(work: Work) | Run(i: nat) | Abort(i: nat) | Block(slot: Slot, blocked: bool)

  predicate Distinct(rows: seq<Slot>) {
    forall i, j | 0 <= i < j < |rows| :: rows[i] != rows[j]
  }

  predicate WorkOk(db: A.Db, w: Work) {
    match w
    case Order(_, p, _) => p.IsOrder() && p.amount > 0
    case Reset(rows) => Distinct(rows) && (set slot | slot in rows) == db.balances.Keys
  }

  /**
   The rows a SELECT returns, and locks: `account_id IN (...) ORDER BY account_id` for a transfer, where a row is
   returned once even if both ids are its own. Rows that do not exist are not returned.
   */
  function LockList(db: A.Db, w: Work): seq<Slot>
    requires WorkOk(db, w)
  {
    match w
    case Reset(rows) => rows
    case Order(_, DepositOrder(_, _, a, c, _), _) => Existing(db, [A.Slot(a, c)])
    case Order(_, TransferOrder(_, _, _, f, t, c, _), _) =>
      if f == t then Existing(db, [A.Slot(f, c)])
      else if f < t then Existing(db, [A.Slot(f, c), A.Slot(t, c)])
      else Existing(db, [A.Slot(t, c), A.Slot(f, c)])
  }

  function Existing(db: A.Db, slots: seq<Slot>): seq<Slot> {
    if slots == [] then []
    else (if slots[0] in db.balances then [slots[0]] else []) + Existing(db, slots[1..])
  }

  function Start(db: A.Db, w: Work): Txn
    requires WorkOk(db, w)
  {
    Txn(w, if w.Order? && w.order.TransferOrder? then CheckFirst else Lock(LockList(db, w)), map[], map[])
  }

  function Release(locks: map<Slot, nat>, i: nat): map<Slot, nat> {
    map slot | slot in locks && locks[slot] != i :: locks[slot]
  }

  function Finish(s: State, i: nat, applied: bool): State
    requires i < |s.txns|
  {
    s.(locks := Release(s.locks, i),
       txns := s.txns[i := s.txns[i].(phase := Finished(applied), read := map[], writes := map[])])
  }

  function Goto(s: State, i: nat, phase: Phase): State
    requires i < |s.txns|
  {
    s.(txns := s.txns[i := s.txns[i].(phase := phase)])
  }

  /** The row after `UPDATE ... SET amount = amount + delta`, which reads the committed row itself. */
  function Increment(s: State, i: nat, slot: Slot, p: Payload, next: Phase): State
    requires i < |s.txns|
  {
    if slot !in s.db.balances || s.db.balances[slot].amount + AL.Effect(p, slot) < 0 then Finish(s, i, false)
    else
      var row := s.db.balances[slot].(amount := s.db.balances[slot].amount + AL.Effect(p, slot));
      s.(txns := s.txns[i := s.txns[i].(phase := next, writes := s.txns[i].writes[slot := row])])
  }

  /** What a transfer tests on the rows its SELECT returned. */
  predicate Passes(rows: Rows, p: Payload)
    requires p.TransferOrder?
  {
    var sender, receiver := A.Slot(p.fromAccountId, p.currency), A.Slot(p.toAccountId, p.currency);
    && |rows.Keys| >= 2
    && sender in rows && receiver in rows
    && !rows[sender].blocked && !rows[receiver].blocked
    && rows[sender].amount >= p.amount
  }

  predicate HasKey(t: Txn, key: Key) {
    t.work.Order? && t.work.key == key && t.phase == Commit
  }

  /** One statement of transaction `i`; None while it has to wait, or when it is over. */
  function Statement(s: State, i: nat): Option<State>
    requires i < |s.txns| && WorkOk(s.db, s.txns[i].work)
  {
    var t := s.txns[i];
    match t.phase
    case Finished(_) => None
    case Lock(todo) =>
      if todo != [] then
        var slot := todo[0];
        if slot in s.locks && s.locks[slot] != i then None
        else if slot !in s.db.balances then Some(Finish(s, i, false))
        else
          Some(s.(locks := s.locks[slot := i],
                  txns := s.txns[i := t.(phase := Lock(todo[1..]), read := t.read[slot := s.db.balances[slot]])]))
      else if t.work.Reset? then Some(Goto(s, i, Commit))
      else if t.work.order.TransferOrder? then Some(Goto(s, i, Test))
      else if AL.Home(t.work.order) !in t.read then Some(Finish(s, i, false))
      else Some(Goto(s, i, CheckLocked))
    case _ => if t.work.Order? then OrderStatement(s, i) else Some(CommitReset(s, i))
  }

  function CommitReset(s: State, i: nat): State
    requires i < |s.txns|
  {
    var zeros := map slot | slot in s.txns[i].read :: s.txns[i].read[slot].(amount := 0);
    Finish(s.(db := s.db.(balances := s.db.balances + zeros), log := s.log + [ResetDone]), i, true)
  }

  function OrderStatement(s: State, i: nat): Option<State>
    requires i < |s.txns| && WorkOk(s.db, s.txns[i].work) && s.txns[i].work.Order?
  {
    var t := s.txns[i];
    var key, p := t.work.key, t.work.order;
    match t.phase
    case CheckFirst =>
      Some(if key in s.db.processed then Finish(s, i, false) else Goto(s, i, Lock(LockList(s.db, t.work))))
    case CheckLocked => Some(if key in s.db.processed then Finish(s, i, false) else Goto(s, i, UpdateFirst))
    case Test => Some(if p.TransferOrder? && Passes(t.read, p) then Goto(s, i, UpdateFirst) else Finish(s, i, false))
    case UpdateFirst => Some(Increment(s, i, AL.Home(p), p, if p.TransferOrder? then UpdateSecond else InsertKey))
    case UpdateSecond =>
      Some(if p.TransferOrder? then Increment(s, i, A.Slot(p.toAccountId, p.currency), p, InsertKey)
            else Finish(s, i, false))
    case InsertKey =>
      if key in s.db.processed then Some(Finish(s, i, false))
      else if exists j | 0 <= j < |s.txns| :: HasKey(s.txns[j], key) then None
      else Some(Goto(s, i, Commit))
    case Commit =>
      if t.work.newId in s.db.outbox then Some(Finish(s, i, false))
      else
        var reply := A.OutboxEvent(AL.Home(p), p.SuccessTopic(), p.Reply(), false);
        Some(Finish(s.(db := A.Db(s.db.balances + t.writes, s.db.outbox[t.work.newId := reply],
                                  s.db.processed[key := p.OrderTopic()]),
                       log := s.log + [Applied(key, p, t.work.newId)]), i, true))
    case _ => None
  }

  predicate Runs(s: State, i: nat) {
    i < |s.txns| && WorkOk(s.db, s.txns[i].work) && Statement(s, i).Some?
  }

  function Next(s: State, a: Action): State {
    match a
    case Begin(w) => if WorkOk(s.db, w) then s.(txns := s.txns + [Start(s.db, w)]) else s
    case Run(i) => if Runs(s, i) then Statement(s, i).value else s
    case Abort(i) => if i < |s.txns| && !s.txns[i].phase.Finished? then Finish(s, i, false) else s
    case Block(slot, b) =>
      if slot in s.locks then s
      else s.(db := A.SetBlocked(s.db, slot, b), log := s.log + [BlockDone(slot, b)])
  }

  // ---- The invariant ----

  function Elements(slots: seq<Slot>): set<Slot> {
    set slot | slot in slots
  }

  /** `read` holds the locked rows as they are, and the lock belongs to the reader. */
  ghost predicate Reads(s: State, i: nat)
    requires i < |s.txns|
  {
    forall slot {:trigger slot in s.txns[i].read} | slot in s.txns[i].read ::
      && slot in s.locks && s.locks[slot] == i
      && slot in s.db.balances && s.db.balances[slot] == s.txns[i].read[slot]
  }

  ghost predicate Written(t: Txn, slots: set<Slot>)
    requires t.work.Order?
  {
    && t.writes.Keys == slots && slots <= t.read.Keys
    && forall slot | slot in slots ::
         t.writes[slot] == t.read[slot].(amount := t.read[slot].amount + AL.Effect(t.work.order, slot))
  }

  /** What an order has found out and written, once it holds its rows. */
  ghost predicate OrderOk(t: Txn)
    requires t.work.Order? && t.work.order.IsOrder()
  {
    var p := t.work.order;
    && (t.phase == CheckLocked ==> p.DepositOrder? && AL.Home(p) in t.read && t.writes == map[])
    && (t.phase == Test ==> p.TransferOrder? && t.writes == map[])
    && (t.phase == UpdateFirst ==> AL.Admissible(t.read, p) && Written(t, {}))
    && (t.phase == UpdateSecond ==> p.TransferOrder? && AL.Admissible(t.read, p) && Written(t, {AL.Home(p)}))
    && (t.phase == InsertKey || t.phase == Commit ==> AL.Admissible(t.read, p) && Written(t, t.read.Keys))
  }

  /** How far a transaction has got, and which rows it holds. */
  ghost predicate PhaseOk(db: A.Db, t: Txn)
    requires WorkOk(db, t.work)
  {
    var all := LockList(db, t.work);
    if t.phase.Finished? then t.read == map[]
    else if t.phase.Lock? then
      && |t.phase.todo| <= |all| && t.phase.todo == all[|all| - |t.phase.todo|..]
      && t.read.Keys == Elements(all[..|all| - |t.phase.todo|])
      && t.writes == map[]
    else if t.work.Reset? then t.phase == Commit && t.read.Keys == Elements(all)
    else if t.phase == CheckFirst then t.work.order.TransferOrder? && t.read == map[] && t.writes == map[]
    else t.read.Keys == Elements(all) && OrderOk(t)
  }

  ghost predicate TxnOk(s: State, i: nat)
    requires i < |s.txns|
  {
    && WorkOk(s.db, s.txns[i].work)
    && PhaseOk(s.db, s.txns[i])
    && Reads(s, i)
    && (s.txns[i].phase == Commit && s.txns[i].work.Order? ==> s.txns[i].work.key !in s.db.processed)
  }

  ghost predicate LocksOk(s: State) {
    forall slot | slot in s.locks :: s.locks[slot] < |s.txns| && slot in s.txns[s.locks[slot]].read
  }

  ghost predicate KeysOk(s: State) {
    forall i, j {:trigger s.txns[i], s.txns[j]} | 0 <= i < j < |s.txns|
        && s.txns[i].phase == Commit && s.txns[j].phase == Commit && s.txns[i].work.Order? && s.txns[j].work.Order? ::
      s.txns[i].work.key != s.txns[j].work.key
  }

  ghost predicate Inv(s: State) {
    && (forall i {:trigger TxnOk(s, i)} | 0 <= i < |s.txns| :: TxnOk(s, i))
    && LocksOk(s)
    && KeysOk(s)
    && AL.NonNegative(s.db.balances)
  }
}
