/** What the balance transactions do to the money, said without their steps. */
module AccountsLaws {
  import opened Common
  import opened Accounts

  /** The change an order asks for in one balance. */
  function Effect(p: Payload, slot: Slot): int {
    match p
    case DepositOrder(_, _, a, c, n) => if slot == Slot(a, c) then n else 0
    case TransferOrder(_, _, _, f, t, c, n) =>
      (if slot == Slot(t, c) then n else 0) - (if slot == Slot(f, c) then n else 0)
    case _ => 0
  }

  predicate NonNegative(balances: map<Slot, Balance>) {
    forall slot | slot in balances :: balances[slot].amount >= 0
  }

  /** The balances an order touches exist; a transfer needs two, unblocked, and the money. */
  predicate Admissible(balances: map<Slot, Balance>, p: Payload) {
    match p
    case DepositOrder(_, _, a, c, _) => Slot(a, c) in balances
    case TransferOrder(_, _, _, f, t, c, n) =>
      && Slot(f, c) in balances && Slot(t, c) in balances && f != t
      && !balances[Slot(f, c)].blocked && !balances[Slot(t, c)].blocked
      && balances[Slot(f, c)].amount >= n
    case _ => false
  }

  function Moved(balances: map<Slot, Balance>, p: Payload): map<Slot, Balance> {
    map slot | slot in balances :: balances[slot].(amount := balances[slot].amount + Effect(p, slot))
  }

  /** The balance an order's rows are filed under: the receiver of a deposit, the sender of a transfer. */
  function Home(p: Payload): Slot
    requires p.IsOrder()
  {
    if p.DepositOrder? then Slot(p.accountId, p.currency) else Slot(p.fromAccountId, p.currency)
  }

  lemma ExecuteRows(db: Db, key: Key, p: Payload, newId: Id)
    requires p.IsOrder()
    ensures var r := Execute(db, key, p, newId);
            r.Success? ==>
              if key in db.processed then r.value == db
              else
                && newId !in db.outbox
                && r.value.balances.Keys == db.balances.Keys
                && r.value.processed == db.processed[key := p.OrderTopic()]
                && r.value.outbox == db.outbox[newId := OutboxEvent(Home(p), p.SuccessTopic(), p.Reply(), false)]
  {
    if p.TransferOrder? {
      FoundTwo(Slot(p.fromAccountId, p.currency), Slot(p.toAccountId, p.currency), db.balances.Keys);
    }
  }

  /**
   An order is applied exactly when it is new and admissible and the id of the reply is free; it then
   moves the money, remembers the key and writes the reply. A repeated key changes nothing.
   */
  lemma ExecuteShape(db: Db, key: Key, p: Payload, newId: Id)
    requires NonNegative(db.balances) && p.IsOrder() && p.amount > 0
    ensures var r := Execute(db, key, p, newId);
            if key in db.processed then
              r == Success(db) || (r == Failure(NotFound) && p.DepositOrder? && !Admissible(db.balances, p))
            else
              && (r.Success? <==> Admissible(db.balances, p) && newId !in db.outbox)
              && (r.Success? ==>
                    && r.value.balances == Moved(db.balances, p)
                    && r.value.processed == db.processed[key := p.OrderTopic()]
                    && r.value.outbox == db.outbox[newId := OutboxEvent(Home(p), p.SuccessTopic(), p.Reply(), false)])
  {
    if p.TransferOrder? {
      FoundTwo(Slot(p.fromAccountId, p.currency), Slot(p.toAccountId, p.currency), db.balances.Keys);
    }
    var r := Execute(db, key, p, newId);
    if key !in db.processed && r.Success? {
      assert r.value.balances == Moved(db.balances, p);
    }
  }

  /** What a new order fails for: the first test that does not hold. */
  lemma ExecuteErrors(db: Db, key: Key, p: Payload, newId: Id)
    requires NonNegative(db.balances) && p.IsOrder() && p.amount > 0 && key !in db.processed
    requires Execute(db, key, p, newId).Failure?
    ensures Execute(db, key, p, newId).error
         == match p
            case DepositOrder(_, _, a, c, _) => if Slot(a, c) !in db.balances then NotFound else UniqueViolation
            case TransferOrder(_, _, _, f, t, c, n) =>
              if f == t || Slot(f, c) !in db.balances || Slot(t, c) !in db.balances then NotFound
              else if db.balances[Slot(f, c)].blocked || db.balances[Slot(t, c)].blocked then Blocked
              else if db.balances[Slot(f, c)].amount < n then InsufficientFunds
              else UniqueViolation
  {
    if p.TransferOrder? {
      FoundTwo(Slot(p.fromAccountId, p.currency), Slot(p.toAccountId, p.currency), db.balances.Keys);
    }
  }

  // ---- The handlers ----

  /** The tables with the order applied. */
  function AppliedTo(db: Db, key: Key, p: Payload, newId: Id): Db
    requires p.IsOrder()
  {
    Db(Moved(db.balances, p), db.outbox[newId := OutboxEvent(Home(p), p.SuccessTopic(), p.Reply(), false)],
       db.processed[key := p.OrderTopic()])
  }

  /** The tables with a failure report of the order. */
  function ReportedIn(db: Db, p: Payload, reportId: Id): Db
    requires p.IsOrder()
  {
    db.(outbox := db.outbox[reportId := OutboxEvent(Home(p), p.FailedTopic(), p.Reply(), false)])
  }

  /** The handler reaches its transaction: the header is there and nothing fails before the commit. */
  predicate Reaches(header: Option<Key>, fault: Fault) {
    header.Some? && header.value != "" && fault != BeforeCommit
  }

  /** The transaction of the try block applies the order. */
  predicate Applies(db: Db, header: Option<Key>, p: Payload, newId: Id, fault: Fault)
    requires p.IsOrder()
  {
    && Reaches(header, fault) && header.value !in db.processed
    && Admissible(db.balances, p) && newId !in db.outbox
  }

  /** It finds the key processed and ends without a change; a deposit needs its balance row even for that. */
  predicate Repeats(db: Db, header: Option<Key>, p: Payload, fault: Fault)
    requires p.IsOrder()
  {
    Reaches(header, fault) && header.value in db.processed && (p.TransferOrder? || Home(p) in db.balances)
  }

  /**
   A whole handler, told of the tables. The order is applied when it is new and admissible; and a failure is reported
   unless the try block ended well, if the report finds its balance row and a free id, and is not cut off.
   */
  lemma HandledIs(db: Db, header: Option<Key>, p: Payload, newId: Id, fault: Fault, reportId: Id, reportFails: bool)
    requires NonNegative(db.balances) && p.IsOrder() && p.amount > 0
    ensures var db1 := Tried(db, header, p, newId, fault);
            Handled(db, header, p, newId, fault, reportId, reportFails)
            == if !EndsWell(db, header, p, newId, fault) && !reportFails
                  && Home(p) in db.balances && reportId !in db1.outbox
               then ReportedIn(db1, p, reportId) else db1
  {
    AttemptIs(db, header, p, newId, fault);
    var db1 := Tried(db, header, p, newId, fault);
    assert Home(p) in db1.balances <==> Home(p) in db.balances;
  }

  /** The tables after the try block. */
  function Tried(db: Db, header: Option<Key>, p: Payload, newId: Id, fault: Fault): Db
    requires p.IsOrder()
  {
    if Applies(db, header, p, newId, fault) then AppliedTo(db, header.value, p, newId) else db
  }

  predicate EndsWell(db: Db, header: Option<Key>, p: Payload, newId: Id, fault: Fault)
    requires p.IsOrder()
  {
    (Applies(db, header, p, newId, fault) || Repeats(db, header, p, fault)) && fault == NoFault
  }

  lemma AttemptIs(db: Db, header: Option<Key>, p: Payload, newId: Id, fault: Fault)
    requires NonNegative(db.balances) && p.IsOrder() && p.amount > 0
    ensures Attempt(db, header, p, newId, fault)
         == (Tried(db, header, p, newId, fault), !EndsWell(db, header, p, newId, fault))
  {
    if Reaches(header, fault) {
      TriedIs(db, header.value, p, newId);
    }
  }

  lemma TriedIs(db: Db, key: Key, p: Payload, newId: Id)
    requires NonNegative(db.balances) && p.IsOrder() && p.amount > 0
    ensures var r := Execute(db, key, p, newId);
            if key in db.processed then
              (r == Success(db) <==> p.TransferOrder? || Home(p) in db.balances) && (r.Success? ==> r == Success(db))
            else
              && (r.Success? <==> Admissible(db.balances, p) && newId !in db.outbox)
              && (r.Success? ==> r.value == AppliedTo(db, key, p, newId))
    ensures Moved(db.balances, p).Keys == db.balances.Keys
  {
    ExecuteShape(db, key, p, newId);
  }

  // ---- The other changes of the balance table ----

  /** A new account gets one empty, unblocked balance in each currency; an account that has one is left alone. */
  lemma CreateAccountDoes(db: Db, accountId: Id)
    ensures var db' := CreateAccount(db, accountId);
            && db'.outbox == db.outbox && db'.processed == db.processed
            && (forall slot | slot in db.balances :: slot in db'.balances && db'.balances[slot] == db.balances[slot])
            && (forall slot | slot !in db.balances ::
                  slot in db'.balances <==>
                    && slot.accountId == accountId && slot.currency in {"RUB", "USD", "USDT"}
                    && forall q | q in db.balances :: q.accountId != accountId)
            && (forall slot | slot in db'.balances && slot !in db.balances :: db'.balances[slot] == Balance(0, false))
  {
  }

  /** Blocking changes one flag, a reset changes the amounts, and neither anything else. */
  lemma SetBlockedDoes(db: Db, slot: Slot, blocked: bool)
    ensures var db' := SetBlocked(db, slot, blocked);
            && db'.outbox == db.outbox && db'.processed == db.processed && db'.balances.Keys == db.balances.Keys
            && forall q | q in db.balances ::
                 db'.balances[q]
                 == Balance(db.balances[q].amount, if q == slot then blocked else db.balances[q].blocked)
  {
  }

  lemma ResetDoes(db: Db)
    ensures var db' := ResetAllBalances(db);
            && db'.outbox == db.outbox && db'.processed == db.processed && db'.balances.Keys == db.balances.Keys
            && forall q | q in db.balances :: db'.balances[q] == Balance(0, db.balances[q].blocked)
  {
  }

  lemma MovedNonNegative(balances: map<Slot, Balance>, p: Payload)
    requires NonNegative(balances) && p.IsOrder() && p.amount > 0 && Admissible(balances, p)
    ensures NonNegative(Moved(balances, p))
  {
  }

  /**
   A transfer to the sender itself finds one row only. Whatever the header, and whether its key was processed or
   not, its handler commits nothing; and it throws unless the key was processed before.
   */
  lemma SelfTransferRollsBack(db: Db, header: Option<Key>, p: Payload, newId: Id, fault: Fault)
    requires p.TransferOrder? && p.fromAccountId == p.toAccountId
    ensures Attempt(db, header, p, newId, fault).0 == db
    ensures header.Some? && header.value != "" && header.value !in db.processed ==>
              Attempt(db, header, p, newId, fault).1
  {
    var sender, receiver := Slot(p.fromAccountId, p.currency), Slot(p.toAccountId, p.currency);
    FoundTwo(sender, receiver, db.balances.Keys);
  }

  // ---- Totals over all balances of a currency ----

  ghost function Sum(balances: map<Slot, Balance>, slots: set<Slot>): int
    requires slots <= balances.Keys
  {
    if slots == {} then 0
    else
      var slot :| slot in slots;
      balances[slot].amount + Sum(balances, slots - {slot})
  }

  lemma {:induction false} SumSplit(balances: map<Slot, Balance>, slots: set<Slot>, slot: Slot)
    requires slots <= balances.Keys && slot in slots
    ensures Sum(balances, slots) == balances[slot].amount + Sum(balances, slots - {slot})
  {
    var first :| first in slots && Sum(balances, slots) == balances[first].amount + Sum(balances, slots - {first});
    if first != slot {
      SumSplit(balances, slots - {first}, slot);
      SumSplit(balances, slots - {slot}, first);
      assert slots - {first} - {slot} == slots - {slot} - {first};
    }
  }

  lemma {:induction false} SumSame(b1: map<Slot, Balance>, b2: map<Slot, Balance>, slots: set<Slot>)
    requires slots <= b1.Keys && slots <= b2.Keys
    requires forall slot | slot in slots :: b1[slot].amount == b2[slot].amount
    ensures Sum(b1, slots) == Sum(b2, slots)
  {
    if slots != {} {
      var slot :| slot in slots;
      SumSame(b1, b2, slots - {slot});
      SumSplit(b1, slots, slot);
      SumSplit(b2, slots, slot);
    }
  }

  lemma {:induction false} SumZero(balances: map<Slot, Balance>, slots: set<Slot>)
    requires slots <= balances.Keys && forall slot | slot in slots :: balances[slot].amount == 0
    ensures Sum(balances, slots) == 0
  {
    if slots != {} {
      var slot :| slot in slots;
      SumZero(balances, slots - {slot});
      SumSplit(balances, slots, slot);
    }
  }

  function SlotsOf(balances: map<Slot, Balance>, currency: Currency): set<Slot> {
    set slot | slot in balances && slot.currency == currency
  }

  /** All the money there is in a currency. */
  ghost function Total(balances: map<Slot, Balance>, currency: Currency): int {
    Sum(balances, SlotsOf(balances, currency))
  }

  /** A deposit adds its amount to one total; a transfer leaves every total alone. */
  lemma MovedTotal(balances: map<Slot, Balance>, p: Payload, currency: Currency)
    requires p.IsOrder() && Admissible(balances, p)
    ensures Total(Moved(balances, p), currency)
            == Total(balances, currency) + if p.DepositOrder? && p.currency == currency then p.amount else 0
  {
    var moved := Moved(balances, p);
    var slots := SlotsOf(balances, currency);
    assert SlotsOf(moved, currency) == slots;
    if p.currency != currency {
      SumSame(balances, moved, slots);
    } else if p.DepositOrder? {
      var slot := Home(p);
      SumSplit(balances, slots, slot);
      SumSplit(moved, slots, slot);
      SumSame(balances, moved, slots - {slot});
    } else {
      var sender, receiver := Slot(p.fromAccountId, currency), Slot(p.toAccountId, currency);
      SumSplit(balances, slots, sender);
      SumSplit(moved, slots, sender);
      SumSplit(balances, slots - {sender}, receiver);
      SumSplit(moved, slots - {sender}, receiver);
      SumSame(balances, moved, slots - {sender} - {receiver});
    }
  }

  /** The same for a whole handler: the report of a failure touches no balance. */
  lemma HandledTotals(db: Db, header: Option<Key>, p: Payload, newId: Id, fault: Fault, reportId: Id, reportFails: bool)
    requires NonNegative(db.balances) && p.IsOrder() && p.amount > 0
    ensures var db' := Handled(db, header, p, newId, fault, reportId, reportFails);
            && NonNegative(db'.balances)
            && (p.TransferOrder? ==> forall c :: Total(db'.balances, c) == Total(db.balances, c))
  {
    var (db1, threw) := Attempt(db, header, p, newId, fault);
    if header.Some? {
      ExecuteTotals(db, header.value, p, newId);
    }
    assert Handled(db, header, p, newId, fault, reportId, reportFails).balances == db1.balances;
  }

  /** An order makes no balance negative, and only a deposit applied for the first time changes a total. */
  lemma ExecuteTotals(db: Db, key: Key, p: Payload, newId: Id)
    requires NonNegative(db.balances) && p.IsOrder() && p.amount > 0
    ensures var r := Execute(db, key, p, newId);
            r.Success? ==>
              && NonNegative(r.value.balances)
              && forall c ::
                   Total(r.value.balances, c)
                   == Total(db.balances, c)
                      + if key !in db.processed && p.DepositOrder? && c == p.currency then p.amount else 0
  {
    ExecuteShape(db, key, p, newId);
    if key !in db.processed && Execute(db, key, p, newId).Success? {
      MovedNonNegative(db.balances, p);
      forall c ensures Total(Moved(db.balances, p), c)
                       == Total(db.balances, c) + if p.DepositOrder? && c == p.currency then p.amount else 0
      {
        MovedTotal(db.balances, p, c);
      }
    }
  }
}
