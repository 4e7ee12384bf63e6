// What the audit log and the outbox say about the tables: the log rebuilds
// them, and each transaction's events are exactly its life so far.
module LedgerLog {
  import opened Money
  import opened Ledger
  import opened LedgerLaws

  // ------------------------------------------------------------ audit replay

  /** The part of the database the log is to rebuild. */
  datatype Book = Book(accounts: map<Id, Account>, txns: seq<Txn>)

  function BookOf(db: Db): Book { Book(db.accounts, db.txns) }

  /** Reading one audit row: nothing but the row and the book so far is used. */
  function ReplayRow(book: Book, row: AuditRow): Book {
    match row.payload
    case AccountPayload(id, name) => book.(accounts := book.accounts[id := Account(row.tenant, name)])
    case TransferPayload(id, status, entries) => book.(txns := book.txns + [Txn(id, row.tenant, status, entries)])
    case StatusPayload(id, status) =>
      var f := Lookup(book.txns, row.tenant, id);
      if f.Missing? then book
      else book.(txns := book.txns[f.index := book.txns[f.index].(status := status)])
  }

  function Replay(book: Book, rows: seq<AuditRow>): Book {
    if rows == [] then book
    else ReplayRow(Replay(book, rows[..|rows| - 1]), rows[|rows| - 1])
  }

  /** The one row an accepted operation writes replays what it did. */
  lemma RowReplays(cfg: Config, db: Db, op: Op, newId: Id) returns (row: AuditRow)
    requires cfg.recordAudit && Check(db, op, newId).Ok?
    ensures var d := Apply(cfg, db, op, newId);
      d.audit == db.audit + [row] && ReplayRow(BookOf(db), row) == BookOf(d)
  {
    var d := Apply(cfg, db, op, newId);
    hide Decide, Validate;
    row := d.audit[|d.audit| - 1];
  }

  /** Folding the audit rows written since genesis, in commit order, over the
      genesis tables rebuilds every account, entry list and status. */
  lemma {:induction false} AuditRebuildsTheLedger(cfg: Config, genesis: Db, history: seq<Rec>)
    requires cfg.recordAudit
    ensures var db := Serial(cfg, genesis, history);
      genesis.audit <= db.audit && Replay(BookOf(genesis), db.audit[|genesis.audit|..]) == BookOf(db)
  {
    if history == [] {
      assert genesis.audit[|genesis.audit|..] == [];
    } else {
      var init, r := history[..|history| - 1], history[|history| - 1];
      AuditRebuildsTheLedger(cfg, genesis, init);
      var db, d := Serial(cfg, genesis, init), Serial(cfg, genesis, history);
      assert d == Apply(cfg, db, r.op, r.newId);
      if Check(db, r.op, r.newId).Ok? {
        var row := RowReplays(cfg, db, r.op, r.newId);
        hide Serial, Apply, Check, ReplayRow, BookOf;
        var before, after := db.audit[|genesis.audit|..], d.audit[|genesis.audit|..];
        assert after == before + [row] && after[..|after| - 1] == before;
      }
    }
  }

  // ---------------------------------------------------------- outbox events

  /** The outbox rows of one transaction, in commit order. */
  function Trail(events: seq<Event>, id: Id): seq<Event> {
    if events == [] then []
    else
      var e := events[|events| - 1];
      Trail(events[..|events| - 1], id) + if e.txn == id then [e] else []
  }

  /** The event that tells of a transaction reaching a status. */
  function EventOf(t: Txn, status: Status): Event {
    match status
    case Posted => Event(t.tenant, EventPosted, t.id, Posted)
    case Pending => Event(t.tenant, EventPending, t.id, Pending)
    case Failed => Event(t.tenant, EventFailed, t.id, Failed)
  }

  /** The events a transaction must have when it was first committed with
      status `first` and now has its present status. */
  function Story(t: Txn, first: Status): seq<Event> {
    [EventOf(t, first)] + Since(t, first)
  }

  function Since(t: Txn, first: Status): seq<Event> {
    if first.Pending? && !t.status.Pending? then [EventOf(t, t.status)] else []
  }

  /** Transactions of the genesis database: only what happened since then has
      events. Others: posted; pending; pending, posted; or pending, failed. */
  ghost predicate Told(genesis: Db, db: Db, events: seq<Event>, i: nat)
    requires i < |db.txns|
  {
    var t := db.txns[i];
    if i < |genesis.txns| then
      && t.id == genesis.txns[i].id && t.tenant == genesis.txns[i].tenant
      && (t.status != genesis.txns[i].status ==> genesis.txns[i].status.Pending?)
      && Trail(events, t.id) == Since(t, genesis.txns[i].status)
    else
      || (t.status.Posted? && Trail(events, t.id) == Story(t, Posted))
      || Trail(events, t.id) == Story(t, Pending)
  }

  ghost predicate OutboxTellsAll(genesis: Db, db: Db, events: seq<Event>) {
    && |genesis.txns| <= |db.txns|
    && (forall i :: 0 <= i < |db.txns| ==> Told(genesis, db, events, i))
    && (forall e :: e in events ==> IdTaken(db.txns, e.txn))
  }

  lemma TrailAppend(events: seq<Event>, e: Event, id: Id)
    ensures Trail(events + [e], id) == Trail(events, id) + if e.txn == id then [e] else []
  {
    assert (events + [e])[..|events|] == events;
  }

  lemma {:induction false} NoTrail(events: seq<Event>, id: Id)
    requires forall e :: e in events ==> e.txn != id
    ensures Trail(events, id) == []
  {
    if events != [] {
      assert events[|events| - 1] in events;
      assert forall e :: e in events[..|events| - 1] ==> e in events;
      NoTrail(events[..|events| - 1], id);
    }
  }

  lemma TakenStays(txns: seq<Txn>, more: seq<Txn>)
    requires |txns| <= |more|
    requires forall i :: 0 <= i < |txns| ==> more[i].id == txns[i].id
    ensures forall id :: IdTaken(txns, id) ==> IdTaken(more, id)
  {}

  /** Inserting a transaction with its event keeps the outbox complete. */
  lemma InsertTold(genesis: Db, db: Db, d: Db, events: seq<Event>, t: Txn)
    requires OutboxTellsAll(genesis, db, events)
    requires d.txns == db.txns + [t] && !IdTaken(db.txns, t.id) && !t.status.Failed?
    ensures OutboxTellsAll(genesis, d, events + [EventOf(t, t.status)])
  {
    var e := EventOf(t, t.status);
    TakenStays(db.txns, d.txns);
    assert d.txns[|db.txns|] in d.txns;
    assert forall i :: 0 <= i < |db.txns| ==> db.txns[i] in db.txns && db.txns[i].id != t.id;
    assert forall f :: f in events ==> f.txn != t.id;
    NewTold(genesis, d, events, |db.txns|);
    hide Told;
    forall i | 0 <= i < |db.txns| ensures Told(genesis, d, events + [e], i) {
      OldTold(genesis, db, d, events, e, i);
    }
  }

  lemma NewTold(genesis: Db, d: Db, events: seq<Event>, i: nat)
    requires |genesis.txns| <= i < |d.txns| && !d.txns[i].status.Failed? && forall f :: f in events ==> f.txn != d.txns[i].id
    ensures Told(genesis, d, events + [EventOf(d.txns[i], d.txns[i].status)], i)
  {
    var e := EventOf(d.txns[i], d.txns[i].status);
    NoTrail(events, e.txn);
    TrailAppend(events, e, e.txn);
    hide Trail;
  }

  /** An event of another transaction does not touch this one's story. */
  lemma OldTold(genesis: Db, db: Db, d: Db, events: seq<Event>, e: Event, i: nat)
    requires i < |db.txns| && i < |d.txns| && d.txns[i] == db.txns[i] && Told(genesis, db, events, i) && e.txn != db.txns[i].id
    ensures Told(genesis, d, events + [e], i)
  {
    TrailAppend(events, e, db.txns[i].id);
    hide Trail;
  }

  /** Moving a pending transaction to a final status with its event does too. */
  lemma StatusTold(genesis: Db, db: Db, d: Db, events: seq<Event>, i: nat, status: Status)
    requires OutboxTellsAll(genesis, db, events) && DistinctIds(db.txns)
    requires i < |db.txns| && db.txns[i].status.Pending? && !status.Pending?
    requires d.txns == db.txns[i := db.txns[i].(status := status)]
    ensures OutboxTellsAll(genesis, d, events + [EventOf(d.txns[i], status)])
  {
    var e := EventOf(d.txns[i], status);
    TakenStays(db.txns, d.txns);
    assert d.txns[i] in d.txns;
    assert Told(genesis, db, events, i);
    ChangedTold(genesis, db, d, events, i, status);
    hide Told;
    forall j | 0 <= j < |d.txns| && j != i ensures Told(genesis, d, events + [e], j) {
      OldTold(genesis, db, d, events, e, j);
    }
  }

  lemma ChangedTold(genesis: Db, db: Db, d: Db, events: seq<Event>, i: nat, status: Status)
    requires i < |db.txns| && i < |d.txns| && d.txns[i] == db.txns[i].(status := status)
    requires Told(genesis, db, events, i) && db.txns[i].status.Pending? && !status.Pending?
    ensures Told(genesis, d, events + [EventOf(d.txns[i], status)], i)
  {
    TrailAppend(events, EventOf(d.txns[i], status), d.txns[i].id);
    hide Trail;
  }

  /** On every run each transaction's outbox rows since genesis are exactly the
      events of its life: posted; pending; pending then posted; or pending
      then failed. No event names a transaction that does not exist. */
  lemma {:induction false} OutboxIsComplete(cfg: Config, genesis: Db, history: seq<Rec>)
    requires cfg.emitEvents && WellFormed(genesis)
    ensures var db := Serial(cfg, genesis, history);
      WellFormed(db) && genesis.events <= db.events && OutboxTellsAll(genesis, db, db.events[|genesis.events|..])
  {
    if history == [] {
      assert genesis.events[|genesis.events|..] == [];
    } else {
      var init, r := history[..|history| - 1], history[|history| - 1];
      OutboxIsComplete(cfg, genesis, init);
      var db, d := Serial(cfg, genesis, init), Serial(cfg, genesis, history);
      ApplyWellFormed(cfg, db, r.op, r.newId);
      var n := |genesis.events|;
      if Check(db, r.op, r.newId).Ok? {
        match r.op
        case Transfer(tenant, es, _) =>
          assert d.events[n..] == db.events[n..] + [d.events[|db.events|]];
          InsertTold(genesis, db, d, db.events[n..], Txn(r.newId, tenant, Posted, es));
        case CreatePending(tenant, es, _) =>
          assert d.events[n..] == db.events[n..] + [d.events[|db.events|]];
          InsertTold(genesis, db, d, db.events[n..], Txn(r.newId, tenant, Pending, es));
        case Post(tenant, id, _) =>
          assert d.events[n..] == db.events[n..] + [d.events[|db.events|]];
          StatusTold(genesis, db, d, db.events[n..], Lookup(db.txns, tenant, id).index, Posted);
        case Fail(tenant, id, _) =>
          assert d.events[n..] == db.events[n..] + [d.events[|db.events|]];
          StatusTold(genesis, db, d, db.events[n..], Lookup(db.txns, tenant, id).index, Failed);
        case CreateAccount(_, _, _) =>
          forall i | 0 <= i < |d.txns| ensures Told(genesis, d, d.events[n..], i) {
            assert Told(genesis, db, db.events[n..], i);
          }
      }
    }
  }
}
