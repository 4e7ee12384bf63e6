// The ledger's tables and its five operations, each as one indivisible step
// (internal/ledger). The imperative service and the interleaved machine are
// both proved against Apply.
module Ledger {
  import opened Money

  datatype Status = Pending | Posted | Failed

  datatype Account = Account(tenant: Id, name: string)

  /** A transactions row together with its entries rows, which are only ever
      written in the same database transaction and never change. */
  datatype Txn = Txn(id: Id, tenant: Id, status: Status, entries: seq<Entry>)

  datatype EventType = EventPosted | EventPending | EventFailed

  /** An outbox row: tenant, type and the {transaction_id, status} payload. */
  datatype Event = Event(tenant: Id, eventType: EventType, txn: Id, status: Status)

  datatype AuditAction =
    | AccountCreated
    | TransactionTransferred
    | TransactionPendingCreated
    | TransactionPosted
    | TransactionFailed

  datatype Payload =
    | AccountPayload(account: Id, name: string)
    | TransferPayload(txn: Id, status: Status, entries: seq<Entry>)
    | StatusPayload(txn: Id, status: Status)

  datatype AuditRow = AuditRow(tenant: Id, actor: string, action: AuditAction, payload: Payload)

  /** The committed database. txns, events and audit are kept in commit order. */
  datatype Db = Db(
    accounts: map<Id, Account>,
    txns: seq<Txn>,
    events: seq<Event>,
    audit: seq<AuditRow>)

  /** Which optional recorders the service was built with. */
  datatype Config = Config(emitEvents: bool, recordAudit: bool)

  datatype Op =
    | Transfer(tenant: Id, entries: seq<Entry>, actor: string)
    | CreatePending(tenant: Id, entries: seq<Entry>, actor: string)
    | Post(tenant: Id, txn: Id, actor: string)
    | Fail(tenant: Id, txn: Id, actor: string)
    | CreateAccount(tenant: Id, name: string, actor: string)

  datatype Error =
    | EmptyEntries
    | ZeroAmountEntry
    | UnbalancedEntries
    | AccountNotFound
    | BalanceOutOfRange  // a stored sum that does not scan into an int64
    | InsufficientFunds
    | TransactionNotFound
    | TransactionNotPending
    | StatusConflict
    | DuplicateId        // primary key violation on a generated id
    | ForeignKey         // an entry names an account that does not exist

  datatype Outcome = Ok | Err(error: Error)

  // ---------------------------------------------------------------- queries

  function Effect(t: Txn, a: Id): int {
    if t.status.Posted? then Net(t.entries, a) else 0
  }

  /** SUM(amount_minor) over the posted entries of an account. */
  function Balance(txns: seq<Txn>, a: Id): int {
    if txns == [] then 0 else Balance(txns[..|txns| - 1], a) + Effect(txns[|txns| - 1], a)
  }

  predicate Owned(db: Db, tenant: Id, a: Id) {
    a in db.accounts && db.accounts[a].tenant == tenant
  }

  datatype Found = Missing | At(index: nat)

  /** SELECT … FROM transactions WHERE id = … AND tenant_id = …. */
  function Lookup(txns: seq<Txn>, tenant: Id, id: Id): (f: Found)
    ensures f.At? ==> f.index < |txns| && txns[f.index].id == id && txns[f.index].tenant == tenant
    ensures f.Missing? ==> forall t :: t in txns ==> t.id != id || t.tenant != tenant
  {
    if txns == [] then Missing
    else
      var n := |txns| - 1;
      if txns[n].id == id && txns[n].tenant == tenant then At(n)
      else
        assert txns == txns[..n] + [txns[n]];
        Lookup(txns[..n], tenant, id)
  }

  predicate IdTaken(txns: seq<Txn>, id: Id) { exists t :: t in txns && t.id == id }

  // ----------------------------------------------------------- the decisions

  /** service.go validateEntries. */
  function Validate(es: seq<Entry>): Outcome {
    if |es| < 2 then Err(EmptyEntries)
    else if exists e :: e in es && e.amount == 0 then Err(ZeroAmountEntry)
    else if Wrap(Total(es)) != 0 then Err(UnbalancedEntries)
    else Ok
  }

  /** Reading a Go map: a missing key reads as zero. */
  function At0(m: map<Id, Int64>, a: Id): Int64 { if a in m then m[a] else 0 }

  /** projected[e.AccountID] += e.AmountMinor */
  function Bump(m: map<Id, Int64>, e: Entry): map<Id, Int64> {
    m[e.account := Wrap(At0(m, e.account) + e.amount)]
  }

  /** The projection loop: every entry added, in int64, to its account's balance. */
  function Project(bal: map<Id, Int64>, es: seq<Entry>): (p: map<Id, Int64>)
    ensures p.Keys == bal.Keys + Accounts(es)
  {
    if es == [] then bal
    else
      var init, e := es[..|es| - 1], es[|es| - 1];
      assert es == init + [e];
      assert Accounts(es) == Accounts(init) + {e.account};
      Bump(Project(bal, init), e)
  }

  predicate InRange(txns: seq<Txn>, ids: set<Id>) {
    forall a :: a in ids ==> Fits(Balance(txns, a))
  }

  function BalancesOf(txns: seq<Txn>, ids: set<Id>): map<Id, Int64>
    requires InRange(txns, ids)
  {
    map a | a in ids :: Balance(txns, a)
  }

  predicate NoneNegative(p: map<Id, Int64>) { forall a :: a in p ==> p[a] >= 0 }

  /** What a transfer or a post decides once the account rows are locked. */
  function Decide(db: Db, tenant: Id, es: seq<Entry>): Outcome {
    if exists a :: a in Accounts(es) && !Owned(db, tenant, a) then Err(AccountNotFound)
    else if !InRange(db.txns, Accounts(es)) then Err(BalanceOutOfRange)
    else if !NoneNegative(Project(BalancesOf(db.txns, Accounts(es)), es)) then Err(InsufficientFunds)
    else Ok
  }

  /** Whether an operation run alone on db is accepted, and if not why not. */
  function Check(db: Db, op: Op, newId: Id): Outcome {
    match op
    case Transfer(tenant, es, _) =>
      if Validate(es).Err? then Validate(es)
      else if Decide(db, tenant, es).Err? then Decide(db, tenant, es)
      else if IdTaken(db.txns, newId) then Err(DuplicateId)
      else Ok
    case CreatePending(_, es, _) =>
      if Validate(es).Err? then Validate(es)
      else if IdTaken(db.txns, newId) then Err(DuplicateId)
      else if !(Accounts(es) <= db.accounts.Keys) then Err(ForeignKey)
      else Ok
    case Post(tenant, id, _) =>
      var f := Lookup(db.txns, tenant, id);
      if f.Missing? then Err(TransactionNotFound)
      else if !db.txns[f.index].status.Pending? then Err(TransactionNotPending)
      else Decide(db, tenant, db.txns[f.index].entries)
    case Fail(tenant, id, _) =>
      var f := Lookup(db.txns, tenant, id);
      if f.Missing? then Err(TransactionNotFound)
      else if !db.txns[f.index].status.Pending? then Err(TransactionNotPending)
      else Ok
    case CreateAccount(_, _, _) =>
      if newId in db.accounts then Err(DuplicateId) else Ok
  }

  // -------------------------------------------------------------- the writes

  function Emit(cfg: Config, events: seq<Event>, e: Event): seq<Event> {
    if cfg.emitEvents then events + [e] else events
  }

  function Record(cfg: Config, audit: seq<AuditRow>, row: AuditRow): seq<AuditRow> {
    if cfg.recordAudit then audit + [row] else audit
  }

  /** Inserts a transaction with its entries, its event and its audit row. */
  function Insert(cfg: Config, db: Db, op: Op, id: Id, status: Status, eventType: EventType, action: AuditAction): Db
    requires op.Transfer? || op.CreatePending?
  {
    db.(txns := db.txns + [Txn(id, op.tenant, status, op.entries)],
        events := Emit(cfg, db.events, Event(op.tenant, eventType, id, status)),
        audit := Record(cfg, db.audit,
          AuditRow(op.tenant, op.actor, action, TransferPayload(id, status, op.entries))))
  }

  /** Sets the status of row i, with its event and its audit row. */
  function SetStatus(cfg: Config, db: Db, i: nat, actor: string, status: Status, eventType: EventType, action: AuditAction): Db
    requires i < |db.txns|
  {
    var t := db.txns[i];
    db.(txns := db.txns[i := t.(status := status)],
        events := Emit(cfg, db.events, Event(t.tenant, eventType, t.id, status)),
        audit := Record(cfg, db.audit, AuditRow(t.tenant, actor, action, StatusPayload(t.id, status))))
  }

  /** Everything an accepted operation writes, whatever the rest of db holds. */
  function Install(cfg: Config, db: Db, op: Op, newId: Id): Db {
    match op
    case Transfer(_, _, _) => Insert(cfg, db, op, newId, Posted, EventPosted, TransactionTransferred)
    case CreatePending(_, _, _) => Insert(cfg, db, op, newId, Pending, EventPending, TransactionPendingCreated)
    case Post(tenant, id, actor) =>
      var f := Lookup(db.txns, tenant, id);
      if f.Missing? then db else SetStatus(cfg, db, f.index, actor, Posted, EventPosted, TransactionPosted)
    case Fail(tenant, id, actor) =>
      var f := Lookup(db.txns, tenant, id);
      if f.Missing? then db else SetStatus(cfg, db, f.index, actor, Failed, EventFailed, TransactionFailed)
    case CreateAccount(tenant, name, actor) =>
      db.(accounts := db.accounts[newId := Account(tenant, name)],
          audit := Record(cfg, db.audit,
            AuditRow(tenant, actor, AccountCreated, AccountPayload(newId, name))))
  }

  /** One operation run alone: the state it leaves. */
  function Apply(cfg: Config, db: Db, op: Op, newId: Id): Db {
    if Check(db, op, newId).Ok? then Install(cfg, db, op, newId) else db
  }

  /** A finished call: the operation, the id it generated, and what it returned. */
  datatype Rec = Rec(op: Op, newId: Id, outcome: Outcome)

  /** The state left by running the operations of a history one at a time. */
  function Serial(cfg: Config, genesis: Db, history: seq<Rec>): Db {
    if history == [] then genesis
    else
      var r := history[|history| - 1];
      Apply(cfg, Serial(cfg, genesis, history[..|history| - 1]), r.op, r.newId)
  }

  // ---------------------------------------------------------- basic lemmas

  lemma BumpAt(m: map<Id, Int64>, e: Entry, a: Id)
    ensures At0(Bump(m, e), a) == if e.account == a then Wrap(At0(m, a) + e.amount) else At0(m, a)
  {}

  lemma WrapFits(x: Int64)
    ensures Wrap(x) == x
  {}

  /** Each projected balance is the old one plus the account's net amount, in
      int64, however often and in whatever order the account occurs. */
  lemma {:induction false} ProjectAt(bal: map<Id, Int64>, es: seq<Entry>, a: Id)
    ensures At0(Project(bal, es), a) == Wrap(At0(bal, a) + Net(es, a))
  {
    hide Wrap, Bump, At0, Accounts;
    if es == [] {
      WrapFits(At0(bal, a));
    } else {
      var init, e := es[..|es| - 1], es[|es| - 1];
      ProjectAt(bal, init, a);
      BumpAt(Project(bal, init), e, a);
      WrapAdd(At0(bal, a) + Net(init, a), e.amount);
    }
  }

  lemma BalanceAppend(txns: seq<Txn>, t: Txn, a: Id)
    ensures Balance(txns + [t], a) == Balance(txns, a) + Effect(t, a)
  {
    assert (txns + [t])[..|txns|] == txns;
  }

  lemma {:induction false} BalanceReplace(txns: seq<Txn>, i: nat, t: Txn, a: Id)
    requires i < |txns|
    ensures Balance(txns[i := t], a) == Balance(txns, a) - Effect(txns[i], a) + Effect(t, a)
  {
    var n := |txns| - 1;
    if i < n {
      assert txns[i := t][..n] == txns[..n][i := t];
      BalanceReplace(txns[..n], i, t, a);
    } else {
      assert txns[i := t][..n] == txns[..n];
    }
  }

  /** The wrapped check passes for account a. */
  predicate Affordable(txns: seq<Txn>, es: seq<Entry>, a: Id) {
    Wrap(Balance(txns, a) + Net(es, a)) >= 0
  }

  lemma ProjectionAccepts(txns: seq<Txn>, es: seq<Entry>)
    requires InRange(txns, Accounts(es))
    ensures NoneNegative(Project(BalancesOf(txns, Accounts(es)), es)) <==>
      forall a :: a in Accounts(es) ==> Affordable(txns, es, a)
  {
    hide Project, Net, Balance, Wrap, Fits;
    var bal := BalancesOf(txns, Accounts(es));
    forall a | a in Accounts(es)
      ensures a in Project(bal, es) && (Project(bal, es)[a] >= 0) == Affordable(txns, es, a)
    {
      ProjectAt(bal, es, a);
    }
  }

  lemma AffordablePermutation(txns: seq<Txn>, es: seq<Entry>, fs: seq<Entry>)
    requires multiset(es) == multiset(fs)
    ensures forall a :: Affordable(txns, es, a) == Affordable(txns, fs, a)
  {
    forall a ensures Affordable(txns, es, a) == Affordable(txns, fs, a) {
      NetPermutation(es, fs, a);
    }
  }

  /** The decision does not depend on the order in which entries are read. */
  lemma DecidePermutation(db: Db, tenant: Id, es: seq<Entry>, fs: seq<Entry>)
    requires multiset(es) == multiset(fs)
    ensures Decide(db, tenant, es) == Decide(db, tenant, fs)
  {
    AccountsPermutation(es, fs);
    if InRange(db.txns, Accounts(es)) {
      ProjectionAccepts(db.txns, es);
      ProjectionAccepts(db.txns, fs);
      AffordablePermutation(db.txns, es, fs);
    }
  }
}
