// The ledger service as it is written: loops over entries, a transaction's
// working copy, early returns that roll it back, and a commit. Each operation
// is proved to be exactly one Apply on the committed tables.
module LedgerService {
  import opened Money
  import opened Ids
  import opened Ledger

  /** service.go validateEntries */
  method ValidateEntries(entries: seq<Entry>) returns (o: Outcome)
    ensures o == Validate(entries)
  {
    if |entries| < 2 {
      return Err(EmptyEntries);
    }
    for i := 0 to |entries|
      invariant forall j :: 0 <= j < i ==> entries[j].amount != 0
    {
      if entries[i].amount == 0 {
        assert entries[i] in entries;
        return Err(ZeroAmountEntry);
      }
    }
    var total := Sum(entries);
    return if total != 0 then Err(UnbalancedEntries) else Ok;
  }

  /** service.go uniqueAccountIDs */
  method UniqueAccountIDs(entries: seq<Entry>) returns (ids: seq<Id>)
    ensures ids == FirstSeen(entries)
  {
    var seen: map<Id, bool> := map[];
    ids := [];
    for i := 0 to |entries|
      invariant ids == FirstSeen(entries[..i])
      invariant forall a :: a in seen <==> a in ids
    {
      assert entries[..i + 1][..i] == entries[..i];
      var a := entries[i].account;
      if a !in seen {
        seen := seen[a := true];
        ids := ids + [a];
      }
    }
    assert entries[..|entries|] == entries;
  }

  lemma ProjectNext(balances: map<Id, Int64>, entries: seq<Entry>, i: nat)
    requires i < |entries|
    ensures Project(balances, entries[..i + 1]) == Bump(Project(balances, entries[..i]), entries[i])
  {
    assert entries[..i + 1][..i] == entries[..i];
  }

  /** The projection loop of ExecuteTransfer and PostPendingTransaction. */
  method ProjectBalances(balances: map<Id, Int64>, entries: seq<Entry>) returns (projected: map<Id, Int64>)
    ensures projected == Project(balances, entries)
  {
    projected := balances;
    assert Project(balances, entries[..0]) == balances;
    hide Project;
    for i := 0 to |entries|
      invariant projected == Project(balances, entries[..i])
    {
      ProjectNext(balances, entries, i);
      projected := Bump(projected, entries[i]);
    }
    assert entries[..|entries|] == entries;
  }

  /** audit.go transferAuditPayload */
  method TransferAuditPayload(id: Id, status: Status, entries: seq<Entry>) returns (p: Payload)
    ensures p == TransferPayload(id, status, entries)
  {
    var legs: seq<Entry> := [];
    for i := 0 to |entries|
      invariant legs == entries[..i]
    {
      legs := legs + [Entry(entries[i].account, entries[i].amount)];
    }
    p := TransferPayload(id, status, legs);
  }

  /** The balance query over the locked rows; a sum that does not scan fails. */
  method SumBalances(tx: Db, sorted: seq<Id>) returns (o: Outcome, out: map<Id, Int64>)
    ensures o == if InRange(tx.txns, ToSet(sorted)) then Ok else Err(BalanceOutOfRange)
    ensures o.Ok? ==> out == BalancesOf(tx.txns, ToSet(sorted))
  {
    out := map[];
    for i := 0 to |sorted|
      invariant out.Keys == ToSet(sorted[..i])
      invariant forall a :: a in out ==> Fits(Balance(tx.txns, a)) && out[a] == Balance(tx.txns, a)
    {
      assert sorted[..i + 1] == sorted[..i] + [sorted[i]];
      var sum := Balance(tx.txns, sorted[i]);
      if !Fits(sum) {
        assert sorted[i] in ToSet(sorted);
        return Err(BalanceOutOfRange), out;
      }
      out := out[sorted[i] := sum];
    }
    assert sorted[..|sorted|] == sorted;
    o := Ok;
  }

  /** repository.go LockAccountsForUpdate: the rows of the tenant among ids, in
      id order, an error for the first that is missing, then the balances. */
  method LockAccountsForUpdate(tx: Db, tenant: Id, ids: seq<Id>) returns (o: Outcome, out: map<Id, Int64>)
    ensures o.Ok? ==> InRange(tx.txns, ToSet(ids)) && out == BalancesOf(tx.txns, ToSet(ids))
    ensures o == (if exists a :: a in ids && !Owned(tx, tenant, a) then Err(AccountNotFound)
                  else if !InRange(tx.txns, ToSet(ids)) then Err(BalanceOutOfRange)
                  else Ok)
  {
    var sorted := Sorted(ToSet(ids));
    assert ToSet(sorted) == ToSet(ids);
    var rows: set<Id> := {};
    for i := 0 to |sorted|
      invariant rows == set a | a in sorted[..i] && Owned(tx, tenant, a)
    {
      assert sorted[..i + 1] == sorted[..i] + [sorted[i]];
      if Owned(tx, tenant, sorted[i]) {
        rows := rows + {sorted[i]};
      }
    }
    assert sorted[..|sorted|] == sorted;
    for i := 0 to |sorted|
      invariant forall j :: 0 <= j < i ==> sorted[j] in rows
    {
      if sorted[i] !in rows {
        assert sorted[i] in sorted && sorted[i] in ToSet(ids);
        return Err(AccountNotFound), map[];
      }
    }
    assert forall a :: a in ids ==> a in ToSet(ids) && a in sorted;
    o, out := SumBalances(tx, sorted);
  }

  /** repository.go InsertTransactionWithEntries: one row, then its entries. */
  method InsertTransactionWithEntries(tx: Db, tenant: Id, status: Status, entries: seq<Entry>, newId: Id)
    returns (o: Outcome, after: Db)
    ensures o == if IdTaken(tx.txns, newId) then Err(DuplicateId)
                 else if !(Accounts(entries) <= tx.accounts.Keys) then Err(ForeignKey) else Ok
    ensures o.Ok? ==> after == tx.(txns := tx.txns + [Txn(newId, tenant, status, entries)])
  {
    after := tx;
    if IdTaken(tx.txns, newId) {
      return Err(DuplicateId), tx;
    }
    var row := Txn(newId, tenant, status, []);
    for i := 0 to |entries|
      invariant row == Txn(newId, tenant, status, entries[..i])
      invariant forall j :: 0 <= j < i ==> entries[j].account in tx.accounts
    {
      if entries[i].account !in tx.accounts {
        assert entries[i] in entries;
        return Err(ForeignKey), tx;
      }
      row := row.(entries := row.entries + [entries[i]]);
    }
    assert entries[..|entries|] == entries;
    after := tx.(txns := tx.txns + [row]);
    o := Ok;
  }

  /** repository.go UpdateTransactionStatusGuarded */
  method UpdateTransactionStatusGuarded(tx: Db, tenant: Id, id: Id, expected: Status, status: Status)
    returns (o: Outcome, after: Db)
    ensures var f := Lookup(tx.txns, tenant, id);
      if f.At? && tx.txns[f.index].status == expected
      then o.Ok? && after == tx.(txns := tx.txns[f.index := tx.txns[f.index].(status := status)])
      else o.Err? && after == tx
    ensures o == Err(TransactionNotFound) <==> forall t :: t in tx.txns ==> t.id != id || t.tenant != tenant
    ensures o == Err(TransactionNotPending) <==>
      expected == Pending && var f := Lookup(tx.txns, tenant, id); f.At? && tx.txns[f.index].status != expected
    ensures o == Err(StatusConflict) <==>
      expected != Pending && var f := Lookup(tx.txns, tenant, id); f.At? && tx.txns[f.index].status != expected
  {
    var f := Lookup(tx.txns, tenant, id);
    if f.At? && tx.txns[f.index].status == expected {
      return Ok, tx.(txns := tx.txns[f.index := tx.txns[f.index].(status := status)]);
    }
    after := tx;
    if f.Missing? {
      return Err(TransactionNotFound), tx;
    }
    o := Err(if expected.Pending? then TransactionNotPending else StatusConflict);
  }

  function Logged(cfg: Config, db: Db, event: Event, row: AuditRow): Db {
    db.(events := db.events + (if cfg.emitEvents then [event] else []),
        audit := db.audit + (if cfg.recordAudit then [row] else []))
  }

  /** What a transfer run alone comes to, written out. */
  lemma TransferOutcome(cfg: Config, db: Db, tenant: Id, entries: seq<Entry>, actor: string, newId: Id)
    ensures var op := Transfer(tenant, entries, actor);
      var o := Check(db, op, newId);
      && (Validate(entries).Err? ==> o == Validate(entries))
      && (Validate(entries).Ok? && Decide(db, tenant, entries).Err? ==> o == Decide(db, tenant, entries))
      && (Validate(entries).Ok? && Decide(db, tenant, entries).Ok? ==> o == if IdTaken(db.txns, newId) then Err(DuplicateId) else Ok)
      && (Decide(db, tenant, entries).Ok? ==> Accounts(entries) <= db.accounts.Keys)
      && Apply(cfg, db, op, newId) ==
         if o.Err? then db
         else
           Logged(cfg, db.(txns := db.txns + [Txn(newId, tenant, Posted, entries)]),
             Event(tenant, EventPosted, newId, Posted),
             AuditRow(tenant, actor, TransactionTransferred, TransferPayload(newId, Posted, entries)))
  {
    hide Validate, IdTaken;
  }

  class Service {
    const cfg: Config
    var accounts: map<Id, Account>
    var txns: seq<Txn>
    var events: seq<Event>
    var audit: seq<AuditRow>

    constructor (cfg: Config)
      ensures this.cfg == cfg && Tables() == Db(map[], [], [], [])
    {
      this.cfg := cfg;
      accounts, txns, events, audit := map[], [], [], [];
    }

    /** The committed tables. */
    function Tables(): Db
      reads this
    {
      Db(accounts, txns, events, audit)
    }

    method Commit(tx: Db)
      modifies this
      ensures Tables() == tx
    {
      accounts, txns, events, audit := tx.accounts, tx.txns, tx.events, tx.audit;
    }

    /** service.go emitEvent */
    method EmitEvent(tx: Db, tenant: Id, eventType: EventType, id: Id, status: Status) returns (after: Db)
      ensures after == tx.(events := tx.events + if cfg.emitEvents then [Event(tenant, eventType, id, status)] else [])
    {
      if !cfg.emitEvents {
        return tx;
      }
      after := tx.(events := tx.events + [Event(tenant, eventType, id, status)]);
    }

    /** audit.go recordAudit */
    method RecordAudit(tx: Db, tenant: Id, actor: string, action: AuditAction, payload: Payload) returns (after: Db)
      ensures after == tx.(audit := tx.audit + if cfg.recordAudit then [AuditRow(tenant, actor, action, payload)] else [])
    {
      if !cfg.recordAudit {
        return tx;
      }
      after := tx.(audit := tx.audit + [AuditRow(tenant, actor, action, payload)]);
    }

    /** Beside the tables, nothing but what is named has been added. */
    twostate predicate Recorded(event: seq<Event>, row: AuditRow)
      reads this
    {
      && events == old(events) + (if cfg.emitEvents then event else [])
      && audit == old(audit) + if cfg.recordAudit then [row] else []
    }

    /** Locks the accounts, projects the entries, refuses a negative balance. */
    method CheckFunds(tx: Db, tenant: Id, ids: seq<Id>, entries: seq<Entry>) returns (o: Outcome)
      requires ToSet(ids) == Accounts(entries)
      ensures o == Decide(tx, tenant, entries)
    {
      assert forall a :: a in ids <==> a in ToSet(ids);
      var locked, balances := LockAccountsForUpdate(tx, tenant, ids);
      if locked.Err? {
        return locked;
      }
      var projected := ProjectBalances(balances, entries);
      var rest := projected.Keys;
      while rest != {}
        invariant rest <= projected.Keys
        invariant forall a :: a in projected && a !in rest ==> projected[a] >= 0
        decreases |rest|
      {
        var a :| a in rest;
        if projected[a] < 0 {
          return Err(InsufficientFunds);
        }
        rest := rest - {a};
      }
      o := Ok;
    }

    method ExecuteTransfer(tenant: Id, entries: seq<Entry>, actor: string, newId: Id) returns (o: Outcome)
      modifies this
      ensures o == Check(old(Tables()), Transfer(tenant, entries, actor), newId)
      ensures Tables() == Apply(cfg, old(Tables()), Transfer(tenant, entries, actor), newId)
      ensures o.Err? ==> Tables() == old(Tables())
      ensures o.Ok? ==> accounts == old(accounts) && txns == old(txns) + [Txn(newId, tenant, Posted, entries)]
      ensures o.Ok? ==> Recorded([Event(tenant, EventPosted, newId, Posted)],
          AuditRow(tenant, actor, TransactionTransferred, TransferPayload(newId, Posted, entries)))
    {
      TransferOutcome(cfg, Tables(), tenant, entries, actor, newId);
      hide Check, Apply, Validate, Decide, IdTaken;
      o := ValidateEntries(entries);
      if o.Err? {
        return;
      }
      var tx := Tables();
      var ids := UniqueAccountIDs(entries);
      assert ToSet(ids) == Accounts(entries);
      o := CheckFunds(tx, tenant, ids, entries);
      if o.Err? {
        return;
      }
      o, tx := InsertTransactionWithEntries(tx, tenant, Posted, entries, newId);
      if o.Err? {
        return;
      }
      tx := EmitEvent(tx, tenant, EventPosted, newId, Posted);
      var payload := TransferAuditPayload(newId, Posted, entries);
      tx := RecordAudit(tx, tenant, actor, TransactionTransferred, payload);
      Commit(tx);
    }

    method CreatePendingTransaction(tenant: Id, entries: seq<Entry>, actor: string, newId: Id) returns (o: Outcome)
      modifies this
      ensures o == Check(old(Tables()), CreatePending(tenant, entries, actor), newId)
      ensures Tables() == Apply(cfg, old(Tables()), CreatePending(tenant, entries, actor), newId)
      ensures o.Err? ==> Tables() == old(Tables())
      ensures o.Ok? ==> accounts == old(accounts) && txns == old(txns) + [Txn(newId, tenant, Pending, entries)]
      ensures o.Ok? ==> Recorded([Event(tenant, EventPending, newId, Pending)],
          AuditRow(tenant, actor, TransactionPendingCreated, TransferPayload(newId, Pending, entries)))
    {
      o := ValidateEntries(entries);
      if o.Err? {
        return;
      }
      var tx := Tables();
      o, tx := InsertTransactionWithEntries(tx, tenant, Pending, entries, newId);
      if o.Err? {
        return;
      }
      tx := EmitEvent(tx, tenant, EventPending, newId, Pending);
      var payload := TransferAuditPayload(newId, Pending, entries);
      tx := RecordAudit(tx, tenant, actor, TransactionPendingCreated, payload);
      Commit(tx);
    }

    /** order is how ORDER BY created_at happens to return the entries: all of a
        transaction's entries carry the same created_at. */
    method PostPendingTransaction(tenant: Id, id: Id, actor: string, order: seq<Entry>) returns (o: Outcome)
      requires var f := Lookup(txns, tenant, id);
        f.At? ==> multiset(order) == multiset(txns[f.index].entries)
      modifies this
      ensures o == Check(old(Tables()), Post(tenant, id, actor), 0)
      ensures Tables() == Apply(cfg, old(Tables()), Post(tenant, id, actor), 0)
      ensures o.Err? ==> Tables() == old(Tables())
      ensures o.Ok? ==> accounts == old(accounts) && exists i: nat ::
        i < |old(txns)| && old(txns)[i].id == id && old(txns)[i].tenant == tenant && old(txns)[i].status == Pending &&
        txns == old(txns)[i := Txn(id, tenant, Posted, old(txns)[i].entries)]
      ensures o.Ok? ==> Recorded([Event(tenant, EventPosted, id, Posted)],
          AuditRow(tenant, actor, TransactionPosted, StatusPayload(id, Posted)))
    {
      var tx := Tables();
      var f := Lookup(tx.txns, tenant, id);
      if f.Missing? {
        return Err(TransactionNotFound);
      }
      if tx.txns[f.index].status != Pending {
        return Err(TransactionNotPending);
      }
      var accountIDs: seq<Id> := [];
      for i := 0 to |order|
        invariant |accountIDs| == i
        invariant forall j :: 0 <= j < i ==> accountIDs[j] == order[j].account
      {
        accountIDs := accountIDs + [order[i].account];
      }
      assert ToSet(accountIDs) == Accounts(order) by {
        forall e | e in order ensures e.account in accountIDs {
          var j :| 0 <= j < |order| && order[j] == e;
          assert accountIDs[j] == e.account;
        }
        forall a | a in accountIDs ensures a in Accounts(order) {
          var j :| 0 <= j < |accountIDs| && accountIDs[j] == a;
          assert order[j] in order;
        }
      }
      o := CheckFunds(tx, tenant, accountIDs, order);
      DecidePermutation(tx, tenant, order, tx.txns[f.index].entries);
      if o.Err? {
        return;
      }
      o, tx := UpdateTransactionStatusGuarded(tx, tenant, id, Pending, Posted);
      tx := EmitEvent(tx, tenant, EventPosted, id, Posted);
      tx := RecordAudit(tx, tenant, actor, TransactionPosted, StatusPayload(id, Posted));
      Commit(tx);
    }

    method FailPendingTransaction(tenant: Id, id: Id, actor: string) returns (o: Outcome)
      modifies this
      ensures o == Check(old(Tables()), Fail(tenant, id, actor), 0)
      ensures Tables() == Apply(cfg, old(Tables()), Fail(tenant, id, actor), 0)
      ensures o.Err? ==> Tables() == old(Tables())
      ensures o.Ok? ==> accounts == old(accounts) && exists i: nat ::
        i < |old(txns)| && old(txns)[i].id == id && old(txns)[i].tenant == tenant && old(txns)[i].status == Pending &&
        txns == old(txns)[i := Txn(id, tenant, Failed, old(txns)[i].entries)]
      ensures o.Ok? ==> Recorded([Event(tenant, EventFailed, id, Failed)],
          AuditRow(tenant, actor, TransactionFailed, StatusPayload(id, Failed)))
    {
      var tx := Tables();
      var f := Lookup(tx.txns, tenant, id);
      if f.Missing? {
        return Err(TransactionNotFound);
      }
      if tx.txns[f.index].status != Pending {
        return Err(TransactionNotPending);
      }
      o, tx := UpdateTransactionStatusGuarded(tx, tenant, id, Pending, Failed);
      tx := EmitEvent(tx, tenant, EventFailed, id, Failed);
      tx := RecordAudit(tx, tenant, actor, TransactionFailed, StatusPayload(id, Failed));
      Commit(tx);
    }

    method CreateAccount(tenant: Id, name: string, actor: string, newId: Id) returns (o: Outcome)
      modifies this
      ensures o == Check(old(Tables()), Op.CreateAccount(tenant, name, actor), newId)
      ensures Tables() == Apply(cfg, old(Tables()), Op.CreateAccount(tenant, name, actor), newId)
      ensures o == if newId in old(accounts) then Err(DuplicateId) else Ok
      ensures o.Err? ==> Tables() == old(Tables())
      ensures o.Ok? ==> txns == old(txns) && accounts == old(accounts)[newId := Account(tenant, name)]
      ensures o.Ok? ==> Recorded([], AuditRow(tenant, actor, AccountCreated, AccountPayload(newId, name)))
    {
      if newId in accounts {
        return Err(DuplicateId);
      }
      var tx := Tables();
      tx := tx.(accounts := tx.accounts[newId := Account(tenant, name)]);
      tx := RecordAudit(tx, tenant, actor, AccountCreated, AccountPayload(newId, name));
      Commit(tx);
      o := Ok;
    }

    /** repository.go GetAccount: the derived balance of the tenant's own account. */
    method GetAccount(tenant: Id, id: Id) returns (o: Outcome, balance: Int64)
      ensures o == if !(id in accounts && accounts[id].tenant == tenant) then Err(AccountNotFound)
                   else if !(-TWO_63 <= Balance(txns, id) < TWO_63) then Err(BalanceOutOfRange) else Ok
      ensures o.Ok? ==> balance == Balance(txns, id)
    {
      balance := 0;
      if !Owned(Tables(), tenant, id) {
        return Err(AccountNotFound), 0;
      }
      var sum := Balance(txns, id);
      if !Fits(sum) {
        return Err(BalanceOutOfRange), 0;
      }
      return Ok, sum;
    }
  }
}
