// A call of the interleaved ledger that meets no other: its steps never wait
// for ever, and come to what the operation run as one step comes to.
module LedgerAlone {
  import opened Money
  import opened Ids
  import opened Ledger
  import opened LedgerMachine

  /** No other call holds a lock or a new id. */
  predicate Alone(w: World, pid: Id) {
    forall q :: q in w.procs && q != pid ==>
      && Exclusive(w.procs[q]) == {} && Shared(w.procs[q]) == {} && RowLock(w.procs[q]) == {}
      && NewTxnIds(w.procs[q]) == {} && NewAccountIds(w.procs[q]) == {}
  }

  predicate Only(acts: seq<Action>, pid: Id) { forall a :: a in acts ==> a.pid == pid && !a.Abort? }

  lemma Then(cfg: Config, w: World, pid: Id, acts: seq<Action>, a: Action, v: World) returns (more: seq<Action>)
    requires Only(acts, pid) && a.pid == pid && !a.Abort? && Next(cfg, After(cfg, w, acts), a) == v
    ensures Only(more, pid) && After(cfg, w, more) == v
  {
    more := acts + [a];
    assert more[..|acts|] == acts;
  }

  lemma NobodyLocks(w: World, pid: Id, p: Proc)
    requires Alone(w, pid)
    ensures var v := Move(w, pid, p);
      forall x :: !LockedElsewhere(v, pid, x) && !SharedElsewhere(v, pid, x) && !RowLockedElsewhere(v, pid, x)
  {}

  /** The call is told o, and has left d. */
  predicate Told(v: World, pid: Id, o: Outcome, d: Db) {
    v.db == d && pid in v.procs && v.procs[pid].Finished? && v.procs[pid].rec.outcome == o
  }

  // -------------------------------------------------------------- the funds

  lemma {:induction false} Locks(cfg: Config, w: World, u: World, pid: Id, acts: seq<Action>, go: Action, p: Proc) returns (more: seq<Action>)
    requires Only(acts, pid) && go.Step? && go.pid == pid && Alone(u, pid) && p.Locking?
    requires After(cfg, w, acts) == Move(u, pid, p)
    ensures Only(more, pid) && After(cfg, w, more) == Move(u, pid, p.(todo := [], held := p.held + ToSet(p.todo)))
    decreases |p.todo|
  {
    hide After;
    more := acts;
    if p.todo == [] {
      assert p.held + ToSet(p.todo) == p.held;
    } else {
      var a := p.todo[0];
      var p' := p.(todo := p.todo[1..], held := p.held + {a});
      NobodyLocks(u, pid, p);
      assert p.todo == [a] + p.todo[1..];
      assert p.held + ToSet(p.todo) == p'.held + ToSet(p'.todo);
      hide LockedElsewhere, SharedElsewhere, InRange;
      assert Move(Move(u, pid, p), pid, p') == Move(u, pid, p');
      more := Then(cfg, w, pid, acts, go, Move(u, pid, p'));
      more := Locks(cfg, w, u, pid, more, go, p');
    }
  }

  function Query(w: World, op: Op, es: seq<Entry>): Proc {
    var found := set a | a in Accounts(es) && Owned(w.db, op.tenant, a);
    Locking(op, es, Sorted(found), {}, if found == Accounts(es) then Alive else Doomed(|w.history|))
  }

  /** The history once the lock query's snapshot has been taken. */
  function Seen(w: World, op: Op, es: seq<Entry>): World {
    if Query(w, op, es).doom.Alive? then w else w.(history := w.history + [Rec(op, 0, Err(AccountNotFound))])
  }

  lemma StepSnapshot(cfg: Config, w: World, pid: Id, go: Action, op: Op, es: seq<Entry>)
    requires go.Step? && go.pid == pid
    ensures Next(cfg, Move(w, pid, Ready(op, es)), go) == Move(Seen(w, op, es), pid, Query(w, op, es))
    ensures Query(w, op, es).doom.Alive? <==> forall a :: a in Accounts(es) ==> Owned(w.db, op.tenant, a)
  {
    hide Sorted;
  }

  lemma StepRead(cfg: Config, w: World, pid: Id, go: Action, p: Proc)
    requires go.Step? && go.pid == pid && p.Locking? && p.todo == []
    ensures var v, db := Next(cfg, Move(w, pid, p), go), w.db;
      if p.doom.Doomed? then Told(v, pid, Err(AccountNotFound), db)
      else if !InRange(db.txns, Accounts(p.es)) then Told(v, pid, Err(BalanceOutOfRange), db)
      else v == Move(w, pid, Weighed(p.op, p.es, BalancesOf(db.txns, Accounts(p.es))))
  {
    hide InRange, Accounts;
  }

  lemma StepWeigh(cfg: Config, w: World, pid: Id, go: Action, op: Op, es: seq<Entry>, bal: map<Id, Int64>)
    requires go.Step? && go.pid == pid
    ensures var v := Next(cfg, Move(w, pid, Weighed(op, es, bal)), go);
      if NoneNegative(Project(bal, es)) then v == Move(w, pid, Approved(op, es)) else Told(v, pid, Err(InsufficientFunds), w.db)
  {
    hide Project;
  }

  /** Locking, reading, projecting and checking decide as Decide does. */
  lemma Funds(cfg: Config, w: World, pid: Id, acts: seq<Action>, go: Action, op: Op, es: seq<Entry>) returns (more: seq<Action>)
    requires Only(acts, pid) && go.Step? && go.pid == pid && Alone(w, pid)
    requires After(cfg, w, acts) == Move(w, pid, Ready(op, es))
    ensures Only(more, pid)
    ensures var v, o := After(cfg, w, more), Decide(w.db, op.tenant, es);
      if o.Ok? then v == Move(w, pid, Approved(op, es)) else Told(v, pid, o, w.db)
  {
    var u, p := Seen(w, op, es), Query(w, op, es);
    StepSnapshot(cfg, w, pid, go, op, es);
    more := Then(cfg, w, pid, acts, go, Move(u, pid, p));
    assert Alone(u, pid) && p.es == es;
    hide After, Next, Move, Alone, Owned, Accounts, Project, InRange, NoneNegative, Only, Told;
    more := Locks(cfg, w, u, pid, more, go, p);
    var q := p.(todo := [], held := p.held + ToSet(p.todo));
    StepRead(cfg, u, pid, go, q);
    more := Then(cfg, w, pid, more, go, Next(cfg, Move(u, pid, q), go));
    if p.doom.Alive? && InRange(w.db.txns, Accounts(es)) {
      var bal := BalancesOf(w.db.txns, Accounts(es));
      StepWeigh(cfg, w, pid, go, op, es, bal);
      more := Then(cfg, w, pid, more, go, Next(cfg, Move(w, pid, Weighed(op, es, bal)), go));
    }
  }

  // --------------------------------------------------------- the operations

  lemma StepCommit(cfg: Config, w: World, pid: Id, go: Action, op: Op, es: seq<Entry>, newId: Id)
    requires go.Step? && go.pid == pid
    ensures Told(Next(cfg, Move(w, pid, Written(op, es, newId)), go), pid, Ok, Install(cfg, w.db, op, newId))
  {
    hide Install;
  }

  lemma StepInsert(cfg: Config, w: World, pid: Id, go: Action, op: Op, es: seq<Entry>)
    requires go.Step? && go.pid == pid && Alone(w, pid) && op.Transfer? && !IdTaken(w.db.txns, go.newId)
    ensures Next(cfg, Move(w, pid, Approved(op, es)), go) == Move(w, pid, Written(op, es, go.newId))
  {
    assert FreshTxn(Move(w, pid, Approved(op, es)), go.newId);
    hide FreshTxn;
  }

  lemma TransferAlone(cfg: Config, w: World, pid: Id, acts: seq<Action>, go: Action, op: Op) returns (more: seq<Action>)
    requires Only(acts, pid) && go.Step? && go.pid == pid && Alone(w, pid) && op.Transfer? && !IdTaken(w.db.txns, go.newId)
    requires After(cfg, w, acts) == Move(w, pid, Begun(op))
    ensures Only(more, pid) && Told(After(cfg, w, more), pid, Check(w.db, op, go.newId), Apply(cfg, w.db, op, go.newId))
  {
    hide After, Validate;
    var es, v := op.entries, Begin(Move(w, pid, Begun(op)), pid, op, go.newId);
    more := Then(cfg, w, pid, acts, go, v);
    if Validate(es).Ok? {
      assert v == Move(w, pid, Ready(op, es));
      hide Next, Move, Only, Install, Decide, Alone, IdTaken;
      more := Funds(cfg, w, pid, more, go, op, es);
      if Decide(w.db, op.tenant, es).Ok? {
        StepInsert(cfg, w, pid, go, op, es);
        more := Then(cfg, w, pid, more, go, Move(w, pid, Written(op, es, go.newId)));
        StepCommit(cfg, w, pid, go, op, es, go.newId);
        more := Then(cfg, w, pid, more, go, Next(cfg, Move(w, pid, Written(op, es, go.newId)), go));
      }
    }
  }

  lemma {:induction false} Inserts(cfg: Config, w: World, pid: Id, acts: seq<Action>, go: Action, op: Op, k: nat) returns (more: seq<Action>)
    requires Only(acts, pid) && go.Step? && go.pid == pid && Alone(w, pid) && op.CreatePending? && k <= |op.entries|
    requires After(cfg, w, acts) == Move(w, pid, Inserting(op, go.newId, k))
    requires forall i :: 0 <= i < k ==> op.entries[i].account in w.db.accounts
    ensures Only(more, pid)
    ensures var v := After(cfg, w, more);
      if Accounts(op.entries) <= w.db.accounts.Keys then v == Move(w, pid, Written(op, [], go.newId))
      else Told(v, pid, Err(ForeignKey), w.db)
    decreases |op.entries| - k
  {
    hide After;
    var p := Inserting(op, go.newId, k);
    NobodyLocks(w, pid, p);
    var v := InsertEntry(Move(w, pid, p), pid, op, go.newId, k);
    hide LockedElsewhere, SharedElsewhere, RowLockedElsewhere;
    more := Then(cfg, w, pid, acts, go, v);
    if k < |op.entries| {
      assert op.entries[k] in op.entries;
      if op.entries[k].account in w.db.accounts {
        assert v == Move(w, pid, Inserting(op, go.newId, k + 1));
        more := Inserts(cfg, w, pid, more, go, op, k + 1);
      } else {
        assert op.entries[k].account in Accounts(op.entries);
      }
    } else {
      assert v == Move(w, pid, Written(op, [], go.newId));
    }
  }

  lemma CreatePendingAlone(cfg: Config, w: World, pid: Id, acts: seq<Action>, go: Action, op: Op) returns (more: seq<Action>)
    requires Only(acts, pid) && go.Step? && go.pid == pid && Alone(w, pid) && op.CreatePending? && !IdTaken(w.db.txns, go.newId)
    requires After(cfg, w, acts) == Move(w, pid, Begun(op))
    ensures Only(more, pid) && Told(After(cfg, w, more), pid, Check(w.db, op, go.newId), Apply(cfg, w.db, op, go.newId))
  {
    var u := Move(w, pid, Begun(op));
    assert FreshTxn(u, go.newId);
    var v := Begin(u, pid, op, go.newId);
    more := Then(cfg, w, pid, acts, go, v);
    hide After, Validate, FreshTxn;
    if Validate(op.entries).Ok? {
      assert v == Move(w, pid, Inserting(op, go.newId, 0));
      more := Inserts(cfg, w, pid, more, go, op, 0);
      hide Accounts;
      if Accounts(op.entries) <= w.db.accounts.Keys {
        StepCommit(cfg, w, pid, go, op, [], go.newId);
        more := Then(cfg, w, pid, more, go, Next(cfg, Move(w, pid, Written(op, [], go.newId)), go));
      }
    }
  }

  /** From the approved call on: the compare-and-swap and the commit. */
  lemma Settles(cfg: Config, w: World, pid: Id, acts: seq<Action>, go: Action, op: Op, es: seq<Entry>) returns (more: seq<Action>)
    requires Only(acts, pid) && go.Step? && go.pid == pid && Alone(w, pid) && (op.Post? || op.Fail?)
    requires var f := Lookup(w.db.txns, op.tenant, op.txn); f.At? && w.db.txns[f.index].status.Pending?
    requires After(cfg, w, acts) == Move(w, pid, Approved(op, es))
    ensures Only(more, pid) && Told(After(cfg, w, more), pid, Ok, Install(cfg, w.db, op, 0))
  {
    hide After, Lookup;
    NobodyLocks(w, pid, Approved(op, es));
    hide RowLockedElsewhere;
    var v := Move(w, pid, Written(op, es, 0));
    assert Move(Move(w, pid, Approved(op, es)), pid, Written(op, es, 0)) == v;
    more := Then(cfg, w, pid, acts, go, v);
    StepCommit(cfg, w, pid, go, op, es, 0);
    more := Then(cfg, w, pid, more, go, Next(cfg, v, go));
  }

  /** The row is read, and then its entries. */
  lemma StepLookup(cfg: Config, w: World, pid: Id, go: Action, op: Op)
    requires go.Step? && go.pid == pid && (op.Post? || op.Fail?)
    ensures var f, v := Lookup(w.db.txns, op.tenant, op.txn), Next(cfg, Move(w, pid, Begun(op)), go);
      if f.Missing? then Told(v, pid, Err(TransactionNotFound), w.db)
      else if !w.db.txns[f.index].status.Pending? then Told(v, pid, Err(TransactionNotPending), w.db)
      else
        && v == Move(w, pid, Fetching(op))
        && (multiset(go.order) == multiset(w.db.txns[f.index].entries) ==>
              Next(cfg, v, go) == Move(w, pid, if op.Post? then Ready(op, go.order) else Approved(op, [])))
  {
    hide Lookup;
  }

  lemma SettleAlone(cfg: Config, w: World, pid: Id, acts: seq<Action>, go: Action, op: Op) returns (more: seq<Action>)
    requires Only(acts, pid) && go.Step? && go.pid == pid && Alone(w, pid) && (op.Post? || op.Fail?)
    requires var f := Lookup(w.db.txns, op.tenant, op.txn); f.At? ==> multiset(go.order) == multiset(w.db.txns[f.index].entries)
    requires After(cfg, w, acts) == Move(w, pid, Begun(op))
    ensures Only(more, pid) && Told(After(cfg, w, more), pid, Check(w.db, op, 0), Apply(cfg, w.db, op, 0))
  {
    var f := Lookup(w.db.txns, op.tenant, op.txn);
    hide Lookup, After, Decide;
    StepLookup(cfg, w, pid, go, op);
    more := Then(cfg, w, pid, acts, go, Next(cfg, Move(w, pid, Begun(op)), go));
    if f.At? && w.db.txns[f.index].status.Pending? {
      hide Next, Move, Only, Alone, Install;
      var p := if op.Post? then Ready(op, go.order) else Approved(op, []);
      more := Then(cfg, w, pid, more, go, Move(w, pid, p));
      if op.Fail? {
        more := Settles(cfg, w, pid, more, go, op, []);
      } else {
        DecidePermutation(w.db, op.tenant, go.order, w.db.txns[f.index].entries);
        more := Funds(cfg, w, pid, more, go, op, go.order);
        if Decide(w.db, op.tenant, go.order).Ok? {
          more := Settles(cfg, w, pid, more, go, op, go.order);
        }
      }
    }
  }

  lemma CreateAccountAlone(cfg: Config, w: World, pid: Id, acts: seq<Action>, go: Action, op: Op) returns (more: seq<Action>)
    requires Only(acts, pid) && go.Step? && go.pid == pid && Alone(w, pid) && op.CreateAccount? && go.newId !in w.db.accounts
    requires After(cfg, w, acts) == Move(w, pid, Begun(op))
    ensures Only(more, pid) && Told(After(cfg, w, more), pid, Check(w.db, op, go.newId), Apply(cfg, w.db, op, go.newId))
  {
    var u := Move(w, pid, Begun(op));
    assert FreshAccount(u, go.newId);
    hide FreshAccount;
    var v := Move(w, pid, Written(op, [], go.newId));
    assert Move(u, pid, Written(op, [], go.newId)) == v;
    more := Then(cfg, w, pid, acts, go, v);
    hide After;
    StepCommit(cfg, w, pid, go, op, [], go.newId);
    more := Then(cfg, w, pid, more, go, Next(cfg, v, go));
  }

  /** A call that meets no other can always finish, in its own steps, with the
      answer and the tables of the operation run as one step. newId is what the
      database generates, order what ORDER BY created_at returns. */
  lemma CallIsApply(cfg: Config, w: World, pid: Id, op: Op, newId: Id, order: seq<Entry>) returns (acts: seq<Action>)
    requires pid !in w.procs && Alone(w, pid) && !IdTaken(w.db.txns, newId) && newId !in w.db.accounts
    requires op.Post? || op.Fail? ==>
      var f := Lookup(w.db.txns, op.tenant, op.txn); f.At? ==> multiset(order) == multiset(w.db.txns[f.index].entries)
    ensures Only(acts, pid)
    ensures Told(After(cfg, w, acts), pid, Check(w.db, op, newId), Apply(cfg, w.db, op, newId))
  {
    var go := Step(pid, newId, order);
    acts := Then(cfg, w, pid, [], Start(pid, op), Move(w, pid, Begun(op)));
    hide After;
    match op
    case Transfer(_, _, _) => acts := TransferAlone(cfg, w, pid, acts, go, op);
    case CreatePending(_, _, _) => acts := CreatePendingAlone(cfg, w, pid, acts, go, op);
    case CreateAccount(_, _, _) => acts := CreateAccountAlone(cfg, w, pid, acts, go, op);
    case _ => acts := SettleAlone(cfg, w, pid, acts, go, op);
  }
}
