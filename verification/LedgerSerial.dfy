// Serializability of the interleaved ledger: in every reachable world the
// committed tables are those the decided calls leave when run one at a time,
// and each call was accepted exactly when it is accepted there.
module LedgerSerial {
  import opened Money
  import opened Ids
  import opened Ledger
  import opened LedgerLaws
  import opened LedgerLog
  import opened LedgerMachine
  import opened LedgerAnswers

  /** The answer c of the interleaved call against the answer s of the same
      call run alone. They are equal, except that a post refused for its
      accounts or balances may alone be refused because the transaction has
      meanwhile left pending. Acceptance always agrees. */
  predicate Matches(op: Op, s: Outcome, c: Outcome) {
    || s == c
    || (op.Post? && s == Err(TransactionNotPending)
        && c in {Err(AccountNotFound), Err(BalanceOutOfRange), Err(InsufficientFunds)})
  }

  ghost predicate Faithful(cfg: Config, genesis: Db, history: seq<Rec>) {
    history == [] ||
    (var init, r := history[..|history| - 1], history[|history| - 1];
     Faithful(cfg, genesis, init) &&
     Matches(r.op, Check(Serial(cfg, genesis, init), r.op, r.newId), r.outcome))
  }

  // --------------------------------------------- what a process relies on

  /** es is what the call is to book: the request's entries, or the pending
      transaction's in some order. */
  predicate Job(db: Db, op: Op, es: seq<Entry>) {
    match op
    case Transfer(_, entries, _) => es == entries && Validate(es).Ok?
    case Post(tenant, id, _) =>
      var f := Lookup(db.txns, tenant, id);
      f.At? && multiset(es) == multiset(db.txns[f.index].entries)
    case _ => false
  }

  predicate RowExists(db: Db, op: Op) {
    (op.Post? || op.Fail?) && Lookup(db.txns, op.tenant, op.txn).At?
  }

  ghost predicate AllOwned(db: Db, op: Op, es: seq<Entry>) {
    forall a :: a in Accounts(es) ==> Owned(db, op.tenant, a)
  }

  /** Locks are taken in ascending order: all held are below all to come. */
  ghost predicate LockOrder(todo: seq<Id>, held: set<Id>) {
    Ascending(todo) && forall a, b :: a in held && b in todo ==> a < b
  }

  /** What process p knows of the committed tables between its steps. */
  ghost predicate Rely(db: Db, p: Proc) {
    match p
    case Fetching(op) => RowExists(db, op)
    case Ready(op, es) => Job(db, op, es)
    case Locking(op, es, todo, held, doom) =>
      && Job(db, op, es) && LockOrder(todo, held)
      && (doom.Alive? ==> AllOwned(db, op, es) && forall a :: a in Accounts(es) <==> a in held || a in todo)
    case Weighed(op, es, bal) =>
      && Job(db, op, es) && AllOwned(db, op, es)
      && InRange(db.txns, Accounts(es)) && bal == BalancesOf(db.txns, Accounts(es))
    case Approved(op, es) =>
      if op.Fail? then es == [] && RowExists(db, op)
      else Job(db, op, es) && Decide(db, op.tenant, es).Ok?
    case Inserting(op, newId, k) =>
      && op.CreatePending? && Validate(op.entries).Ok? && !IdTaken(db.txns, newId)
      && k <= |op.entries| && Accounts(op.entries[..k]) <= db.accounts.Keys
    case Written(op, es, newId) =>
      Check(db, op, newId).Ok? && if op.Transfer? || op.Post? then Job(db, op, es) else es == []
    case Rechecking(op, es) =>
      RowExists(db, op) && !db.txns[Lookup(db.txns, op.tenant, op.txn).index].status.Pending?
    case _ => true
  }

  /** Two processes never hold conflicting locks or the same generated id. */
  ghost predicate Apart(p: Proc, q: Proc) {
    Exclusive(p) !! Exclusive(q) && Exclusive(p) !! Shared(q) && Shared(p) !! Exclusive(q) &&
    RowLock(p) !! RowLock(q) && NewTxnIds(p) !! NewTxnIds(q) && NewAccountIds(p) !! NewAccountIds(q)
  }

  ghost predicate Inv(cfg: Config, genesis: Db, w: World) {
    && w.db == Serial(cfg, genesis, w.history)
    && Faithful(cfg, genesis, w.history)
    && (forall p :: p in w.procs ==> Rely(w.db, w.procs[p]))
    && (forall p, q :: p in w.procs && q in w.procs && p != q ==> Apart(w.procs[p], w.procs[q]))
  }

  // ---------------------------------------------------- one process commits

  /** d differs from db at most by what a process holding these locks and ids
      may have committed. */
  ghost predicate Frame(db: Db, d: Db, accounts: set<Id>, rows: set<Id>, txnIds: set<Id>, accountIds: set<Id>) {
    && (forall a :: a in db.accounts ==> a in d.accounts && d.accounts[a] == db.accounts[a])
    && (forall a :: a in d.accounts && a !in db.accounts ==> a in accountIds)
    && (forall a :: a !in accounts ==> Balance(d.txns, a) == Balance(db.txns, a))
    && (forall id :: IdTaken(d.txns, id) ==> IdTaken(db.txns, id) || id in txnIds)
    && (forall tenant, id :: SameRow(db, d, rows, tenant, id))
  }

  ghost predicate SameRow(db: Db, d: Db, rows: set<Id>, tenant: Id, id: Id) {
    var f, g := Lookup(db.txns, tenant, id), Lookup(d.txns, tenant, id);
    f.At? ==>
      && g.At? && d.txns[g.index].entries == db.txns[f.index].entries
      && (id !in rows || !db.txns[f.index].status.Pending? ==> d.txns[g.index].status == db.txns[f.index].status)
  }

  lemma {:induction false} LookupSetStatus(txns: seq<Txn>, i: nat, status: Status, tenant: Id, id: Id)
    requires i < |txns|
    ensures Lookup(txns[i := txns[i].(status := status)], tenant, id) == Lookup(txns, tenant, id)
  {
    var n := |txns| - 1;
    var more := txns[i := txns[i].(status := status)];
    if i < n {
      assert more[..n] == txns[..n][i := txns[i].(status := status)];
      LookupSetStatus(txns[..n], i, status, tenant, id);
    } else {
      assert more[..n] == txns[..n];
    }
  }

  lemma SameRowAfterInsert(db: Db, d: Db, t: Txn, tenant: Id, id: Id)
    requires d.txns == db.txns + [t] && !IdTaken(db.txns, t.id)
    ensures SameRow(db, d, {}, tenant, id)
  {}

  lemma SameRowAfterStatus(cfg: Config, db: Db, d: Db, own: Id, txn: Id, status: Status, tenant: Id, id: Id)
    requires var f := Lookup(db.txns, own, txn);
      f.At? && db.txns[f.index].status.Pending? && d.txns == db.txns[f.index := db.txns[f.index].(status := status)]
    ensures SameRow(db, d, {txn}, tenant, id)
  {
    LookupSetStatus(db.txns, Lookup(db.txns, own, txn).index, status, tenant, id);
  }

  lemma IdsAfter(txns: seq<Txn>, more: seq<Txn>, newIds: set<Id>)
    requires |txns| <= |more|
    requires forall i :: 0 <= i < |txns| ==> more[i].id == txns[i].id
    requires forall i :: |txns| <= i < |more| ==> more[i].id in newIds
    ensures forall id :: IdTaken(more, id) ==> IdTaken(txns, id) || id in newIds
  {}

  lemma CommitBalances(cfg: Config, db: Db, p: Proc, a: Id)
    requires p.Written? && Rely(db, p) && a !in Exclusive(p)
    ensures Balance(Install(cfg, db, p.op, p.newId).txns, a) == Balance(db.txns, a)
  {
    ApplyBalances(cfg, db, p.op, p.newId, a);
    var es := Moved(db, p.op);
    if p.op.Transfer? || p.op.Post? {
      AccountsPermutation(es, p.es);
    }
    NetOfStranger(es, a);
  }

  /** A commit changes nothing outside what its process holds. */
  lemma CommitFrame(cfg: Config, db: Db, p: Proc)
    requires p.Written? && Rely(db, p)
    ensures Frame(db, Install(cfg, db, p.op, p.newId), Exclusive(p), RowLock(p), NewTxnIds(p), NewAccountIds(p))
  {
    var op, d := p.op, Install(cfg, db, p.op, p.newId);
    forall a | a !in Exclusive(p) ensures Balance(d.txns, a) == Balance(db.txns, a) {
      CommitBalances(cfg, db, p, a);
    }
    IdsAfter(db.txns, d.txns, NewTxnIds(p));
    forall tenant, id ensures SameRow(db, d, RowLock(p), tenant, id) {
      match op
      case Transfer(t, es, _) => SameRowAfterInsert(db, d, Txn(p.newId, t, Posted, es), tenant, id);
      case CreatePending(t, es, _) => SameRowAfterInsert(db, d, Txn(p.newId, t, Pending, es), tenant, id);
      case Post(t, txn, _) => SameRowAfterStatus(cfg, db, d, t, txn, Posted, tenant, id);
      case Fail(t, txn, _) => SameRowAfterStatus(cfg, db, d, t, txn, Failed, tenant, id);
      case CreateAccount(_, _, _) =>
    }
  }

  lemma DecideFrame(db: Db, d: Db, tenant: Id, es: seq<Entry>, accounts: set<Id>, rows: set<Id>, txnIds: set<Id>, accountIds: set<Id>)
    requires Frame(db, d, accounts, rows, txnIds, accountIds) && Accounts(es) !! accounts
    requires Decide(db, tenant, es).Ok?
    ensures Decide(d, tenant, es).Ok?
  {
    assert BalancesOf(d.txns, Accounts(es)) == BalancesOf(db.txns, Accounts(es));
  }

  /** So what another process relies on survives it. */
  lemma RelyFrame(db: Db, d: Db, q: Proc, accounts: set<Id>, rows: set<Id>, txnIds: set<Id>, accountIds: set<Id>)
    requires Frame(db, d, accounts, rows, txnIds, accountIds) && Rely(db, q)
    requires Exclusive(q) !! accounts && RowLock(q) !! rows
    requires NewTxnIds(q) !! txnIds && NewAccountIds(q) !! accountIds
    ensures Rely(d, q)
  {
    if (q.Fetching? || q.Ready? || q.Locking? || q.Weighed? || q.Approved? || q.Written? || q.Rechecking?)
       && (q.op.Post? || q.op.Fail?) {
      assert SameRow(db, d, rows, q.op.tenant, q.op.txn);
    }
    match q
    case Weighed(op, es, bal) =>
      assert BalancesOf(d.txns, Accounts(es)) == bal;
    case Approved(op, es) =>
      if !op.Fail? {
        DecideFrame(db, d, op.tenant, es, accounts, rows, txnIds, accountIds);
      }
    case Written(op, es, newId) =>
      if op.Transfer? {
        DecideFrame(db, d, op.tenant, es, accounts, rows, txnIds, accountIds);
      } else if op.Post? {
        var row := db.txns[Lookup(db.txns, op.tenant, op.txn).index];
        AccountsPermutation(es, row.entries);
        DecideFrame(db, d, op.tenant, row.entries, accounts, rows, txnIds, accountIds);
      }
    case _ =>
  }

  // ------------------------------------------------------- steps keep Inv

  lemma SerialSnoc(cfg: Config, genesis: Db, history: seq<Rec>, r: Rec)
    requires Faithful(cfg, genesis, history)
    requires Matches(r.op, Check(Serial(cfg, genesis, history), r.op, r.newId), r.outcome)
    ensures Faithful(cfg, genesis, history + [r])
    ensures Serial(cfg, genesis, history + [r]) ==
      Apply(cfg, Serial(cfg, genesis, history), r.op, r.newId)
  {
    assert (history + [r])[..|history|] == history;
  }

  /** A step that changes only its own process. */
  lemma MoveKeeps(cfg: Config, genesis: Db, w: World, pid: Id, p: Proc)
    requires Inv(cfg, genesis, w)
    requires Rely(w.db, p)
    requires forall q :: q in w.procs && q != pid ==> Apart(p, w.procs[q])
    ensures Inv(cfg, genesis, Move(w, pid, p))
  {
    forall q | q in w.procs && q != pid ensures Apart(w.procs[q], p) {
      assert Apart(p, w.procs[q]);
    }
  }

  /** A decision against the call: the tables stay, the history grows. */
  lemma RejectKeeps(cfg: Config, genesis: Db, w: World, pid: Id, p: Proc, r: Rec)
    requires Inv(cfg, genesis, w)
    requires Matches(r.op, Check(w.db, r.op, r.newId), r.outcome) && r.outcome.Err?
    requires Rely(w.db, p)
    requires forall q :: q in w.procs && q != pid ==> Apart(p, w.procs[q])
    ensures Inv(cfg, genesis, World(w.db, w.procs[pid := p], w.history + [r]))
  {
    SerialSnoc(cfg, genesis, w.history, r);
    forall q | q in w.procs && q != pid ensures Apart(w.procs[q], p) {
      assert Apart(p, w.procs[q]);
    }
  }

  lemma OtherKeeps(cfg: Config, genesis: Db, w: World, pid: Id, q: Id)
    requires Inv(cfg, genesis, w) && pid in w.procs && w.procs[pid].Written?
    requires q in w.procs && q != pid
    ensures var p := w.procs[pid]; Rely(Install(cfg, w.db, p.op, p.newId), w.procs[q])
  {
    var p := w.procs[pid];
    CommitFrame(cfg, w.db, p);
    assert Apart(w.procs[q], p);
    RelyFrame(w.db, Install(cfg, w.db, p.op, p.newId), w.procs[q],
              Exclusive(p), RowLock(p), NewTxnIds(p), NewAccountIds(p));
  }

  /** A process that keeps no more than it had stays apart from the others. */
  lemma NoNewLocks(w: World, pid: Id, p: Proc)
    requires pid in w.procs
    requires forall q :: q in w.procs && q != pid ==> Apart(w.procs[pid], w.procs[q])
    requires Exclusive(p) <= Exclusive(w.procs[pid]) && Shared(p) <= Shared(w.procs[pid]) && RowLock(p) <= RowLock(w.procs[pid])
    requires NewTxnIds(p) <= NewTxnIds(w.procs[pid]) && NewAccountIds(p) <= NewAccountIds(w.procs[pid])
    ensures forall q :: q in w.procs && q != pid ==> Apart(p, w.procs[q]) && Apart(w.procs[q], p)
  {}

  lemma WrittenIsAccepted(cfg: Config, db: Db, p: Proc)
    requires p.Written? && Rely(db, p)
    ensures Check(db, p.op, p.newId).Ok? && Apply(cfg, db, p.op, p.newId) == Install(cfg, db, p.op, p.newId)
  {}

  lemma CommitKeeps(cfg: Config, genesis: Db, w: World, pid: Id)
    requires Inv(cfg, genesis, w) && pid in w.procs && w.procs[pid].Written?
    ensures var p := w.procs[pid]; Inv(cfg, genesis, Commit(cfg, w, pid, p.op, p.newId))
  {
    hide Install;
    var p := w.procs[pid];
    var v := Commit(cfg, w, pid, p.op, p.newId);
    var done := v.procs[pid];
    assert Rely(v.db, done);
    NoNewLocks(w, pid, done);
    hide Apart, Rely, Exclusive, RowLock, NewTxnIds, NewAccountIds;
    WrittenIsAccepted(cfg, w.db, p);
    SerialSnoc(cfg, genesis, w.history, Rec(p.op, p.newId, Ok));
    forall q | q in v.procs ensures Rely(v.db, v.procs[q]) {
      if q != pid {
        OtherKeeps(cfg, genesis, w, pid, q);
      }
    }
  }

  /** The wrapped decision on the post's own rows, seen from its read order. */
  lemma JobDecides(db: Db, op: Op, es: seq<Entry>, newId: Id)
    requires Job(db, op, es)
    ensures op.Transfer? && Decide(db, op.tenant, es).Err? ==> Check(db, op, newId) == Decide(db, op.tenant, es)
    ensures op.Post? ==>
      Check(db, op, newId) == Err(TransactionNotPending) || Check(db, op, newId) == Decide(db, op.tenant, es)
    ensures op.Post? && db.txns[Lookup(db.txns, op.tenant, op.txn).index].status.Pending? ==>
      Check(db, op, newId) == Decide(db, op.tenant, es)
  {
    if op.Post? {
      DecidePermutation(db, op.tenant, es, db.txns[Lookup(db.txns, op.tenant, op.txn).index].entries);
    }
  }

  /** What the invariant says about one process. */
  lemma Known(cfg: Config, genesis: Db, w: World, pid: Id)
    requires Inv(cfg, genesis, w) && pid in w.procs
    ensures Rely(w.db, w.procs[pid])
    ensures forall q :: q in w.procs && q != pid ==> Apart(w.procs[pid], w.procs[q])
  {}

  lemma BeginKeeps(cfg: Config, genesis: Db, w: World, pid: Id, op: Op, newId: Id)
    requires Inv(cfg, genesis, w) && pid in w.procs && w.procs[pid] == Begun(op)
    ensures Inv(cfg, genesis, Begin(w, pid, op, newId))
  {
    hide Inv, Decide, AllOwned, LockOrder, Project, BalancesOf;
    Known(cfg, genesis, w, pid);
    var v := Begin(w, pid, op, newId);
    if v != w {
      var p := v.procs[pid];
      if p.Finished? {
        RejectKeeps(cfg, genesis, w, pid, p, p.rec);
      } else {
        if p.Inserting? {
          assert Accounts(op.entries[..0]) == {};
        }
        MoveKeeps(cfg, genesis, w, pid, p);
      }
    }
  }

  lemma SnapshotDecides(db: Db, op: Op, es: seq<Entry>, found: set<Id>)
    requires Job(db, op, es)
    requires found == set a | a in Accounts(es) && Owned(db, op.tenant, a)
    ensures found == Accounts(es) ==> AllOwned(db, op, es)
    ensures found != Accounts(es) ==> Matches(op, Check(db, op, 0), Err(AccountNotFound))
  {
    JobDecides(db, op, es, 0);
    if forall a :: a in Accounts(es) ==> Owned(db, op.tenant, a) {
      assert found == Accounts(es);
    }
  }

  lemma SnapshotKeeps(cfg: Config, genesis: Db, w: World, pid: Id, op: Op, es: seq<Entry>)
    requires Inv(cfg, genesis, w) && pid in w.procs && w.procs[pid] == Ready(op, es)
    ensures Inv(cfg, genesis, Snapshot(w, pid, op, es))
  {
    hide Inv, Check, Matches, Sorted;
    Known(cfg, genesis, w, pid);
    var found := set a | a in Accounts(es) && Owned(w.db, op.tenant, a);
    SnapshotDecides(w.db, op, es, found);
    hide Rely;
    var p := Locking(op, es, Sorted(found), {}, if found == Accounts(es) then Alive else Doomed(|w.history|));
    assert forall q :: q in w.procs && q != pid ==> Apart(p, w.procs[q]);
    hide Apart;
    if found == Accounts(es) {
      MoveKeeps(cfg, genesis, w, pid, p);
    } else {
      RejectKeeps(cfg, genesis, w, pid, p, Rec(op, 0, Err(AccountNotFound)));
    }
  }

  lemma TakeRelies(db: Db, p: Proc)
    requires p.Locking? && p.todo != [] && Rely(db, p)
    ensures Rely(db, p.(todo := p.todo[1..], held := p.held + {p.todo[0]}))
  {
    forall a, b | a in p.held + {p.todo[0]} && b in p.todo[1..] ensures a < b {
      var j :| 0 <= j < |p.todo[1..]| && p.todo[1..][j] == b;
      assert p.todo[j + 1] == b && b in p.todo;
    }
    assert p.todo == [p.todo[0]] + p.todo[1..];
  }

  /** All rows locked: either the balances are read, or they do not scan. */
  lemma ReadDecides(db: Db, p: Proc)
    requires p.Locking? && p.todo == [] && p.doom.Alive? && Rely(db, p)
    ensures Accounts(p.es) == p.held
    ensures InRange(db.txns, Accounts(p.es)) ==>
      Rely(db, Weighed(p.op, p.es, BalancesOf(db.txns, Accounts(p.es))))
    ensures !InRange(db.txns, Accounts(p.es)) ==> Matches(p.op, Check(db, p.op, 0), Err(BalanceOutOfRange))
  {
    JobDecides(db, p.op, p.es, 0);
  }

  lemma LockKeeps(cfg: Config, genesis: Db, w: World, pid: Id, p: Proc)
    requires Inv(cfg, genesis, w) && pid in w.procs && w.procs[pid] == p && p.Locking?
    ensures Inv(cfg, genesis, Lock(w, pid, p))
  {
    hide Inv;
    Known(cfg, genesis, w, pid);
    if p.todo != [] {
      var a := p.todo[0];
      if !LockedElsewhere(w, pid, a) && !SharedElsewhere(w, pid, a) {
        var p' := p.(todo := p.todo[1..], held := p.held + {a});
        TakeRelies(w.db, p);
        hide Rely;
        forall q | q in w.procs && q != pid ensures Apart(p', w.procs[q]) {
          assert Apart(p, w.procs[q]);
        }
        MoveKeeps(cfg, genesis, w, pid, p');
      }
    } else {
      ReadKeeps(cfg, genesis, w, pid, p);
    }
  }

  lemma ReadKeeps(cfg: Config, genesis: Db, w: World, pid: Id, p: Proc)
    requires Inv(cfg, genesis, w) && pid in w.procs && w.procs[pid] == p && p.Locking? && p.todo == []
    ensures Inv(cfg, genesis, Lock(w, pid, p))
  {
    hide Inv;
    Known(cfg, genesis, w, pid);
    var p' := Lock(w, pid, p).procs[pid];
    if p.doom.Alive? {
      ReadDecides(w.db, p);
    }
    if p'.Finished? {
      FinishedRelies(w.db, p'.rec, p'.at);
    }
    hide Rely;
    NoNewLocks(w, pid, p');
    if p.doom.Doomed? || p'.Weighed? {
      MoveKeeps(cfg, genesis, w, pid, p');
    } else {
      RejectKeeps(cfg, genesis, w, pid, p', p'.rec);
    }
  }

  lemma WeighDecides(db: Db, p: Proc)
    requires p.Weighed? && Rely(db, p)
    ensures NoneNegative(Project(p.bal, p.es)) ==> Rely(db, Approved(p.op, p.es))
    ensures !NoneNegative(Project(p.bal, p.es)) ==> Matches(p.op, Check(db, p.op, 0), Err(InsufficientFunds))
  {
    JobDecides(db, p.op, p.es, 0);
  }

  lemma WeighKeeps(cfg: Config, genesis: Db, w: World, pid: Id, p: Proc)
    requires Inv(cfg, genesis, w) && pid in w.procs && w.procs[pid] == p && p.Weighed?
    ensures Inv(cfg, genesis, Weigh(w, pid, p.op, p.es, p.bal))
  {
    hide Inv;
    Known(cfg, genesis, w, pid);
    WeighDecides(w.db, p);
    hide Rely;
    if NoneNegative(Project(p.bal, p.es)) {
      NoNewLocks(w, pid, Approved(p.op, p.es));
      MoveKeeps(cfg, genesis, w, pid, Approved(p.op, p.es));
    } else {
      var r := Rec(p.op, 0, Err(InsufficientFunds));
      var p' := Finished(r, |w.history|);
      NoNewLocks(w, pid, p');
      FinishedRelies(w.db, r, |w.history|);
      RejectKeeps(cfg, genesis, w, pid, p', r);
    }
  }

  lemma FinishedRelies(db: Db, r: Rec, at: nat)
    ensures Rely(db, Finished(r, at))
  {}

  lemma InsertDecides(db: Db, p: Proc, newId: Id)
    requires p.Approved? && p.op.Transfer? && Rely(db, p) && !IdTaken(db.txns, newId)
    ensures Rely(db, Written(p.op, p.es, newId))
  {
    JobDecides(db, p.op, p.es, newId);
  }

  lemma SwapDecides(db: Db, p: Proc)
    requires p.Approved? && (p.op.Post? || p.op.Fail?) && Rely(db, p)
    ensures var f := Lookup(db.txns, p.op.tenant, p.op.txn);
      f.At? && Rely(db, if db.txns[f.index].status.Pending? then Written(p.op, p.es, 0) else Rechecking(p.op, p.es))
  {
    if p.op.Post? {
      JobDecides(db, p.op, p.es, 0);
    }
  }

  lemma WrittenApart(p: Proc, q: Proc, newId: Id)
    requires p.Approved? && p.op.Transfer? && Apart(p, q) && newId !in NewTxnIds(q)
    ensures Apart(Written(p.op, p.es, newId), q)
  {}

  lemma InsertRowsKeeps(cfg: Config, genesis: Db, w: World, pid: Id, p: Proc, newId: Id)
    requires Inv(cfg, genesis, w) && pid in w.procs && w.procs[pid] == p && p.Approved? && p.op.Transfer?
    ensures Inv(cfg, genesis, InsertRows(w, pid, p.op, p.es, newId))
  {
    hide Inv;
    Known(cfg, genesis, w, pid);
    if FreshTxn(w, newId) {
      var p' := Written(p.op, p.es, newId);
      InsertDecides(w.db, p, newId);
      hide Rely;
      forall q | q in w.procs && q != pid ensures Apart(p', w.procs[q]) {
        WrittenApart(p, w.procs[q], newId);
      }
      hide Apart;
      MoveKeeps(cfg, genesis, w, pid, p');
    }
  }

  lemma SwapApart(w: World, pid: Id, p: Proc, p': Proc, q: Id)
    requires p.Approved? && (p.op.Post? || p.op.Fail?) && q in w.procs && q != pid && Apart(p, w.procs[q])
    requires !RowLockedElsewhere(w, pid, p.op.txn)
    requires p' == Written(p.op, p.es, 0) || p' == Rechecking(p.op, p.es)
    ensures Apart(p', w.procs[q])
  {}

  lemma SwapKeeps(cfg: Config, genesis: Db, w: World, pid: Id, p: Proc)
    requires Inv(cfg, genesis, w) && pid in w.procs && w.procs[pid] == p && p.Approved? && (p.op.Post? || p.op.Fail?)
    ensures Inv(cfg, genesis, Swap(w, pid, p.op, p.es))
  {
    hide Inv;
    Known(cfg, genesis, w, pid);
    if !RowLockedElsewhere(w, pid, p.op.txn) {
      var p' := Swap(w, pid, p.op, p.es).procs[pid];
      SwapDecides(w.db, p);
      hide Rely;
      forall q | q in w.procs && q != pid ensures Apart(p', w.procs[q]) {
        SwapApart(w, pid, p, p', q);
      }
      hide Apart;
      MoveKeeps(cfg, genesis, w, pid, p');
    }
  }

  lemma ApprovedIsTransfer(cfg: Config, genesis: Db, w: World, pid: Id)
    requires Inv(cfg, genesis, w) && pid in w.procs && w.procs[pid].Approved?
    ensures var op := w.procs[pid].op; op.Transfer? || op.Post? || op.Fail?
  {
    assert Rely(w.db, w.procs[pid]);
  }

  /** The key-share locks of a creation that has inserted one more entry. */
  lemma SharesNext(p: Proc)
    requires p.Inserting? && p.op.CreatePending? && p.k <= |p.op.entries|
    ensures p.k == |p.op.entries| ==> Shared(Written(p.op, [], p.newId)) == Shared(p)
    ensures p.k < |p.op.entries| ==> Shared(p.(k := p.k + 1)) == Shared(p) + {p.op.entries[p.k].account}
  {
    var es := p.op.entries;
    if p.k == |es| {
      assert es[..p.k] == es;
    } else {
      assert es[..p.k + 1] == es[..p.k] + [es[p.k]];
    }
  }

  /** Inserting one entry: done, a foreign key error, or on to the next. */
  lemma InsertEntryDecides(db: Db, p: Proc)
    requires p.Inserting? && Rely(db, p)
    ensures p.k <= |p.op.entries|
    ensures p.k == |p.op.entries| ==> Rely(db, Written(p.op, [], p.newId))
    ensures p.k < |p.op.entries| ==>
      if p.op.entries[p.k].account in db.accounts then Rely(db, p.(k := p.k + 1))
      else Check(db, p.op, p.newId) == Err(ForeignKey)
  {}

  lemma InsertEntryKeeps(cfg: Config, genesis: Db, w: World, pid: Id, p: Proc)
    requires Inv(cfg, genesis, w) && pid in w.procs && w.procs[pid] == p && p.Inserting? && p.op.CreatePending?
    ensures Inv(cfg, genesis, InsertEntry(w, pid, p.op, p.newId, p.k))
  {
    hide Inv, Check;
    Known(cfg, genesis, w, pid);
    InsertEntryDecides(w.db, p);
    SharesNext(p);
    var v := InsertEntry(w, pid, p.op, p.newId, p.k);
    if v != w {
      var p' := v.procs[pid];
      assert p'.Finished? ==> Rely(w.db, p');
      hide Rely;
      forall q | q in w.procs && q != pid ensures Apart(p', w.procs[q]) {
        assert Apart(p, w.procs[q]);
      }
      hide Apart;
      if p'.Finished? {
        RejectKeeps(cfg, genesis, w, pid, p', p'.rec);
      } else {
        MoveKeeps(cfg, genesis, w, pid, p');
      }
    }
  }

  lemma RecheckKeeps(cfg: Config, genesis: Db, w: World, pid: Id, p: Proc)
    requires Inv(cfg, genesis, w) && pid in w.procs && w.procs[pid] == p && p.Rechecking?
    ensures Inv(cfg, genesis, Advance(cfg, w, pid, p, 0, []))
  {
    hide Inv;
    Known(cfg, genesis, w, pid);
    var p' := Advance(cfg, w, pid, p, 0, []).procs[pid];
    RejectKeeps(cfg, genesis, w, pid, p', p'.rec);
  }

  lemma FetchKeeps(cfg: Config, genesis: Db, w: World, pid: Id, op: Op, order: seq<Entry>)
    requires Inv(cfg, genesis, w) && pid in w.procs && w.procs[pid] == Fetching(op)
    requires op.Post? || op.Fail?
    ensures Inv(cfg, genesis, Fetch(w, pid, op, order))
  {
    hide Inv;
    Known(cfg, genesis, w, pid);
    var v := Fetch(w, pid, op, order);
    if v != w {
      MoveKeeps(cfg, genesis, w, pid, v.procs[pid]);
    }
  }

  lemma StepKeeps(cfg: Config, genesis: Db, w: World, act: Action)
    requires Inv(cfg, genesis, w)
    ensures Inv(cfg, genesis, Next(cfg, w, act))
  {
    hide Inv;
    match act
    case Start(pid, op) =>
      if pid !in w.procs {
        MoveKeeps(cfg, genesis, w, pid, Begun(op));
      }
    case Abort(pid) =>
      if pid in w.procs && !w.procs[pid].Finished? {
        MoveKeeps(cfg, genesis, w, pid, Aborted);
      }
    case Step(pid, newId, order) =>
      if pid in w.procs {
        var p := w.procs[pid];
        match p
        case Begun(op) => BeginKeeps(cfg, genesis, w, pid, op, newId);
        case Fetching(op) =>
          if op.Post? || op.Fail? {
            FetchKeeps(cfg, genesis, w, pid, op, order);
          }
        case Ready(op, es) => SnapshotKeeps(cfg, genesis, w, pid, op, es);
        case Locking(_, _, _, _, _) => LockKeeps(cfg, genesis, w, pid, p);
        case Weighed(_, _, _) => WeighKeeps(cfg, genesis, w, pid, p);
        case Approved(op, _) =>
          if op.Post? || op.Fail? {
            SwapKeeps(cfg, genesis, w, pid, p);
          } else {
            ApprovedIsTransfer(cfg, genesis, w, pid);
            InsertRowsKeeps(cfg, genesis, w, pid, p, newId);
          }
        case Inserting(op, _, _) =>
          if op.CreatePending? {
            InsertEntryKeeps(cfg, genesis, w, pid, p);
          }
        case Written(_, _, _) => CommitKeeps(cfg, genesis, w, pid);
        case Rechecking(_, _) => RecheckKeeps(cfg, genesis, w, pid, p);
        case _ =>
      }
  }

  lemma {:induction false} RunKeeps(cfg: Config, genesis: Db, acts: seq<Action>)
    ensures Inv(cfg, genesis, Run(cfg, genesis, acts))
  {
    if acts != [] {
      RunKeeps(cfg, genesis, acts[..|acts| - 1]);
      StepKeeps(cfg, genesis, Run(cfg, genesis, acts[..|acts| - 1]), acts[|acts| - 1]);
    }
  }

  // ---------------------------------------------------------- the theorems

  lemma {:induction false} FaithfulAt(cfg: Config, genesis: Db, history: seq<Rec>, i: nat)
    requires Faithful(cfg, genesis, history) && i < |history|
    ensures Matches(history[i].op, Check(Serial(cfg, genesis, history[..i]), history[i].op, history[i].newId), history[i].outcome)
  {
    if i < |history| - 1 {
      assert history[..|history| - 1][..i] == history[..i];
      FaithfulAt(cfg, genesis, history[..|history| - 1], i);
    }
  }

  /** Every interleaving of transfers, pending creations, posts, fails and
      account creations leaves the committed tables that its decided calls
      leave when run one at a time in decision order (for the accepted ones
      that is commit order), each accepted exactly when it is accepted there;
      and every caller was told the decision on its own call, no two callers
      the same one. */
  lemma Serializable(cfg: Config, genesis: Db, acts: seq<Action>)
    ensures var w := Run(cfg, genesis, acts);
      && w.db == Serial(cfg, genesis, w.history)
      && (forall i :: 0 <= i < |w.history| ==>
            var r := w.history[i];
            var alone := Check(Serial(cfg, genesis, w.history[..i]), r.op, r.newId);
            (r.outcome.Ok? <==> alone.Ok?) && Matches(r.op, alone, r.outcome))
      && (forall pid :: pid in w.procs && w.procs[pid].Finished? ==> TellsOwn(acts, w, pid))
      && (forall pid, qid :: Both(w, pid, qid) && pid != qid ==> w.procs[pid].at != w.procs[qid].at)
  {
    RunKeeps(cfg, genesis, acts);
    AnswersAreOwn(cfg, genesis, acts);
    var w := Run(cfg, genesis, acts);
    hide Run;
    forall i | 0 <= i < |w.history|
      ensures Matches(w.history[i].op, Check(Serial(cfg, genesis, w.history[..i]), w.history[i].op, w.history[i].newId), w.history[i].outcome)
    {
      FaithfulAt(cfg, genesis, w.history, i);
    }
  }

  lemma AloneNeverConflicts(db: Db, op: Op, newId: Id)
    ensures Check(db, op, newId) != Err(StatusConflict)
  {}

  /** ErrStatusConflict is never returned: a lost compare-and-swap always finds
      the transaction in a final status. */
  lemma NoStatusConflict(cfg: Config, genesis: Db, acts: seq<Action>, i: nat)
    requires i < |Run(cfg, genesis, acts).history|
    ensures Run(cfg, genesis, acts).history[i].outcome != Err(StatusConflict)
  {
    hide Run;
    var history := Run(cfg, genesis, acts).history;
    Serializable(cfg, genesis, acts);
    var alone := Serial(cfg, genesis, history[..i]);
    hide Check, Serial;
    AloneNeverConflicts(alone, history[i].op, history[i].newId);
  }

  predicate Settled(db: Db, tenant: Id, txn: Id) {
    var f := Lookup(db.txns, tenant, txn);
    f.At? && !db.txns[f.index].status.Pending?
  }

  lemma ApplySettled(cfg: Config, db: Db, op: Op, newId: Id, tenant: Id, txn: Id)
    requires Settled(db, tenant, txn)
    ensures Settled(Apply(cfg, db, op, newId), tenant, txn)
  {
    var d := Apply(cfg, db, op, newId);
    if Check(db, op, newId).Ok? {
      match op
      case Transfer(t, es, _) => SameRowAfterInsert(db, d, Txn(newId, t, Posted, es), tenant, txn);
      case CreatePending(t, es, _) => SameRowAfterInsert(db, d, Txn(newId, t, Pending, es), tenant, txn);
      case Post(t, id, _) => SameRowAfterStatus(cfg, db, d, t, id, Posted, tenant, txn);
      case Fail(t, id, _) => SameRowAfterStatus(cfg, db, d, t, id, Failed, tenant, txn);
      case CreateAccount(_, _, _) =>
    }
  }

  lemma {:induction false} SettledForever(cfg: Config, genesis: Db, history: seq<Rec>, n: nat, tenant: Id, txn: Id)
    requires n <= |history| && Settled(Serial(cfg, genesis, history[..n]), tenant, txn)
    ensures Settled(Serial(cfg, genesis, history), tenant, txn)
  {
    if n < |history| {
      var m, r := |history| - 1, history[|history| - 1];
      assert history[..m][..n] == history[..n];
      SettledForever(cfg, genesis, history[..m], n, tenant, txn);
      hide Settled, Apply;
      ApplySettled(cfg, Serial(cfg, genesis, history[..m]), r.op, r.newId, tenant, txn);
    } else {
      assert history[..n] == history;
    }
  }

  predicate Settles(r: Rec, tenant: Id, txn: Id) {
    r.outcome.Ok? && (r.op.Post? || r.op.Fail?) && r.op.tenant == tenant && r.op.txn == txn
  }

  /** Accepting a post or a fail settles its transaction, which no settled one
      allows. */
  lemma SettlingSettles(cfg: Config, db: Db, r: Rec, tenant: Id, txn: Id)
    requires Settles(r, tenant, txn) && Check(db, r.op, r.newId).Ok?
    ensures !Settled(db, tenant, txn) && Settled(Apply(cfg, db, r.op, r.newId), tenant, txn)
  {
    LookupSetStatus(db.txns, Lookup(db.txns, tenant, txn).index, if r.op.Post? then Posted else Failed, tenant, txn);
  }

  lemma SettledOnceInHistory(cfg: Config, genesis: Db, acts: seq<Action>, i: nat, j: nat, tenant: Id, txn: Id)
    requires var h := Run(cfg, genesis, acts).history;
      i < |h| && j < |h| && Settles(h[i], tenant, txn) && Settles(h[j], tenant, txn)
    ensures i == j
  {
    var h := Run(cfg, genesis, acts).history;
    RunKeeps(cfg, genesis, acts);
    hide Run, Inv, Settled, Check, Apply;
    if i != j {
      var lo, hi := if i < j then i else j, if i < j then j else i;
      FaithfulAt(cfg, genesis, h, lo);
      FaithfulAt(cfg, genesis, h, hi);
      SettlingSettles(cfg, Serial(cfg, genesis, h[..lo]), h[lo], tenant, txn);
      SettlingSettles(cfg, Serial(cfg, genesis, h[..hi]), h[hi], tenant, txn);
      assert h[..hi][..lo + 1] == h[..lo + 1] && h[..lo + 1][..lo] == h[..lo];
      SettledForever(cfg, genesis, h[..hi], lo + 1, tenant, txn);
      assert false;
    }
  }

  /** However many posts and fails of a transaction race, at most one caller is
      told that its own was accepted. */
  lemma SettledOnce(cfg: Config, genesis: Db, acts: seq<Action>, pid: Id, qid: Id, tenant: Id, txn: Id)
    requires var w := Run(cfg, genesis, acts);
      Both(w, pid, qid) && Settles(w.procs[pid].rec, tenant, txn) && Settles(w.procs[qid].rec, tenant, txn)
    ensures pid == qid
  {
    AnswersAreOwn(cfg, genesis, acts);
    var w := Run(cfg, genesis, acts);
    assert TellsOwn(acts, w, pid) && TellsOwn(acts, w, qid);
    SettledOnceInHistory(cfg, genesis, acts, w.procs[pid].at, w.procs[qid].at, tenant, txn);
  }

  // ------------------------------------ the sequential laws, on interleavings

  /** From any well-formed seeded state, every interleaving whose requests are
      small keeps every balance in [0, 2^63) and each tenant's exact total. */
  lemma InterleavedConservation(cfg: Config, genesis: Db, acts: seq<Action>, tenant: Id)
    requires WellFormed(genesis) && Solvent(genesis) && SmallPending(genesis.txns)
    requires forall act :: act in acts && act.Start? ==> SmallRequest(act.op)
    ensures var db := Run(cfg, genesis, acts).db;
      Solvent(db) && TenantTotal(db, tenant) == TenantTotal(genesis, tenant)
  {
    RunKeeps(cfg, genesis, acts);
    SmallRun(cfg, genesis, acts);
    ConservedAndSolvent(cfg, genesis, Run(cfg, genesis, acts).history, tenant);
  }

  predicate SmallProc(p: Proc) {
    match p
    case Finished(_, _) => true
    case Aborted => true
    case _ => SmallRequest(p.op)
  }

  lemma SmallAdvance(cfg: Config, w: World, pid: Id, p: Proc, newId: Id, order: seq<Entry>)
    requires SmallRequests(w.history) && SmallProc(p)
    ensures var v := Advance(cfg, w, pid, p, newId, order);
      && SmallRequests(v.history)
      && (v == w || (v.procs == w.procs[pid := v.procs[pid]] && pid in v.procs && SmallProc(v.procs[pid])))
  {
    hide Install, Project, Validate, Lookup, NoneNegative, FreshTxn, FreshAccount, LockedElsewhere, SharedElsewhere;
    hide RowLockedElsewhere, InRange, BalancesOf, Owned, SmallRequest, Sorted, Accounts;
  }

  lemma SmallStep(cfg: Config, w: World, act: Action)
    requires SmallRequests(w.history) && forall p :: p in w.procs ==> SmallProc(w.procs[p])
    requires act.Start? ==> SmallRequest(act.op)
    ensures var v := Next(cfg, w, act);
      SmallRequests(v.history) && forall p :: p in v.procs ==> SmallProc(v.procs[p])
  {
    if act.Step? && act.pid in w.procs {
      SmallAdvance(cfg, w, act.pid, w.procs[act.pid], act.newId, act.order);
    }
    hide Advance, SmallRequest;
  }

  lemma {:induction false} SmallRun(cfg: Config, genesis: Db, acts: seq<Action>)
    requires forall act :: act in acts && act.Start? ==> SmallRequest(act.op)
    ensures var w := Run(cfg, genesis, acts);
      SmallRequests(w.history) && forall p :: p in w.procs ==> SmallProc(w.procs[p])
  {
    if acts != [] {
      var init := acts[..|acts| - 1];
      assert forall act :: act in init ==> act in acts;
      SmallRun(cfg, genesis, init);
      SmallStep(cfg, Run(cfg, genesis, init), acts[|acts| - 1]);
    }
  }

  /** Tenant closure on interleavings: the unfiltered balance queries of any
      reachable state return the tenant's own sum. */
  lemma InterleavedTenantSafety(cfg: Config, genesis: Db, acts: seq<Action>, tenant: Id, a: Id)
    requires WellFormed(genesis) && Owned(Run(cfg, genesis, acts).db, tenant, a)
    ensures var db := Run(cfg, genesis, acts).db;
      TenantClosed(db) && Balance(db.txns, a) == BalanceWithin(db.txns, tenant, a)
  {
    RunKeeps(cfg, genesis, acts);
    var history := Run(cfg, genesis, acts).history;
    TotalsModulo(cfg, genesis, history, tenant);
    BalanceQueryIsTenantSafe(cfg, genesis, history, tenant, a);
  }

  /** And the logs: with the recorders configured, the audit rows of any
      interleaving rebuild its tables and its outbox tells every life. */
  lemma InterleavedLogs(cfg: Config, genesis: Db, acts: seq<Action>)
    requires cfg.recordAudit && cfg.emitEvents && WellFormed(genesis)
    ensures var db := Run(cfg, genesis, acts).db;
      && genesis.audit <= db.audit && genesis.events <= db.events
      && Replay(BookOf(genesis), db.audit[|genesis.audit|..]) == BookOf(db)
      && OutboxTellsAll(genesis, db, db.events[|genesis.events|..])
  {
    RunKeeps(cfg, genesis, acts);
    var history := Run(cfg, genesis, acts).history;
    AuditRebuildsTheLedger(cfg, genesis, history);
    OutboxIsComplete(cfg, genesis, history);
  }
}
