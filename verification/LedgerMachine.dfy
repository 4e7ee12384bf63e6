// The ledger's calls interleaved: every call is a process cut at its SQL
// statements and its commit, under READ COMMITTED with row locks held to the
// end of the transaction. A disabled step leaves the world as it is, so a run
// is any list of actions.
module LedgerMachine {
  import opened Money
  import opened Ids
  import opened Ledger

  /** Whether the lock query's snapshot has found too few accounts; the call will
      be told so once it has locked those it found. */
  datatype Doom = Alive | Doomed(at: nat)

  /** at is a history variable: the position of the call's record. */
  datatype Proc =
    | Begun(op: Op)
    | Fetching(op: Op)                        // the row was read as pending, its entries not yet
    | Ready(op: Op, es: seq<Entry>)           // about to issue the lock query
    | Locking(op: Op, es: seq<Entry>, todo: seq<Id>, held: set<Id>, doom: Doom)
    | Weighed(op: Op, es: seq<Entry>, bal: map<Id, Int64>)
    | Approved(op: Op, es: seq<Entry>)        // about to insert, or to compare and swap
    | Inserting(op: Op, newId: Id, k: nat)    // a pending creation, entry k is next
    | Written(op: Op, es: seq<Entry>, newId: Id)
    | Rechecking(op: Op, es: seq<Entry>)      // the compare-and-swap matched no row
    | Finished(rec: Rec, at: nat)             // the caller has its answer
    | Aborted

  /** history holds one record per call whose outcome is decided. */
  datatype World = World(db: Db, procs: map<Id, Proc>, history: seq<Rec>)

  /** A step carries what the code does not control: a generated id, and the
      order in which entries come back from ORDER BY created_at. */
  datatype Action =
    | Start(pid: Id, op: Op)
    | Step(pid: Id, newId: Id, order: seq<Entry>)
    | Abort(pid: Id)

  // ------------------------------------------------------------------ locks

  /** Account rows locked FOR UPDATE. */
  function Exclusive(p: Proc): set<Id> {
    match p
    case Locking(_, _, _, held, _) => held
    case Weighed(_, es, _) => Accounts(es)
    case Approved(_, es) => Accounts(es)
    case Written(_, es, _) => Accounts(es)
    case Rechecking(_, es) => Accounts(es)
    case _ => {}
  }

  /** Account rows locked FOR KEY SHARE by the foreign key of inserted entries. */
  function Shared(p: Proc): set<Id> {
    match p
    case Inserting(op, _, k) => if op.CreatePending? && k <= |op.entries| then Accounts(op.entries[..k]) else {}
    case Written(op, _, _) => if op.CreatePending? then Accounts(op.entries) else {}
    case _ => {}
  }

  /** The transactions row an uncommitted status update holds. */
  function RowLock(p: Proc): set<Id> {
    if p.Written? && (p.op.Post? || p.op.Fail?) then {p.op.txn} else {}
  }

  function NewTxnIds(p: Proc): set<Id> {
    match p
    case Inserting(_, newId, _) => {newId}
    case Written(op, _, newId) => if op.Transfer? || op.CreatePending? then {newId} else {}
    case _ => {}
  }

  function NewAccountIds(p: Proc): set<Id> {
    if p.Written? && p.op.CreateAccount? then {p.newId} else {}
  }

  predicate LockedElsewhere(w: World, pid: Id, a: Id) {
    exists q :: q in w.procs && q != pid && a in Exclusive(w.procs[q])
  }

  predicate SharedElsewhere(w: World, pid: Id, a: Id) {
    exists q :: q in w.procs && q != pid && a in Shared(w.procs[q])
  }

  predicate RowLockedElsewhere(w: World, pid: Id, id: Id) {
    exists q :: q in w.procs && q != pid && id in RowLock(w.procs[q])
  }

  /** gen_random_uuid: an id no committed row and no open transaction has. */
  predicate FreshTxn(w: World, id: Id) {
    !IdTaken(w.db.txns, id) && forall q :: q in w.procs ==> id !in NewTxnIds(w.procs[q])
  }

  predicate FreshAccount(w: World, id: Id) {
    id !in w.db.accounts && forall q :: q in w.procs ==> id !in NewAccountIds(w.procs[q])
  }

  // ------------------------------------------------------------------ steps

  function Move(w: World, pid: Id, p: Proc): World { w.(procs := w.procs[pid := p]) }

  function Reject(w: World, pid: Id, op: Op, newId: Id, e: Error): World {
    var r := Rec(op, newId, Err(e));
    World(w.db, w.procs[pid := Finished(r, |w.history|)], w.history + [r])
  }

  /** COMMIT makes the transaction's own writes visible; nothing is re-checked. */
  function Commit(cfg: Config, w: World, pid: Id, op: Op, newId: Id): World {
    var r := Rec(op, newId, Ok);
    World(Install(cfg, w.db, op, newId), w.procs[pid := Finished(r, |w.history|)], w.history + [r])
  }

  function Begin(w: World, pid: Id, op: Op, newId: Id): World {
    match op
    case Transfer(_, es, _) =>
      if Validate(es).Err? then Reject(w, pid, op, newId, Validate(es).error) else Move(w, pid, Ready(op, es))
    case CreatePending(_, es, _) =>
      if Validate(es).Err? then Reject(w, pid, op, newId, Validate(es).error)
      else if FreshTxn(w, newId) then Move(w, pid, Inserting(op, newId, 0)) else w
    case CreateAccount(_, _, _) =>
      if FreshAccount(w, newId) then Move(w, pid, Written(op, [], newId)) else w
    case _ =>
      var f := Lookup(w.db.txns, op.tenant, op.txn);
      if f.Missing? then Reject(w, pid, op, newId, TransactionNotFound)
      else if !w.db.txns[f.index].status.Pending? then Reject(w, pid, op, newId, TransactionNotPending)
      else Move(w, pid, Fetching(op))
  }

  /** The second statement of GetTransaction. */
  function Fetch(w: World, pid: Id, op: Op, order: seq<Entry>): World
    requires op.Post? || op.Fail?
  {
    var f := Lookup(w.db.txns, op.tenant, op.txn);
    if f.At? && multiset(order) == multiset(w.db.txns[f.index].entries) then
      Move(w, pid, if op.Post? then Ready(op, order) else Approved(op, []))
    else w
  }

  /** The lock query's snapshot fixes which rows it will lock. */
  function Snapshot(w: World, pid: Id, op: Op, es: seq<Entry>): World {
    var found := set a | a in Accounts(es) && Owned(w.db, op.tenant, a);
    if found == Accounts(es) then Move(w, pid, Locking(op, es, Sorted(found), {}, Alive))
    else
      World(w.db, w.procs[pid := Locking(op, es, Sorted(found), {}, Doomed(|w.history|))],
            w.history + [Rec(op, 0, Err(AccountNotFound))])
  }

  function Lock(w: World, pid: Id, p: Proc): World
    requires p.Locking?
  {
    if p.todo != [] then
      var a := p.todo[0];
      if LockedElsewhere(w, pid, a) || SharedElsewhere(w, pid, a) then w
      else Move(w, pid, p.(todo := p.todo[1..], held := p.held + {a}))
    else if p.doom.Doomed? then Move(w, pid, Finished(Rec(p.op, 0, Err(AccountNotFound)), p.doom.at))
    else if !InRange(w.db.txns, Accounts(p.es)) then Reject(w, pid, p.op, 0, BalanceOutOfRange)
    else Move(w, pid, Weighed(p.op, p.es, BalancesOf(w.db.txns, Accounts(p.es))))
  }

  /** The projection and its check, on the balances read under the locks. */
  function Weigh(w: World, pid: Id, op: Op, es: seq<Entry>, bal: map<Id, Int64>): World {
    if NoneNegative(Project(bal, es)) then Move(w, pid, Approved(op, es))
    else Reject(w, pid, op, 0, InsufficientFunds)
  }

  function InsertRows(w: World, pid: Id, op: Op, es: seq<Entry>, newId: Id): World {
    if FreshTxn(w, newId) then Move(w, pid, Written(op, es, newId)) else w
  }

  function Swap(w: World, pid: Id, op: Op, es: seq<Entry>): World
    requires op.Post? || op.Fail?
  {
    if RowLockedElsewhere(w, pid, op.txn) then w
    else
      var f := Lookup(w.db.txns, op.tenant, op.txn);
      if f.At? && w.db.txns[f.index].status.Pending? then Move(w, pid, Written(op, es, 0))
      else Move(w, pid, Rechecking(op, es))
  }

  function Recheck(w: World, pid: Id, op: Op): World
    requires op.Post? || op.Fail?
  {
    var f := Lookup(w.db.txns, op.tenant, op.txn);
    if f.Missing? then Reject(w, pid, op, 0, TransactionNotFound)
    else if !w.db.txns[f.index].status.Pending? then Reject(w, pid, op, 0, TransactionNotPending)
    else Reject(w, pid, op, 0, StatusConflict)
  }

  function InsertEntry(w: World, pid: Id, op: Op, newId: Id, k: nat): World
    requires op.CreatePending?
  {
    if k >= |op.entries| then Move(w, pid, Written(op, [], newId))
    else
      var a := op.entries[k].account;
      if a !in w.db.accounts then Reject(w, pid, op, newId, ForeignKey)
      else if LockedElsewhere(w, pid, a) then w
      else Move(w, pid, Inserting(op, newId, k + 1))
  }

  function Advance(cfg: Config, w: World, pid: Id, p: Proc, newId: Id, order: seq<Entry>): World {
    match p
    case Begun(op) => Begin(w, pid, op, newId)
    case Fetching(op) => if op.Post? || op.Fail? then Fetch(w, pid, op, order) else w
    case Ready(op, es) => Snapshot(w, pid, op, es)
    case Locking(_, _, _, _, _) => Lock(w, pid, p)
    case Weighed(op, es, bal) => Weigh(w, pid, op, es, bal)
    case Approved(op, es) =>
      if op.Post? || op.Fail? then Swap(w, pid, op, es) else InsertRows(w, pid, op, es, newId)
    case Inserting(op, id, k) => if op.CreatePending? then InsertEntry(w, pid, op, id, k) else w
    case Written(op, _, id) => Commit(cfg, w, pid, op, id)
    case Rechecking(op, _) => if op.Post? || op.Fail? then Recheck(w, pid, op) else w
    case _ => w
  }

  function Next(cfg: Config, w: World, act: Action): World {
    match act
    case Start(pid, op) => if pid in w.procs then w else Move(w, pid, Begun(op))
    case Step(pid, newId, order) =>
      if pid in w.procs then Advance(cfg, w, pid, w.procs[pid], newId, order) else w
    case Abort(pid) =>
      if pid in w.procs && !w.procs[pid].Finished? then Move(w, pid, Aborted) else w
  }

  function After(cfg: Config, w: World, acts: seq<Action>): World {
    if acts == [] then w else Next(cfg, After(cfg, w, acts[..|acts| - 1]), acts[|acts| - 1])
  }

  /** The world after a list of actions, from committed state genesis. */
  function Run(cfg: Config, genesis: Db, acts: seq<Action>): World { After(cfg, World(genesis, map[], []), acts) }

  lemma RunSnoc(cfg: Config, genesis: Db, acts: seq<Action>, act: Action)
    ensures Run(cfg, genesis, acts + [act]) == Next(cfg, Run(cfg, genesis, acts), act)
  {
    assert (acts + [act])[..|acts|] == acts;
  }
}
