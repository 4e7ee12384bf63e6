// Deadlock-freedom of the ledger's row locks.
module LedgerDeadlock {
  import opened Money
  import opened Ids
  import opened Ledger
  import opened LedgerMachine
  import opened LedgerLaws
  import opened LedgerAnswers
  import opened LedgerSerial

  datatype Resource = AccountRow(a: Id) | TxnRow(t: Id)

  datatype Want = Nothing | Wants(r: Resource)

  /** The row a process needs next. */
  function WantOf(p: Proc): Want {
    match p
    case Locking(_, _, todo, _, _) => if todo == [] then Nothing else Wants(AccountRow(todo[0]))
    case Approved(op, _) => if op.Post? || op.Fail? then Wants(TxnRow(op.txn)) else Nothing
    case Inserting(op, _, k) =>
      if op.CreatePending? && k < |op.entries| then Wants(AccountRow(op.entries[k].account)) else Nothing
    case _ => Nothing
  }

  /** q holds a lock that conflicts with what p needs next. FOR KEY SHARE
      conflicts with FOR UPDATE but not with itself. */
  predicate Conflicts(p: Proc, q: Proc) {
    match WantOf(p)
    case Nothing => false
    case Wants(AccountRow(a)) => a in Exclusive(q) || (p.Locking? && a in Shared(q))
    case Wants(TxnRow(t)) => t in RowLock(q)
  }

  /** An edge of the waits-for graph. */
  predicate WaitsFor(w: World, p: Id, q: Id) {
    p in w.procs && q in w.procs && p != q && Conflicts(w.procs[p], w.procs[q])
  }

  ghost predicate Waiting(w: World, p: Id) { exists q :: WaitsFor(w, p, q) }

  /** The graph is the machine's own: a call that needs a row cannot move exactly
      when it waits for another. */
  lemma BlockedIff(cfg: Config, w: World, p: Id, newId: Id, order: seq<Entry>)
    requires p in w.procs && WantOf(w.procs[p]).Wants?
    requires w.procs[p].Inserting? ==> w.procs[p].op.entries[w.procs[p].k].account in w.db.accounts
    ensures Next(cfg, w, Step(p, newId, order)) == w <==> Waiting(w, p)
  {
    var v, c := Next(cfg, w, Step(p, newId, order)), w.procs[p];
    match WantOf(c).r
    case AccountRow(a) =>
      assert Waiting(w, p) <==> LockedElsewhere(w, p, a) || (c.Locking? && SharedElsewhere(w, p, a)) by {
        if q :| q in w.procs && q != p && a in Exclusive(w.procs[q]) { assert WaitsFor(w, p, q); }
        if q :| q in w.procs && q != p && c.Locking? && a in Shared(w.procs[q]) { assert WaitsFor(w, p, q); }
      }
      hide LockedElsewhere, SharedElsewhere, Waiting;
      if v == w {
        assert v.procs[p] == c;
      }
    case TxnRow(t) =>
      assert Waiting(w, p) <==> RowLockedElsewhere(w, p, t) by {
        if q :| q in w.procs && q != p && t in RowLock(w.procs[q]) { assert WaitsFor(w, p, q); }
      }
      hide RowLockedElsewhere, Waiting;
      if v == w {
        assert v.procs[p] == c;
      }
  }

  function Following(cycle: seq<Id>, i: nat): Id
    requires i < |cycle|
  {
    if i + 1 < |cycle| then cycle[i + 1] else cycle[0]
  }

  /** A cycle of the waits-for graph. */
  ghost predicate Deadlock(w: World, cycle: seq<Id>) {
    cycle != [] && forall i :: 0 <= i < |cycle| ==> WaitsFor(w, cycle[i], Following(cycle, i))
  }

  /** A valid request that names some account before one with a lower id it has
      not named yet. */
  predicate Disorderly(es: seq<Entry>) { Validate(es).Ok? && !Ascending(FirstSeen(es)) }

  /** A pending creation that inserts the entries of such a request. */
  predicate Disordered(p: Proc) { p.Inserting? && p.op.CreatePending? && Disorderly(p.op.entries) }

  /** Account rows by id, then transaction rows. */
  predicate Before(r: Resource, s: Resource) {
    match (r, s)
    case (AccountRow(a), AccountRow(b)) => a < b
    case (AccountRow(_), TxnRow(_)) => true
    case _ => false
  }

  /** In an ordered request an account named for the first time has a higher id
      than every one before it. */
  lemma {:induction false} OrderedNames(es: seq<Entry>, k: nat, a: Id)
    requires Ascending(FirstSeen(es)) && k < |es|
    requires a in Accounts(es[..k]) && es[k].account !in Accounts(es[..k])
    ensures a < es[k].account
  {
    var n := |es| - 1;
    if k < n {
      assert es[..n][..k] == es[..k];
      assert FirstSeen(es)[..|FirstSeen(es[..n])|] == FirstSeen(es[..n]);
      assert forall i :: 0 <= i < |FirstSeen(es[..n])| ==> FirstSeen(es)[i] == FirstSeen(es[..n])[i];
      OrderedNames(es[..n], k, a);
    } else {
      var i :| 0 <= i < |FirstSeen(es[..n])| && FirstSeen(es[..n])[i] == a;
      assert FirstSeen(es) == FirstSeen(es[..n]) + [es[k].account];
      assert FirstSeen(es)[i] == a && FirstSeen(es)[|FirstSeen(es)| - 1] == es[k].account;
    }
  }

  /** Along an edge the wanted rows strictly ascend, as long as the process at
      its end waits too and inserts in order. */
  lemma EdgeAscends(cfg: Config, genesis: Db, w: World, p: Id, q: Id)
    requires Inv(cfg, genesis, w) && WaitsFor(w, p, q) && Waiting(w, q) && !Disordered(w.procs[q])
    ensures Before(WantOf(w.procs[p]).r, WantOf(w.procs[q]).r)
  {
    var x :| WaitsFor(w, q, x);
    assert Rely(w.db, w.procs[q]) && Apart(w.procs[q], w.procs[x]);
    var held := w.procs[q];
    match held
    case Locking(_, _, todo, _, _) => assert todo[0] in todo;
    case Inserting(op, _, k) =>
      assert op.entries[k].account !in Accounts(op.entries[..k]);
      OrderedNames(op.entries, k, WantOf(w.procs[p]).r.a);
    case _ =>
  }

  lemma {:induction false} CycleAscends(cfg: Config, genesis: Db, w: World, cycle: seq<Id>, i: nat)
    requires Inv(cfg, genesis, w) && Deadlock(w, cycle)
    requires forall k :: 0 <= k < |cycle| ==> cycle[k] in w.procs && !Disordered(w.procs[cycle[k]])
    requires 0 < i < |cycle|
    ensures Before(WantOf(w.procs[cycle[0]]).r, WantOf(w.procs[cycle[i]]).r)
  {
    hide Inv;
    assert WaitsFor(w, cycle[i - 1], Following(cycle, i - 1)) && WaitsFor(w, cycle[i], Following(cycle, i));
    EdgeAscends(cfg, genesis, w, cycle[i - 1], cycle[i]);
    if i > 1 {
      CycleAscends(cfg, genesis, w, cycle, i - 1);
    }
  }

  /** In every reachable world a cycle of the waits-for graph contains a pending
      creation inserting the entries of a request that names its accounts out of
      id order: any number of transfers, posts, fails, account creations and
      ordered pending creations never deadlock. */
  lemma DeadlockNeedsDisorder(cfg: Config, genesis: Db, acts: seq<Action>, cycle: seq<Id>)
    requires Deadlock(Run(cfg, genesis, acts), cycle)
    ensures var w := Run(cfg, genesis, acts);
      exists k :: 0 <= k < |cycle| && cycle[k] in w.procs && Disordered(w.procs[cycle[k]])
  {
    var w := Run(cfg, genesis, acts);
    RunKeeps(cfg, genesis, acts);
    hide Inv, Run, Disordered;
    forall k | 0 <= k < |cycle| ensures cycle[k] in w.procs {
      assert WaitsFor(w, cycle[k], Following(cycle, k));
    }
    if forall k :: 0 <= k < |cycle| ==> !Disordered(w.procs[cycle[k]]) {
      var n := |cycle| - 1;
      assert WaitsFor(w, cycle[n], Following(cycle, n)) && WaitsFor(w, cycle[0], Following(cycle, 0));
      EdgeAscends(cfg, genesis, w, cycle[n], cycle[0]);
      if n > 0 {
        CycleAscends(cfg, genesis, w, cycle, n);
      }
      assert false;
    }
  }

  ghost function Ahead(w: World, r: Resource): set<Id> {
    set q | q in w.procs && WantOf(w.procs[q]).Wants? && Before(r, WantOf(w.procs[q]).r)
  }

  /** Progress: behind every wait there is a lock holder that waits for nobody. */
  lemma {:induction false} SomeoneMoves(cfg: Config, genesis: Db, w: World, p: Id) returns (q: Id)
    requires Inv(cfg, genesis, w) && Waiting(w, p)
    requires forall x :: x in w.procs ==> !Disordered(w.procs[x])
    ensures q in w.procs && !Waiting(w, q)
    ensures Exclusive(w.procs[q]) != {} || Shared(w.procs[q]) != {} || RowLock(w.procs[q]) != {}
    decreases |Ahead(w, WantOf(w.procs[p]).r)|
  {
    q :| WaitsFor(w, p, q);
    if Waiting(w, q) {
      EdgeAscends(cfg, genesis, w, p, q);
      var mine, its := Ahead(w, WantOf(w.procs[p]).r), Ahead(w, WantOf(w.procs[q]).r);
      assert its <= mine && q in mine && q !in its;
      Smaller(its, mine);
      q := SomeoneMoves(cfg, genesis, w, q);
    }
  }

  // ------------------------------------------------- the condition is exact

  /** The only pending creation asked for in these actions is op. */
  predicate OnlyCreation(acts: seq<Action>, op: Op) {
    forall act :: act in acts && act.Start? && act.op.CreatePending? ==> act.op == op
  }

  lemma OrderedNeverDeadlocks(cfg: Config, genesis: Db, acts: seq<Action>, op: Op, cycle: seq<Id>)
    requires op.CreatePending? && !Disorderly(op.entries) && OnlyCreation(acts, op)
    ensures !Deadlock(Run(cfg, genesis, acts), cycle)
  {
    var w := Run(cfg, genesis, acts);
    RunOwn(cfg, genesis, acts);
    hide Run, Disorderly, Deadlock;
    forall p | p in w.procs ensures !Disordered(w.procs[p]) {
      assert OwnCall(acts, w.history, p, w.procs[p]);
    }
    if Deadlock(w, cycle) {
      DeadlockNeedsDisorder(cfg, genesis, acts, cycle);
    }
  }

  /** The place where a request goes back: entry k names an account for the first
      time whose id is below that of a, which was named before. */
  lemma {:induction false} GoesBack(es: seq<Entry>) returns (k: nat, a: Id)
    requires !Ascending(FirstSeen(es))
    ensures k < |es| && a in Accounts(es[..k]) && es[k].account !in Accounts(es[..k]) && es[k].account < a
  {
    var n := |es| - 1;
    if Ascending(FirstSeen(es[..n])) {
      k := n;
      var i :| 0 <= i < |FirstSeen(es[..n])| && FirstSeen(es[..n])[i] >= es[n].account;
      a := FirstSeen(es[..n])[i];
    } else {
      k, a := GoesBack(es[..n]);
      assert es[..n][..k] == es[..k];
    }
  }

  /** A database in which the request's accounts are all its tenant's. */
  function Opened(tenant: Id, es: seq<Entry>): Db {
    Db(map a | a in Accounts(es) :: Account(tenant, ""), [], [], [])
  }

  lemma InsertsOne(cfg: Config, op: Op, k: nat)
    requires op.CreatePending? && k < |op.entries|
    ensures var db := Opened(op.tenant, op.entries);
      Next(cfg, World(db, map[0 := Inserting(op, 0, k)], []), Step(0, 0, [])) == World(db, map[0 := Inserting(op, 0, k + 1)], [])
  {
    var w := World(Opened(op.tenant, op.entries), map[0 := Inserting(op, 0, k)], []);
    assert op.entries[k] in op.entries;
    assert !LockedElsewhere(w, 0, op.entries[k].account);
    hide LockedElsewhere, Accounts;
    assert w.procs[0 := Inserting(op, 0, k + 1)] == map[0 := Inserting(op, 0, k + 1)];
  }

  lemma BeginsInserting(cfg: Config, op: Op)
    requires op.CreatePending? && Validate(op.entries).Ok?
    ensures var db := Opened(op.tenant, op.entries);
      Next(cfg, World(db, map[0 := Begun(op)], []), Step(0, 0, [])) == World(db, map[0 := Inserting(op, 0, 0)], [])
  {
    var w := World(Opened(op.tenant, op.entries), map[0 := Begun(op)], []);
    assert FreshTxn(w, 0);
    hide FreshTxn, Validate;
    assert w.procs[0 := Inserting(op, 0, 0)] == map[0 := Inserting(op, 0, 0)];
  }

  lemma {:induction false} Inserted(cfg: Config, op: Op, k: nat) returns (acts: seq<Action>)
    requires op.CreatePending? && Validate(op.entries).Ok? && k <= |op.entries|
    ensures Run(cfg, Opened(op.tenant, op.entries), acts) ==
      World(Opened(op.tenant, op.entries), map[0 := Inserting(op, 0, k)], [])
    ensures OnlyCreation(acts, op)
  {
    var db := Opened(op.tenant, op.entries);
    var go := Step(0, 0, []);
    if k == 0 {
      BeginsInserting(cfg, op);
      acts := [Start(0, op)];
      assert Run(cfg, db, acts) == World(db, map[0 := Begun(op)], []) by {
        RunSnoc(cfg, db, [], Start(0, op));
        assert [] + [Start(0, op)] == acts && Run(cfg, db, []) == World(db, map[], []);
      }
    } else {
      InsertsOne(cfg, op, k - 1);
      acts := Inserted(cfg, op, k - 1);
    }
    hide Run, Next, Validate;
    RunSnoc(cfg, db, acts, go);
    acts := acts + [go];
  }

  lemma SortedPair(a: Id, b: Id)
    requires a < b
    ensures Sorted({a, b}) == [a, b]
  {
    assert {a, b} - {a} == {b} && {b} - {b} == {};
    assert Sorted({b}) == [b];
  }

  function Mover(tenant: Id, a: Id, b: Id): Op { Transfer(tenant, [Entry(b, -5), Entry(a, 5)], "") }

  lemma MoverIsValid(tenant: Id, a: Id, b: Id)
    ensures var op := Mover(tenant, a, b); Validate(op.entries).Ok? && Accounts(op.entries) == {a, b}
  {
    var es := Mover(tenant, a, b).entries;
    assert es[..1] == [Entry(b, -5)] && [Entry(b, -5)][..0] == [];
    assert Total([Entry(b, -5)]) == Total([Entry(b, -5)][..0]) - 5;
    assert Total(es) == Total(es[..1]) + 5;
    assert es[0] in es && es[1] in es;
  }

  /** The process of the transfer while it locks. */
  function MoverLocks(tenant: Id, a: Id, b: Id, todo: seq<Id>, held: set<Id>): Proc {
    var op := Mover(tenant, a, b);
    Locking(op, op.entries, todo, held, Alive)
  }

  lemma MoverSnapshot(cfg: Config, db: Db, p: Proc, tenant: Id, a: Id, b: Id)
    requires b < a && Owned(db, tenant, a) && Owned(db, tenant, b)
    ensures var op := Mover(tenant, a, b);
      Next(cfg, World(db, map[0 := p, 1 := Ready(op, op.entries)], []), Step(1, 0, [])) ==
      World(db, map[0 := p, 1 := MoverLocks(tenant, a, b, [b, a], {})], [])
  {
    var op := Mover(tenant, a, b);
    MoverIsValid(tenant, a, b);
    SortedPair(b, a);
    hide Sorted, Validate;
    assert (set x | x in Accounts(op.entries) && Owned(db, tenant, x)) == {b, a};
    hide Accounts, Owned;
    var w := World(db, map[0 := p, 1 := Ready(op, op.entries)], []);
    assert w.procs[1 := MoverLocks(tenant, a, b, [b, a], {})] == map[0 := p, 1 := MoverLocks(tenant, a, b, [b, a], {})];
  }

  lemma MoverTakes(cfg: Config, db: Db, p: Proc, tenant: Id, a: Id, b: Id)
    requires Exclusive(p) == {} && b !in Shared(p)
    ensures Next(cfg, World(db, map[0 := p, 1 := MoverLocks(tenant, a, b, [b, a], {})], []), Step(1, 0, [])) ==
      World(db, map[0 := p, 1 := MoverLocks(tenant, a, b, [a], {b})], [])
  {
    var w := World(db, map[0 := p, 1 := MoverLocks(tenant, a, b, [b, a], {})], []);
    assert !LockedElsewhere(w, 1, b) && !SharedElsewhere(w, 1, b);
    hide LockedElsewhere, SharedElsewhere, Exclusive, Shared;
    assert [b, a][1..] == [a] && {} + {b} == {b};
    assert w.procs[1 := MoverLocks(tenant, a, b, [a], {b})] == map[0 := p, 1 := MoverLocks(tenant, a, b, [a], {b})];
  }

  lemma MoverBegins(cfg: Config, db: Db, p: Proc, tenant: Id, a: Id, b: Id)
    ensures var op := Mover(tenant, a, b);
      && Next(cfg, World(db, map[0 := p], []), Start(1, op)) == World(db, map[0 := p, 1 := Begun(op)], [])
      && Next(cfg, World(db, map[0 := p, 1 := Begun(op)], []), Step(1, 0, [])) ==
         World(db, map[0 := p, 1 := Ready(op, op.entries)], [])
  {
    var op := Mover(tenant, a, b);
    MoverIsValid(tenant, a, b);
    hide Validate;
    assert map[0 := p][1 := Begun(op)] == map[0 := p, 1 := Begun(op)];
    assert map[0 := p, 1 := Begun(op)][1 := Ready(op, op.entries)] == map[0 := p, 1 := Ready(op, op.entries)];
  }

  lemma Go(cfg: Config, db: Db, before: seq<Action>, act: Action, v: World) returns (acts: seq<Action>)
    requires Next(cfg, Run(cfg, db, before), act) == v && !(act.Start? && act.op.CreatePending?)
    ensures Run(cfg, db, acts) == v && forall op :: OnlyCreation(before, op) ==> OnlyCreation(acts, op)
  {
    acts := before + [act];
    RunSnoc(cfg, db, before, act);
    hide Run, Next;
  }

  /** A transfer over a and b, b < a, locks b and then wants a. */
  lemma MoverAdvances(cfg: Config, db: Db, before: seq<Action>, p: Proc, tenant: Id, a: Id, b: Id) returns (acts: seq<Action>)
    requires Run(cfg, db, before) == World(db, map[0 := p], [])
    requires b < a && Owned(db, tenant, a) && Owned(db, tenant, b) && Exclusive(p) == {} && b !in Shared(p)
    ensures Run(cfg, db, acts) == World(db, map[0 := p, 1 := MoverLocks(tenant, a, b, [a], {b})], [])
    ensures forall op :: OnlyCreation(before, op) ==> OnlyCreation(acts, op)
  {
    var op, go := Mover(tenant, a, b), Step(1, 0, []);
    MoverBegins(cfg, db, p, tenant, a, b);
    MoverSnapshot(cfg, db, p, tenant, a, b);
    MoverTakes(cfg, db, p, tenant, a, b);
    hide Run, Next, Owned, Exclusive, Shared, OnlyCreation;
    acts := Go(cfg, db, before, Start(1, op), World(db, map[0 := p, 1 := Begun(op)], []));
    acts := Go(cfg, db, acts, go, World(db, map[0 := p, 1 := Ready(op, op.entries)], []));
    acts := Go(cfg, db, acts, go, World(db, map[0 := p, 1 := MoverLocks(tenant, a, b, [b, a], {})], []));
    acts := Go(cfg, db, acts, go, World(db, map[0 := p, 1 := MoverLocks(tenant, a, b, [a], {b})], []));
  }

  lemma TheyWait(w: World, op: Op, k: nat, tenant: Id, a: Id, b: Id)
    requires op.CreatePending? && k < |op.entries| && op.entries[k].account == b && a in Accounts(op.entries[..k])
    requires w.procs == map[0 := Inserting(op, 0, k), 1 := MoverLocks(tenant, a, b, [a], {b})]
    ensures Deadlock(w, [0, 1])
  {
    assert WaitsFor(w, 0, 1) && WaitsFor(w, 1, 0);
  }

  /** Any disorderly request can deadlock, alone with one transfer. */
  lemma PendingCreationCanDeadlock(cfg: Config, op: Op) returns (genesis: Db, acts: seq<Action>)
    requires op.CreatePending? && Disorderly(op.entries)
    ensures WellFormed(genesis) && OnlyCreation(acts, op) && Deadlock(Run(cfg, genesis, acts), [0, 1])
  {
    var es := op.entries;
    var k, a := GoesBack(es);
    var b := es[k].account;
    genesis := Opened(op.tenant, es);
    assert es[k] in es && Accounts(es[..k]) <= Accounts(es);
    hide Run, Deadlock, OnlyCreation, Ascending, FirstSeen, Validate;
    acts := Inserted(cfg, op, k);
    assert Owned(genesis, op.tenant, a) && Owned(genesis, op.tenant, b) && WellFormed(genesis);
    hide WellFormed, Owned, Disorderly;
    acts := MoverAdvances(cfg, genesis, acts, Inserting(op, 0, k), op.tenant, a, b);
    TheyWait(Run(cfg, genesis, acts), op, k, op.tenant, a, b);
  }

  /** A request to create a pending transaction can take part in a deadlock, with
      no other such request about, if and only if it is valid and names some
      account before one with a lower id it has not named yet. */
  lemma DeadlockIff(cfg: Config, op: Op)
    requires op.CreatePending?
    ensures Disorderly(op.entries) <==>
      exists genesis, acts, cycle :: OnlyCreation(acts, op) && Deadlock(Run(cfg, genesis, acts), cycle)
  {
    if Disorderly(op.entries) {
      var genesis, acts := PendingCreationCanDeadlock(cfg, op);
    } else {
      forall genesis, acts, cycle | OnlyCreation(acts, op) ensures !Deadlock(Run(cfg, genesis, acts), cycle) {
        OrderedNeverDeadlocks(cfg, genesis, acts, op, cycle);
      }
    }
  }
}
