// What every run of the ledger keeps: well-formedness and tenant closure,
// conservation of each tenant's total, non-negative balances, and the
// equivalence of the two-phase and the one-phase transfer.
module LedgerLaws {
  import opened Sums
  import opened Money
  import opened Ledger

  // ------------------------------------------------------------- invariants

  ghost predicate DistinctIds(txns: seq<Txn>) {
    forall i, j :: 0 <= i < j < |txns| ==> txns[i].id != txns[j].id
  }

  /** Every entry of a posted transaction is on an account of its own tenant. */
  ghost predicate TenantClosed(db: Db) {
    forall t, a :: t in db.txns && t.status.Posted? && a in Accounts(t.entries) ==>
      Owned(db, t.tenant, a)
  }

  ghost predicate PendingValid(txns: seq<Txn>) {
    forall t :: t in txns && t.status.Pending? ==> Validate(t.entries).Ok?
  }

  ghost predicate WellFormed(db: Db) {
    DistinctIds(db.txns) && TenantClosed(db) && PendingValid(db.txns)
  }

  /** Seeded balances: every account between zero and the largest int64. */
  ghost predicate Solvent(db: Db) {
    forall a :: a in db.accounts ==> 0 <= Balance(db.txns, a) < TWO_63
  }

  ghost predicate SmallPending(txns: seq<Txn>) {
    forall t :: t in txns && t.status.Pending? ==> Small(t.entries)
  }

  predicate SmallRequest(op: Op) {
    op.Transfer? || op.CreatePending? ==> Small(op.entries)
  }

  ghost predicate SmallRequests(history: seq<Rec>) {
    forall r :: r in history ==> SmallRequest(r.op)
  }

  // --------------------------------------------- the effect of one operation

  /** The entries an accepted operation makes count. */
  function Moved(db: Db, op: Op): seq<Entry> {
    match op
    case Transfer(_, es, _) => es
    case Post(tenant, id, _) =>
      var f := Lookup(db.txns, tenant, id);
      if f.At? then db.txns[f.index].entries else []
    case _ => []
  }

  /** An accepted operation adds exactly its moved entries to the balances. */
  lemma ApplyBalances(cfg: Config, db: Db, op: Op, newId: Id, a: Id)
    requires Check(db, op, newId).Ok?
    ensures Balance(Apply(cfg, db, op, newId).txns, a) == Balance(db.txns, a) + Net(Moved(db, op), a)
  {
    match op
    case Transfer(tenant, es, _) => BalanceAppend(db.txns, Txn(newId, tenant, Posted, es), a);
    case CreatePending(tenant, es, _) => BalanceAppend(db.txns, Txn(newId, tenant, Pending, es), a);
    case Post(tenant, id, _) =>
      var i := Lookup(db.txns, tenant, id).index;
      BalanceReplace(db.txns, i, db.txns[i].(status := Posted), a);
    case Fail(tenant, id, _) =>
      var i := Lookup(db.txns, tenant, id).index;
      BalanceReplace(db.txns, i, db.txns[i].(status := Failed), a);
    case CreateAccount(_, _, _) =>
  }

  /** What an accepted operation moves was validated, is owned by the tenant
      that asked for it, and passes the wrapped check. */
  lemma MovedChecked(db: Db, op: Op, newId: Id, a: Id)
    requires PendingValid(db.txns)
    requires Check(db, op, newId).Ok?
    ensures Moved(db, op) != [] ==> Validate(Moved(db, op)).Ok?
    ensures a in Accounts(Moved(db, op)) ==>
      Owned(db, op.tenant, a) && Affordable(db.txns, Moved(db, op), a)
  {
    var es := Moved(db, op);
    if op.Transfer? || op.Post? {
      ProjectionAccepts(db.txns, es);
    }
  }

  lemma {:induction false} ApplyWellFormed(cfg: Config, db: Db, op: Op, newId: Id)
    requires WellFormed(db)
    ensures WellFormed(Apply(cfg, db, op, newId))
  {
    var d := Apply(cfg, db, op, newId);
    if Check(db, op, newId).Ok? {
      forall t, a | t in d.txns && t.status.Posted? && a in Accounts(t.entries)
        ensures Owned(d, t.tenant, a)
      {
        MovedChecked(db, op, newId, a);
      }
    }
  }

  // ------------------------------------------------------------ conservation

  ghost function Holdings(db: Db, tenant: Id): map<Id, int> {
    map a | a in db.accounts && db.accounts[a].tenant == tenant :: Balance(db.txns, a)
  }

  /** A tenant's total: the posted balances of all its accounts. */
  ghost function TenantTotal(db: Db, tenant: Id): int { SumMap(Holdings(db, tenant)) }

  ghost function AddNet(m: map<Id, int>, es: seq<Entry>): map<Id, int> {
    map a | a in m :: m[a] + Net(es, a)
  }

  /** Adding every account's net amount adds the total of the entries, whatever
      their order and however often an account occurs. */
  lemma {:induction false} SumAddNet(m: map<Id, int>, es: seq<Entry>)
    requires Accounts(es) <= m.Keys
    ensures SumMap(AddNet(m, es)) == SumMap(m) + Total(es)
  {
    if es == [] {
      assert AddNet(m, es) == m;
    } else {
      var init, e := es[..|es| - 1], es[|es| - 1];
      assert es == init + [e];
      assert Accounts(es) == Accounts(init) + {e.account};
      var before: map<Id, int> := AddNet(m, init);
      SumAddNet(m, init);
      var v: int := before[e.account] + e.amount;
      SumUpdate(before, e.account, v);
      assert AddNet(m, es) == before[e.account := v];
    }
  }

  /** The projection a transfer checks sums to the old sum plus the entries'. */
  lemma ProjectionConserves(bal: map<Id, Int64>, es: seq<Entry>)
    requires Accounts(es) <= bal.Keys
    requires forall a :: a in bal ==> Fits(bal[a] + Net(es, a))
    ensures SumMap<Id>(Project(bal, es)) == SumMap<Id>(bal) + Total(es)
  {
    hide Project, Net, Wrap;
    var m: map<Id, int>, p: map<Id, int> := bal, Project(bal, es);
    forall a | a in m ensures p[a] == m[a] + Net(es, a) {
      ProjectAt(bal, es, a);
      WrapMeaning(bal[a] + Net(es, a));
    }
    assert p == AddNet(m, es);
    SumAddNet(m, es);
  }

  lemma {:induction false} UnknownAccountIsEmpty(db: Db, n: nat, a: Id)
    requires TenantClosed(db) && n <= |db.txns|
    requires a !in db.accounts
    ensures Balance(db.txns[..n], a) == 0
  {
    if n > 0 {
      assert db.txns[..n][..n - 1] == db.txns[..n - 1];
      UnknownAccountIsEmpty(db, n - 1, a);
      var t := db.txns[n - 1];
      assert t in db.txns;
      if a !in Accounts(t.entries) {
        NetOfStranger(t.entries, a);
      }
    }
  }

  lemma TransferTotal(db: Db, d: Db, owner: Id, es: seq<Entry>, tenant: Id)
    requires d.accounts == db.accounts
    requires forall a :: Balance(d.txns, a) == Balance(db.txns, a) + Net(es, a)
    requires forall a :: a in Accounts(es) ==> Owned(db, owner, a)
    ensures TenantTotal(d, tenant) == TenantTotal(db, tenant) + if tenant == owner then Total(es) else 0
  {
    var before := Holdings(db, tenant);
    assert Holdings(d, tenant) == AddNet(before, es);
    if tenant == owner {
      assert Accounts(es) <= before.Keys;
      SumAddNet(before, es);
    } else {
      forall a | a in before ensures Net(es, a) == 0 {
        NetOfStranger(es, a);
      }
      assert AddNet(before, es) == before;
    }
  }

  lemma NewAccountTotal(db: Db, newId: Id, acc: Account, tenant: Id)
    requires TenantClosed(db) && newId !in db.accounts
    ensures TenantTotal(db.(accounts := db.accounts[newId := acc]), tenant) == TenantTotal(db, tenant)
  {
    var before, d := Holdings(db, tenant), db.(accounts := db.accounts[newId := acc]);
    UnknownAccountIsEmpty(db, |db.txns|, newId);
    assert db.txns[..|db.txns|] == db.txns;
    if tenant == acc.tenant {
      assert Holdings(d, tenant) == before[newId := 0];
      SumUpdate(before, newId, 0);
    } else {
      assert Holdings(d, tenant) == before;
    }
  }

  /** An accepted operation changes its tenant's total by exactly the sum of
      the entries it moves, and no other tenant's. */
  lemma ApplyTotal(cfg: Config, db: Db, op: Op, newId: Id, tenant: Id)
    requires WellFormed(db)
    requires Check(db, op, newId).Ok?
    ensures TenantTotal(Apply(cfg, db, op, newId), tenant) ==
      TenantTotal(db, tenant) + if tenant == op.tenant then Total(Moved(db, op)) else 0
  {
    var d, es := Apply(cfg, db, op, newId), Moved(db, op);
    if op.CreateAccount? {
      var acc := Account(op.tenant, op.name);
      NewAccountTotal(db, newId, acc, tenant);
      assert Holdings(d, tenant) == Holdings(db.(accounts := db.accounts[newId := acc]), tenant);
    } else {
      forall a ensures Balance(d.txns, a) == Balance(db.txns, a) + Net(es, a) {
        ApplyBalances(cfg, db, op, newId, a);
      }
      forall a | a in Accounts(es) ensures Owned(db, op.tenant, a) {
        MovedChecked(db, op, newId, a);
      }
      TransferTotal(db, d, op.tenant, es, tenant);
    }
  }

  lemma ValidSum(es: seq<Entry>)
    requires es == [] || Validate(es).Ok?
    ensures Wrap(Total(es)) == 0
    ensures Small(es) ==> Total(es) == 0
  {
    MagnitudeBounds(es, 0);
  }

  lemma ApplyTotalWraps(cfg: Config, db: Db, op: Op, newId: Id, tenant: Id)
    requires WellFormed(db)
    ensures Wrap(TenantTotal(Apply(cfg, db, op, newId), tenant)) == Wrap(TenantTotal(db, tenant))
  {
    hide Install, Wrap, TenantTotal, Decide, Lookup;
    if Check(db, op, newId).Ok? {
      ApplyTotal(cfg, db, op, newId, tenant);
      MovedChecked(db, op, newId, 0);
      ValidSum(Moved(db, op));
      WrapAdd(Total(Moved(db, op)), TenantTotal(db, tenant));
    }
  }

  /** On every run, whatever the amounts, a tenant's total as an int64, that is
      modulo 2^64 (WrapMeaning), never changes. */
  lemma {:induction false} TotalsModulo(cfg: Config, genesis: Db, history: seq<Rec>, tenant: Id)
    requires WellFormed(genesis)
    ensures WellFormed(Serial(cfg, genesis, history))
    ensures Wrap(TenantTotal(Serial(cfg, genesis, history), tenant)) == Wrap(TenantTotal(genesis, tenant))
  {
    if history != [] {
      var init, r := history[..|history| - 1], history[|history| - 1];
      TotalsModulo(cfg, genesis, init, tenant);
      ApplyWellFormed(cfg, Serial(cfg, genesis, init), r.op, r.newId);
      ApplyTotalWraps(cfg, Serial(cfg, genesis, init), r.op, r.newId, tenant);
    }
  }

  // ------------------------------------------------- exact totals, no deficit

  lemma MovedSmall(db: Db, op: Op)
    requires SmallPending(db.txns) && SmallRequest(op)
    requires op.Post? ==>
      var f := Lookup(db.txns, op.tenant, op.txn); f.At? ==> db.txns[f.index].status.Pending?
    ensures Small(Moved(db, op))
  {}

  lemma SmallCheckIsExact(balance: int, es: seq<Entry>, a: Id)
    requires 0 <= balance < TWO_63 && Small(es)
    ensures Wrap(balance + Net(es, a)) >= 0 <==> 0 <= balance + Net(es, a) < TWO_63
  {
    MagnitudeBounds(es, a);
  }

  lemma PendingStaySmall(cfg: Config, db: Db, op: Op, newId: Id)
    requires SmallPending(db.txns) && SmallRequest(op)
    ensures SmallPending(Apply(cfg, db, op, newId).txns)
  {}

  lemma StaysSolvent(cfg: Config, db: Db, op: Op, newId: Id, a: Id)
    requires WellFormed(db) && Solvent(db) && Small(Moved(db, op)) && Check(db, op, newId).Ok?
    requires a in Apply(cfg, db, op, newId).accounts
    ensures 0 <= Balance(Apply(cfg, db, op, newId).txns, a) < TWO_63
  {
    hide Check, Apply, Moved, Wrap, Net, Balance, Small, Validate;
    var es := Moved(db, op);
    ApplyBalances(cfg, db, op, newId, a);
    MovedChecked(db, op, newId, a);
    if a in Accounts(es) {
      SmallCheckIsExact(Balance(db.txns, a), es, a);
    } else {
      NetOfStranger(es, a);
      if a !in db.accounts {
        UnknownAccountIsEmpty(db, |db.txns|, a);
        assert db.txns[..|db.txns|] == db.txns;
      }
    }
  }

  /** One step of the next theorem. */
  lemma ApplySolvent(cfg: Config, db: Db, op: Op, newId: Id)
    requires WellFormed(db) && Solvent(db) && SmallPending(db.txns) && SmallRequest(op)
    ensures Solvent(Apply(cfg, db, op, newId)) && SmallPending(Apply(cfg, db, op, newId).txns)
  {
    PendingStaySmall(cfg, db, op, newId);
    if Check(db, op, newId).Ok? {
      MovedSmall(db, op);
      hide Check, Apply, Moved, Balance, Small, SmallPending, WellFormed;
      forall a | a in Apply(cfg, db, op, newId).accounts ensures 0 <= Balance(Apply(cfg, db, op, newId).txns, a) < TWO_63 {
        StaysSolvent(cfg, db, op, newId, a);
      }
    }
  }

  /** When every request's absolute amounts add to less than 2^63, every run
      keeps every balance in [0, 2^63) and every tenant's exact total. */
  lemma {:induction false} ConservedAndSolvent(cfg: Config, genesis: Db, history: seq<Rec>, tenant: Id)
    requires WellFormed(genesis) && Solvent(genesis) && SmallPending(genesis.txns)
    requires SmallRequests(history)
    ensures var db := Serial(cfg, genesis, history);
      WellFormed(db) && Solvent(db) && SmallPending(db.txns) &&
      TenantTotal(db, tenant) == TenantTotal(genesis, tenant)
  {
    if history != [] {
      var init, r := history[..|history| - 1], history[|history| - 1];
      assert forall q :: q in init ==> q in history;
      ConservedAndSolvent(cfg, genesis, init, tenant);
      var db := Serial(cfg, genesis, init);
      ApplyWellFormed(cfg, db, r.op, r.newId);
      ApplySolvent(cfg, db, r.op, r.newId);
      if Check(db, r.op, r.newId).Ok? {
        ApplyTotal(cfg, db, r.op, r.newId, tenant);
        MovedSmall(db, r.op);
        MovedChecked(db, r.op, r.newId, 0);
        ValidSum(Moved(db, r.op));
      }
    }
  }

  // ------------------------------------------------------ the int64 boundary

  /** int64 validation agrees with exact validation on exactly those requests
      whose true sum is not a non-zero multiple of 2^64. */
  lemma ValidationExactIff(es: seq<Entry>)
    requires |es| >= 2 && forall e :: e in es ==> e.amount != 0
    ensures (Validate(es).Ok? <==> Total(es) == 0) <==> !(Total(es) != 0 && Total(es) % TWO_64 == 0)
    ensures Small(es) ==> (Validate(es).Ok? <==> Total(es) == 0)
  {
    WrapMeaning(Total(es));
    MagnitudeBounds(es, 0);
  }

  const QUARTER: Int64 := 0x4000_0000_0000_0000

  lemma FourQuarters()
    ensures var e := Entry(7, QUARTER);
      Total([e, e, e, e]) == Net([e, e, e, e], 7) == Magnitude([e, e, e, e]) == TWO_64
  {
    var e := Entry(7, QUARTER);
    assert [e, e, e, e][..3] == [e, e, e] && [e, e, e][..2] == [e, e] && [e, e][..1] == [e] && [e][..0] == [];
    assert Total([e]) == Total([e][..0]) + QUARTER;
    assert Net([e], 7) == Net([e][..0], 7) + QUARTER;
    assert Magnitude([e]) == Magnitude([e][..0]) + QUARTER;
    assert Total([e, e]) == Net([e, e], 7) == Magnitude([e, e]) == TWO_63;
    assert Total([e, e, e]) == Net([e, e, e], 7) == Magnitude([e, e, e]) == TWO_63 + QUARTER;
  }

  lemma QuartersAccepted(db: Db, es: seq<Entry>)
    requires var e := Entry(7, QUARTER); es == [e, e, e, e] && db == Db(map[7 := Account(1, "a")], [], [], [])
    ensures Total(es) == TWO_64 && Validate(es).Ok? && Decide(db, 1, es).Ok?
  {
    FourQuarters();
    assert Accounts(es) == {7};
    assert Wrap(TWO_64) == 0;
    hide Total, Net, Wrap, Magnitude;
    assert Validate(es).Ok?;
    ProjectionAccepts(db.txns, es);
    assert Affordable(db.txns, es, 7);
  }

  /** Without the bound money appears: four credits of 2^62 are accepted. */
  lemma BoundIsNeeded(cfg: Config)
    ensures var e := Entry(7, QUARTER);
      var db := Db(map[7 := Account(1, "a")], [], [], []);
      var op := Transfer(1, [e, e, e, e], "");
      WellFormed(db) && Solvent(db) && !Small(op.entries) &&
      Check(db, op, 0).Ok? && TenantTotal(Apply(cfg, db, op, 0), 1) == TenantTotal(db, 1) + TWO_64
  {
    var e := Entry(7, QUARTER);
    var db := Db(map[7 := Account(1, "a")], [], [], []);
    var es := [e, e, e, e];
    QuartersAccepted(db, es);
    FourQuarters();
    hide Total, Net, Magnitude, Validate, Decide, Wrap, TenantTotal;
    ApplyTotal(cfg, db, Transfer(1, es, ""), 0, 1);
  }

  // -------------------------------------------------------- tenant closure

  function EffectWithin(t: Txn, tenant: Id, a: Id): int {
    if t.tenant == tenant then Effect(t, a) else 0
  }

  /** The balance counting only entries that carry the given tenant_id. */
  function BalanceWithin(txns: seq<Txn>, tenant: Id, a: Id): int {
    if txns == [] then 0
    else BalanceWithin(txns[..|txns| - 1], tenant, a) + EffectWithin(txns[|txns| - 1], tenant, a)
  }

  lemma {:induction false} UnfilteredBalancePrefix(db: Db, n: nat, tenant: Id, a: Id)
    requires TenantClosed(db) && Owned(db, tenant, a) && n <= |db.txns|
    ensures Balance(db.txns[..n], a) == BalanceWithin(db.txns[..n], tenant, a)
  {
    if n > 0 {
      assert db.txns[..n][..n - 1] == db.txns[..n - 1];
      UnfilteredBalancePrefix(db, n - 1, tenant, a);
      var t := db.txns[n - 1];
      assert t in db.txns;
      if t.tenant != tenant && a !in Accounts(t.entries) {
        NetOfStranger(t.entries, a);
      }
    }
  }

  /** On every run the balance queries, which do not filter entries by tenant,
      return the tenant's own sum. */
  lemma BalanceQueryIsTenantSafe(cfg: Config, genesis: Db, history: seq<Rec>, tenant: Id, a: Id)
    requires WellFormed(genesis)
    requires Owned(Serial(cfg, genesis, history), tenant, a)
    ensures var txns := Serial(cfg, genesis, history).txns;
      Balance(txns, a) == BalanceWithin(txns, tenant, a)
  {
    var db := Serial(cfg, genesis, history);
    TotalsModulo(cfg, genesis, history, tenant);
    UnfilteredBalancePrefix(db, |db.txns|, tenant, a);
    assert db.txns[..|db.txns|] == db.txns;
  }

  /** A pending transaction may name another tenant's account, but it can only
      ever be failed: posting it is refused in every state. */
  lemma ForeignPendingNeverPosts(db: Db, tenant: Id, id: Id, actor: string, a: Id)
    requires var f := Lookup(db.txns, tenant, id);
      f.At? && db.txns[f.index].status.Pending? && a in Accounts(db.txns[f.index].entries)
    requires a in db.accounts && db.accounts[a].tenant != tenant
    ensures Check(db, Post(tenant, id, actor), 0) == Err(AccountNotFound)
    ensures Check(db, Fail(tenant, id, actor), 0).Ok?
  {}

  lemma ForeignPendingIsCreated(cfg: Config)
    ensures var db := Db(map[1 := Account(10, "a"), 2 := Account(20, "b")], [], [], []);
      var op := CreatePending(10, [Entry(1, -5), Entry(2, 5)], "");
      Check(db, op, 0).Ok? && !Owned(db, 10, 2) && 2 in Accounts(op.entries)
  {
    var es := [Entry(1, -5), Entry(2, 5)];
    assert es[..1] == [Entry(1, -5)] && [Entry(1, -5)][..0] == [];
    assert Total(es) == 0;
    assert es[1] in es;
  }

  // ------------------------------------------------- two phases equal one

  lemma PendingHasNoEffect(db: Db, t: Txn, tenant: Id, es: seq<Entry>)
    requires t.status.Pending?
    ensures Decide(db.(txns := db.txns + [t]), tenant, es) == Decide(db, tenant, es)
  {
    var txns := db.txns + [t];
    forall a ensures Balance(txns, a) == Balance(db.txns, a) {
      BalanceAppend(db.txns, t, a);
    }
    if InRange(db.txns, Accounts(es)) {
      assert BalancesOf(txns, Accounts(es)) == BalancesOf(db.txns, Accounts(es));
    }
  }

  /** Creating a pending transaction and posting it at once is accepted exactly
      when the direct transfer is, in whatever order (fs) the post reads the
      entries back, and leaves the same accounts, rows and balances. */
  lemma TwoPhaseEqualsOnePhase(cfg: Config, db: Db, tenant: Id, es: seq<Entry>, fs: seq<Entry>, actor: string, id: Id)
    requires multiset(fs) == multiset(es)
    ensures var mid := Apply(cfg, db, CreatePending(tenant, es, actor), id);
      var accepted := Check(db, CreatePending(tenant, es, actor), id).Ok? && Check(mid, Post(tenant, id, actor), id).Ok?;
      var end := Apply(cfg, mid, Post(tenant, id, actor), id);
      var direct := Apply(cfg, db, Transfer(tenant, es, actor), id);
      && (accepted <==> Check(db, Transfer(tenant, es, actor), id).Ok?)
      && (accepted ==> Decide(mid, tenant, fs).Ok? && end.accounts == direct.accounts && end.txns == direct.txns)
  {
    var t := Txn(id, tenant, Pending, es);
    if Validate(es).Ok? && !IdTaken(db.txns, id) && Accounts(es) <= db.accounts.Keys {
      var mid := Apply(cfg, db, CreatePending(tenant, es, actor), id);
      assert mid.txns == db.txns + [t];
      assert Lookup(mid.txns, tenant, id) == At(|db.txns|);
      PendingHasNoEffect(db, t, tenant, es);
      DecidePermutation(mid, tenant, fs, es);
      assert Decide(mid, tenant, es) == Decide(db.(txns := mid.txns), tenant, es);
      assert mid.txns[|db.txns| := t.(status := Posted)] == db.txns + [t.(status := Posted)];
    }
  }
}
