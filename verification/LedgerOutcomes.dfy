// When each ledger operation is accepted, and why it is refused otherwise, in
// the terms a caller knows: the request, the accounts, the stored balances.
module LedgerOutcomes {
  import opened Money
  import opened Ids
  import opened Ledger
  import opened LedgerLaws
  import opened LedgerService

  // --------------------------------------------------------------- the sums

  /** Amounts add up entry by entry, an account's own, all together, and without
      their signs; and only posted transactions count towards a balance. */
  lemma SumsGrow(es: seq<Entry>, b: Id, x: Int64, txns: seq<Txn>, t: Txn, a: Id)
    ensures Total([]) == Net([], a) == Balance([], a) == 0
    ensures Total(es + [Entry(b, x)]) == Total(es) + x
    ensures Net(es + [Entry(b, x)], a) == Net(es, a) + if a == b then x else 0
    ensures var y: int := x; Magnitude(es + [Entry(b, x)]) == Magnitude(es) + if y < 0 then -y else y
    ensures Small(es) <==> Magnitude(es) < 0x8000_0000_0000_0000
    ensures Balance(txns + [t], a) == Balance(txns, a) + if t.status == Posted then Net(t.entries, a) else 0
  {
    assert (es + [Entry(b, x)])[..|es|] == es;
    BalanceAppend(txns, t, a);
  }

  // ------------------------------------------------------------ the request

  lemma WrapZero(x: int)
    ensures Wrap(x) == 0 <==> x % TWO_64 == 0
  {
    WrapMeaning(x);
    hide Wrap;
    if x % TWO_64 == 0 {
      SameInt64(x, 0, Wrap(x), 0);
    }
  }

  /** An int64 is negative exactly when its unsigned reading has the top bit. */
  lemma WrapSign(x: int)
    ensures Wrap(x) >= 0 <==> x % TWO_64 < TWO_63
  {
    WrapMeaning(x);
  }

  /** A request is valid when it has two entries or more, none of them zero, that
      sum to zero modulo 2^64; each refusal has its own cause, in that order. */
  lemma ValidateIff(es: seq<Entry>)
    ensures Validate(es) == Err(EmptyEntries) <==> |es| < 2
    ensures Validate(es) == Err(ZeroAmountEntry) <==> |es| >= 2 && exists i :: 0 <= i < |es| && es[i].amount == 0
    ensures Validate(es) == Err(UnbalancedEntries) <==>
      |es| >= 2 && (forall i :: 0 <= i < |es| ==> es[i].amount != 0) && Total(es) % TWO_64 != 0
    ensures Validate(es).Ok? <==>
      |es| >= 2 && (forall i :: 0 <= i < |es| ==> es[i].amount != 0) && Total(es) % TWO_64 == 0
  {
    WrapZero(Total(es));
    assert (exists e :: e in es && e.amount == 0) <==> exists i :: 0 <= i < |es| && es[i].amount == 0;
  }

  // -------------------------------------------------------------- the funds

  predicate Foreign(db: Db, tenant: Id, es: seq<Entry>, i: int) {
    0 <= i < |es| && (es[i].account !in db.accounts || db.accounts[es[i].account].tenant != tenant)
  }

  /** The stored balance of entry i's account does not fit in an int64. */
  predicate Unreadable(db: Db, es: seq<Entry>, i: int) {
    0 <= i < |es| && !(-TWO_63 <= Balance(db.txns, es[i].account) < TWO_63)
  }

  /** The new balance of entry i's account is negative as an int64. */
  predicate Overdrawn(db: Db, es: seq<Entry>, i: int) {
    0 <= i < |es| && (Balance(db.txns, es[i].account) + Net(es, es[i].account)) % TWO_64 >= TWO_63
  }

  lemma Named(es: seq<Entry>, a: Id)
    ensures a in Accounts(es) <==> exists i :: 0 <= i < |es| && es[i].account == a
  {
    if a in Accounts(es) {
      var e :| e in es && e.account == a;
      var i :| 0 <= i < |es| && es[i] == e;
    }
  }

  /** Entries are decided by exactly these causes, in this order: an account that
      is not the tenant's; a stored balance that cannot be read; a new balance
      that is negative. */
  lemma DecideIff(db: Db, tenant: Id, es: seq<Entry>)
    ensures Decide(db, tenant, es) == Err(AccountNotFound) <==> exists i :: Foreign(db, tenant, es, i)
    ensures Decide(db, tenant, es) == Err(BalanceOutOfRange) <==>
      (forall i :: !Foreign(db, tenant, es, i)) && exists i :: Unreadable(db, es, i)
    ensures Decide(db, tenant, es) == Err(InsufficientFunds) <==>
      (forall i :: !Foreign(db, tenant, es, i)) && (forall i :: !Unreadable(db, es, i)) && exists i :: Overdrawn(db, es, i)
    ensures Decide(db, tenant, es).Ok? <==>
      (forall i :: !Foreign(db, tenant, es, i)) && (forall i :: !Unreadable(db, es, i)) && forall i :: !Overdrawn(db, es, i)
  {
    ForeignIff(db, tenant, es);
    UnreadableIff(db, es);
    if InRange(db.txns, Accounts(es)) {
      ProjectionAccepts(db.txns, es);
      OverdrawnIff(db, es);
    }
    hide Foreign, Unreadable, Overdrawn, Accounts, Owned, InRange, Project, Affordable;
  }

  lemma ForeignIff(db: Db, tenant: Id, es: seq<Entry>)
    ensures (exists a :: a in Accounts(es) && !Owned(db, tenant, a)) <==> exists i :: Foreign(db, tenant, es, i)
  {
    forall a ensures a in Accounts(es) <==> exists i :: 0 <= i < |es| && es[i].account == a { Named(es, a); }
    if i :| Foreign(db, tenant, es, i) {
      assert es[i].account in Accounts(es) && !Owned(db, tenant, es[i].account);
    }
    if a :| a in Accounts(es) && !Owned(db, tenant, a) {
      var i: nat :| i < |es| && es[i].account == a;
      assert Foreign(db, tenant, es, i);
    }
  }

  lemma UnreadableIff(db: Db, es: seq<Entry>)
    ensures !InRange(db.txns, Accounts(es)) <==> exists i :: Unreadable(db, es, i)
  {
    forall a ensures a in Accounts(es) <==> exists i :: 0 <= i < |es| && es[i].account == a { Named(es, a); }
    if i :| Unreadable(db, es, i) {
      assert es[i].account in Accounts(es);
    }
    if a :| a in Accounts(es) && !Fits(Balance(db.txns, a)) {
      var i: nat :| i < |es| && es[i].account == a;
      assert Unreadable(db, es, i);
    }
  }

  lemma OverdrawnIff(db: Db, es: seq<Entry>)
    ensures (exists a :: a in Accounts(es) && !Affordable(db.txns, es, a)) <==> exists i :: Overdrawn(db, es, i)
  {
    forall a ensures a in Accounts(es) <==> exists i :: 0 <= i < |es| && es[i].account == a { Named(es, a); }
    forall a ensures Affordable(db.txns, es, a) <==> (Balance(db.txns, a) + Net(es, a)) % TWO_64 < TWO_63 {
      WrapSign(Balance(db.txns, a) + Net(es, a));
    }
    hide Affordable, Wrap, Balance, Net;
    if i :| Overdrawn(db, es, i) {
      assert es[i].account in Accounts(es);
    }
    if a :| a in Accounts(es) && !Affordable(db.txns, es, a) {
      var i: nat :| i < |es| && es[i].account == a;
      assert Overdrawn(db, es, i);
    }
  }

  // --------------------------------------------------------- the operations

  predicate Valid(es: seq<Entry>) {
    |es| >= 2 && (forall i :: 0 <= i < |es| ==> es[i].amount != 0) && Total(es) % TWO_64 == 0
  }

  ghost predicate Funded(db: Db, tenant: Id, es: seq<Entry>) {
    (forall i :: !Foreign(db, tenant, es, i)) && (forall i :: !Unreadable(db, es, i)) && forall i :: !Overdrawn(db, es, i)
  }

  predicate NewId(db: Db, newId: Id) { forall i :: 0 <= i < |db.txns| ==> db.txns[i].id != newId }

  lemma TakenIff(db: Db, newId: Id)
    ensures !IdTaken(db.txns, newId) <==> NewId(db, newId)
  {}

  /** A transfer is accepted exactly when it is valid and funded (the generated
      id being new). */
  lemma TransferIff(db: Db, tenant: Id, es: seq<Entry>, actor: string, newId: Id)
    ensures var o := Check(db, Transfer(tenant, es, actor), newId);
      && (o.Ok? <==> Valid(es) && Funded(db, tenant, es) && NewId(db, newId))
      && (!Valid(es) ==> o == Validate(es))
      && (Valid(es) && !Funded(db, tenant, es) ==> o == Decide(db, tenant, es))
      && (Valid(es) && Funded(db, tenant, es) && !NewId(db, newId) ==> o == Err(DuplicateId))
  {
    ValidateIff(es);
    DecideIff(db, tenant, es);
    TakenIff(db, newId);
    hide Validate, Decide, IdTaken, Foreign, Unreadable, Overdrawn;
  }

  /** A pending transaction is created exactly when it is valid and its accounts
      exist, whosever they are. */
  lemma CreatePendingIff(db: Db, tenant: Id, es: seq<Entry>, actor: string, newId: Id)
    ensures var o := Check(db, CreatePending(tenant, es, actor), newId);
      var exist := forall i :: 0 <= i < |es| ==> es[i].account in db.accounts;
      && (o.Ok? <==> Valid(es) && NewId(db, newId) && exist)
      && (!Valid(es) ==> o == Validate(es))
      && (Valid(es) && !NewId(db, newId) ==> o == Err(DuplicateId))
      && (Valid(es) && NewId(db, newId) && !exist ==> o == Err(ForeignKey))
  {
    ValidateIff(es);
    TakenIff(db, newId);
    hide Validate, IdTaken;
    forall a ensures a in Accounts(es) <==> exists i :: 0 <= i < |es| && es[i].account == a { Named(es, a); }
  }

  /** A post is accepted exactly when the tenant's transaction is pending and
      funded now; a fail, exactly when it is pending. */
  lemma SettleIff(db: Db, tenant: Id, actor: string, i: nat)
    requires DistinctIds(db.txns) && i < |db.txns| && db.txns[i].tenant == tenant
    ensures Check(db, Post(tenant, db.txns[i].id, actor), 0).Ok? <==>
      db.txns[i].status == Pending && Funded(db, tenant, db.txns[i].entries)
    ensures Check(db, Fail(tenant, db.txns[i].id, actor), 0).Ok? <==> db.txns[i].status == Pending
    ensures db.txns[i].status == Pending ==>
      Check(db, Post(tenant, db.txns[i].id, actor), 0) == Decide(db, tenant, db.txns[i].entries)
    ensures db.txns[i].status != Pending ==>
      Check(db, Post(tenant, db.txns[i].id, actor), 0) == Check(db, Fail(tenant, db.txns[i].id, actor), 0) == Err(TransactionNotPending)
  {
    DecideIff(db, tenant, db.txns[i].entries);
    assert db.txns[i] in db.txns;
    assert Lookup(db.txns, tenant, db.txns[i].id) == At(i);
    hide Decide, Foreign, Unreadable, Overdrawn, Lookup;
  }

  /** Another tenant's transaction, or none, is not found. */
  lemma StrangerIsNotFound(db: Db, tenant: Id, id: Id, actor: string)
    requires forall i :: 0 <= i < |db.txns| ==> db.txns[i].id != id || db.txns[i].tenant != tenant
    ensures Check(db, Post(tenant, id, actor), 0) == Check(db, Fail(tenant, id, actor), 0) == Err(TransactionNotFound)
  {}

  /** A new account is its tenant's own, under its name, and is empty. */
  method OpenedAccountIsThere(service: Service, tenant: Id, name: string, actor: string, newId: Id, other: Id) returns (balance: Int64, hidden: Outcome)
    requires newId !in service.accounts && WellFormed(service.Tables())
    modifies service
    ensures newId in service.accounts && service.accounts[newId] == Account(tenant, name)
    ensures balance == 0
    ensures other != tenant ==> hidden == Err(AccountNotFound)
  {
    ghost var before := service.Tables();
    var o := service.CreateAccount(tenant, name, actor, newId);
    UnknownAccountIsEmpty(before, |before.txns|, newId);
    assert before.txns[..|before.txns|] == before.txns;
    var found;
    found, balance := service.GetAccount(tenant, newId);
    assert found.Ok?;
    var nothing;
    hidden, nothing := service.GetAccount(other, newId);
  }
}
