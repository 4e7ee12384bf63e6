// A run in which a post is refused with a different error than it would be
// refused with alone: the one disagreement Matches allows does occur.
module LedgerWitness {
  import opened Money
  import opened Ids
  import opened Ledger
  import opened LedgerMachine
  import opened LedgerSerial
  import opened LedgerDeadlock

  const LEGS: seq<Entry> := [Entry(1, -5), Entry(2, 5)]
  const POST := Post(10, 7, "")
  const FAIL := Fail(10, 7, "")
  const CROSSING := Txn(7, 10, Pending, LEGS)

  /** A pending transaction that names another tenant's account. */
  const GENESIS := Db(map[1 := Account(10, "a"), 2 := Account(20, "b")], [CROSSING], [], [])

  /** The post reads the row and its entries; the fail runs to its commit; then
      the post asks for its locks. */
  const POSTING: seq<Action> := [Start(0, POST), Step(0, 0, []), Step(0, 0, LEGS)]
  const FAILING: seq<Action> := [Start(1, FAIL), Step(1, 0, []), Step(1, 0, LEGS), Step(1, 0, []), Step(1, 0, [])]
  const ASK := Step(0, 0, [])

  lemma {:induction false} AfterRun(cfg: Config, before: seq<Action>, acts: seq<Action>)
    ensures Run(cfg, GENESIS, before + acts) == After(cfg, Run(cfg, GENESIS, before), acts)
  {
    if acts == [] {
      assert before + acts == before;
    } else {
      assert (before + acts)[..|before + acts| - 1] == before + acts[..|acts| - 1];
      AfterRun(cfg, before, acts[..|acts| - 1]);
    }
  }

  lemma PendingRow()
    ensures Lookup([CROSSING], 10, 7) == At(0)
  {}

  const POSTER := Ready(POST, LEGS)

  lemma PostReads(cfg: Config)
    ensures Run(cfg, GENESIS, POSTING) == World(GENESIS, map[0 := POSTER], [])
  {
    PendingRow();
    var a := POSTING;
    var w0 := World(GENESIS, map[], []);
    var w1 := World(GENESIS, map[0 := Begun(POST)], []);
    var w2 := World(GENESIS, map[0 := Fetching(POST)], []);
    RunSnoc(cfg, GENESIS, [], a[0]);
    RunSnoc(cfg, GENESIS, [a[0]], a[1]);
    RunSnoc(cfg, GENESIS, [a[0]] + [a[1]], a[2]);
    assert a == [a[0]] + [a[1]] + [a[2]] && [] + [a[0]] == [a[0]];
    assert Run(cfg, GENESIS, []) == w0;
    assert Next(cfg, w0, a[0]).procs == w1.procs;
    assert Next(cfg, w1, a[1]).procs == w2.procs;
    assert Next(cfg, w2, a[2]).procs == map[0 := POSTER];
  }

  const FAILED := Db(GENESIS.accounts, [CROSSING.(status := Failed)], [], [])
  const QUIET := Config(false, false)

  lemma FailReads()
    ensures var w := World(GENESIS, map[0 := POSTER], []);
      After(QUIET, w, FAILING[..3]) == World(GENESIS, map[0 := POSTER, 1 := Approved(FAIL, [])], [])
  {
    PendingRow();
    var a := FAILING;
    var w := World(GENESIS, map[0 := POSTER], []);
    assert a[..3][..2] == a[..2] && a[..2][..1] == a[..1] && a[..1][..0] == [];
    var w1 := World(GENESIS, map[0 := POSTER, 1 := Begun(FAIL)], []);
    var w2 := World(GENESIS, map[0 := POSTER, 1 := Fetching(FAIL)], []);
    assert Next(QUIET, w, a[0]).procs == w1.procs;
    assert After(QUIET, w, a[..1]) == w1;
    assert Next(QUIET, w1, a[1]).procs == w2.procs;
    assert Next(QUIET, w2, a[2]).procs == map[0 := POSTER, 1 := Approved(FAIL, [])];
  }

  lemma FailCommits()
    ensures var w := World(GENESIS, map[0 := POSTER], []);
      var r := Rec(FAIL, 0, Ok);
      After(QUIET, w, FAILING) == World(FAILED, map[0 := POSTER, 1 := Finished(r, 0)], [r])
  {
    PendingRow();
    FailReads();
    var a := FAILING;
    var w := World(GENESIS, map[0 := POSTER], []);
    var v := World(GENESIS, map[0 := POSTER, 1 := Approved(FAIL, [])], []);
    assert a[..4][..3] == a[..3] && a[..5] == a && a[..5][..4] == a[..4];
    assert !RowLockedElsewhere(v, 1, 7);
    assert Next(QUIET, v, a[3]).procs == map[0 := POSTER, 1 := Written(FAIL, [], 0)];
    var u := World(GENESIS, map[0 := POSTER, 1 := Written(FAIL, [], 0)], []);
    assert After(QUIET, w, a[..4]) == u;
    assert [CROSSING][0 := CROSSING.(status := Failed)] == [CROSSING.(status := Failed)];
    assert Install(QUIET, GENESIS, FAIL, 0) == FAILED;
    assert Next(QUIET, u, a[4]).procs == map[0 := POSTER, 1 := Finished(Rec(FAIL, 0, Ok), 0)];
  }

  /** The post answers AccountNotFound although the transaction has failed and
      the same post alone would answer TransactionNotPending. */
  lemma RefusalsMayDiffer()
    ensures var h := Run(QUIET, GENESIS, POSTING + FAILING + [ASK]).history;
      && h == [Rec(FAIL, 0, Ok), Rec(POST, 0, Err(AccountNotFound))]
      && Check(Serial(QUIET, GENESIS, h[..1]), POST, 0) == Err(TransactionNotPending)
  {
    PostReads(QUIET);
    AfterRun(QUIET, POSTING, FAILING);
    FailCommits();
    RunSnoc(QUIET, GENESIS, POSTING + FAILING, ASK);
    var r := Rec(FAIL, 0, Ok);
    var w := World(FAILED, map[0 := POSTER, 1 := Finished(r, 0)], [r]);
    var found := set a | a in Accounts(LEGS) && Owned(FAILED, 10, a);
    assert LEGS[1] in LEGS && 2 in Accounts(LEGS) && 2 !in found;
    assert Next(QUIET, w, ASK).history == [r, Rec(POST, 0, Err(AccountNotFound))];
    RunKeeps(QUIET, GENESIS, POSTING + FAILING);
    var h := [r, Rec(POST, 0, Err(AccountNotFound))];
    assert h[..1] == [r];
    assert Lookup(FAILED.txns, 10, 7) == At(0);
  }
}
