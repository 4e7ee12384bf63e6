// A run in which a session outlives reuse detection: the race that
// SurvivorRacedThePurge describes does occur.
module TokenWitness {
  import opened Options
  import opened Tokens
  import opened TokenLaws

  const USER: nat := 1
  const TENANT: nat := 1
  const EXPIRY := 10

  function Go(pid: nat, pick: nat): Action { Step(pid, 0, EXPIRY, true, pick) }

  const LOGIN := Token(USER, TENANT, Active, None, EXPIRY, None)
  const FIRST := LOGIN.(status := Rotated, replacedBy := Some(1))
  const SECOND := Token(USER, TENANT, Active, None, EXPIRY, Some(0))
  const THIRD := Token(USER, TENANT, Active, None, EXPIRY, Some(1))

  /** A refresh of an unlocked live token, up to its uncommitted rotation. */
  lemma UpToRotation(acts: seq<Action>, pid: nat, id: nat) returns (more: seq<Action>)
    requires var w := Run(acts);
      && pid !in w.procs && id < |w.tokens| && w.tokens[id].status.Active? && w.tokens[id].expiresAt == EXPIRY
      && w.tokens[id].user == USER && w.tokens[id].tenant == TENANT && !Locked(w, pid, id)
    ensures Run(more) == Move(Run(acts), pid, Rotating(id, USER, TENANT, EXPIRY))
  {
    hide After;
    var w := Run(acts);
    more := Then(START, acts, Refresh(pid, id), Move(w, pid, Presented(id)));
    more := Then(START, more, Go(pid, 0), Move(w, pid, Valid(id, USER, TENANT)));
    more := Then(START, more, Go(pid, 0), Move(w, pid, Entitled(id, USER, TENANT)));
    var v := Move(w, pid, Inserted(id, USER, TENANT, EXPIRY));
    more := Then(START, more, Go(pid, 0), v);
    assert !Locked(v, pid, id) by {
      forall q | q in v.procs && q != pid ensures id !in Locks(v.procs[q]) {
        assert v.procs[q] == w.procs[q];
      }
    }
    more := Then(START, more, Go(pid, 0), Move(w, pid, Rotating(id, USER, TENANT, EXPIRY)));
  }

  /** One login and one refresh. */
  lemma Opening() returns (acts: seq<Action>, w: World)
    ensures Run(acts) == w && w.tokens == [FIRST, SECOND] && w.purges == [] && w.procs.Keys == {0, 1}
    ensures forall p :: p in w.procs ==> w.procs[p].Finished?
  {
    acts := Then(START, [], Login(0, USER, TENANT, EXPIRY), World([], map[0 := Granting(USER, TENANT, EXPIRY)], []));
    w := World([LOGIN], map[0 := Finished(Issued(0))], []);
    acts := Then(START, acts, Go(0, 0), w);
    acts := UpToRotation(acts, 1, 0);
    w := World([FIRST, SECOND], map[0 := Finished(Issued(0)), 1 := Finished(Issued(1))], []);
    acts := Then(START, acts, Go(1, 0), w);
  }

  const THREE: seq<Token> := [FIRST, SECOND.(status := Rotated, replacedBy := Some(2)), THIRD]

  /** Token 1 is being exchanged when token 0 is presented again; the revoke-all
      takes its snapshot before the exchange commits. */
  lemma Race() returns (acts: seq<Action>, w: World)
    ensures Run(acts) == w && w.tokens == THREE && w.purges == [] && w.procs.Keys == {0, 1, 2, 3}
    ensures w.procs[3] == Revoking(0, USER, 2, {1}, {})
    ensures forall p :: p in w.procs && p != 3 ==> w.procs[p].Finished?
  {
    acts, w := Opening();
    acts := UpToRotation(acts, 2, 1);
    hide After;
    w := Move(w, 2, Rotating(1, USER, TENANT, EXPIRY));
    acts := Then(START, acts, Refresh(3, 0), Move(w, 3, Presented(0)));
    acts := Then(START, acts, Go(3, 0), Move(w, 3, Condemned(0, USER)));
    assert ActiveOf([FIRST, SECOND], USER) == {1};
    w := Move(w, 3, Revoking(0, USER, 2, {1}, {}));
    acts := Then(START, acts, Go(3, 0), w);
    w := World(THREE, w.procs[2 := Finished(Issued(2))], []);
    acts := Then(START, acts, Go(2, 0), w);
  }

  /** So the revoke-all never sees token 2. */
  lemma SurvivorExists() returns (acts: seq<Action>, g: Purge)
    ensures var tokens := Run(acts).tokens;
      && g in Run(acts).purges && |tokens| == 3 && tokens[2].user == g.user && tokens[2].status.Active?
      && Forest(tokens) && Root(tokens, 2) < g.presented + 1 <= g.seen
  {
    var w;
    acts, w := Race();
    hide After;
    var v := Move(w, 3, Revoking(0, USER, 2, {}, {}));
    assert !Locked(w, 3, 1);
    assert w.procs[3].todo - {1} == {};
    assert Next(w, Go(3, 1)) == Visit(w, 3, w.procs[3], 1) == v;
    acts := Then(START, acts, Go(3, 1), v);
    g := Purge(0, USER, 2, 3);
    assert Revoke(THREE, {}) == THREE;
    acts := Then(START, acts, Go(3, 0), World(THREE, v.procs[3 := Finished(Invalid)], [g]));
    RunKeeps(acts);
    RootsOfThree();
  }

  lemma RootsOfThree()
    requires Forest(THREE)
    ensures Root(THREE, 2) == 0
  {
    assert Root(THREE, 0) == 0 && Root(THREE, 1) == 0;
  }
}
