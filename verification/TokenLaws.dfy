// What every run of the token protocol keeps: the forest of rotations, one
// active token a chain, and the lasting effect of reuse detection.
module TokenLaws {
  import opened Options
  import opened Tokens

  // -------------------------------------------------------------- invariant

  /** Links run forward in commit order, both ways, within one user and tenant;
      exactly the rotated tokens have a successor. */
  ghost predicate LinkOk(tokens: seq<Token>, i: nat)
    requires i < |tokens|
  {
    var t := tokens[i];
    && (t.status.Rotated? <==> t.replacedBy.Some?)
    && (t.replacedBy.Some? ==>
          var n := t.replacedBy.value;
          i < n < |tokens| && tokens[n].from == Some(i))
    && (t.from.Some? ==>
          var p := t.from.value;
          p < i && tokens[p].replacedBy == Some(i) && tokens[p].user == t.user && tokens[p].tenant == t.tenant)
  }

  ghost predicate Forest(tokens: seq<Token>) { forall i :: 0 <= i < |tokens| ==> LinkOk(tokens, i) }

  predicate Names(tokens: seq<Token>, id: nat, user: nat, tenant: nat) {
    id < |tokens| && tokens[id].user == user && tokens[id].tenant == tenant
  }

  predicate AllActive(tokens: seq<Token>, ids: set<nat>) {
    forall i :: i in ids ==> i < |tokens| && tokens[i].status.Active?
  }

  predicate Dead(tokens: seq<Token>, id: nat, user: nat) {
    id < |tokens| && tokens[id].user == user && !tokens[id].status.Active?
  }

  ghost predicate ProcOk(tokens: seq<Token>, p: Proc) {
    && AllActive(tokens, Locks(p))
    && match p
       case Valid(id, user, tenant) => Names(tokens, id, user, tenant)
       case Entitled(id, user, tenant) => Names(tokens, id, user, tenant)
       case Inserted(id, user, tenant, _) => Names(tokens, id, user, tenant)
       case Rotating(id, user, tenant, _) => Names(tokens, id, user, tenant)
       case Condemned(id, user) => Dead(tokens, id, user)
       case Revoking(id, user, seen, todo, hit) =>
         Dead(tokens, id, user) && id < seen <= |tokens| &&
         (forall i :: 0 <= i < seen && tokens[i].user == user && tokens[i].status.Active? ==> i in todo || i in hit)
       case _ => true
  }

  /** Every token of the user committed before the statement's snapshot is dead,
      and nothing was exchanged for one of them after the statement committed. */
  ghost predicate PurgeOk(tokens: seq<Token>, g: Purge) {
    && g.presented < g.seen <= g.until <= |tokens| && Dead(tokens, g.presented, g.user)
    && (forall i :: 0 <= i < g.seen && tokens[i].user == g.user ==> !tokens[i].status.Active?)
    && (forall i :: g.until <= i < |tokens| && tokens[i].user == g.user && tokens[i].from.Some? ==> tokens[i].from.value >= g.seen)
  }

  ghost predicate Inv(w: World) {
    && Forest(w.tokens)
    && (forall p :: p in w.procs ==> ProcOk(w.tokens, w.procs[p]))
    && (forall p, q :: p in w.procs && q in w.procs && p != q ==> Locks(w.procs[p]) !! Locks(w.procs[q]))
    && (forall g :: g in w.purges ==> PurgeOk(w.tokens, g))
  }

  // -------------------------------------------- what a commit may change

  /** u extends t, changes only rows in ids, makes none active, and exchanges
      only tokens in ids. */
  ghost predicate Frame(t: seq<Token>, u: seq<Token>, ids: set<nat>) {
    && |t| <= |u|
    && (forall i :: 0 <= i < |t| ==>
          && u[i].user == t[i].user && u[i].tenant == t[i].tenant && u[i].from == t[i].from
          && (i !in ids ==> u[i] == t[i]) && (u[i].status.Active? ==> t[i].status.Active?))
    && (forall i :: |t| <= i < |u| && u[i].from.Some? ==> u[i].from.value in ids)
  }

  lemma ProcFrame(t: seq<Token>, u: seq<Token>, ids: set<nat>, p: Proc)
    requires Frame(t, u, ids) && ProcOk(t, p) && Locks(p) !! ids
    ensures ProcOk(u, p)
  {}

  lemma PurgeFrame(t: seq<Token>, u: seq<Token>, ids: set<nat>, g: Purge)
    requires Frame(t, u, ids) && PurgeOk(t, g) && AllActive(t, ids)
    requires forall i :: |t| <= i < |u| && u[i].from.Some? ==> u[i].from.value < |t| && t[u[i].from.value].user == u[i].user
    ensures PurgeOk(u, g)
  {}

  lemma LocksAreActive(t: seq<Token>, p: Proc)
    requires ProcOk(t, p)
    ensures AllActive(t, Locks(p))
  {}

  lemma FinishedOk(u: seq<Token>, p: Proc)
    requires p.Finished?
    ensures ProcOk(u, p) && Locks(p) == {}
  {}

  /** A commit by pid that frames its own locks keeps everyone else's facts. */
  lemma CommitKeeps(w: World, pid: nat, p: Proc, u: seq<Token>)
    requires Inv(w) && pid in w.procs && Frame(w.tokens, u, Locks(w.procs[pid]))
    requires Forest(u) && p.Finished?
    requires forall i :: |w.tokens| <= i < |u| && u[i].from.Some? ==>
      u[i].from.value < |w.tokens| && w.tokens[u[i].from.value].user == u[i].user
    ensures Inv(World(u, w.procs[pid := p], w.purges))
  {
    hide Forest, Frame, ProcOk, PurgeOk, Locks, AllActive;
    LocksAreActive(w.tokens, w.procs[pid]);
    FinishedOk(u, p);
    forall q | q in w.procs && q != pid ensures ProcOk(u, w.procs[q]) {
      ProcFrame(w.tokens, u, Locks(w.procs[pid]), w.procs[q]);
    }
    forall g | g in w.purges ensures PurgeOk(u, g) {
      PurgeFrame(w.tokens, u, Locks(w.procs[pid]), g);
    }
  }

  lemma MoveKeeps(w: World, pid: nat, p: Proc)
    requires Inv(w) && ProcOk(w.tokens, p)
    requires forall q :: q in w.procs && q != pid ==> Locks(p) !! Locks(w.procs[q])
    ensures Inv(Move(w, pid, p))
  {}

  lemma ForestGrant(tokens: seq<Token>, user: nat, tenant: nat, expiresAt: int)
    requires Forest(tokens)
    ensures Forest(Grant(tokens, user, tenant, expiresAt, None))
  {
    var u := Grant(tokens, user, tenant, expiresAt, None);
    forall i | 0 <= i < |u| ensures LinkOk(u, i) {
      if i < |tokens| {
        assert LinkOk(tokens, i);
      }
    }
  }

  lemma ForestExchange(tokens: seq<Token>, id: nat, user: nat, tenant: nat, expiresAt: int)
    requires Forest(tokens) && Names(tokens, id, user, tenant) && tokens[id].status.Active?
    ensures Forest(Exchange(tokens, id, user, tenant, expiresAt))
  {
    var u := Exchange(tokens, id, user, tenant, expiresAt);
    assert LinkOk(tokens, id);
    forall i | 0 <= i < |u| ensures LinkOk(u, i) {
      if i < |tokens| {
        assert LinkOk(tokens, i);
      }
    }
  }

  lemma ForestRevoke(tokens: seq<Token>, ids: set<nat>)
    requires Forest(tokens) && AllActive(tokens, ids)
    ensures Forest(Revoke(tokens, ids))
  {
    var u := Revoke(tokens, ids);
    forall i | 0 <= i < |u| ensures LinkOk(u, i) {
      assert LinkOk(tokens, i);
    }
  }

  lemma VisitKeeps(w: World, pid: nat, p: Proc, pick: nat)
    requires Inv(w) && pid in w.procs && w.procs[pid] == p && p.Revoking?
    ensures Inv(Visit(w, pid, p, pick))
  {
    var v := Visit(w, pid, p, pick);
    if v != w {
      assert ProcOk(w.tokens, p);
      MoveKeeps(w, pid, v.procs[pid]);
    }
  }

  lemma PurgeKeeps(w: World, pid: nat, p: Proc)
    requires Inv(w) && pid in w.procs && w.procs[pid] == p && p.Revoking? && p.todo == {}
    ensures Inv(World(Revoke(w.tokens, p.hit), w.procs[pid := Finished(Invalid)],
                      w.purges + [Purge(p.id, p.user, p.seen, |w.tokens|)]))
  {
    assert ProcOk(w.tokens, p);
    ForestRevoke(w.tokens, p.hit);
    CommitKeeps(w, pid, Finished(Invalid), Revoke(w.tokens, p.hit));
    assert PurgeOk(Revoke(w.tokens, p.hit), Purge(p.id, p.user, p.seen, |w.tokens|));
  }

  lemma GrantKeeps(w: World, pid: nat, p: Proc)
    requires Inv(w) && pid in w.procs && w.procs[pid] == p && p.Granting?
    ensures Inv(World(Grant(w.tokens, p.user, p.tenant, p.expiresAt, None), w.procs[pid := Finished(Issued(|w.tokens|))], w.purges))
  {
    ForestGrant(w.tokens, p.user, p.tenant, p.expiresAt);
    CommitKeeps(w, pid, Finished(Issued(|w.tokens|)), Grant(w.tokens, p.user, p.tenant, p.expiresAt, None));
  }

  lemma RotationKeeps(w: World, pid: nat, p: Proc)
    requires Inv(w) && pid in w.procs && w.procs[pid] == p && p.Rotating?
    ensures p.id < |w.tokens| &&
      Inv(World(Exchange(w.tokens, p.id, p.user, p.tenant, p.expiresAt), w.procs[pid := Finished(Issued(|w.tokens|))], w.purges))
  {
    assert ProcOk(w.tokens, p);
    assert p.id in Locks(p);
    ForestExchange(w.tokens, p.id, p.user, p.tenant, p.expiresAt);
    CommitKeeps(w, pid, Finished(Issued(|w.tokens|)), Exchange(w.tokens, p.id, p.user, p.tenant, p.expiresAt));
  }

  lemma ClosingKeeps(w: World, pid: nat, p: Proc)
    requires Inv(w) && pid in w.procs && w.procs[pid] == p && p.Closing?
    ensures Inv(World(if p.live then Revoke(w.tokens, {p.id}) else w.tokens, w.procs[pid := Finished(LoggedOut)], w.purges))
  {
    assert ProcOk(w.tokens, p);
    if p.live {
      assert Locks(p) == {p.id};
      ForestRevoke(w.tokens, {p.id});
    }
    CommitKeeps(w, pid, Finished(LoggedOut), if p.live then Revoke(w.tokens, {p.id}) else w.tokens);
  }

  /** A statement that commits nothing. */
  lemma StatementKeeps(w: World, p: Proc, act: Action)
    requires Inv(w) && act.Step? && act.pid in w.procs && w.procs[act.pid] == p
    requires !p.Granting? && !p.Revoking? && !p.Rotating? && !p.Closing? && !p.Finished? && !p.Aborted?
    ensures Inv(Advance(w, p, act))
  {
    var v := Advance(w, p, act);
    assert ProcOk(w.tokens, p);
    hide Inv, Forest, PurgeOk;
    if v != w {
      assert v == Move(w, act.pid, v.procs[act.pid]);
      assert ProcOk(w.tokens, v.procs[act.pid]);
      Apart(w, act.pid, v.procs[act.pid]);
      hide ProcOk, Advance;
      MoveKeeps(w, act.pid, v.procs[act.pid]);
    }
  }

  /** A row just locked was locked by nobody else. */
  lemma Apart(w: World, pid: nat, p: Proc)
    requires forall i :: i in Locks(p) ==> !Locked(w, pid, i)
    ensures forall q :: q in w.procs && q != pid ==> Locks(p) !! Locks(w.procs[q])
  {}

  lemma AdvanceKeeps(w: World, p: Proc, act: Action)
    requires Inv(w) && act.Step? && act.pid in w.procs && w.procs[act.pid] == p
    ensures Inv(Advance(w, p, act))
  {
    var pid := act.pid;
    hide Inv, Visit, Judge, Rotatable;
    match p
    case Granting(_, _, _) => GrantKeeps(w, pid, p);
    case Revoking(_, _, _, todo, _) =>
      if todo != {} {
        VisitKeeps(w, pid, p, act.pick);
      } else {
        PurgeKeeps(w, pid, p);
      }
    case Rotating(_, _, _, _) => RotationKeeps(w, pid, p);
    case Closing(_, _) => ClosingKeeps(w, pid, p);
    case Finished(_) =>
    case Aborted =>
    case _ => StatementKeeps(w, p, act);
  }

  lemma StepKeeps(w: World, act: Action)
    requires Inv(w)
    ensures Inv(Next(w, act))
  {
    match act
    case Login(pid, user, tenant, expiresAt) =>
      if pid !in w.procs { MoveKeeps(w, pid, Granting(user, tenant, expiresAt)); }
    case Refresh(pid, id) => if pid !in w.procs { MoveKeeps(w, pid, Presented(id)); }
    case Logout(pid, id) => if pid !in w.procs { MoveKeeps(w, pid, Leaving(id)); }
    case Step(pid, _, _, _, _) => if pid in w.procs { AdvanceKeeps(w, w.procs[pid], act); }
    case Abort(pid) => if pid in w.procs && !w.procs[pid].Finished? { MoveKeeps(w, pid, Aborted); }
  }

  lemma {:induction false} RunKeeps(acts: seq<Action>)
    ensures Inv(Run(acts))
  {
    if acts != [] {
      RunKeeps(acts[..|acts| - 1]);
      StepKeeps(Run(acts[..|acts| - 1]), acts[|acts| - 1]);
    }
  }

  // ------------------------------------------------------------ the forest

  /** The login a token descends from. */
  ghost function Root(tokens: seq<Token>, i: nat): (r: nat)
    requires Forest(tokens) && i < |tokens|
    ensures r <= i
    decreases i
  {
    assert LinkOk(tokens, i);
    if tokens[i].from.None? then i else Root(tokens, tokens[i].from.value)
  }

  /** Every chain starts at a login and stays within one user and tenant. */
  lemma {:induction false} RootIsLogin(tokens: seq<Token>, i: nat)
    requires Forest(tokens) && i < |tokens|
    ensures var r := Root(tokens, i);
      tokens[r].from.None? && tokens[r].user == tokens[i].user && tokens[r].tenant == tokens[i].tenant
    decreases i
  {
    assert LinkOk(tokens, i);
    if tokens[i].from.Some? {
      RootIsLogin(tokens, tokens[i].from.value);
    }
  }

  /** replaced_by is injective: no token succeeds two. */
  lemma ReplacedByIsInjective(acts: seq<Action>, i: nat, j: nat)
    requires var tokens := Run(acts).tokens;
      i < |tokens| && j < |tokens| && tokens[i].replacedBy.Some? && tokens[i].replacedBy == tokens[j].replacedBy
    ensures i == j
  {
    RunKeeps(acts);
    var tokens := Run(acts).tokens;
    assert LinkOk(tokens, i) && LinkOk(tokens, j);
  }

  /** replaced_by is acyclic: it always points at a later token. */
  lemma ReplacedByPointsForward(acts: seq<Action>, i: nat)
    requires var tokens := Run(acts).tokens; i < |tokens| && tokens[i].replacedBy.Some?
    ensures var tokens := Run(acts).tokens;
      var n := tokens[i].replacedBy.value;
      i < n < |tokens| && tokens[n].from == Some(i) && tokens[n].user == tokens[i].user && tokens[n].tenant == tokens[i].tenant
  {
    RunKeeps(acts);
    var tokens := Run(acts).tokens;
    assert LinkOk(tokens, i);
    assert LinkOk(tokens, tokens[i].replacedBy.value);
  }

  /** Chains do not branch: of two tokens of one chain the earlier has been
      replaced. */
  lemma {:induction false} EarlierIsReplaced(tokens: seq<Token>, i: nat, j: nat)
    requires Forest(tokens) && i < j < |tokens| && Root(tokens, i) == Root(tokens, j)
    ensures tokens[i].replacedBy.Some? && tokens[i].replacedBy.value <= j
    decreases j, i
  {
    assert LinkOk(tokens, j) && LinkOk(tokens, i);
    assert tokens[j].from.Some?;
    var p := tokens[j].from.value;
    assert LinkOk(tokens, p);
    if p > i {
      EarlierIsReplaced(tokens, i, p);
    } else if p < i {
      EarlierIsReplaced(tokens, p, i);
    }
  }

  /** Under any interleaving each chain has at most one active token, and that
      is its last one. */
  lemma OneActivePerChain(acts: seq<Action>, i: nat, j: nat)
    requires i < |Run(acts).tokens| && j < |Run(acts).tokens| && Run(acts).tokens[i].status.Active?
    ensures var tokens := Run(acts).tokens;
      Forest(tokens) && (Root(tokens, i) == Root(tokens, j) ==> j <= i && (tokens[j].status.Active? ==> i == j))
  {
    RunKeeps(acts);
    var tokens := Run(acts).tokens;
    if Root(tokens, i) == Root(tokens, j) {
      assert LinkOk(tokens, i) && LinkOk(tokens, j);
      if i < j {
        EarlierIsReplaced(tokens, i, j);
      } else if j < i {
        EarlierIsReplaced(tokens, j, i);
      }
    }
  }

  // -------------------------------------------------------- reuse detection

  /** Every revoke-all was caused by presenting a dead token of that user, which
      its snapshot saw. */
  lemma PurgeHasCause(acts: seq<Action>, g: Purge)
    requires g in Run(acts).purges
    ensures g.presented < g.seen <= g.until <= |Run(acts).tokens| && Dead(Run(acts).tokens, g.presented, g.user)
  {
    RunKeeps(acts);
    assert PurgeOk(Run(acts).tokens, g);
  }

  /** A call that has read a dead token is on its way to revoke every session of
      its user, of which n tokens had been committed; it has done so; or it was
      aborted. */
  ghost predicate Purging(w: World, p: Proc, id: nat, user: nat, n: nat) {
    || p == Condemned(id, user)
    || (p.Revoking? && p.id == id && p.user == user && n <= p.seen)
    || (p == Finished(Invalid) && exists g :: g in w.purges && g.presented == id && g.user == user && n <= g.seen)
    || p == Aborted
  }

  lemma PurgingStep(w: World, act: Action, pid: nat, id: nat, user: nat, n: nat)
    requires pid in w.procs && Purging(w, w.procs[pid], id, user, n) && n <= |w.tokens|
    ensures pid in Next(w, act).procs && Purging(Next(w, act), Next(w, act).procs[pid], id, user, n)
    ensures n <= |Next(w, act).tokens|
  {
    var v := Next(w, act);
    assert w.purges <= v.purges;
    if act.Step? && act.pid == pid && w.procs[pid].Revoking? && w.procs[pid].todo == {} {
      assert v.purges[|w.purges|] in v.purges;
    }
    hide Grant, ActiveOf, Locked;
  }

  lemma {:induction false} PurgingRun(acts: seq<Action>, longer: seq<Action>, pid: nat, id: nat, user: nat, n: nat)
    requires acts <= longer && pid in Run(acts).procs && n <= |Run(acts).tokens|
    requires Purging(Run(acts), Run(acts).procs[pid], id, user, n)
    ensures pid in Run(longer).procs && Purging(Run(longer), Run(longer).procs[pid], id, user, n)
    ensures n <= |Run(longer).tokens|
    decreases |longer|
  {
    if |acts| < |longer| {
      var init := longer[..|longer| - 1];
      assert Run(longer) == Next(Run(init), longer[|init|]);
      hide Purging, Run, Next;
      PurgingRun(acts, init, pid, id, user, n);
      PurgingStep(Run(init), longer[|init|], pid, id, user, n);
    } else {
      assert acts == longer;
    }
  }

  /** The promise of reuse detection: once a call that read a dead token has been
      answered, it has been refused, and every token of the user that was
      committed when it read is dead, then and in every later state. */
  lemma ReuseIsFinal(acts: seq<Action>, longer: seq<Action>, act: Action, id: nat, i: nat)
    requires var w := Run(acts);
      && act.Step? && act.pid in w.procs && w.procs[act.pid] == Presented(id)
      && id < |w.tokens| && !w.tokens[id].status.Active?
      && i < |w.tokens| && w.tokens[i].user == w.tokens[id].user
    requires acts + [act] <= longer && act.pid in Run(longer).procs && Run(longer).procs[act.pid].Finished?
    ensures Run(longer).procs[act.pid].reply == Invalid
    ensures i < |Run(longer).tokens| && !Run(longer).tokens[i].status.Active?
  {
    var w := Run(acts);
    var user := w.tokens[id].user;
    var more := Then(START, acts, act, Move(w, act.pid, Condemned(id, user)));
    PurgingRun(more, longer, act.pid, id, user, |w.tokens|);
    UsersStay(acts, longer, i);
    RunKeeps(longer);
    hide Run;
    var g :| g in Run(longer).purges && g.presented == id && g.user == user && |w.tokens| <= g.seen;
    assert PurgeOk(Run(longer).tokens, g);
  }

  /** Tokens are never removed and never change hands. */
  lemma {:induction false} UsersStay(acts: seq<Action>, longer: seq<Action>, i: nat)
    requires acts <= longer && i < |Run(acts).tokens|
    ensures i < |Run(longer).tokens| && Run(longer).tokens[i].user == Run(acts).tokens[i].user
    decreases |longer|
  {
    if |acts| < |longer| {
      var init := longer[..|longer| - 1];
      UsersStay(acts, init, i);
      hide Locked, ActiveOf;
    } else {
      assert acts == longer;
    }
  }

  /** Once a revoke-all has committed, in every later state every token of the
      user that was committed before its snapshot is dead. */
  lemma PurgedForEver(acts: seq<Action>, g: Purge, i: nat)
    requires g in Run(acts).purges && i < g.seen && i < |Run(acts).tokens| && Run(acts).tokens[i].user == g.user
    ensures !Run(acts).tokens[i].status.Active?
  {
    RunKeeps(acts);
    assert PurgeOk(Run(acts).tokens, g);
  }

  /** x continues the chain of a purged token by a rotation that committed after
      the statement's snapshot and before the statement's own commit. */
  ghost predicate Raced(tokens: seq<Token>, g: Purge, x: nat) {
    g.seen <= x < |tokens| && x < g.until && tokens[x].from.Some? && tokens[x].from.value < g.seen
  }

  lemma {:induction false} RootsBelow(tokens: seq<Token>, x: nat)
    requires Forest(tokens) && x < |tokens| && tokens[x].from.Some?
    ensures Root(tokens, x) <= tokens[x].from.value
  {
    assert LinkOk(tokens, x);
  }

  /** A token of the user that comes after a snapshot descends from a login the
      snapshot saw if and only if its chain, up to it, has such a rotation. */
  lemma {:induction false} SurvivorRacedThePurge(acts: seq<Action>, g: Purge, i: nat)
    requires g in Run(acts).purges && g.seen <= i < |Run(acts).tokens| && Run(acts).tokens[i].user == g.user
    ensures var tokens := Run(acts).tokens;
      Forest(tokens) && (Root(tokens, i) < g.seen <==>
        exists x: nat :: Raced(tokens, g, x) && x <= i && Root(tokens, x) == Root(tokens, i))
    decreases i
  {
    RunKeeps(acts);
    var tokens := Run(acts).tokens;
    hide Run;
    if Root(tokens, i) < g.seen {
      var x := LinkOf(tokens, g, i);
    }
    forall x: nat | Raced(tokens, g, x) && x <= i && Root(tokens, x) == Root(tokens, i) ensures Root(tokens, i) < g.seen {
      RootsBelow(tokens, x);
    }
  }

  lemma {:induction false} LinkOf(tokens: seq<Token>, g: Purge, i: nat) returns (x: nat)
    requires Forest(tokens) && PurgeOk(tokens, g)
    requires g.seen <= i < |tokens| && tokens[i].user == g.user && Root(tokens, i) < g.seen
    ensures Raced(tokens, g, x) && x <= i && Root(tokens, x) == Root(tokens, i)
    decreases i
  {
    assert LinkOk(tokens, i);
    if tokens[i].from.value >= g.seen {
      x := LinkOf(tokens, g, tokens[i].from.value);
    } else {
      x := i;
    }
  }

  /** So when no other commit falls between snapshot and commit, as when calls
      run one at a time, any token of the user alive later, and any successful
      refresh, descends from a login later than the purge. */
  lemma UnracedPurgeIsFinal(acts: seq<Action>, g: Purge, i: nat)
    requires g in Run(acts).purges && g.seen == g.until
    requires i < |Run(acts).tokens| && Run(acts).tokens[i].user == g.user
    requires g.seen <= i || Run(acts).tokens[i].status.Active?
    ensures Forest(Run(acts).tokens) && Root(Run(acts).tokens, i) >= g.seen
  {
    RunKeeps(acts);
    assert PurgeOk(Run(acts).tokens, g);
    if g.seen <= i {
      SurvivorRacedThePurge(acts, g, i);
    }
  }
}
