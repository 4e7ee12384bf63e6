// The auth service's token calls as they are written, each run alone: read,
// check, create, rotate in a transaction's working copy, and commit.
module TokenService {
  import opened Options
  import opened Tokens
  import opened TokenLaws

  /** One Refresh run alone: the rows it leaves and its reply. now is the
      service's clock, dbNow the database's. */
  function RefreshAlone(tokens: seq<Token>, id: nat, now: int, dbNow: int, userOk: bool, expiresAt: int): (seq<Token>, Reply) {
    if id >= |tokens| then (tokens, NotFound)
    else
      var t := tokens[id];
      if !t.status.Active? then (Revoke(tokens, ActiveOf(tokens, t.user)), Invalid)
      else if t.expiresAt < now then (tokens, Invalid)
      else if !userOk then (tokens, Disabled)
      else if !Rotatable(t, dbNow) then (tokens, Invalid)
      else (Exchange(tokens, id, t.user, t.tenant, expiresAt), Issued(|tokens|))
  }

  lemma RefreshKeepsForest(tokens: seq<Token>, id: nat, now: int, dbNow: int, userOk: bool, expiresAt: int)
    requires Forest(tokens)
    ensures Forest(RefreshAlone(tokens, id, now, dbNow, userOk, expiresAt).0)
  {
    if id < |tokens| {
      var t := tokens[id];
      if !t.status.Active? {
        ForestRevoke(tokens, ActiveOf(tokens, t.user));
      } else if Rotatable(t, dbNow) {
        ForestExchange(tokens, id, t.user, t.tenant, expiresAt);
      }
    }
  }

  /** Presenting a dead token kills every token of its user. */
  lemma ReuseKillsAll(tokens: seq<Token>, id: nat, now: int, dbNow: int, userOk: bool, expiresAt: int, i: nat)
    requires id < |tokens| && !tokens[id].status.Active? && i < |tokens| && tokens[i].user == tokens[id].user
    ensures var (after, reply) := RefreshAlone(tokens, id, now, dbNow, userOk, expiresAt);
      reply == Invalid && |after| == |tokens| && !after[i].status.Active?
  {}

  // ------------------------------------------- one call of the machine, alone

  /** No other call holds a row. */
  predicate Alone(w: World, pid: nat) { forall q :: q in w.procs && q != pid ==> Locks(w.procs[q]) == {} }

  predicate StepsOf(acts: seq<Action>, pid: nat) { forall a :: a in acts ==> a.Step? && a.pid == pid }

  /** A revoke-all visits the rest of its snapshot. */
  lemma {:induction false} Visits(w: World, pid: nat, acts: seq<Action>, id: nat, user: nat, seen: nat, todo: set<nat>, hit: set<nat>)
    returns (more: seq<Action>)
    requires StepsOf(acts, pid) && Alone(w, pid) && AllActive(w.tokens, todo)
    requires After(w, acts) == Move(w, pid, Revoking(id, user, seen, todo, hit))
    ensures StepsOf(more, pid) && After(w, more) == Move(w, pid, Revoking(id, user, seen, {}, hit + todo))
    decreases |todo|
  {
    more := acts;
    if todo == {} {
      assert hit + todo == hit;
    } else {
      var pick :| pick in todo;
      var p := Revoking(id, user, seen, todo - {pick}, hit + {pick});
      assert !Locked(After(w, acts), pid, pick);
      more := Then(w, acts, Step(pid, 0, 0, true, pick), Move(w, pid, p));
      assert hit + todo == (hit + {pick}) + (todo - {pick});
      more := Visits(w, pid, more, id, user, seen, todo - {pick}, hit + {pick});
    }
  }

  lemma PurgeIsMachineRun(w: World, pid: nat, acts: seq<Action>, id: nat, user: nat) returns (more: seq<Action>)
    requires StepsOf(acts, pid) && Alone(w, pid) && After(w, acts) == Move(w, pid, Condemned(id, user))
    ensures StepsOf(more, pid)
    ensures After(w, more).tokens == Revoke(w.tokens, ActiveOf(w.tokens, user))
    ensures pid in After(w, more).procs && After(w, more).procs[pid] == Finished(Invalid)
  {
    hide After;
    var todo := ActiveOf(w.tokens, user);
    more := Then(w, acts, Step(pid, 0, 0, true, 0), Move(w, pid, Revoking(id, user, |w.tokens|, todo, {})));
    more := Visits(w, pid, more, id, user, |w.tokens|, todo, {});
    assert {} + todo == todo;
    more := Then(w, more, Step(pid, 0, 0, true, 0), Next(After(w, more), Step(pid, 0, 0, true, 0)));
  }

  lemma ExchangeIsMachineRun(w: World, pid: nat, acts: seq<Action>, id: nat, dbNow: int, expiresAt: int) returns (more: seq<Action>)
    requires StepsOf(acts, pid) && Alone(w, pid) && id < |w.tokens|
    requires After(w, acts) == Move(w, pid, Entitled(id, w.tokens[id].user, w.tokens[id].tenant))
    ensures var t := w.tokens[id];
      var good := Rotatable(t, dbNow);
      && StepsOf(more, pid) && pid in After(w, more).procs
      && After(w, more).tokens == (if good then Exchange(w.tokens, id, t.user, t.tenant, expiresAt) else w.tokens)
      && After(w, more).procs[pid] == Finished(if good then Issued(|w.tokens|) else Invalid)
  {
    hide After;
    var t := w.tokens[id];
    var a := Step(pid, dbNow, expiresAt, true, 0);
    more := Then(w, acts, a, Move(w, pid, Inserted(id, t.user, t.tenant, expiresAt)));
    assert !Locked(After(w, more), pid, id);
    if Rotatable(t, dbNow) {
      more := Then(w, more, a, Move(w, pid, Rotating(id, t.user, t.tenant, expiresAt)));
    }
    more := Then(w, more, a, Next(After(w, more), a));
  }

  /** The machine's steps of one refresh, when no other call holds a row, are
      that call, whatever it meets: what is proved of all interleavings covers
      it. */
  lemma RefreshIsMachineRun(w: World, pid: nat, id: nat, now: int, dbNow: int, userOk: bool, expiresAt: int) returns (acts: seq<Action>)
    requires pid in w.procs && w.procs[pid] == Presented(id) && Alone(w, pid)
    ensures StepsOf(acts, pid) && pid in After(w, acts).procs && After(w, acts).procs[pid].Finished?
    ensures (After(w, acts).tokens, After(w, acts).procs[pid].reply) ==
      RefreshAlone(w.tokens, id, now, dbNow, userOk, expiresAt)
  {
    var a := Step(pid, now, expiresAt, userOk, 0);
    acts := Then(w, [], a, Next(w, a));
    hide After;
    if id < |w.tokens| {
      var t := w.tokens[id];
      if !t.status.Active? {
        acts := PurgeIsMachineRun(w, pid, acts, id, t.user);
      } else if t.expiresAt >= now {
        var v := Move(w, pid, if userOk then Entitled(id, t.user, t.tenant) else Finished(Disabled));
        assert After(w, acts) == Move(w, pid, Valid(id, t.user, t.tenant));
        acts := Then(w, acts, a, v);
        if userOk {
          acts := ExchangeIsMachineRun(w, pid, acts, id, dbNow, expiresAt);
        }
      }
    }
  }

  /** The same of a login and of a logout. */
  lemma LoginIsMachineRun(w: World, pid: nat, user: nat, tenant: nat, expiresAt: int)
    requires pid !in w.procs
    ensures var v := After(w, [Login(pid, user, tenant, expiresAt), Step(pid, 0, 0, true, 0)]);
      && v.tokens == w.tokens + [Token(user, tenant, Active, None, expiresAt, None)]
      && pid in v.procs && v.procs[pid] == Finished(Issued(|w.tokens|))
  {
    var a, b := Login(pid, user, tenant, expiresAt), Step(pid, 0, 0, true, 0);
    var acts := Then(w, [], a, Next(w, a));
    acts := Then(w, acts, b, Next(Next(w, a), b));
    assert acts == [a, b];
    hide After;
  }

  /** A logout and its reads, then its update. */
  function LogoutEnd(w: World, id: nat): seq<Token> {
    if id < |w.tokens| && w.tokens[id].status == Active then w.tokens[id := w.tokens[id].(status := Revoked)] else w.tokens
  }

  lemma LogoutFinds(w: World, pid: nat, id: nat)
    ensures Next(Move(w, pid, Leaving(id)), Step(pid, 0, 0, true, 0)) ==
      Move(w, pid, if id < |w.tokens| then Found(id) else Finished(NotFound))
  {
    hide Visit, Revoke, Grant, Exchange, ActiveOf, Judge;
  }

  lemma LogoutUpdates(w: World, pid: nat, id: nat)
    requires Alone(w, pid) && id < |w.tokens|
    ensures Next(Move(w, pid, Found(id)), Step(pid, 0, 0, true, 0)) == Move(w, pid, Closing(id, w.tokens[id].status.Active?))
  {
    assert !Locked(Move(w, pid, Found(id)), pid, id);
    hide Locked, Visit, Revoke, Grant, Exchange, ActiveOf, Judge;
  }

  lemma RevokeOne(tokens: seq<Token>, id: nat)
    requires id < |tokens|
    ensures Revoke(tokens, {id}) == tokens[id := tokens[id].(status := Revoked)]
  {}

  lemma LogoutCommits(w: World, pid: nat, id: nat)
    requires id < |w.tokens|
    ensures var v := Next(Move(w, pid, Closing(id, w.tokens[id].status.Active?)), Step(pid, 0, 0, true, 0));
      v.tokens == LogoutEnd(w, id) && pid in v.procs && v.procs[pid] == Finished(LoggedOut)
  {
    hide Visit, Revoke, Grant, Exchange, ActiveOf, Judge, Locked;
    RevokeOne(w.tokens, id);
  }

  lemma LogoutIsMachineRun(w: World, pid: nat, id: nat) returns (acts: seq<Action>)
    requires pid !in w.procs && Alone(w, pid)
    ensures forall a :: a in acts ==> a == Logout(pid, id) || a == Step(pid, 0, 0, true, 0)
    ensures After(w, acts).tokens == LogoutEnd(w, id) && pid in After(w, acts).procs
    ensures After(w, acts).procs[pid] == Finished(if id < |w.tokens| then LoggedOut else NotFound)
  {
    var go := Step(pid, 0, 0, true, 0);
    acts := Then(w, [], Logout(pid, id), Move(w, pid, Leaving(id)));
    LogoutFinds(w, pid, id);
    hide After, Next;
    acts := Then(w, acts, go, Next(After(w, acts), go));
    if id < |w.tokens| {
      LogoutUpdates(w, pid, id);
      LogoutCommits(w, pid, id);
      hide Move, LogoutEnd;
      acts := Then(w, acts, go, Next(After(w, acts), go));
      acts := Then(w, acts, go, Next(After(w, acts), go));
    }
  }

  class TokenTable {
    var tokens: seq<Token>

    constructor ()
      ensures tokens == []
    {
      tokens := [];
    }

    /** Exactly the user's active tokens have become revoked. */
    twostate predicate AllRevoked(user: nat)
      reads this
    {
      && |tokens| == |old(tokens)|
      && (forall i :: 0 <= i < |tokens| && old(tokens)[i].user == user && old(tokens)[i].status == Active ==>
            tokens[i] == old(tokens)[i].(status := Revoked))
      && (forall i :: 0 <= i < |tokens| && !(old(tokens)[i].user == user && old(tokens)[i].status == Active) ==>
            tokens[i] == old(tokens)[i])
    }

    /** repository.go RevokeAllUserRefreshTokens, row by row. */
    method RevokeAllUserRefreshTokens(user: nat)
      modifies this
      ensures AllRevoked(user)
      ensures tokens == Revoke(old(tokens), ActiveOf(old(tokens), user))
    {
      var i := 0;
      while i < |tokens|
        invariant i <= |tokens| == |old(tokens)|
        invariant forall j :: 0 <= j < |tokens| ==>
          tokens[j] == if j < i && j in ActiveOf(old(tokens), user) then old(tokens)[j].(status := Revoked) else old(tokens)[j]
      {
        if tokens[i].user == user && tokens[i].status == Active {
          tokens := tokens[i := tokens[i].(status := Revoked)];
        }
        i := i + 1;
      }
    }

    /** service.go Login after the password check. */
    method Login(user: nat, tenant: nat, expiresAt: int) returns (id: nat)
      modifies this
      ensures id == |old(tokens)| && tokens == old(tokens) + [Token(user, tenant, Active, None, expiresAt, None)]
    {
      id := |tokens|;
      tokens := tokens + [Token(user, tenant, Active, None, expiresAt, None)];
    }

    /** Token n is the successor of token id, live until expiresAt; the old row
        points at it, and no other row has changed. */
    twostate predicate Exchanged(id: nat, expiresAt: int, n: nat)
      requires id < |old(tokens)|
      reads this
    {
      && n == |old(tokens)| && |tokens| == n + 1
      && tokens[n] == Token(old(tokens)[id].user, old(tokens)[id].tenant, Active, None, expiresAt, Some(id))
      && tokens[id] == old(tokens)[id].(status := Rotated, replacedBy := Some(n))
      && forall i :: 0 <= i < n && i != id ==> tokens[i] == old(tokens)[i]
    }

    /** service.go Refresh */
    method Refresh(id: nat, now: int, dbNow: int, userOk: bool, expiresAt: int) returns (reply: Reply)
      modifies this
      ensures reply == NotFound <==> id >= |old(tokens)|
      ensures reply.Issued? <==>
        id < |old(tokens)| && old(tokens)[id].status == Active && old(tokens)[id].expiresAt >= now && userOk && old(tokens)[id].expiresAt > dbNow
      ensures reply == Disabled <==>
        id < |old(tokens)| && old(tokens)[id].status == Active && old(tokens)[id].expiresAt >= now && !userOk
      ensures reply == NotFound || reply.Issued? || reply == Disabled || reply == Invalid
      ensures reply.Issued? ==> Exchanged(id, expiresAt, reply.id)
      ensures id < |old(tokens)| && old(tokens)[id].status != Active ==> AllRevoked(old(tokens)[id].user)
      ensures !reply.Issued? && (id < |old(tokens)| ==> old(tokens)[id].status == Active) ==> tokens == old(tokens)
      ensures (tokens, reply) == RefreshAlone(old(tokens), id, now, dbNow, userOk, expiresAt)
    {
      if id >= |tokens| {
        return NotFound;
      }
      var existing := tokens[id];
      if existing.status == Rotated || existing.status == Revoked {
        RevokeAllUserRefreshTokens(existing.user);
        return Invalid;
      }
      if existing.expiresAt < now {
        return Invalid;
      }
      if !userOk {
        return Disabled;
      }
      var newId := |tokens|;
      var tx := tokens + [Token(existing.user, existing.tenant, Active, None, expiresAt, Some(id))];
      if !(tx[id].status == Active && tx[id].expiresAt > dbNow) {
        return Invalid;
      }
      tx := tx[id := tx[id].(status := Rotated, replacedBy := Some(newId))];
      assert tx == Exchange(tokens, id, existing.user, existing.tenant, expiresAt);
      tokens := tx;
      reply := Issued(newId);
    }

    /** service.go Logout: revoking a token that is already dead is no error. */
    method Logout(id: nat) returns (reply: Reply)
      modifies this
      ensures reply == if id < |old(tokens)| then LoggedOut else NotFound
      ensures tokens == if id < |old(tokens)| && old(tokens)[id].status == Active
                        then old(tokens)[id := old(tokens)[id].(status := Revoked)] else old(tokens)
    {
      if id >= |tokens| {
        return NotFound;
      }
      if tokens[id].status == Active {
        tokens := tokens[id := tokens[id].(status := Revoked)];
      }
      reply := LoggedOut;
    }
  }

  /** The promise to users: replaying a token that has been rotated ends the
      session its successor belongs to, and every other session of the user. */
  method StolenTokenEndsTheSessions(table: TokenTable, user: nat, tenant: nat, now: int) returns (replay: Reply, owner: Reply)
    modifies table
    ensures replay == Invalid && owner == Invalid
    ensures forall i :: 0 <= i < |table.tokens| && table.tokens[i].user == user ==> !table.tokens[i].status.Active?
  {
    var first := table.Login(user, tenant, now + 10);
    var second := table.Refresh(first, now, now, true, now + 20);
    assert second == Issued(first + 1) && table.tokens[first].status.Rotated?;
    replay := table.Refresh(first, now, now, true, now + 30);
    assert !table.tokens[first + 1].status.Active?;
    owner := table.Refresh(first + 1, now, now, true, now + 30);
  }
}
