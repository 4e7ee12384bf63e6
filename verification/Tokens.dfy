// Refresh-token rotation (internal/auth): logins, refreshes and logouts cut at
// their statements and commits, with row locks held to the commit.
module Tokens {
  import opened Options

  datatype Status = Active | Rotated | Revoked

  /** A refresh_tokens row. Ids number the rows in commit order. from is a
      history variable: the token this one was issued in exchange for. */
  datatype Token = Token(
    user: nat,
    tenant: nat,
    status: Status,
    replacedBy: Option<nat>,
    expiresAt: int,
    from: Option<nat>)

  datatype Reply = Issued(id: nat) | Invalid | NotFound | Disabled | LoggedOut

  datatype Proc =
    | Granting(user: nat, tenant: nat, expiresAt: int)           // a login's insert, uncommitted
    | Presented(id: nat)                                         // a refresh before its read
    | Condemned(id: nat, user: nat)                              // the presented token is dead
    | Revoking(id: nat, user: nat, seen: nat, todo: set<nat>, hit: set<nat>)
    | Valid(id: nat, user: nat, tenant: nat)                     // read as active and unexpired
    | Entitled(id: nat, user: nat, tenant: nat)                  // the user may refresh
    | Inserted(id: nat, user: nat, tenant: nat, expiresAt: int)  // successor inserted, uncommitted
    | Rotating(id: nat, user: nat, tenant: nat, expiresAt: int)  // old row updated, uncommitted
    | Leaving(id: nat)                                           // a logout before its read
    | Found(id: nat)
    | Closing(id: nat, live: bool)                               // the guarded update, uncommitted
    | Finished(reply: Reply)
    | Aborted

  /** History: a completed revoke-all, the dead token whose presentation caused
      it, and the number of tokens committed when its statement took its
      snapshot and when it committed. */
  datatype Purge = Purge(presented: nat, user: nat, seen: nat, until: nat)

  datatype World = World(tokens: seq<Token>, procs: map<nat, Proc>, purges: seq<Purge>)

  /** A step's now is whatever clock its statement reads, expiresAt the expiry
      it computes, userOk the users row it finds, pick the row it locks next. */
  datatype Action =
    | Login(pid: nat, user: nat, tenant: nat, expiresAt: int)
    | Refresh(pid: nat, id: nat)
    | Logout(pid: nat, id: nat)
    | Step(pid: nat, now: int, expiresAt: int, userOk: bool, pick: nat)
    | Abort(pid: nat)

  /** Rows updated by an open transaction. */
  function Locks(p: Proc): set<nat> {
    match p
    case Rotating(id, _, _, _) => {id}
    case Closing(id, live) => if live then {id} else {}
    case Revoking(_, _, _, _, hit) => hit
    case _ => {}
  }

  predicate Locked(w: World, pid: nat, id: nat) {
    exists q :: q in w.procs && q != pid && id in Locks(w.procs[q])
  }

  // -------------------------------------------------------- committed writes

  function Grant(tokens: seq<Token>, user: nat, tenant: nat, expiresAt: int, from: Option<nat>): seq<Token> {
    tokens + [Token(user, tenant, Active, None, expiresAt, from)]
  }

  /** The commit of a refresh: the successor appears, the old row points at it. */
  function Exchange(tokens: seq<Token>, id: nat, user: nat, tenant: nat, expiresAt: int): seq<Token>
    requires id < |tokens|
  {
    Grant(tokens[id := tokens[id].(status := Rotated, replacedBy := Some(|tokens|))], user, tenant, expiresAt, Some(id))
  }

  function Revoke(tokens: seq<Token>, ids: set<nat>): (r: seq<Token>)
    ensures |r| == |tokens|
    ensures forall i :: 0 <= i < |tokens| ==> r[i] == if i in ids then tokens[i].(status := Revoked) else tokens[i]
  {
    seq(|tokens|, i requires 0 <= i < |tokens| => if i in ids then tokens[i].(status := Revoked) else tokens[i])
  }

  function ActiveOf(tokens: seq<Token>, user: nat): set<nat> {
    set i: nat | i < |tokens| && tokens[i].user == user && tokens[i].status.Active?
  }

  // ------------------------------------------------------------------- steps

  function Move(w: World, pid: nat, p: Proc): World { w.(procs := w.procs[pid := p]) }

  /** service.go Refresh after its read: reuse, expiry, or on to the user. */
  function Judge(t: Token, id: nat, now: int): Proc {
    if !t.status.Active? then Condemned(id, t.user)
    else if t.expiresAt < now then Finished(Invalid)
    else Valid(id, t.user, t.tenant)
  }

  predicate Rotatable(t: Token, now: int) { t.status.Active? && t.expiresAt > now }

  /** The revoke-all statement visits one row of its snapshot: it waits for the
      row's lock and then re-checks the row. */
  function Visit(w: World, pid: nat, p: Proc, pick: nat): World
    requires p.Revoking?
  {
    if pick !in p.todo || pick >= |w.tokens| || Locked(w, pid, pick) then w
    else
      var hit := if w.tokens[pick].status.Active? then p.hit + {pick} else p.hit;
      Move(w, pid, p.(todo := p.todo - {pick}, hit := hit))
  }

  function Advance(w: World, p: Proc, act: Action): World
    requires act.Step?
  {
    var pid := act.pid;
    match p
    case Granting(user, tenant, expiresAt) =>
      Move(w, pid, Finished(Issued(|w.tokens|))).(tokens := Grant(w.tokens, user, tenant, expiresAt, None))
    case Presented(id) =>
      Move(w, pid, if id < |w.tokens| then Judge(w.tokens[id], id, act.now) else Finished(NotFound))
    case Condemned(id, user) => Move(w, pid, Revoking(id, user, |w.tokens|, ActiveOf(w.tokens, user), {}))
    case Revoking(id, user, seen, todo, hit) =>
      if todo != {} then Visit(w, pid, p, act.pick)
      else
        World(Revoke(w.tokens, hit), w.procs[pid := Finished(Invalid)], w.purges + [Purge(id, user, seen, |w.tokens|)])
    case Valid(id, user, tenant) => Move(w, pid, if act.userOk then Entitled(id, user, tenant) else Finished(Disabled))
    case Entitled(id, user, tenant) => Move(w, pid, Inserted(id, user, tenant, act.expiresAt))
    case Inserted(id, user, tenant, expiresAt) =>
      if id >= |w.tokens| || Locked(w, pid, id) then w
      else if Rotatable(w.tokens[id], act.now) then Move(w, pid, Rotating(id, user, tenant, expiresAt))
      else Move(w, pid, Finished(Invalid))
    case Rotating(id, user, tenant, expiresAt) =>
      if id >= |w.tokens| then w
      else Move(w, pid, Finished(Issued(|w.tokens|))).(tokens := Exchange(w.tokens, id, user, tenant, expiresAt))
    case Leaving(id) => Move(w, pid, if id < |w.tokens| then Found(id) else Finished(NotFound))
    case Found(id) =>
      if id >= |w.tokens| || Locked(w, pid, id) then w else Move(w, pid, Closing(id, w.tokens[id].status.Active?))
    case Closing(id, live) =>
      Move(w, pid, Finished(LoggedOut)).(tokens := if live then Revoke(w.tokens, {id}) else w.tokens)
    case Finished(_) => w
    case Aborted => w
  }

  function Next(w: World, act: Action): World {
    match act
    case Login(pid, user, tenant, expiresAt) => if pid in w.procs then w else Move(w, pid, Granting(user, tenant, expiresAt))
    case Refresh(pid, id) => if pid in w.procs then w else Move(w, pid, Presented(id))
    case Logout(pid, id) => if pid in w.procs then w else Move(w, pid, Leaving(id))
    case Step(pid, _, _, _, _) => if pid in w.procs then Advance(w, w.procs[pid], act) else w
    case Abort(pid) => if pid in w.procs && !w.procs[pid].Finished? then Move(w, pid, Aborted) else w
  }

  function After(w: World, acts: seq<Action>): World {
    if acts == [] then w else Next(After(w, acts[..|acts| - 1]), acts[|acts| - 1])
  }

  const START := World([], map[], [])

  function Run(acts: seq<Action>): World { After(START, acts) }

  lemma Then(w: World, acts: seq<Action>, a: Action, v: World) returns (more: seq<Action>)
    requires Next(After(w, acts), a) == v
    ensures more == acts + [a] && After(w, more) == v
  {
    more := acts + [a];
    assert more[..|acts|] == acts;
  }
}
