// What every run of the idempotency protocol keeps: the fence, the soundness
// of replays, and the bound on handler effects.
module IdempotencyLaws {
  import opened Options
  import opened Idempotency

  // -------------------------------------------------------------- invariant

  /** The condition under which the fence works: no row expires before the time
      that is its token. */
  ghost predicate Sound(rows: map<Key, Row>) { forall k :: k in rows ==> rows[k].createdAt <= rows[k].expiresAt }

  /** It holds before every step of the run. */
  ghost predicate Orderly(s: Settings, acts: seq<Action>) {
    forall n :: 0 <= n < |acts| ==> Sound(Run(s, acts[..n]).rows)
  }

  /** What follows is kept by every run; the clauses marked fenced by every
      orderly one. */

  /** Handler run e of claim c answered with r. */
  predicate Produced(w: World, claim: nat, r: Response) {
    exists e :: e in w.execs && e.claim == claim && e.response == Some(r)
  }

  /** response was the answer of the handler run of a claim of this very request. */
  predicate ProducedFor(w: World, k: Key, hash: string, claim: nat, r: Response) {
    claim < |w.claims| && w.claims[claim].key == k && w.claims[claim].hash == hash && Produced(w, claim, r)
  }

  predicate HasRun(w: World, claim: nat) { exists e :: e in w.execs && e.claim == claim }

  /** The claim a row, a process, a statement or a replay names is real. */
  predicate Holds(w: World, claim: nat, k: Key, token: int) {
    claim < |w.claims| && w.claims[claim].key == k && w.claims[claim].token == token
  }

  ghost predicate RowOk(w: World, k: Key, fenced: bool)
    requires k in w.rows
  {
    var row := w.rows[k];
    && Holds(w, row.claim, k, row.createdAt) && w.claims[row.claim].hash == row.hash
    && (fenced && row.answer.Completed? ==> Produced(w, row.claim, row.answer.response))
    && (forall j :: row.claim < j < |w.claims| ==> w.claims[j].key != k)
  }

  /** Some request claimed the key with this hash, or with another. */
  ghost predicate ClaimedWith(w: World, k: Key, hash: string, same: bool) {
    exists c :: 0 <= c < |w.claims| && w.claims[c].key == k && (w.claims[c].hash == hash) == same
  }

  ghost predicate ProcOk(w: World, p: Proc, fenced: bool) {
    match p
    case Reading(k, _) => exists c :: 0 <= c < |w.claims| && w.claims[c].key == k
    case Running(_, k, hash, token, claim) =>
      Holds(w, claim, k, token) && w.claims[claim].hash == hash && !HasRun(w, claim)
    case Completing(_, k, hash, token, claim, response, _) =>
      Holds(w, claim, k, token) && w.claims[claim].hash == hash && Produced(w, claim, response)
    case Done(k, hash, reply) =>
      && (reply.Executed? ==> exists c :: ProducedFor(w, k, hash, c, reply.response))
      && (reply.KeyReused? ==> ClaimedWith(w, k, hash, false))
      && (reply.InFlight? || reply.Replayed? ==> ClaimedWith(w, k, hash, true))
      && !reply.NoRecord?
      && (fenced && reply.Replayed? ==> ProducedFor(w, k, hash, reply.claim, reply.response))
    case _ => true
  }

  ghost predicate StatementOk(w: World, c: Completion) {
    Holds(w, c.claim, c.key, c.token) && Produced(w, c.claim, c.response)
  }

  /** For each key the tokens of its claims strictly increase. */
  ghost predicate Increasing(claims: seq<Claim>) {
    forall i, j :: 0 <= i < j < |claims| && claims[i].key == claims[j].key ==> claims[i].token < claims[j].token
  }

  ghost predicate OneRunEach(execs: seq<Exec>) {
    forall i, j :: 0 <= i < j < |execs| ==> execs[i].claim != execs[j].claim
  }

  ghost predicate Rows(w: World, fenced: bool) {
    && (forall k :: k in w.rows ==> RowOk(w, k, fenced))
    && (forall i :: 0 <= i < |w.claims| ==> w.claims[i].key in w.rows)
  }

  ghost predicate Procs(w: World, fenced: bool) {
    && (forall p :: p in w.procs ==> ProcOk(w, w.procs[p], fenced))
    && (forall p, q :: p in w.procs && q in w.procs && p != q && w.procs[p].Running? && w.procs[q].Running? ==>
          w.procs[p].claim != w.procs[q].claim)
  }

  ghost predicate Statements(w: World) { forall c :: c in w.limbo ==> StatementOk(w, c) }

  ghost predicate Runs(w: World) {
    OneRunEach(w.execs) && forall e :: e in w.execs ==> e.claim < |w.claims|
  }

  ghost predicate Inv(w: World, fenced: bool) {
    (fenced ==> Increasing(w.claims)) && Rows(w, fenced) && Procs(w, fenced) && Statements(w) && Runs(w)
  }

  // ----------------------------------------------------- growing histories

  /** v's histories extend w's. */
  ghost predicate Extends(w: World, v: World) {
    w.claims <= v.claims && w.execs <= v.execs
  }

  lemma ProducedExtends(w: World, v: World, claim: nat, r: Response)
    requires Extends(w, v) && Produced(w, claim, r)
    ensures Produced(v, claim, r)
  {}

  lemma ClaimedWithExtends(w: World, v: World, k: Key, hash: string, same: bool)
    requires Extends(w, v) && ClaimedWith(w, k, hash, same)
    ensures ClaimedWith(v, k, hash, same)
  {
    var c :| 0 <= c < |w.claims| && w.claims[c].key == k && (w.claims[c].hash == hash) == same;
    assert v.claims[c] == w.claims[c];
  }

  lemma ProcExtends(w: World, v: World, p: Proc, fenced: bool)
    requires Extends(w, v) && ProcOk(w, p, fenced)
    requires p.Running? ==> !HasRun(v, p.claim)
    ensures ProcOk(v, p, fenced)
  {
    match p
    case Completing(_, _, _, _, claim, response, _) => ProducedExtends(w, v, claim, response);
    case Reading(k, _) =>
      var c :| 0 <= c < |w.claims| && w.claims[c].key == k;
      assert v.claims[c] == w.claims[c];
    case Done(k, hash, reply) =>
      if reply.KeyReused? || reply.InFlight? || reply.Replayed? {
        ClaimedWithExtends(w, v, k, hash, !reply.KeyReused?);
      }
      if reply.Executed? {
        var c :| ProducedFor(w, k, hash, c, reply.response);
        ProducedExtends(w, v, c, reply.response);
        assert ProducedFor(v, k, hash, c, reply.response);
      } else if fenced && reply.Replayed? {
        ProducedExtends(w, v, reply.claim, reply.response);
      }
    case _ =>
  }

  lemma RowExtends(w: World, v: World, k: Key, fenced: bool)
    requires Extends(w, v) && k in w.rows && RowOk(w, k, fenced) && k in v.rows && v.rows[k] == w.rows[k]
    requires forall j :: |w.claims| <= j < |v.claims| ==> v.claims[j].key != k
    ensures RowOk(v, k, fenced)
  {}

  lemma StatementsExtend(w: World, v: World)
    requires Extends(w, v) && Statements(w) && forall c :: c in v.limbo ==> c in w.limbo
    ensures Statements(v)
  {}

  /** All processes but pid carry over when nobody else's handler has run. */
  lemma ProcsExtend(w: World, v: World, pid: nat, fenced: bool)
    requires Extends(w, v) && Procs(w, fenced) && pid in v.procs && ProcOk(v, v.procs[pid], fenced)
    requires v.procs == w.procs[pid := v.procs[pid]]
    requires forall q :: q in w.procs && q != pid && w.procs[q].Running? ==>
      !HasRun(v, w.procs[q].claim) && (v.procs[pid].Running? ==> w.procs[q].claim != v.procs[pid].claim)
    ensures Procs(v, fenced)
  {
    forall q | q in v.procs ensures ProcOk(v, v.procs[q], fenced) {
      if q != pid {
        assert ProcOk(w, w.procs[q], fenced);
        ProcExtends(w, v, w.procs[q], fenced);
      }
    }
  }

  lemma SameHistory(w: World, v: World, pid: nat, fenced: bool)
    requires Extends(w, v) && v.claims == w.claims && v.execs == w.execs && v.rows == w.rows
    requires Inv(w, fenced) && pid in v.procs && ProcOk(v, v.procs[pid], fenced) && v.procs == w.procs[pid := v.procs[pid]]
    requires v.procs[pid].Running? ==> pid in w.procs && w.procs[pid] == v.procs[pid]
    ensures Rows(v, fenced) && Procs(v, fenced) && Runs(v) && (fenced ==> Increasing(v.claims))
  {
    forall k | k in v.rows ensures RowOk(v, k, fenced) { RowExtends(w, v, k, fenced); }
    forall q | q in w.procs && q != pid && w.procs[q].Running? ensures !HasRun(v, w.procs[q].claim) {
      assert ProcOk(w, w.procs[q], fenced);
    }
    ProcsExtend(w, v, pid, fenced);
  }

  // ------------------------------------------------------------- the steps

  /** A step that only changes its own process. */
  lemma MoveKeeps(w: World, pid: nat, p: Proc, fenced: bool)
    requires Inv(w, fenced) && ProcOk(w, p, fenced) && !p.Running?
    ensures Inv(Move(w, pid, p), fenced)
  {
    var v := Move(w, pid, p);
    ProcExtends(w, v, p, fenced);
    SameHistory(w, v, pid, fenced);
    StatementsExtend(w, v);
  }

  /** A claim that gets a sound row: its token is later than every earlier one. */
  lemma NewTokenIsLatest(w: World, p: Proc, i: nat)
    requires Inv(w, true) && Sound(w.rows) && p.Claiming? && Claimable(w.rows, p.key, p.now)
    requires i < |w.claims| && w.claims[i].key == p.key
    ensures w.claims[i].token < Micro(p.now)
  {
    assert RowOk(w, p.key, true);
  }

  lemma ClaimKeepsRows(s: Settings, w: World, pid: nat, p: Proc, fenced: bool)
    requires Inv(w, fenced) && p.Claiming? && Claimable(w.rows, p.key, p.now)
    ensures Rows(ClaimStep(s, w, pid, p), fenced)
  {}

  lemma ClaimKeepsProcs(s: Settings, w: World, pid: nat, p: Proc, fenced: bool)
    requires Inv(w, fenced) && pid in w.procs && w.procs[pid] == p && p.Claiming? && Claimable(w.rows, p.key, p.now)
    ensures Procs(ClaimStep(s, w, pid, p), fenced) && Runs(ClaimStep(s, w, pid, p))
  {
    var v := ClaimStep(s, w, pid, p);
    forall q | q in w.procs && q != pid && w.procs[q].Running?
      ensures !HasRun(v, w.procs[q].claim) && w.procs[q].claim != |w.claims|
    {
      assert ProcOk(w, w.procs[q], fenced);
    }
    ProcsExtend(w, v, pid, fenced);
  }

  lemma ClaimKeeps(s: Settings, w: World, pid: nat, p: Proc, fenced: bool)
    requires Inv(w, fenced) && pid in w.procs && w.procs[pid] == p && p.Claiming?
    requires fenced ==> Sound(w.rows)
    ensures Inv(ClaimStep(s, w, pid, p), fenced)
  {
    if Claimable(w.rows, p.key, p.now) {
      var v := ClaimStep(s, w, pid, p);
      if fenced {
        forall i | 0 <= i < |w.claims| && w.claims[i].key == p.key ensures w.claims[i].token < Micro(p.now) {
          NewTokenIsLatest(w, p, i);
        }
        assert Increasing(v.claims);
      }
      ClaimKeepsRows(s, w, pid, p, fenced);
      ClaimKeepsProcs(s, w, pid, p, fenced);
      StatementsExtend(w, v);
    } else {
      assert RowOk(w, p.key, fenced);
      MoveKeeps(w, pid, Reading(p.key, p.hash), fenced);
    }
  }

  lemma ReadKeeps(w: World, pid: nat, p: Proc, fenced: bool)
    requires Inv(w, fenced) && pid in w.procs && w.procs[pid] == p && p.Reading?
    ensures Inv(ReadStep(w, pid, p), fenced)
  {
    assert ProcOk(w, p, fenced) && p.key in w.rows;
    assert RowOk(w, p.key, fenced);
    var row := w.rows[p.key];
    assert ClaimedWith(w, p.key, p.hash, row.hash == p.hash);
    MoveKeeps(w, pid, Done(p.key, p.hash, HandleExisting(row, p.hash)), fenced);
  }

  lemma ExecKeepsProcs(w: World, v: World, pid: nat, p: Proc, e: Exec, fenced: bool)
    requires Inv(w, fenced) && pid in w.procs && w.procs[pid] == p && p.Running? && e.claim == p.claim
    requires v.clocks == w.clocks && v.claims == w.claims && v.execs == w.execs + [e]
    requires pid in v.procs && v.procs == w.procs[pid := v.procs[pid]]
    requires v.procs[pid] == Crashed ||
      (e.response.Some? && v.procs[pid] == Completing(p.server, p.key, p.hash, p.token, p.claim, e.response.value, 1))
    ensures Procs(v, fenced) && Runs(v)
  {
    assert ProcOk(w, p, fenced) && e in v.execs;
    forall q | q in w.procs && q != pid && w.procs[q].Running? ensures !HasRun(v, w.procs[q].claim) {
      assert ProcOk(w, w.procs[q], fenced);
    }
    ProcsExtend(w, v, pid, fenced);
    forall i, j | 0 <= i < j < |v.execs| ensures v.execs[i].claim != v.execs[j].claim {
      assert w.execs[i] in w.execs;
    }
  }

  /** The handler of a claim runs: no other process runs for that claim. */
  lemma ExecKeeps(w: World, pid: nat, p: Proc, e: Exec, p': Proc, fenced: bool)
    requires Inv(w, fenced) && pid in w.procs && w.procs[pid] == p && p.Running?
    requires e.claim == p.claim
    requires p' == Crashed || (e.response.Some? && p' == Completing(p.server, p.key, p.hash, p.token, p.claim, e.response.value, 1))
    ensures Inv(Move(w, pid, p').(execs := w.execs + [e]), fenced)
  {
    var v := Move(w, pid, p').(execs := w.execs + [e]);
    forall k | k in v.rows ensures RowOk(v, k, fenced) { RowExtends(w, v, k, fenced); }
    ExecKeepsProcs(w, v, pid, p, e, fenced);
    StatementsExtend(w, v);
  }

  lemma SameTokenSameClaim(w: World, i: nat, j: nat)
    requires Increasing(w.claims) && i < |w.claims| && j < |w.claims|
    requires w.claims[i].key == w.claims[j].key && w.claims[i].token == w.claims[j].token
    ensures i == j
  {}

  /** A Complete statement reaches the database. */
  lemma CompleteKeeps(w: World, c: Completion, fenced: bool)
    requires Inv(w, fenced) && StatementOk(w, c)
    ensures Inv(w.(rows := Complete(w.rows, c)), fenced)
  {
    var v := w.(rows := Complete(w.rows, c));
    forall k | k in v.rows ensures RowOk(v, k, fenced) {
      assert RowOk(w, k, fenced);
      if k == c.key && Fenced(w.rows, c) {
        if fenced {
          SameTokenSameClaim(w, w.rows[k].claim, c.claim);
        }
        ProducedExtends(w, v, c.claim, c.response);
      } else {
        RowExtends(w, v, k, fenced);
      }
    }
    forall q | q in v.procs ensures ProcOk(v, v.procs[q], fenced) {
      assert ProcOk(w, w.procs[q], fenced);
      ProcExtends(w, v, w.procs[q], fenced);
    }
    StatementsExtend(w, v);
  }

  lemma LimboKeeps(w: World, limbo: seq<Completion>, fenced: bool)
    requires Inv(w, fenced) && forall c :: c in limbo ==> StatementOk(w, c)
    ensures Inv(w.(limbo := limbo), fenced)
  {
    var v := w.(limbo := limbo);
    forall k | k in v.rows ensures RowOk(v, k, fenced) { RowExtends(w, v, k, fenced); }
    forall q | q in v.procs ensures ProcOk(v, v.procs[q], fenced) {
      assert ProcOk(w, w.procs[q], fenced);
      ProcExtends(w, v, w.procs[q], fenced);
    }
    forall c | c in v.limbo ensures StatementOk(v, c) { ProducedExtends(w, v, c.claim, c.response); }
  }

  /** After an attempt the call goes round again or is done, and its statement is
      one of its own claim. */
  lemma AttemptOk(s: Settings, w: World, pid: nat, p: Proc, fate: Fate, fenced: bool)
    requires Inv(w, fenced) && pid in w.procs && w.procs[pid] == p && p.Completing?
    ensures var p' := AttemptStep(s, w, pid, p, fate).procs[pid];
      ProcOk(w, p', fenced) && !p'.Running? && StatementOk(Move(w, pid, p'), Statement(s, w, p))
  {
    assert ProcOk(w, p, fenced) && ProducedFor(w, p.key, p.hash, p.claim, p.response);
    hide Inv, Complete;
  }

  lemma AttemptKeeps(s: Settings, w: World, pid: nat, p: Proc, fate: Fate, fenced: bool)
    requires Inv(w, fenced) && pid in w.procs && w.procs[pid] == p && p.Completing?
    ensures Inv(AttemptStep(s, w, pid, p, fate), fenced)
  {
    var c, p' := Statement(s, w, p), AttemptStep(s, w, pid, p, fate).procs[pid];
    AttemptOk(s, w, pid, p, fate, fenced);
    var u := Move(w, pid, p');
    hide Inv, StatementOk, ProcOk, Statement, Complete;
    MoveKeeps(w, pid, p', fenced);
    match fate
    case Acknowledged => CompleteKeeps(u, c, fenced);
    case AppliedButFailed => CompleteKeeps(u, c, fenced);
    case Lost =>
    case Delayed =>
      LimboStatements(u, fenced);
      LimboKeeps(u, u.limbo + [c], fenced);
  }

  lemma LimboStatements(w: World, fenced: bool)
    requires Inv(w, fenced)
    ensures forall c :: c in w.limbo ==> StatementOk(w, c)
  {}

  lemma TickKeeps(w: World, server: nat, now: int, fenced: bool)
    requires Inv(w, fenced)
    ensures Inv(w.(clocks := w.clocks[server := now]), fenced)
  {
    var v := w.(clocks := w.clocks[server := now]);
    forall k | k in v.rows ensures RowOk(v, k, fenced) { RowExtends(w, v, k, fenced); }
    forall q | q in v.procs ensures ProcOk(v, v.procs[q], fenced) {
      assert ProcOk(w, w.procs[q], fenced);
      ProcExtends(w, v, w.procs[q], fenced);
    }
    StatementsExtend(w, v);
  }

  lemma FlushKeeps(w: World, i: nat, fenced: bool)
    requires Inv(w, fenced) && i < |w.limbo|
    ensures Inv(w.(rows := Complete(w.rows, w.limbo[i]), limbo := w.limbo[..i] + w.limbo[i + 1..]), fenced)
  {
    var c := w.limbo[i];
    assert c in w.limbo;
    CompleteKeeps(w, c, fenced);
    var u := w.(rows := Complete(w.rows, c));
    LimboStatements(u, fenced);
    LimboKeeps(u, w.limbo[..i] + w.limbo[i + 1..], fenced);
  }

  lemma StepKeeps(s: Settings, w: World, act: Action, fenced: bool)
    requires Inv(w, fenced) && (fenced ==> Sound(w.rows))
    ensures Inv(Next(s, w, act), fenced)
  {
    hide Inv;
    match act
    case Tick(server, now) => TickKeeps(w, server, now, fenced);
    case Arrive(pid, server, key, hash) =>
      if pid !in w.procs { MoveKeeps(w, pid, Arrived(server, key, hash), fenced); }
    case Flush(i) =>
      if i < |w.limbo| { FlushKeeps(w, i, fenced); }
    case ReadClock(pid) =>
      if pid in w.procs && w.procs[pid].Arrived? {
        var p := w.procs[pid];
        MoveKeeps(w, pid, Claiming(p.server, p.key, p.hash, Clock(w, p.server)), fenced);
      }
    case TryClaim(pid) =>
      if pid in w.procs && w.procs[pid].Claiming? { ClaimKeeps(s, w, pid, w.procs[pid], fenced); }
    case ReadRow(pid) =>
      if pid in w.procs && w.procs[pid].Reading? { ReadKeeps(w, pid, w.procs[pid], fenced); }
    case Handle(pid, response, committed) =>
      if pid in w.procs && w.procs[pid].Running? {
        var p := w.procs[pid];
        ExecKeeps(w, pid, p, Exec(p.claim, Some(response), committed),
                  Completing(p.server, p.key, p.hash, p.token, p.claim, response, 1), fenced);
      }
    case Die(pid, committed) =>
      if pid in w.procs && w.procs[pid].Running? {
        var p := w.procs[pid];
        ExecKeeps(w, pid, p, Exec(p.claim, None, committed), Crashed, fenced);
      }
    case Attempt(pid, fate) =>
      if pid in w.procs && w.procs[pid].Completing? { AttemptKeeps(s, w, pid, w.procs[pid], fate, fenced); }
    case Crash(pid) =>
      if pid in w.procs && !w.procs[pid].Done? { MoveKeeps(w, pid, Crashed, fenced); }
  }

  lemma {:induction false} RunKeeps(s: Settings, acts: seq<Action>, fenced: bool)
    requires fenced ==> Orderly(s, acts)
    ensures Inv(Run(s, acts), fenced)
  {
    if acts != [] {
      var init := acts[..|acts| - 1];
      if fenced {
        OrderlyPrefix(s, acts, |init|);
        assert acts[..|init|] == init;
      }
      assert fenced ==> Sound(Run(s, init).rows);
      assert Run(s, acts) == Next(s, Run(s, init), acts[|init|]);
      hide Run, Next, Inv, Orderly, Sound;
      RunKeeps(s, init, fenced);
      StepKeeps(s, Run(s, init), acts[|init|], fenced);
    }
  }

  lemma OrderlyPrefix(s: Settings, acts: seq<Action>, n: nat)
    requires n <= |acts| && Orderly(s, acts)
    ensures Orderly(s, acts[..n])
  {
    forall m | 0 <= m < n ensures Sound(Run(s, acts[..n][..m]).rows) {
      assert acts[..n][..m] == acts[..m];
    }
  }
}
