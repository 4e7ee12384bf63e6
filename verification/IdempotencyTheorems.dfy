// The guarantees of the idempotency middleware over whole runs.
module IdempotencyTheorems {
  import opened Options
  import opened Idempotency
  import opened IdempotencyLaws
  import Ids

  // ---------------------------------------------------------------- fencing

  lemma StepGrows(s: Settings, w: World, act: Action)
    ensures w.claims <= Next(s, w, act).claims && w.execs <= Next(s, w, act).execs
  {}

  lemma {:induction false} ClaimsGrow(s: Settings, acts: seq<Action>, more: seq<Action>)
    ensures Run(s, acts).claims <= Run(s, acts + more).claims
  {
    if more == [] {
      assert acts + more == acts;
    } else {
      var init := more[..|more| - 1];
      assert (acts + more)[..|acts + more| - 1] == acts + init;
      ClaimsGrow(s, acts, init);
      StepGrows(s, Run(s, acts + init), more[|more| - 1]);
    }
  }

  /** For each tenant and key the claim tokens strictly increase, on any servers
      with any clocks, as long as no row is left expiring before its token. */
  lemma TokensIncrease(s: Settings, acts: seq<Action>, i: nat, j: nat)
    requires Orderly(s, acts)
    requires var claims := Run(s, acts).claims;
      i < j < |claims| && claims[i].key == claims[j].key
    ensures Run(s, acts).claims[i].token < Run(s, acts).claims[j].token
  {
    RunKeeps(s, acts, true);
  }

  /** Once a claim has been superseded, no Complete carrying its token matches a
      row in any later state: the statement changes nothing, for ever. */
  lemma SupersededNeverCompletes(s: Settings, acts: seq<Action>, more: seq<Action>, i: nat, j: nat, c: Completion)
    requires Orderly(s, acts + more)
    requires var claims := Run(s, acts).claims;
      i < j < |claims| && claims[i].key == claims[j].key && c.key == claims[i].key && c.token == claims[i].token
    ensures var rows := Run(s, acts + more).rows;
      !Fenced(rows, c) && Complete(rows, c) == rows
  {
    hide Procs, Statements, Runs, Next, Orderly;
    RunKeeps(s, acts + more, true);
    ClaimsGrow(s, acts, more);
    var w := Run(s, acts + more);
    hide Run;
    assert w.claims[i] == Run(s, acts).claims[i] && w.claims[j] == Run(s, acts).claims[j];
    assert c.key in w.rows && RowOk(w, c.key, true);
    var last := w.rows[c.key].claim;
    assert j <= last;
    assert w.claims[j].token <= w.claims[last].token;
  }

  /** The condition is exact, state by state: a row is sound if and only if every
      claim statement that can take it over carries a later token. */
  lemma SoundIff(rows: map<Key, Row>, k: Key)
    requires k in rows
    ensures rows[k].createdAt <= rows[k].expiresAt <==>
      forall now: int :: Claimable(rows, k, now) ==> rows[k].createdAt < Micro(now)
  {
    var t := 1000 * rows[k].createdAt;
    assert Micro(t) == rows[k].createdAt;
    if rows[k].expiresAt < rows[k].createdAt {
      assert Claimable(rows, k, t);
    }
  }

  /** And over runs: a reachable row that is not sound has a continuation in
      which a later claim gets its very token, so that every Complete of the
      superseded holder matches the new claim's row. */
  lemma UnsoundBreaksTheFence(s: Settings, acts: seq<Action>, k: Key) returns (longer: seq<Action>, i: nat, j: nat)
    requires var rows := Run(s, acts).rows; k in rows && rows[k].expiresAt < rows[k].createdAt
    ensures acts <= longer
    ensures var w := Run(s, longer);
      && i < j < |w.claims| && w.claims[i].key == w.claims[j].key == k && w.claims[i].token == w.claims[j].token
      && k in w.rows && w.rows[k].claim == j
      && forall c: Completion :: c.key == k && c.token == w.claims[i].token ==> Fenced(w.rows, c)
  {
    RunKeeps(s, acts, false);
    var w := Run(s, acts);
    assert RowOk(w, k, false);
    i, j := w.rows[k].claim, |w.claims|;
    var t := 1000 * w.rows[k].createdAt;
    assert Micro(t) == w.rows[k].createdAt;
    var pid := Ids.Unused(w.procs.Keys);
    var a, b, c := Tick(0, t), Arrive(pid, 0, k, "h"), ReadClock(pid);
    longer := acts + [a] + [b] + [c] + [TryClaim(pid)];
    RunSnoc(s, acts, a);
    RunSnoc(s, acts + [a], b);
    RunSnoc(s, acts + [a] + [b], c);
    RunSnoc(s, acts + [a] + [b] + [c], TryClaim(pid));
    hide Run, Inv;
    var v := Run(s, acts + [a] + [b] + [c]);
    assert v.rows == w.rows && v.claims == w.claims;
    assert v.procs[pid] == Claiming(0, k, "h", t);
  }

  // ----------------------------------------------- clocks that do not go back

  /** Every server's clock only moves forward; nothing relates two servers. */
  predicate Forward(s: Settings, acts: seq<Action>) {
    forall n :: 0 <= n < |acts| && acts[n].Tick? ==> Clock(Run(s, acts[..n]), acts[n].server) <= acts[n].now
  }

  /** What a call remembers of its server's clock is not ahead of it. */
  predicate Remembers(w: World, p: Proc) {
    match p
    case Claiming(server, _, _, now) => now <= Clock(w, server)
    case Running(server, _, _, token, _) => token <= Micro(Clock(w, server))
    case Completing(server, _, _, token, _, _, _) => token <= Micro(Clock(w, server))
    case _ => true
  }

  ghost predicate Timely(w: World) {
    && Sound(w.rows)
    && (forall p :: p in w.procs ==> Remembers(w, w.procs[p]))
    && (forall c :: c in w.limbo ==> c.token <= c.expiresAt)
  }

  lemma TimelyMove(w: World, pid: nat, p: Proc)
    requires Timely(w) && Remembers(w, p)
    ensures Timely(Move(w, pid, p))
  {}

  lemma TimelyComplete(w: World, c: Completion)
    requires Timely(w) && c.token <= c.expiresAt
    ensures Timely(w.(rows := Complete(w.rows, c)))
  {}

  lemma TimelyClaim(s: Settings, w: World, pid: nat, p: Proc)
    requires s.lease >= 0 && Timely(w) && p.Claiming? && Remembers(w, p)
    ensures Timely(ClaimStep(s, w, pid, p))
  {
    MicroMonotone(p.now, Clock(w, p.server));
    MicroMonotone(p.now, p.now + s.lease);
    hide Micro;
  }

  lemma TimelyAttempt(s: Settings, w: World, pid: nat, p: Proc, fate: Fate)
    requires Timely(w) && p.Completing? && Remembers(w, p)
    ensures Timely(AttemptStep(s, w, pid, p, fate))
  {
    var c, p' := Statement(s, w, p), AttemptStep(s, w, pid, p, fate).procs[pid];
    MicroMonotone(Clock(w, p.server), Clock(w, p.server) + EffectiveRetention(s.retention));
    hide Micro, Complete;
    TimelyMove(w, pid, p');
    TimelyComplete(Move(w, pid, p'), c);
  }

  lemma TimelyTick(w: World, server: nat, now: int)
    requires Timely(w) && Clock(w, server) <= now
    ensures Timely(w.(clocks := w.clocks[server := now]))
  {
    var v := w.(clocks := w.clocks[server := now]);
    forall p | p in v.procs ensures Remembers(v, v.procs[p]) {
      assert Remembers(w, w.procs[p]);
      MicroMonotone(Clock(w, server), now);
      hide Micro;
    }
  }

  lemma TimelyStep(s: Settings, w: World, act: Action)
    requires s.lease >= 0 && Timely(w) && (act.Tick? ==> Clock(w, act.server) <= act.now)
    ensures Timely(Next(s, w, act))
  {
    match act
    case Tick(server, now) => TimelyTick(w, server, now);
    case Arrive(pid, server, key, hash) => TimelyMove(w, pid, Arrived(server, key, hash));
    case Flush(i) =>
      if i < |w.limbo| {
        assert w.limbo[i] in w.limbo;
        TimelyComplete(w, w.limbo[i]);
      }
    case TryClaim(pid) =>
      if pid in w.procs && w.procs[pid].Claiming? { TimelyClaim(s, w, pid, w.procs[pid]); }
    case Attempt(pid, fate) =>
      if pid in w.procs && w.procs[pid].Completing? { TimelyAttempt(s, w, pid, w.procs[pid], fate); }
    case ReadClock(pid) =>
    case ReadRow(pid) =>
    case Handle(pid, _, _) =>
    case Die(pid, _) =>
    case Crash(pid) =>
  }

  lemma {:induction false} ForwardIsTimely(s: Settings, acts: seq<Action>)
    requires s.lease >= 0 && Forward(s, acts)
    ensures Timely(Run(s, acts))
  {
    if acts != [] {
      var init := acts[..|acts| - 1];
      assert forall n :: 0 <= n < |init| ==> init[..n] == acts[..n];
      ForwardIsTimely(s, init);
      assert acts[..|init|] == init;
      TimelyStep(s, Run(s, init), acts[|init|]);
    }
  }

  /** So with a lease that is not negative and clocks that do not go back, each
      on its own, every run is orderly. */
  lemma ForwardIsOrderly(s: Settings, acts: seq<Action>)
    requires s.lease >= 0 && Forward(s, acts)
    ensures Orderly(s, acts)
  {
    forall n | 0 <= n < |acts| ensures Sound(Run(s, acts[..n]).rows) {
      assert forall m :: 0 <= m < n ==> acts[..n][..m] == acts[..m];
      ForwardIsTimely(s, acts[..n]);
    }
  }

  // ----------------------------------------------------------------- replay

  /** Whatever a request is answered with, replayed or fresh, is the answer of
      exactly one handler run, made for a claim with the same tenant, key and
      request hash. */
  lemma AnswersAreProduced(s: Settings, acts: seq<Action>, pid: nat) returns (claim: nat, e: Exec)
    requires var w := Run(s, acts);
      && pid in w.procs && w.procs[pid].Done? && (w.procs[pid].reply.Executed? || w.procs[pid].reply.Replayed?)
      && (w.procs[pid].reply.Replayed? ==> Orderly(s, acts))
    ensures var w := Run(s, acts);
      var p := w.procs[pid];
      && claim < |w.claims| && w.claims[claim].key == p.key && w.claims[claim].hash == p.hash
      && e in w.execs && e.claim == claim && e.response == Some(p.reply.response)
      && (p.reply.Replayed? ==> claim == p.reply.claim)
      && (forall x :: x in w.execs && x.claim == claim ==> x == e)
  {
    var w := Run(s, acts);
    var p := w.procs[pid];
    RunKeeps(s, acts, p.reply.Replayed?);
    assert ProcOk(w, p, p.reply.Replayed?);
    if p.reply.Replayed? {
      claim := p.reply.claim;
    } else {
      claim :| ProducedFor(w, p.key, p.hash, claim, p.reply.response);
    }
    e :| e in w.execs && e.claim == claim && e.response == Some(p.reply.response);
  }

  /** A request told that its key was used for another, that it is in flight, or
      given a replay, has met a claim of its key with another hash, or with its
      own; and one that is not claimed always finds a row. */
  lemma RefusalsHaveACause(s: Settings, acts: seq<Action>, pid: nat)
    requires pid in Run(s, acts).procs && Run(s, acts).procs[pid].Done?
    ensures var w := Run(s, acts);
      var p := w.procs[pid];
      && (p.reply == KeyReused ==> exists c :: 0 <= c < |w.claims| && w.claims[c].key == p.key && w.claims[c].hash != p.hash)
      && (p.reply == InFlight || p.reply.Replayed? ==>
            exists c :: 0 <= c < |w.claims| && w.claims[c].key == p.key && w.claims[c].hash == p.hash)
      && p.reply != NoRecord
  {
    RunKeeps(s, acts, false);
    assert ProcOk(Run(s, acts), Run(s, acts).procs[pid], false);
  }

  /** And conversely: what a request that was not claimed is told is decided by
      the last claim of its key and by whether that has been completed. */
  lemma ReadDecides(s: Settings, acts: seq<Action>, pid: nat)
    requires pid in Run(s, acts).procs && Run(s, acts).procs[pid].Reading?
    ensures var w := Run(s, acts);
      var p, q := w.procs[pid], Run(s, acts + [ReadRow(pid)]).procs[pid];
      && p.key in w.rows && w.rows[p.key].claim < |w.claims| && q.Done?
      && (forall j :: w.rows[p.key].claim < j < |w.claims| ==> w.claims[j].key != p.key)
      && (q.reply == KeyReused <==> w.claims[w.rows[p.key].claim].hash != p.hash)
      && (q.reply == InFlight <==> w.claims[w.rows[p.key].claim].hash == p.hash && w.rows[p.key].answer == Processing)
      && (q.reply.Replayed? <==> w.claims[w.rows[p.key].claim].hash == p.hash && w.rows[p.key].answer.Completed?)
      && (q.reply.Replayed? ==> w.rows[p.key].answer == Completed(q.reply.response))
  {
    RunKeeps(s, acts, false);
    RunSnoc(s, acts, ReadRow(pid));
    var w := Run(s, acts);
    var p := w.procs[pid];
    assert ProcOk(w, p, false) && p.key in w.rows;
    assert RowOk(w, p.key, false);
    hide Run;
  }

  /** All replays of one claim epoch are identical, however often Complete was
      retried, applied late, or applied twice. */
  lemma ReplaysAgree(s: Settings, acts: seq<Action>, pid: nat, qid: nat)
    requires Orderly(s, acts)
    requires var w := Run(s, acts);
      && pid in w.procs && w.procs[pid].Done? && w.procs[pid].reply.Replayed?
      && qid in w.procs && w.procs[qid].Done? && w.procs[qid].reply.Replayed?
      && w.procs[pid].reply.claim == w.procs[qid].reply.claim
    ensures var w := Run(s, acts);
      w.procs[pid].reply == w.procs[qid].reply && w.procs[pid].hash == w.procs[qid].hash && w.procs[pid].key == w.procs[qid].key
  {
    var _, _ := AnswersAreProduced(s, acts, pid);
    var _, _ := AnswersAreProduced(s, acts, qid);
  }

  // ---------------------------------------------------- effects per key

  /** How many claims a key has had, and how many handler runs for it committed. */
  function Epochs(claims: seq<Claim>, k: Key): nat {
    if claims == [] then 0
    else Epochs(claims[..|claims| - 1], k) + if claims[|claims| - 1].key == k then 1 else 0
  }

  predicate CommitsFor(claims: seq<Claim>, e: Exec, k: Key) {
    e.committed && e.claim < |claims| && claims[e.claim].key == k
  }

  function Commits(claims: seq<Claim>, execs: seq<Exec>, k: Key): nat {
    if execs == [] then 0
    else Commits(claims, execs[..|execs| - 1], k) + if CommitsFor(claims, execs[|execs| - 1], k) then 1 else 0
  }

  ghost function EpochSet(claims: seq<Claim>, k: Key): set<nat> {
    set i: nat | i < |claims| && claims[i].key == k
  }

  ghost function CommitSet(claims: seq<Claim>, execs: seq<Exec>, k: Key): set<nat> {
    set e | e in execs && CommitsFor(claims, e, k) :: e.claim
  }

  lemma {:induction false} EpochsCount(claims: seq<Claim>, k: Key)
    ensures |EpochSet(claims, k)| == Epochs(claims, k)
  {
    if claims != [] {
      var n := |claims| - 1;
      EpochsCount(claims[..n], k);
      if claims[n].key == k {
        assert EpochSet(claims, k) == EpochSet(claims[..n], k) + {n};
      } else {
        assert EpochSet(claims, k) == EpochSet(claims[..n], k);
      }
    }
  }

  lemma {:induction false} CommitsCount(claims: seq<Claim>, execs: seq<Exec>, k: Key)
    requires OneRunEach(execs)
    ensures |CommitSet(claims, execs, k)| == Commits(claims, execs, k)
  {
    if execs != [] {
      var init, e := execs[..|execs| - 1], execs[|execs| - 1];
      CommitsCount(claims, init, k);
      assert execs == init + [e];
      var before := CommitSet(claims, init, k);
      if CommitsFor(claims, e, k) {
        assert CommitSet(claims, execs, k) == before + {e.claim};
        assert e.claim !in before;
      } else {
        assert CommitSet(claims, execs, k) == before;
      }
    }
  }

  /** Over any run, crashes and retries included, the commits one key has caused
      never exceed its claim epochs. */
  lemma CommitsWithinEpochs(s: Settings, acts: seq<Action>, k: Key)
    ensures var w := Run(s, acts); Commits(w.claims, w.execs, k) <= Epochs(w.claims, k)
  {
    RunKeeps(s, acts, false);
    var w := Run(s, acts);
    CommitsCount(w.claims, w.execs, k);
    EpochsCount(w.claims, k);
    Ids.SubsetSize(CommitSet(w.claims, w.execs, k), EpochSet(w.claims, k));
  }

  // ------------------------------------------------------- at most once

  /** The step is a claim statement that takes over key k's existing row. */
  predicate TakesOver(w: World, act: Action, k: Key) {
    && act.TryClaim? && act.pid in w.procs && w.procs[act.pid].Claiming? && w.procs[act.pid].key == k
    && k in w.rows && w.rows[k].expiresAt < Micro(w.procs[act.pid].now)
  }

  predicate NeverTakenOver(s: Settings, acts: seq<Action>, k: Key) {
    forall n :: 0 <= n < |acts| ==> !TakesOver(Run(s, acts[..n]), acts[n], k)
  }

  lemma EpochsAppend(claims: seq<Claim>, c: Claim, k: Key)
    ensures Epochs(claims + [c], k) == Epochs(claims, k) + if c.key == k then 1 else 0
  {
    assert (claims + [c])[..|claims|] == claims;
  }

  lemma {:induction false} NoRowNoEpoch(claims: seq<Claim>, k: Key)
    requires forall i :: 0 <= i < |claims| ==> claims[i].key != k
    ensures Epochs(claims, k) == 0
  {
    if claims != [] {
      NoRowNoEpoch(claims[..|claims| - 1], k);
    }
  }

  lemma {:induction false} OneClaimOneEpoch(claims: seq<Claim>, i: nat, k: Key)
    requires i < |claims| && claims[i].key == k
    ensures Epochs(claims, k) >= 1
  {
    if i < |claims| - 1 {
      OneClaimOneEpoch(claims[..|claims| - 1], i, k);
    }
  }

  /** A key has a row exactly when it has been claimed. */
  lemma RowMeansEpoch(w: World, k: Key)
    requires Inv(w, false)
    ensures k in w.rows <==> Epochs(w.claims, k) >= 1
  {
    if k in w.rows {
      assert RowOk(w, k, false);
      OneClaimOneEpoch(w.claims, w.rows[k].claim, k);
    } else {
      NoRowNoEpoch(w.claims, k);
    }
  }

  lemma OnlyClaimsClaim(s: Settings, w: World, act: Action)
    requires !(act.TryClaim? && act.pid in w.procs && w.procs[act.pid].Claiming?)
    ensures Next(s, w, act).claims == w.claims
  {
    hide Complete, Statement, HandleExisting;
  }

  /** How one step changes the number of epochs of k. */
  lemma EpochStep(s: Settings, w: World, act: Action, k: Key)
    requires Inv(w, false)
    ensures var v := Next(s, w, act);
      && Epochs(v.claims, k) >= Epochs(w.claims, k)
      && (TakesOver(w, act, k) ==> Epochs(w.claims, k) >= 1 && Epochs(v.claims, k) == Epochs(w.claims, k) + 1)
      && (!TakesOver(w, act, k) && Epochs(w.claims, k) >= 1 ==> Epochs(v.claims, k) == Epochs(w.claims, k))
      && (Epochs(w.claims, k) == 0 ==> Epochs(v.claims, k) <= 1)
  {
    RowMeansEpoch(w, k);
    hide Inv, Epochs;
    if act.TryClaim? && act.pid in w.procs && w.procs[act.pid].Claiming? {
      hide AttemptStep, ReadStep, Complete, Micro;
      var p := w.procs[act.pid];
      assert Next(s, w, act) == ClaimStep(s, w, act.pid, p);
      hide Next, ProcStep;
      EpochsAppend(w.claims, Claim(p.key, p.hash, Micro(p.now)), k);
    } else {
      OnlyClaimsClaim(s, w, act);
      hide Next;
    }
  }

  lemma {:induction false} EpochsNeverShrink(s: Settings, acts: seq<Action>, n: nat, k: Key)
    requires n <= |acts|
    ensures Epochs(Run(s, acts[..n]).claims, k) <= Epochs(Run(s, acts).claims, k)
  {
    if n == |acts| {
      assert acts[..n] == acts;
    } else {
      var init := acts[..|acts| - 1];
      assert init[..n] == acts[..n];
      EpochsNeverShrink(s, init, n, k);
      RunKeeps(s, init, false);
      EpochStep(s, Run(s, init), acts[|acts| - 1], k);
    }
  }

  lemma {:induction false} OneEpochIfNeverTakenOver(s: Settings, acts: seq<Action>, k: Key)
    requires NeverTakenOver(s, acts, k)
    ensures Epochs(Run(s, acts).claims, k) <= 1
  {
    if acts != [] {
      var n := |acts| - 1;
      assert forall m :: 0 <= m < n ==> acts[..n][..m] == acts[..m];
      OneEpochIfNeverTakenOver(s, acts[..n], k);
      RunKeeps(s, acts[..n], false);
      EpochStep(s, Run(s, acts[..n]), acts[n], k);
    }
  }

  lemma TakenOverHasTwo(s: Settings, acts: seq<Action>, n: nat, k: Key)
    requires n < |acts| && TakesOver(Run(s, acts[..n]), acts[n], k)
    ensures Epochs(Run(s, acts).claims, k) >= 2
  {
    RunKeeps(s, acts[..n], false);
    assert Run(s, acts[..n + 1]) == Next(s, Run(s, acts[..n]), acts[n]) by {
      assert acts[..n + 1][..n] == acts[..n];
    }
    hide Run, Inv, Next, TakesOver, Epochs;
    EpochStep(s, Run(s, acts[..n]), acts[n], k);
    EpochsNeverShrink(s, acts, n + 1, k);
  }

  /** A key has at most one claim epoch exactly when no claim statement ever
      carries a time past the expiry of the row it finds. */
  lemma OneEpochIff(s: Settings, acts: seq<Action>, k: Key)
    ensures Epochs(Run(s, acts).claims, k) <= 1 <==> NeverTakenOver(s, acts, k)
  {
    hide Run, TakesOver, Epochs;
    if NeverTakenOver(s, acts, k) {
      OneEpochIfNeverTakenOver(s, acts, k);
    } else {
      var n :| 0 <= n < |acts| && TakesOver(Run(s, acts[..n]), acts[n], k);
      TakenOverHasTwo(s, acts, n, k);
    }
  }

  /** No claim on its way carries a time past the expiry of key k's row: its
      lease until the holder's Complete lands, its retention from then on. */
  ghost predicate Unexpired(w: World, k: Key) {
    k in w.rows ==> forall p :: p in w.procs && w.procs[p].Claiming? && w.procs[p].key == k ==>
      Micro(w.procs[p].now) <= w.rows[k].expiresAt
  }

  /** While that holds, the key's request commits at most once, however many
      retries, crashes, lost, late or repeated Completes there are. */
  lemma AtMostOnce(s: Settings, acts: seq<Action>, k: Key)
    requires forall n :: 0 <= n < |acts| ==> Unexpired(Run(s, acts[..n]), k)
    ensures var w := Run(s, acts); Commits(w.claims, w.execs, k) <= 1
  {
    forall n | 0 <= n < |acts| ensures !TakesOver(Run(s, acts[..n]), acts[n], k) {
      assert Unexpired(Run(s, acts[..n]), k);
    }
    OneEpochIff(s, acts, k);
    CommitsWithinEpochs(s, acts, k);
  }

  /** It holds while no server's clock is past the expiry, if none goes back. */
  lemma AtMostOnceByTheClocks(s: Settings, acts: seq<Action>, k: Key)
    requires s.lease >= 0 && Forward(s, acts)
    requires forall n :: 0 <= n < |acts| ==>
      var w := Run(s, acts[..n]);
      k in w.rows ==> forall server :: Micro(Clock(w, server)) <= w.rows[k].expiresAt
    ensures var w := Run(s, acts); Commits(w.claims, w.execs, k) <= 1
  {
    forall n | 0 <= n < |acts| ensures Unexpired(Run(s, acts[..n]), k) {
      var w := Run(s, acts[..n]);
      assert forall m :: 0 <= m < n ==> acts[..n][..m] == acts[..m];
      ForwardIsTimely(s, acts[..n]);
      forall p | p in w.procs && w.procs[p].Claiming? && w.procs[p].key == k && k in w.rows
        ensures Micro(w.procs[p].now) <= w.rows[k].expiresAt {
        assert Remembers(w, w.procs[p]);
        MicroMonotone(w.procs[p].now, Clock(w, w.procs[p].server));
      }
    }
    AtMostOnce(s, acts, k);
  }

  // ------------------------------------------- the condition is needed

  const K := Key(1, "k")
  const ANSWER := Response(201, "done")
  const BRIEF := Settings(1_000, 5_000)
  const FIRST: seq<Action> := [Arrive(0, 0, K, "h"), ReadClock(0), TryClaim(0), Handle(0, ANSWER, true)]
  const SECOND: seq<Action> := [Tick(0, 3_000), Arrive(1, 0, K, "h"), ReadClock(1), TryClaim(1), Handle(1, ANSWER, true)]

  lemma FirstCommits()
    ensures Run(BRIEF, FIRST) == World(map[], map[K := Row("h", Processing, 0, 1, 0)],
      map[0 := Completing(0, K, "h", 0, 0, ANSWER, 1)], [], [Claim(K, "h", 0)], [Exec(0, Some(ANSWER), true)])
  {
    var a := FIRST;
    RunSnoc(BRIEF, [], a[0]);
    RunSnoc(BRIEF, [] + [a[0]], a[1]);
    RunSnoc(BRIEF, [] + [a[0]] + [a[1]], a[2]);
    RunSnoc(BRIEF, [] + [a[0]] + [a[1]] + [a[2]], a[3]);
    assert a == [] + [a[0]] + [a[1]] + [a[2]] + [a[3]];
    assert Run(BRIEF, []) == START;
    assert Run(BRIEF, [] + [a[0]]).procs == map[0 := Arrived(0, K, "h")];
    assert Run(BRIEF, [] + [a[0]] + [a[1]]).procs == map[0 := Claiming(0, K, "h", 0)];
    assert Run(BRIEF, [] + [a[0]] + [a[1]] + [a[2]]).procs == map[0 := Running(0, K, "h", 0, 0)];
  }

  lemma TwoOfEach()
    ensures var claims := [Claim(K, "h", 0), Claim(K, "h", 3)];
      var execs := [Exec(0, Some(ANSWER), true), Exec(1, Some(ANSWER), true)];
      Epochs(claims, K) == 2 && Commits(claims, execs, K) == 2
  {
    var claims := [Claim(K, "h", 0), Claim(K, "h", 3)];
    var execs := [Exec(0, Some(ANSWER), true), Exec(1, Some(ANSWER), true)];
    assert claims[..1] == [Claim(K, "h", 0)] && claims[..1][..0] == [];
    assert Epochs(claims[..1], K) == 1;
    assert execs[..1] == [Exec(0, Some(ANSWER), true)] && execs[..1][..0] == [];
    assert Commits(claims, execs[..1], K) == 1;
  }

  lemma SecondCommits()
    ensures var w := Run(BRIEF, FIRST + SECOND);
      w.claims == [Claim(K, "h", 0), Claim(K, "h", 3)] &&
      w.execs == [Exec(0, Some(ANSWER), true), Exec(1, Some(ANSWER), true)]
  {
    FirstCommits();
    var f, a := FIRST, SECOND;
    RunSnoc(BRIEF, f, a[0]);
    RunSnoc(BRIEF, f + [a[0]], a[1]);
    RunSnoc(BRIEF, f + [a[0]] + [a[1]], a[2]);
    RunSnoc(BRIEF, f + [a[0]] + [a[1]] + [a[2]], a[3]);
    RunSnoc(BRIEF, f + [a[0]] + [a[1]] + [a[2]] + [a[3]], a[4]);
    assert f + a == f + [a[0]] + [a[1]] + [a[2]] + [a[3]] + [a[4]];
    hide Run;
    var w := Run(BRIEF, f);
    var w1 := Next(BRIEF, w, a[0]);
    var w2 := Next(BRIEF, w1, a[1]);
    var w3 := Next(BRIEF, w2, a[2]);
    var w4 := Next(BRIEF, w3, a[3]);
    assert w2.rows == w.rows && w2.procs[1] == Arrived(0, K, "h") && Clock(w2, 0) == 3_000;
    assert w3.rows == w.rows && w3.procs[1] == Claiming(0, K, "h", 3_000);
    assert w4.procs[1] == Running(0, K, "h", 3, 1) && w4.claims == w.claims + [Claim(K, "h", 3)];
  }

  /** A holder slower than its lease: the retry claims the key again and the
      request commits twice. */
  lemma SlowHolderCommitsTwice()
    ensures var w := Run(BRIEF, FIRST + SECOND);
      Epochs(w.claims, K) == 2 && Commits(w.claims, w.execs, K) == 2
  {
    SecondCommits();
    hide Run;
    TwoOfEach();
  }

  // ------------------------------------------------- a clock that goes back

  /** The holder claims at 100 microseconds; its clock is set back to zero
      before its Complete. */
  const SET_BACK: seq<Action> := [Tick(0, 100_000), Arrive(0, 0, K, "h"), ReadClock(0), TryClaim(0), Handle(0, ANSWER, true), Tick(0, 0)]

  lemma SetBack()
    ensures var w := Run(BRIEF, SET_BACK);
      w.rows == map[K := Row("h", Processing, 100, 101, 0)] && Clock(w, 0) == 0 &&
      0 in w.procs && w.procs[0] == Completing(0, K, "h", 100, 0, ANSWER, 1)
  {
    var a := SET_BACK;
    RunSnoc(BRIEF, [], a[0]);
    RunSnoc(BRIEF, [] + [a[0]], a[1]);
    RunSnoc(BRIEF, [] + [a[0]] + [a[1]], a[2]);
    RunSnoc(BRIEF, [] + [a[0]] + [a[1]] + [a[2]], a[3]);
    RunSnoc(BRIEF, [] + [a[0]] + [a[1]] + [a[2]] + [a[3]], a[4]);
    RunSnoc(BRIEF, [] + [a[0]] + [a[1]] + [a[2]] + [a[3]] + [a[4]], a[5]);
    assert a == [] + [a[0]] + [a[1]] + [a[2]] + [a[3]] + [a[4]] + [a[5]];
    assert Run(BRIEF, []) == START;
    hide Run;
    var w2 := Run(BRIEF, [] + [a[0]] + [a[1]]);
    assert w2.procs[0] == Arrived(0, K, "h") && Clock(w2, 0) == 100_000 && w2.rows == map[];
    var w4 := Run(BRIEF, [] + [a[0]] + [a[1]] + [a[2]] + [a[3]]);
    assert w4.procs[0] == Running(0, K, "h", 100, 0) && w4.rows == map[K := Row("h", Processing, 100, 101, 0)];
  }

  /** A reachable run in which two claims of one key carry the same token. */
  lemma ClockGoingBackBreaksTheFence() returns (acts: seq<Action>, i: nat, j: nat)
    ensures var claims := Run(BRIEF, acts).claims;
      i < j < |claims| && claims[i].key == claims[j].key && claims[i].token == claims[j].token
  {
    SetBack();
    var act := Attempt(0, Acknowledged);
    RunSnoc(BRIEF, SET_BACK, act);
    hide Run;
    assert Run(BRIEF, SET_BACK + [act]).rows[K].expiresAt == 5;
    acts, i, j := UnsoundBreaksTheFence(BRIEF, SET_BACK + [act], K);
  }
}
