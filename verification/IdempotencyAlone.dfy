// One request of the interleaved machine that meets no other: it always gets its
// answer, in its own steps.
module IdempotencyAlone {
  import opened Options
  import opened Idempotency
  import opened IdempotencyLaws
  import opened IdempotencyStore

  /** The key is free: the handler runs, its response is stored, and the row holds
      it until the retention runs out. */
  lemma FreshRequest(s: Settings, acts: seq<Action>, pid: nat, server: nat, k: Key, hash: string, response: Response, committed: bool)
    returns (longer: seq<Action>)
    requires var w := Run(s, acts);
      pid !in w.procs && (k !in w.rows || w.rows[k].expiresAt < Micro(Clock(w, server)))
    ensures acts <= longer
    ensures var w, v := Run(s, acts), Run(s, longer);
      var now, kept := Clock(w, server), if s.retention <= 0 then 86_400_000_000_000 else s.retention;
      && v.rows == w.rows[k := Row(hash, Completed(response), Micro(now), Micro(now + kept), |w.claims|)]
      && v.procs == w.procs[pid := Done(k, hash, Executed(response))]
      && v.claims == w.claims + [Claim(k, hash, Micro(now))]
      && v.execs == w.execs + [Exec(|w.claims|, Some(response), committed)]
  {
    var w := Run(s, acts);
    longer := Asks(s, acts, pid, server, k, hash);
    var w2, w3 := Run(s, longer), Next(s, Run(s, longer), TryClaim(pid));
    Claims(s, w, pid, server, k, hash);
    RunSnoc(s, longer, TryClaim(pid));
    longer := longer + [TryClaim(pid)];
    hide Run, Next, Complete, Micro;
    var handle := Handle(pid, response, committed);
    RunSnoc(s, longer, handle);
    Answers(s, w, w3, pid, server, k, hash, response, committed);
    longer := longer + [handle];
    RunSnoc(s, longer, Attempt(pid, Acknowledged));
    longer := longer + [Attempt(pid, Acknowledged)];
  }

  /** A request arrives and reads its server's clock. */
  lemma Asks(s: Settings, acts: seq<Action>, pid: nat, server: nat, k: Key, hash: string) returns (longer: seq<Action>)
    requires pid !in Run(s, acts).procs
    ensures acts <= longer
    ensures Run(s, longer) == Move(Run(s, acts), pid, Claiming(server, k, hash, Clock(Run(s, acts), server)))
  {
    var a, b := Arrive(pid, server, k, hash), ReadClock(pid);
    longer := acts + [a] + [b];
    RunSnoc(s, acts, a);
    RunSnoc(s, acts + [a], b);
    hide Run;
  }

  function Claimed(s: Settings, w: World, pid: nat, server: nat, k: Key, hash: string): World {
    var now, n := Clock(w, server), |w.claims|;
    Move(w, pid, Running(server, k, hash, Micro(now), n)).(
      rows := w.rows[k := Row(hash, Processing, Micro(now), Micro(now + s.lease), n)],
      claims := w.claims + [Claim(k, hash, Micro(now))])
  }

  lemma Claims(s: Settings, w: World, pid: nat, server: nat, k: Key, hash: string)
    requires k !in w.rows || w.rows[k].expiresAt < Micro(Clock(w, server))
    ensures Next(s, Move(w, pid, Claiming(server, k, hash, Clock(w, server))), TryClaim(pid)) == Claimed(s, w, pid, server, k, hash)
  {
    hide Micro;
  }

  lemma Answers(s: Settings, w: World, c: World, pid: nat, server: nat, k: Key, hash: string, response: Response, committed: bool)
    requires c == Claimed(s, w, pid, server, k, hash)
    ensures var v := Next(s, Next(s, c, Handle(pid, response, committed)), Attempt(pid, Acknowledged));
      var now := Clock(w, server);
      && v.rows == w.rows[k := Row(hash, Completed(response), Micro(now), Micro(now + EffectiveRetention(s.retention)), |w.claims|)]
      && v.procs == w.procs[pid := Done(k, hash, Executed(response))]
      && v.claims == c.claims && v.execs == w.execs + [Exec(|w.claims|, Some(response), committed)]
  {
    hide Micro;
    var d := Next(s, c, Handle(pid, response, committed));
    assert d.procs[pid] == Completing(server, k, hash, Micro(Clock(w, server)), |w.claims|, response, 1);
    assert Fenced(d.rows, Statement(s, d, d.procs[pid]));
  }

  /** The key is taken: the handler does not run, no row changes, and the answer
      follows the row. */
  lemma LaterRequest(s: Settings, acts: seq<Action>, pid: nat, server: nat, k: Key, hash: string) returns (longer: seq<Action>, reply: Reply)
    requires var w := Run(s, acts);
      pid !in w.procs && k in w.rows && w.rows[k].expiresAt >= Micro(Clock(w, server))
    ensures acts <= longer
    ensures var w := Run(s, acts);
      && Run(s, longer) == w.(procs := w.procs[pid := Done(k, hash, reply)])
      && (reply == KeyReused <==> w.rows[k].hash != hash)
      && (reply == InFlight <==> w.rows[k].hash == hash && w.rows[k].answer == Processing)
      && (w.rows[k].hash == hash && w.rows[k].answer.Completed? ==>
            reply.Replayed? && w.rows[k].answer == Completed(reply.response))
  {
    var w := Run(s, acts);
    reply := HandleExisting(w.rows[k], hash);
    longer := Asks(s, acts, pid, server, k, hash);
    RunSnoc(s, longer, TryClaim(pid));
    RunSnoc(s, longer + [TryClaim(pid)], ReadRow(pid));
    hide Run, Micro;
    longer := longer + [TryClaim(pid)];
    assert Run(s, longer) == Move(w, pid, Reading(k, hash));
    longer := longer + [ReadRow(pid)];
  }

  /** The machine's retries are completeWithRetry: whatever becomes of the tries,
      and whenever they are made, the same ones land, and then the client is
      answered. */
  lemma {:induction false} RetriesAreCompleteWithRetry(s: Settings, acts: seq<Action>, pid: nat, rows: map<Key, Row>, tries: seq<Try>, n: nat, made: nat)
    returns (longer: seq<Action>)
    requires |tries| == 3 && Stops(tries, made) && n < made
    requires pid in Run(s, acts).procs && Run(s, acts).procs[pid].Completing? && Run(s, acts).procs[pid].attempt == n + 1
    requires var w := Run(s, acts);
      var p := w.procs[pid];
      w.rows == Landed(rows, p.key, p.token, p.response, s.retention, p.claim, tries[..n])
    ensures acts <= longer
    ensures var p, v := Run(s, acts).procs[pid], Run(s, longer);
      && v.rows == Landed(rows, p.key, p.token, p.response, s.retention, p.claim, tries[..made])
      && pid in v.procs && v.procs[pid] == Done(p.key, p.hash, Executed(p.response))
    decreases made - n
  {
    var w := Run(s, acts);
    var p, t := w.procs[pid], tries[n];
    var tick, act := Tick(p.server, t.now), Attempt(pid, t.fate);
    RunSnoc(s, acts, tick);
    RunSnoc(s, acts + [tick], act);
    longer := acts + [tick] + [act];
    assert tries[..n + 1][..n] == tries[..n];
    OneTry(s, w, pid, p, t);
    hide Run, Next;
    assert Run(s, longer).rows == Landed(rows, p.key, p.token, p.response, s.retention, p.claim, tries[..n + 1]);
    if n + 1 < made {
      longer := RetriesAreCompleteWithRetry(s, longer, pid, rows, tries, n + 1, made);
    }
  }

  lemma OneTry(s: Settings, w: World, pid: nat, p: Proc, t: Try)
    requires pid in w.procs && w.procs[pid] == p && p.Completing?
    ensures var v := Next(s, Next(s, w, Tick(p.server, t.now)), Attempt(pid, t.fate));
      && v.rows == (if Applied(t) then Complete(w.rows, TryStatement(p.key, p.token, p.response, s.retention, p.claim, t)) else w.rows)
      && pid in v.procs
      && v.procs[pid] == if t.fate.Acknowledged? || p.attempt >= 3 then Done(p.key, p.hash, Executed(p.response)) else p.(attempt := p.attempt + 1)
  {
    hide Complete, Micro;
  }
}
