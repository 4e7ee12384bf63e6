// What a caller of the delivery queue may rely on, over every run.
module QueueTheorems {
  import opened Backoff
  import opened Queue
  import opened QueueLaws
  import opened Sums

  // -------------------------------------------------------------- ownership

  /** Any two goroutines that still work on one job are the same goroutine, and
      its copy agrees with the row, which is being processed. */
  lemma OneOwner(s: Settings, acts: seq<Action>, i: nat, j: nat)
    requires Live(Run(s, acts), i) && Live(Run(s, acts), j)
    requires Run(s, acts).owners[i].event.id == Run(s, acts).owners[j].event.id
    ensures i == j && Fits(Run(s, acts).db.jobs, Run(s, acts).owners[i].event, Processing)
  {
    RunKeeps(s, acts);
    var w := Run(s, acts);
    assert OwnerOk(s, w.db.jobs, w.sends, w.owners[i]);
  }

  /** The updates carry no status guard. With one (row still processing, attempt
      count still the copy's) every run would be the same. */
  lemma {:induction false} GuardIsNotNeeded(s: Settings, acts: seq<Action>)
    ensures RunWith(s, true, acts) == Run(s, acts)
  {
    if acts != [] {
      var init, act := acts[..|acts| - 1], acts[|acts| - 1];
      GuardIsNotNeeded(s, init);
      RunKeeps(s, init);
      var w := Run(s, init);
      match act
      case Settle(i, now, roll) =>
        if i < |w.owners| && w.owners[i].stage.Answered? {
          GuardHolds(s, w, i, Decide(s, w.owners[i].event, w.owners[i].stage.outcome, now, roll));
        }
      case CommitBurial(i) =>
        if i < |w.owners| && w.owners[i].stage.Burying? {
          GuardHolds(s, w, i, w.owners[i].stage.write);
        }
      case _ =>
    }
  }

  // ------------------------------------------------------- settled and stuck

  ghost predicate Owned(w: World, id: nat) { exists i :: Live(w, i) && w.owners[i].event.id == id }

  /** Not waiting, and nobody works on it: delivered, failed, or orphaned. */
  ghost predicate Idle(w: World, id: nat) { id in w.db.jobs && !w.db.jobs[id].status.Pending? && !Owned(w, id) }

  /** Left processing by a goroutine that never made its write. */
  ghost predicate Orphan(w: World, id: nat) { Idle(w, id) && w.db.jobs[id].status.Processing? }

  ghost predicate SameJob(w: World, v: World, id: nat) {
    && id in w.db.jobs && id in v.db.jobs && v.db.jobs[id] == w.db.jobs[id]
    && Sends(v.sends, id) == Sends(w.sends, id) && Accepts(v.sends, id) == Accepts(w.sends, id)
  }

  /** Somebody else's step. */
  lemma OwnerStepElsewhere(s: Settings, w: World, act: Action, i: nat, id: nat)
    requires Inv(s, w) && Idle(w, id) && i < |w.owners|
    ensures var v := OwnerStep(s, false, w, act, i); Idle(v, id) && SameJob(w, v, id)
  {
    var v := OwnerStep(s, false, w, act, i);
    if Live(w, i) {
      assert w.owners[i].event.id != id;
      StageElsewhere(s, w, act, i, id);
      hide Inv, OwnerStep;
      assert forall j :: Live(v, j) ==> Live(w, j) && v.owners[j].event.id == w.owners[j].event.id;
    } else {
      hide Inv, SettleStep;
      assert v == w;
    }
  }

  lemma StageElsewhere(s: Settings, w: World, act: Action, i: nat, id: nat)
    requires Live(w, i) && w.owners[i].event.id != id && id in w.db.jobs
    ensures var v := OwnerStep(s, false, w, act, i);
      && SameJob(w, v, id) && |v.owners| == |w.owners| && v.owners == w.owners[i := w.owners[i].(stage := v.owners[i].stage)]
  {
    if act.Post? {
      SentElsewhere(w.sends, Send(w.owners[i].event.id, act.code), id);
    }
    hide Sends, Accepts, Decide, Updated, LockedByClaim, LockedByBurial;
  }

  lemma SentElsewhere(h: seq<Send>, x: Send, id: nat)
    requires x.id != id
    ensures Sends(h + [x], id) == Sends(h, id) && Accepts(h + [x], id) == Accepts(h, id)
  {
    assert (h + [x])[..|h|] == h;
  }

  lemma IdleStep(s: Settings, w: World, act: Action, id: nat)
    requires Inv(s, w) && Idle(w, id)
    ensures Idle(Next(s, false, w, act), id) && SameJob(w, Next(s, false, w, act), id)
  {
    var v := Next(s, false, w, act);
    match act
    case Enqueue(_, _, _, _, _) => assert forall j :: Live(v, j) ==> Live(w, j);
    case Claim(_, _, _, _) => assert forall j :: Live(v, j) ==> Live(w, j);
    case Rollback(_) => assert forall j :: Live(v, j) ==> Live(w, j);
    case CommitClaim(worker, told) =>
      if worker in w.claims {
        var events := w.claims[worker];
        assert Batch(w.db.jobs, events);
        assert forall e :: e in events ==> e.id != id;
        forall j | Live(v, j) ensures v.owners[j].event.id != id {
          if j < |w.owners| {
            assert Live(w, j);
          } else {
            assert events[j - |w.owners|] in events;
          }
        }
      } else {
        assert v == w;
      }
    case _ => if act.owner < |w.owners| { OwnerStepElsewhere(s, w, act, act.owner, id); }
  }

  /** A delivered, failed or orphaned job is never touched again. */
  lemma {:induction false} IdleForever(s: Settings, acts: seq<Action>, longer: seq<Action>, id: nat)
    requires acts <= longer && Idle(Run(s, acts), id)
    ensures Idle(Run(s, longer), id) && SameJob(Run(s, acts), Run(s, longer), id)
    decreases |longer|
  {
    if |acts| < |longer| {
      var init := longer[..|longer| - 1];
      assert Run(s, longer) == Next(s, false, Run(s, init), longer[|init|]);
      hide Run, Inv, Next, Idle, Sends, Accepts;
      IdleForever(s, acts, init, id);
      RunKeeps(s, init);
      IdleStep(s, Run(s, init), longer[|init|], id);
    } else {
      assert acts == longer;
    }
  }

  /** No unguarded update moves a job out of a terminal state. */
  lemma TerminalIsFinal(s: Settings, acts: seq<Action>, longer: seq<Action>, id: nat)
    requires acts <= longer && id in Run(s, acts).db.jobs
    requires Run(s, acts).db.jobs[id].status in {Delivered, Failed}
    ensures SameJob(Run(s, acts), Run(s, longer), id)
  {
    RunKeeps(s, acts);
    var w := Run(s, acts);
    forall i | Live(w, i) ensures w.owners[i].event.id != id {
      assert OwnerOk(s, w.db.jobs, w.sends, w.owners[i]);
    }
    IdleForever(s, acts, longer, id);
  }

  /** When a goroutine stops before its write, its job is orphaned: whatever
      happens later, it stays processing and is not sent again. */
  lemma LosingOrphans(s: Settings, acts: seq<Action>, i: nat, longer: seq<Action>)
    requires Live(Run(s, acts), i) && acts + [Lose(i)] <= longer
    ensures var id := Run(s, acts).owners[i].event.id;
      Orphan(Run(s, longer), id) && SameJob(Run(s, acts), Run(s, longer), id)
  {
    RunKeeps(s, acts);
    var w := Run(s, acts);
    var id := w.owners[i].event.id;
    var more := acts + [Lose(i)];
    assert more[..|more| - 1] == acts && Run(s, more) == At(w, i, Gone);
    assert OwnerOk(s, w.db.jobs, w.sends, w.owners[i]);
    forall j | Live(Run(s, more), j) ensures Run(s, more).owners[j].event.id != id {
      assert Live(w, j) && j != i;
    }
    IdleForever(s, more, longer, id);
  }

  // --------------------------------------------------------- delivery bound

  /** Over any run, failed writes and crashes included: at most Limit requests
      and one 2xx answer; a delivered job had its 2xx, a failed one had none;
      a job is failed exactly when it has a dead letter, it has only the one, and
      that says Limit attempts. */
  lemma DeliveryBound(s: Settings, acts: seq<Action>, id: nat)
    requires id in Run(s, acts).db.jobs
    ensures var w := Run(s, acts);
      var j := w.db.jobs[id];
      && Sends(w.sends, id) <= Limit(s) && Accepts(w.sends, id) <= 1
      && (j.status.Delivered? ==> Accepts(w.sends, id) == 1)
      && (j.status.Pending? || j.status.Failed? ==> Accepts(w.sends, id) == 0)
      && (j.status.Failed? <==> exists d :: d in w.db.dead && d.id == id)
      && (forall d :: d in w.db.dead && d.id == id ==> d == DeadLetter(j.tenant, id, j.kind, j.payload, Limit(s), j.lastError))
      && (forall m, n :: 0 <= m < |w.db.dead| && 0 <= n < |w.db.dead| && w.db.dead[m].id == w.db.dead[n].id ==> m == n)
  {
    RunKeeps(s, acts);
    var w := Run(s, acts);
    hide Run, Sends, Accepts;
    assert Tally(s, w.db.jobs[id], Sends(w.sends, id), Accepts(w.sends, id));
    assert forall d :: d in w.db.dead ==> LetterOk(s, w.db.jobs, d);
  }

  // ------------------------------------------------------------------ drain

  /** Its goroutine has found no endpoint and will put the job back uncounted. */
  ghost predicate Skipped(w: World, id: nat) {
    exists i :: Live(w, i) && w.owners[i].event.id == id && w.owners[i].stage == Answered(NoEndpoint)
  }

  /** The claims and the ends of attempts a job can still have: two for each
      attempt left, of which an owned job has had its claim. */
  ghost function Weight(s: Settings, w: World, id: nat): int
    requires id in w.db.jobs
  {
    var j := w.db.jobs[id];
    if j.status.Pending? then 2 * (Limit(s) - j.attempts)
    else if Skipped(w, id) then 2 * (Limit(s) - j.attempts) + 1
    else if Owned(w, id) then 2 * (Limit(s) - j.attempts) - 1
    else 0
  }

  ghost function Weights(s: Settings, w: World): map<nat, int> { map id | id in w.db.jobs :: Weight(s, w, id) }

  ghost function Drain(s: Settings, w: World): int { SumMap(Weights(s, w)) }

  /** Rows claimed and attempts ended by one step. */
  function Work(s: Settings, w: World, act: Action): nat {
    match act
    case CommitClaim(worker, _) => if worker in w.claims then |IdsOf(w.claims[worker])| else 0
    case Enqueue(_, _, _, _, _) => 0
    case Claim(_, _, _, _) => 0
    case Rollback(_) => 0
    case _ => if Live(w, act.owner) && !Live(Next(s, false, w, act), act.owner) then 1 else 0
  }

  /** Every tenant has an endpoint, and nothing is enqueued. */
  predicate Quiet(act: Action) { !act.Enqueue? && !(act.ReadEndpoint? && act.endpoint.Missing?) }

  lemma {:induction false} SumDrop(m: map<nat, int>, n: map<nat, int>, ids: set<nat>)
    requires m.Keys == n.Keys && ids <= m.Keys
    requires forall id :: id in m ==> n[id] + (if id in ids then 1 else 0) <= m[id]
    ensures SumMap(n) + |ids| <= SumMap(m)
    decreases |m|
  {
    if m.Keys != {} {
      var k := Pick(m.Keys);
      ShrinkKeys(m, k);
      SumRemove(m, k);
      SumRemove(n, k);
      SumDrop(m - {k}, n - {k}, ids - {k});
    } else {
      assert ids == {};
    }
  }

  lemma DrainBy(s: Settings, w: World, v: World, ids: set<nat>)
    requires v.db.jobs.Keys == w.db.jobs.Keys && ids <= w.db.jobs.Keys
    requires forall id :: id in w.db.jobs ==> Weight(s, v, id) + (if id in ids then 1 else 0) <= Weight(s, w, id)
    ensures Drain(s, v) + |ids| <= Drain(s, w)
  {
    hide Weight;
    SumDrop(Weights(s, w), Weights(s, v), ids);
  }

  /** A claimed job: nobody worked on it, and its new goroutine has just begun. */
  lemma ClaimedWeight(s: Settings, w: World, worker: nat, told: bool, id: nat)
    requires Inv(s, w) && worker in w.claims && id in IdsOf(w.claims[worker])
    ensures id in w.db.jobs
    ensures Weight(s, Next(s, false, w, CommitClaim(worker, told)), id) + 1 <= Weight(s, w, id)
  {
    var v := Next(s, false, w, CommitClaim(worker, told));
    assert Batch(w.db.jobs, w.claims[worker]);
    assert Tally(s, w.db.jobs[id], Sends(w.sends, id), Accepts(w.sends, id));
    forall i | Live(w, i) ensures w.owners[i].event.id != id {
      assert OwnerOk(s, w.db.jobs, w.sends, w.owners[i]);
    }
    assert forall i :: Live(v, i) && v.owners[i].event.id == id ==> i >= |w.owners|;
    hide Inv, Sends, Accepts;
  }

  lemma UnclaimedWeight(s: Settings, w: World, worker: nat, told: bool, id: nat)
    requires worker in w.claims && id in w.db.jobs && id !in IdsOf(w.claims[worker])
    ensures Weight(s, Next(s, false, w, CommitClaim(worker, told)), id) == Weight(s, w, id)
  {
    var v, events := Next(s, false, w, CommitClaim(worker, told)), w.claims[worker];
    assert forall i :: |w.owners| <= i < |v.owners| ==> v.owners[i].event in events;
    assert forall i :: Live(v, i) && v.owners[i].event.id == id ==> Live(w, i) && w.owners[i] == v.owners[i];
    assert forall i :: Live(w, i) ==> Live(v, i) && w.owners[i] == v.owners[i];
  }

  lemma ClaimDrains(s: Settings, w: World, worker: nat, told: bool)
    requires Inv(s, w) && worker in w.claims
    ensures var v := Next(s, false, w, CommitClaim(worker, told)); Drain(s, v) + |IdsOf(w.claims[worker])| <= Drain(s, w)
  {
    hide Weight, Inv;
    var ids := IdsOf(w.claims[worker]);
    var v := Next(s, false, w, CommitClaim(worker, told));
    forall id | id in w.db.jobs ensures Weight(s, v, id) + (if id in ids then 1 else 0) <= Weight(s, w, id) {
      if id in ids {
        ClaimedWeight(s, w, worker, told, id);
      } else {
        UnclaimedWeight(s, w, worker, told, id);
      }
    }
    forall id | id in ids ensures id in w.db.jobs {
      ClaimedWeight(s, w, worker, told, id);
    }
    DrainBy(s, w, v, ids);
  }

  /** The end of an attempt: goroutine i is gone, and its row not pending, or
      pending with one attempt more; or with no more when it was skipped. */
  lemma EndDrains(s: Settings, w: World, v: World, i: nat)
    requires Inv(s, w) && Live(w, i) && v.owners == At(w, i, Gone).owners
    requires var id := w.owners[i].event.id;
      && v.db.jobs.Keys == w.db.jobs.Keys && (forall k :: k in w.db.jobs && k != id ==> v.db.jobs[k] == w.db.jobs[k])
      && id in v.db.jobs
      && (v.db.jobs[id].status.Pending? ==>
            v.db.jobs[id].attempts == w.owners[i].event.attempts + if w.owners[i].stage == Answered(NoEndpoint) then 0 else 1)
    ensures Drain(s, v) + 1 <= Drain(s, w)
  {
    hide Sends, Accepts;
    var e := w.owners[i].event;
    assert OwnerOk(s, w.db.jobs, w.sends, w.owners[i]);
    assert Tally(s, w.db.jobs[e.id], Sends(w.sends, e.id), Accepts(w.sends, e.id));
    assert Owned(w, e.id);
    forall id | id in w.db.jobs ensures Weight(s, v, id) + (if id in {e.id} then 1 else 0) <= Weight(s, w, id) {
      if id == e.id {
        assert forall j :: Live(w, j) && w.owners[j].event.id == id ==> j == i;
        assert forall j :: Live(v, j) ==> v.owners[j].event.id != id;
      } else {
        assert forall j :: Live(v, j) ==> Live(w, j) && w.owners[j] == v.owners[j];
        assert forall j :: Live(w, j) && j != i ==> Live(v, j) && w.owners[j] == v.owners[j];
      }
    }
    DrainBy(s, w, v, {e.id});
  }

  lemma SameOwners(s: Settings, w: World, v: World)
    requires v.db == w.db && |v.owners| == |w.owners|
    requires forall i :: 0 <= i < |w.owners| ==>
      && v.owners[i].event == w.owners[i].event && v.owners[i].stage.Gone? == w.owners[i].stage.Gone?
      && (v.owners[i].stage == Answered(NoEndpoint) <==> w.owners[i].stage == Answered(NoEndpoint))
    ensures Drain(s, v) == Drain(s, w)
  {
    forall id | id in w.db.jobs ensures Weight(s, v, id) == Weight(s, w, id) {
      assert forall i :: Live(w, i) <==> Live(v, i);
      assert Owned(w, id) <==> Owned(v, id);
      assert Skipped(w, id) <==> Skipped(v, id);
    }
    assert Weights(s, v) == Weights(s, w);
  }

  lemma OwnerStepDrains(s: Settings, w: World, act: Action, i: nat)
    requires Inv(s, w) && Quiet(act) && i < |w.owners|
    ensures var v := OwnerStep(s, false, w, act, i);
      Drain(s, v) + (if Live(w, i) && !Live(v, i) then 1 else 0) <= Drain(s, w)
  {
    var v := OwnerStep(s, false, w, act, i);
    assert OwnerOk(s, w.db.jobs, w.sends, w.owners[i]);
    if Live(w, i) && !Live(v, i) {
      hide Inv, Sends, Accepts, Drain, BackoffForAttempt;
      EndDrains(s, w, v, i);
    } else {
      hide Inv, Sends, Accepts, Drain, BackoffForAttempt;
      SameOwners(s, w, v);
    }
  }

  /** Each claim and each end of an attempt uses the measure up, and nothing
      gives it back. */
  lemma DrainStep(s: Settings, w: World, act: Action)
    requires Inv(s, w) && Quiet(act)
    ensures Drain(s, Next(s, false, w, act)) + Work(s, w, act) <= Drain(s, w)
  {
    hide Drain, Inv;
    var v := Next(s, false, w, act);
    match act
    case Enqueue(_, _, _, _, _) =>
    case Claim(_, _, _, _) => SameOwners(s, w, v);
    case Rollback(_) => SameOwners(s, w, v);
    case CommitClaim(worker, told) => if worker in w.claims { ClaimDrains(s, w, worker, told); }
    case _ => if act.owner < |w.owners| { OwnerStepDrains(s, w, act, act.owner); }
  }

  /** The work of the actions of longer from position from on. */
  function TotalWork(s: Settings, longer: seq<Action>, from: nat): nat
    decreases |longer|
  {
    if |longer| <= from then 0
    else
      var init := longer[..|longer| - 1];
      TotalWork(s, init, from) + Work(s, Run(s, init), longer[|init|])
  }

  lemma {:induction false} DrainRun(s: Settings, acts: seq<Action>, longer: seq<Action>)
    requires acts <= longer && forall i :: |acts| <= i < |longer| ==> Quiet(longer[i])
    ensures Drain(s, Run(s, longer)) + TotalWork(s, longer, |acts|) <= Drain(s, Run(s, acts))
    decreases |longer|
  {
    if |acts| < |longer| {
      var init := longer[..|longer| - 1];
      DrainRun(s, acts, init);
      RunKeeps(s, init);
      hide Inv, Drain, Work;
      DrainStep(s, Run(s, init), longer[|init|]);
    } else {
      assert acts == longer;
    }
  }

  lemma WeightsPositive(s: Settings, w: World, id: nat)
    requires Inv(s, w) && id in w.db.jobs
    ensures Weight(s, w, id) >= 0 && (Weight(s, w, id) == 0 <==> Idle(w, id))
  {
    assert Tally(s, w.db.jobs[id], Sends(w.sends, id), Accepts(w.sends, id));
  }

  /** The measure is spent exactly when every job is delivered, failed or
      orphaned. */
  lemma DrainedIff(s: Settings, w: World)
    requires Inv(s, w)
    ensures Drain(s, w) >= 0
    ensures Drain(s, w) == 0 <==> AllIdle(w)
  {
    hide Inv, Weight, Idle;
    forall id | id in w.db.jobs ensures Weight(s, w, id) >= 0 && (Weight(s, w, id) == 0 <==> Idle(w, id)) {
      WeightsPositive(s, w, id);
    }
    SumNonNegative(Weights(s, w));
    if AllIdle(w) {
      SumOfZeros(Weights(s, w));
    }
    forall id | id in w.db.jobs && Drain(s, w) == 0 ensures Idle(w, id) {
      SumRemove(Weights(s, w), id);
      SumNonNegative(Weights(s, w) - {id});
    }
  }

  ghost predicate AllIdle(w: World) { forall id :: id in w.db.jobs ==> Idle(w, id) }

  lemma {:induction false} SumOfZeros(m: map<nat, int>)
    requires forall k :: k in m ==> m[k] == 0
    ensures SumMap(m) == 0
    decreases |m|
  {
    if m.Keys != {} {
      var k := Pick(m.Keys);
      ShrinkKeys(m, k);
      SumOfZeros(m - {k});
    }
  }
}
