// No job of the queue is ever beyond reach: from every reachable state the
// ordinary steps can still settle it, unless it is settled or orphaned already.
module QueueProgress {
  import opened Options
  import opened Backoff
  import opened Ids
  import opened Queue
  import opened QueueLaws
  import opened QueueTheorems

  /** No crash, no failed write, no rollback, no lost claim, no missing endpoint. */
  predicate Ordinary(act: Action) {
    Quiet(act) && !act.Rollback? && !act.Lose? && (act.CommitClaim? ==> act.told)
  }

  /** longer continues acts by at most n ordinary actions. */
  predicate Within(acts: seq<Action>, longer: seq<Action>, n: nat) {
    acts <= longer && |longer| <= |acts| + n && forall i :: |acts| <= i < |longer| ==> Ordinary(longer[i])
  }

  lemma Do(s: Settings, acts: seq<Action>, act: Action) returns (more: seq<Action>)
    requires Ordinary(act)
    ensures Within(acts, more, 1) && |more| == |acts| + 1 && Run(s, more) == Next(s, false, Run(s, acts), act)
  {
    more := acts + [act];
    RunSnoc(s, acts, act);
  }

  /** Nothing blocks the write of a goroutine. */
  lemma Unblocked(s: Settings, w: World, i: nat)
    requires Inv(s, w) && Live(w, i)
    ensures !LockedByClaim(w, w.owners[i].event.id) && !LockedByBurial(w, i, w.owners[i].event.id)
  {}

  /** Goroutine i is gone, the others are where they were. */
  predicate Returned(w: World, v: World, i: nat) {
    && |v.owners| == |w.owners| && !Live(v, i) && v.db.jobs.Keys == w.db.jobs.Keys
    && forall j :: 0 <= j < |w.owners| ==>
         v.owners[j].event == w.owners[j].event && (j != i ==> v.owners[j] == w.owners[j])
  }

  /** Its write goes through: the goroutine returns, or has a burial to commit. */
  lemma Settling(s: Settings, w: World, i: nat)
    requires Inv(s, w) && Live(w, i) && w.owners[i].stage.Answered?
    ensures var v := Next(s, false, w, Settle(i, 0, None));
      var o := w.owners[i];
      && |v.owners| == |w.owners| && (v.owners[i].stage.Burying? || v.owners[i].stage.Gone?)
      && v.owners == w.owners[i := o.(stage := v.owners[i].stage)] && v.db.jobs.Keys == w.db.jobs.Keys
      && (o.stage == Answered(Accepted) ==>
            o.event.id in v.db.jobs && v.db.jobs[o.event.id].status.Delivered? && v.owners[i].stage.Gone?)
  {
    Unblocked(s, w, i);
    assert OwnerOk(s, w.db.jobs, w.sends, w.owners[i]);
    hide Inv, LockedByClaim, LockedByBurial, Sends, Accepts, BackoffForAttempt;
  }

  lemma Committing(s: Settings, w: World, i: nat)
    requires Inv(s, w) && Live(w, i) && w.owners[i].stage.Burying?
    ensures Returned(w, Next(s, false, w, CommitBurial(i)), i)
  {
    assert OwnerOk(s, w.db.jobs, w.sends, w.owners[i]);
    hide Inv, Sends, Accepts;
  }

  /** A goroutine that has its outcome can end its attempt. */
  lemma FinishAnswered(s: Settings, acts: seq<Action>, i: nat) returns (longer: seq<Action>)
    requires Live(Run(s, acts), i) && (Run(s, acts).owners[i].stage.Answered? || Run(s, acts).owners[i].stage.Burying?)
    ensures Within(acts, longer, 2) && Returned(Run(s, acts), Run(s, longer), i)
    ensures var o := Run(s, acts).owners[i];
      o.stage == Answered(Accepted) ==> o.event.id in Run(s, longer).db.jobs && Run(s, longer).db.jobs[o.event.id].status.Delivered?
  {
    hide Run, Inv, Next;
    longer := acts;
    if Run(s, acts).owners[i].stage.Answered? {
      RunKeeps(s, acts);
      Settling(s, Run(s, acts), i);
      longer := Do(s, longer, Settle(i, 0, None));
    }
    if Run(s, longer).owners[i].stage.Burying? {
      RunKeeps(s, longer);
      Committing(s, Run(s, longer), i);
      longer := Do(s, longer, CommitBurial(i));
    }
  }

  /** Any goroutine can end its attempt, and one that has just started can
      deliver. */
  lemma FinishOwned(s: Settings, acts: seq<Action>, i: nat) returns (longer: seq<Action>)
    requires Live(Run(s, acts), i)
    ensures Within(acts, longer, 4) && Returned(Run(s, acts), Run(s, longer), i)
    ensures var o := Run(s, acts).owners[i];
      o.stage.Fetching? ==> o.event.id in Run(s, longer).db.jobs && Run(s, longer).db.jobs[o.event.id].status.Delivered?
  {
    hide Run;
    longer := acts;
    if Run(s, longer).owners[i].stage.Fetching? {
      longer := Do(s, longer, ReadEndpoint(i, Url));
    }
    if Run(s, longer).owners[i].stage.Sending? {
      longer := Do(s, longer, Post(i, Some(200), ""));
    }
    longer := FinishAnswered(s, longer, i);
  }

  /** A waiting job that no open claim holds can be claimed by a new worker. */
  lemma FreeToClaim(s: Settings, w: World, id: nat) returns (p: nat)
    requires Inv(s, w) && id in w.db.jobs && w.db.jobs[id].status.Pending? && !LockedByClaim(w, id)
    ensures ClaimEnabled(w, p, [id], 1, w.db.jobs[id].nextRetry)
  {
    p := Unused(w.claims.Keys);
    forall j | 0 <= j < |w.owners| && w.owners[j].stage.Burying? ensures w.owners[j].event.id != id {
      assert OwnerOk(s, w.db.jobs, w.sends, w.owners[j]);
    }
  }

  /** So a waiting job gets into some open claim, at position k. */
  lemma GetClaimed(s: Settings, acts: seq<Action>, id: nat) returns (longer: seq<Action>, p: nat, k: nat)
    requires id in Run(s, acts).db.jobs && Run(s, acts).db.jobs[id].status.Pending?
    ensures Within(acts, longer, 1) && p in Run(s, longer).claims
    ensures k < |Run(s, longer).claims[p]| && Run(s, longer).claims[p][k].id == id
  {
    var w := Run(s, acts);
    RunKeeps(s, acts);
    longer := acts;
    if LockedByClaim(w, id) {
      p :| p in w.claims && id in IdsOf(w.claims[p]);
      k :| k < |w.claims[p]| && w.claims[p][k].id == id;
    } else {
      p := FreeToClaim(s, w, id);
      hide Run, Inv, ClaimEnabled;
      longer := Do(s, acts, Claim(p, [id], 1, w.db.jobs[id].nextRetry));
      k := 0;
    }
  }

  lemma Committed(s: Settings, w: World, p: nat, k: nat)
    requires p in w.claims && k < |w.claims[p]|
    ensures var v := Next(s, false, w, CommitClaim(p, true));
      |w.owners| + k < |v.owners| && v.owners[|w.owners| + k] == Owner(w.claims[p][k], Fetching)
  {}

  /** A waiting job can be claimed, and delivered. */
  lemma FinishPending(s: Settings, acts: seq<Action>, id: nat) returns (longer: seq<Action>)
    requires id in Run(s, acts).db.jobs && Run(s, acts).db.jobs[id].status.Pending?
    ensures Within(acts, longer, 6) && id in Run(s, longer).db.jobs && Run(s, longer).db.jobs[id].status.Delivered?
  {
    var p, k;
    longer, p, k := GetClaimed(s, acts, id);
    hide Run, Next;
    var v := Run(s, longer);
    Committed(s, v, p, k);
    longer := Do(s, longer, CommitClaim(p, true));
    longer := FinishOwned(s, longer, |v.owners| + k);
  }

  /** From any reachable state any job can be settled by ordinary steps. */
  lemma CanSettle(s: Settings, acts: seq<Action>, id: nat) returns (longer: seq<Action>)
    requires id in Run(s, acts).db.jobs
    ensures Within(acts, longer, 10) && Idle(Run(s, longer), id)
  {
    longer := acts;
    var w := Run(s, acts);
    RunKeeps(s, acts);
    if Owned(w, id) {
      var i :| Live(w, i) && w.owners[i].event.id == id;
      longer := FinishOwned(s, acts, i);
    }
    var v := Run(s, longer);
    assert !Owned(v, id) by {
      forall j | Live(v, j) ensures v.owners[j].event.id != id {
        assert Live(w, j);
      }
    }
    if v.db.jobs[id].status.Pending? {
      longer := FinishPending(s, longer, id);
      RunKeeps(s, longer);
      var u := Run(s, longer);
      forall j | Live(u, j) ensures u.owners[j].event.id != id {
        assert OwnerOk(s, u.db.jobs, u.sends, u.owners[j]);
      }
    }
  }

  // ------------------------------------------------------------ termination

  predicate QuietFrom(longer: seq<Action>, from: nat) { forall i :: from <= i < |longer| ==> Quiet(longer[i]) }

  /** A goroutine that ends does so by a step of work. */
  lemma {:induction false} EndingIsWork(s: Settings, acts: seq<Action>, longer: seq<Action>, i: nat)
    requires acts <= longer && Live(Run(s, acts), i) && !Live(Run(s, longer), i)
    ensures TotalWork(s, longer, |acts|) >= 1
    decreases |longer|
  {
    assert acts == longer || |acts| < |longer|;
    var init, act := longer[..|longer| - 1], longer[|longer| - 1];
    assert Run(s, longer) == Next(s, false, Run(s, init), act);
    hide Run, Next, Live;
    if Live(Run(s, init), i) {
      LastStepIsWork(s, Run(s, init), act, i);
    } else {
      EndingIsWork(s, acts, init, i);
    }
  }

  lemma LastStepIsWork(s: Settings, w: World, act: Action, i: nat)
    requires Live(w, i) && !Live(Next(s, false, w, act), i)
    ensures Work(s, w, act) == 1
  {
    hide Decide, Land, LockedByClaim, LockedByBurial;
  }

  /** As long as some job is not settled or orphaned, ordinary steps can still do
      work. */
  lemma MoreWork(s: Settings, acts: seq<Action>, id: nat) returns (longer: seq<Action>)
    requires id in Run(s, acts).db.jobs && !Idle(Run(s, acts), id)
    ensures Within(acts, longer, 4) && TotalWork(s, longer, |acts|) >= 1
  {
    var w := Run(s, acts);
    if Owned(w, id) {
      var i :| Live(w, i) && w.owners[i].event.id == id;
      longer := FinishOwned(s, acts, i);
      EndingIsWork(s, acts, longer, i);
    } else {
      var p, k;
      longer, p, k := GetClaimed(s, acts, id);
      hide Run, Next;
      var claim := CommitClaim(p, true);
      assert Run(s, longer).claims[p][k].id in IdsOf(Run(s, longer).claims[p]);
      ghost var init := longer;
      longer := Do(s, longer, claim);
      assert longer[..|longer| - 1] == init && longer[|init|] == claim;
    }
  }

  lemma NoMoreWork(s: Settings, acts: seq<Action>, longer: seq<Action>)
    requires acts <= longer && QuietFrom(longer, |acts|) && AllIdle(Run(s, acts))
    ensures TotalWork(s, longer, |acts|) == 0
  {
    DrainRun(s, acts, longer);
    RunKeeps(s, acts);
    RunKeeps(s, longer);
    hide Run, Inv, Drain, AllIdle, TotalWork;
    DrainedIff(s, Run(s, acts));
    DrainedIff(s, Run(s, longer));
  }

  /** From when every endpoint is configured and nothing more is enqueued: the claims
      and the ends of attempts to come number at most the measure, and none is to
      come exactly when every job is delivered, failed or orphaned. */
  lemma DrainTerminates(s: Settings, acts: seq<Action>, longer: seq<Action>)
    requires acts <= longer && QuietFrom(longer, |acts|)
    ensures TotalWork(s, longer, |acts|) <= Drain(s, Run(s, acts))
    ensures AllIdle(Run(s, longer)) <==>
      forall more :: longer <= more && QuietFrom(more, |longer|) ==> TotalWork(s, more, |longer|) == 0
  {
    DrainRun(s, acts, longer);
    RunKeeps(s, longer);
    DrainedIff(s, Run(s, longer));
    hide Run, Inv, Drain, AllIdle, TotalWork;
    if AllIdle(Run(s, longer)) {
      forall more | longer <= more && QuietFrom(more, |longer|) ensures TotalWork(s, more, |longer|) == 0 {
        NoMoreWork(s, longer, more);
      }
    } else {
      var more := WorkLeft(s, longer);
    }
  }

  lemma WorkLeft(s: Settings, acts: seq<Action>) returns (longer: seq<Action>)
    requires !AllIdle(Run(s, acts))
    ensures Within(acts, longer, 4) && QuietFrom(longer, |acts|) && TotalWork(s, longer, |acts|) >= 1
  {
    var id :| id in Run(s, acts).db.jobs && !Idle(Run(s, acts), id);
    longer := MoreWork(s, acts, id);
  }

  /** And the end is within reach: ordinary steps can always settle every job. */
  lemma {:induction false} CanSettleAll(s: Settings, acts: seq<Action>) returns (longer: seq<Action>)
    ensures acts <= longer && QuietFrom(longer, |acts|) && AllIdle(Run(s, longer))
    decreases Drain(s, Run(s, acts))
  {
    hide Run, Drain, TotalWork, AllIdle;
    longer := acts;
    if !AllIdle(Run(s, acts)) {
      var more := WorkLeft(s, acts);
      DrainRun(s, acts, more);
      RunKeeps(s, more);
      DrainedIff(s, Run(s, more));
      longer := CanSettleAll(s, more);
    }
  }

  // ------------------------------------------------ no redelivery after a crash

  const ROW := Job(1, "posted", "", Pending, 0, 0, "")
  const EVENT := Event(0, 1, "posted", "", 0)

  /** A worker stops between a 2xx answer and the write that records it. */
  lemma AcceptedAndLost(s: Settings) returns (acts: seq<Action>)
    ensures var w := Run(s, acts);
      Orphan(w, 0) && w.db.jobs[0].attempts == 0 && Sends(w.sends, 0) == 1 && Accepts(w.sends, 0) == 1
  {
    acts := [Enqueue(0, 1, "posted", "", 0)];
    assert acts[..0] == [];
    assert Run(s, []) == START;
    assert Run(s, acts) == World(Db(map[0 := ROW], []), map[], [], []);
    hide Run;
    var w := World(Db(map[0 := ROW], []), map[0 := [EVENT]], [], []);
    assert EventsOf(map[0 := ROW], [0]) == [EVENT];
    acts := Do(s, acts, Claim(0, [0], 1, 0));
    assert Run(s, acts) == w;
    assert IdsOf([EVENT]) == {0} by { assert EVENT in [EVENT]; }
    assert Spawned([EVENT]) == [Owner(EVENT, Fetching)];
    var jobs := map[0 := ROW.(status := Processing)];
    assert Claimed(map[0 := ROW], {0}) == jobs;
    acts := Do(s, acts, CommitClaim(0, true));
    w := World(Db(jobs, []), map[], [Owner(EVENT, Fetching)], []);
    assert Run(s, acts).claims == map[];
    assert Run(s, acts) == w;
    acts := Do(s, acts, ReadEndpoint(0, Url));
    acts := Do(s, acts, Post(0, Some(200), ""));
    RunSnoc(s, acts, Lose(0));
    acts := acts + [Lose(0)];
  }

  /** Then the receiver has the event, the row never says so, and nothing is
      sent again: a crash does not cause the redelivery the design notes expect. */
  lemma NoRedeliveryAfterCrash(s: Settings) returns (acts: seq<Action>)
    ensures forall longer :: acts <= longer ==>
      var w := Run(s, longer);
      Orphan(w, 0) && Sends(w.sends, 0) == 1 && Accepts(w.sends, 0) == 1
  {
    acts := AcceptedAndLost(s);
    forall longer | acts <= longer ensures var w := Run(s, longer);
      Orphan(w, 0) && Sends(w.sends, 0) == 1 && Accepts(w.sends, 0) == 1 {
      IdleForever(s, acts, longer, 0);
    }
  }
}
