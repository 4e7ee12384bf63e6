// What every run of the delivery queue keeps: one owner for a claimed job, its
// copy in agreement with the row, the tally of requests, the dead letters.
module QueueLaws {
  import opened Options
  import opened Backoff
  import opened Queue

  // -------------------------------------------------------------- invariant

  /** The row is in the given status and is what the event was copied from. */
  predicate Fits(jobs: map<nat, Job>, e: Event, status: Status) {
    e.id in jobs && EventOf(e.id, jobs[e.id]) == e && jobs[e.id].status == status
  }

  /** Requests and 2xx answers so far, by the status of the row. */
  predicate Tally(s: Settings, j: Job, sends: nat, accepts: nat) {
    && j.attempts < Limit(s)
    && sends <= j.attempts + (if j.status.Pending? then 0 else 1)
    && match j.status
       case Pending => accepts == 0
       case Processing => accepts <= 1
       case Delivered => accepts == 1
       case Failed => accepts == 0 && j.attempts == Limit(s) - 1
  }

  ghost predicate JobsOk(s: Settings, jobs: map<nat, Job>, h: seq<Send>) {
    forall id: nat :: if id in jobs then Tally(s, jobs[id], Sends(h, id), Accepts(h, id)) else Sends(h, id) == Accepts(h, id) == 0
  }

  predicate Batch(jobs: map<nat, Job>, events: seq<Event>) {
    && (forall e :: e in events ==> Fits(jobs, e, Pending))
    && (forall i, j :: 0 <= i < j < |events| ==> events[i].id != events[j].id)
  }

  /** Open claims hold pending rows, each row in one claim. */
  ghost predicate ClaimsOk(jobs: map<nat, Job>, claims: map<nat, seq<Event>>) {
    && (forall p :: p in claims ==> Batch(jobs, claims[p]))
    && (forall p, q :: p in claims && q in claims && p != q ==> IdsOf(claims[p]) !! IdsOf(claims[q]))
  }

  predicate OwnerOk(s: Settings, jobs: map<nat, Job>, h: seq<Send>, o: Owner) {
    !o.stage.Gone? ==>
      && Fits(jobs, o.event, Processing)
      && match o.stage
         case Fetching => Sends(h, o.event.id) <= o.event.attempts && Accepts(h, o.event.id) == 0
         case Sending => Sends(h, o.event.id) <= o.event.attempts && Accepts(h, o.event.id) == 0
         case Answered(outcome) =>
           && Accepts(h, o.event.id) == (if outcome.Accepted? then 1 else 0)
           && (outcome.NoEndpoint? ==> Sends(h, o.event.id) <= o.event.attempts)
         case Burying(write) =>
           write.Bury? && write.attempts == Limit(s) == o.event.attempts + 1 && Accepts(h, o.event.id) == 0
         case Gone => true
  }

  ghost predicate OwnersOk(s: Settings, jobs: map<nat, Job>, h: seq<Send>, owners: seq<Owner>) {
    && (forall i :: 0 <= i < |owners| ==> OwnerOk(s, jobs, h, owners[i]))
    && (forall i, j :: 0 <= i < j < |owners| && !owners[i].stage.Gone? && !owners[j].stage.Gone? ==>
          owners[i].event.id != owners[j].event.id)
  }

  predicate LetterOk(s: Settings, jobs: map<nat, Job>, d: DeadLetter) {
    && d.id in jobs && jobs[d.id].status.Failed?
    && d == Buried(EventOf(d.id, jobs[d.id]), Limit(s), jobs[d.id].lastError)
  }

  ghost predicate DeadOk(s: Settings, jobs: map<nat, Job>, dead: seq<DeadLetter>) {
    && (forall d :: d in dead ==> LetterOk(s, jobs, d))
    && (forall i, j :: 0 <= i < j < |dead| ==> dead[i].id != dead[j].id)
    && (forall id :: id in jobs && jobs[id].status.Failed? ==> exists d :: d in dead && d.id == id)
  }

  ghost predicate Inv(s: Settings, w: World) {
    && JobsOk(s, w.db.jobs, w.sends)
    && ClaimsOk(w.db.jobs, w.claims)
    && OwnersOk(s, w.db.jobs, w.sends, w.owners)
    && DeadOk(s, w.db.jobs, w.db.dead)
  }

  // ------------------------------------------------------------------ steps

  /** A goroutine moves on without touching the tables. */
  lemma MoveKeeps(s: Settings, w: World, i: nat, stage: Stage)
    requires Inv(s, w) && i < |w.owners| && !w.owners[i].stage.Gone?
    requires OwnerOk(s, w.db.jobs, w.sends, w.owners[i].(stage := stage))
    ensures Inv(s, At(w, i, stage))
  {}

  lemma PostKeeps(s: Settings, w: World, i: nat, x: Send, outcome: Outcome)
    requires Inv(s, w) && i < |w.owners| && w.owners[i].stage.Sending? && x.id == w.owners[i].event.id
    requires !outcome.NoEndpoint? && (outcome.Accepted? <==> Success(x.code))
    ensures Inv(s, At(w, i, Answered(outcome)).(sends := w.sends + [x]))
  {}

  lemma EnqueueKeeps(s: Settings, w: World, id: nat, j: Job)
    requires Inv(s, w) && id !in w.db.jobs && j.status.Pending? && j.attempts == 0
    ensures Inv(s, w.(db := w.db.(jobs := w.db.jobs[id := j])))
  {
    hide Sends, Accepts, IdsOf;
  }

  lemma ClaimKeeps(s: Settings, w: World, worker: nat, ids: seq<nat>, limit: int, now: int)
    requires Inv(s, w) && ClaimEnabled(w, worker, ids, limit, now)
    ensures Inv(s, w.(claims := w.claims[worker := EventsOf(w.db.jobs, ids)]))
  {
    hide JobsOk, OwnersOk, DeadOk;
    var events := EventsOf(w.db.jobs, ids);
    assert Batch(w.db.jobs, events) by {
      forall e | e in events ensures Fits(w.db.jobs, e, Pending) {
        assert e.id in ids && Claimable(w, e.id, now);
      }
      assert forall i :: 0 <= i < |ids| ==> events[i].id == ids[i];
    }
    forall p | p in w.claims ensures IdsOf(w.claims[p]) !! IdsOf(events) {
      forall id | id in IdsOf(events) ensures id !in IdsOf(w.claims[p]) {
        assert id in ids && !LockedByClaim(w, id);
      }
    }
  }

  /** Whoever holds a row that is not in ids is not affected. */
  lemma OwnerFrame(s: Settings, jobs: map<nat, Job>, later: map<nat, Job>, h: seq<Send>, o: Owner)
    requires OwnerOk(s, jobs, h, o)
    requires !o.stage.Gone? && o.event.id in jobs ==> o.event.id in later && later[o.event.id] == jobs[o.event.id]
    ensures OwnerOk(s, later, h, o)
  {}

  lemma CommitClaimKeeps(s: Settings, w: World, worker: nat, told: bool)
    requires Inv(s, w) && worker in w.claims
    ensures Inv(s, Next(s, false, w, CommitClaim(worker, told)))
  {
    var v := Next(s, false, w, CommitClaim(worker, told));
    var events := w.claims[worker];
    var ids := IdsOf(events);
    hide Sends, Accepts;
    assert Batch(w.db.jobs, events);
    CommitClaimJobs(s, w, worker);
    forall i | 0 <= i < |v.owners| ensures OwnerOk(s, v.db.jobs, v.sends, v.owners[i]) {
      if i < |w.owners| {
        assert OwnerOk(s, w.db.jobs, w.sends, w.owners[i]);
        OwnerFrame(s, w.db.jobs, v.db.jobs, w.sends, w.owners[i]);
      } else {
        assert events[i - |w.owners|] in events;
      }
    }
    forall i, j | 0 <= i < j < |v.owners| && !v.owners[i].stage.Gone? && !v.owners[j].stage.Gone?
      ensures v.owners[i].event.id != v.owners[j].event.id {
      if i < |w.owners| <= j {
        assert OwnerOk(s, w.db.jobs, w.sends, w.owners[i]);
        assert events[j - |w.owners|] in events;
      }
    }
  }

  lemma CommitClaimJobs(s: Settings, w: World, worker: nat)
    requires Inv(s, w) && worker in w.claims
    ensures var later := Claimed(w.db.jobs, IdsOf(w.claims[worker]));
      JobsOk(s, later, w.sends) && ClaimsOk(later, w.claims - {worker}) && DeadOk(s, later, w.db.dead)
  {
    hide Sends, Accepts, OwnersOk;
    assert Batch(w.db.jobs, w.claims[worker]);
    var later := Claimed(w.db.jobs, IdsOf(w.claims[worker]));
    forall p | p in w.claims && p != worker ensures Batch(later, w.claims[p]) {
      assert Batch(w.db.jobs, w.claims[p]);
      forall e | e in w.claims[p] ensures Fits(later, e, Pending) {
        assert e.id in IdsOf(w.claims[p]);
      }
    }
    forall d | d in w.db.dead ensures LetterOk(s, later, d) {
      assert LetterOk(s, w.db.jobs, d);
    }
  }

  /** The writes Decide can produce for an owner that satisfies OwnerOk. */
  predicate WriteOk(s: Settings, h: seq<Send>, e: Event, w: Write) {
    match w
    case Deliver => Accepts(h, e.id) == 1
    case Retry(attempts, _, _) => Accepts(h, e.id) == 0 && Sends(h, e.id) <= attempts < Limit(s)
    case Bury(attempts, _) => Accepts(h, e.id) == 0 && attempts == Limit(s) == e.attempts + 1
    case Panic => true
  }

  lemma DecideOk(s: Settings, w: World, i: nat, now: int, roll: Option<nat>)
    requires Inv(s, w) && i < |w.owners| && w.owners[i].stage.Answered?
    ensures WriteOk(s, w.sends, w.owners[i].event, Decide(s, w.owners[i].event, w.owners[i].stage.outcome, now, roll))
  {}

  /** Under the invariant the guard the code leaves out would always hold. */
  lemma GuardHolds(s: Settings, w: World, i: nat, write: Write)
    requires Inv(s, w) && Live(w, i)
    ensures GuardedApplied(w.db, w.owners[i].event, write) == Applied(w.db, w.owners[i].event, write)
  {
    assert OwnerOk(s, w.db.jobs, w.sends, w.owners[i]);
  }

  lemma LandTables(s: Settings, w: World, i: nat, write: Write)
    requires Inv(s, w) && Live(w, i) && WriteOk(s, w.sends, w.owners[i].event, write)
    ensures var v := Applied(w.db, w.owners[i].event, write);
      JobsOk(s, v.jobs, w.sends) && ClaimsOk(v.jobs, w.claims)
  {}

  lemma LandDead(s: Settings, w: World, i: nat, write: Write)
    requires Inv(s, w) && Live(w, i) && WriteOk(s, w.sends, w.owners[i].event, write)
    ensures var v := Applied(w.db, w.owners[i].event, write); DeadOk(s, v.jobs, v.dead)
  {
    hide Sends, Accepts, JobsOk, ClaimsOk;
    var e := w.owners[i].event;
    var v := Applied(w.db, e, write);
    assert OwnerOk(s, w.db.jobs, w.sends, w.owners[i]);
    forall d | d in v.dead ensures LetterOk(s, v.jobs, d) {
      if d in w.db.dead {
        assert LetterOk(s, w.db.jobs, d);
      }
    }
    forall id | id in v.jobs && v.jobs[id].status.Failed? ensures exists d :: d in v.dead && d.id == id {
      if id != e.id {
        var d :| d in w.db.dead && d.id == id;
        assert d in v.dead;
      } else {
        assert v.dead[|v.dead| - 1] in v.dead;
      }
    }
    forall i, j | 0 <= i < j < |v.dead| ensures v.dead[i].id != v.dead[j].id {
      assert v.dead[i] == w.db.dead[i] && v.dead[i] in w.db.dead;
    }
  }

  lemma LandKeeps(s: Settings, w: World, i: nat, write: Write)
    requires Inv(s, w) && Live(w, i) && WriteOk(s, w.sends, w.owners[i].event, write)
    ensures Inv(s, At(w, i, Gone).(db := Applied(w.db, w.owners[i].event, write)))
  {
    LandTables(s, w, i, write);
    LandDead(s, w, i, write);
    hide Sends, Accepts, JobsOk, ClaimsOk, DeadOk;
    var v := At(w, i, Gone).(db := Applied(w.db, w.owners[i].event, write));
    forall j | 0 <= j < |v.owners| ensures OwnerOk(s, v.db.jobs, v.sends, v.owners[j]) {
      if j != i {
        assert OwnerOk(s, w.db.jobs, w.sends, w.owners[j]);
        OwnerFrame(s, w.db.jobs, v.db.jobs, w.sends, w.owners[j]);
      }
    }
  }

  lemma OwnerStepKeeps(s: Settings, w: World, act: Action, i: nat)
    requires Inv(s, w) && i < |w.owners|
    ensures Inv(s, OwnerStep(s, false, w, act, i))
  {
    var v := OwnerStep(s, false, w, act, i);
    var o := w.owners[i];
    assert OwnerOk(s, w.db.jobs, w.sends, o);
    match act
    case Post(_, code, error) => if o.stage.Sending? {
      PostKeeps(s, w, i, Send(o.event.id, code), if Success(code) then Accepted else Refused(error));
    }
    case Settle(_, now, roll) =>
      if o.stage.Answered? {
        var write := Decide(s, o.event, o.stage.outcome, now, roll);
        DecideOk(s, w, i, now, roll);
        hide Inv, Decide;
        if write.Bury? {
          MoveKeeps(s, w, i, Burying(write));
        } else {
          LandKeeps(s, w, i, write);
        }
      }
    case CommitBurial(_) => if o.stage.Burying? { LandKeeps(s, w, i, o.stage.write); }
    case ReadEndpoint(_, _) => if o.stage.Fetching? { MoveKeeps(s, w, i, v.owners[i].stage); }
    case Lose(_) => if !o.stage.Gone? { MoveKeeps(s, w, i, Gone); }
    case _ =>
  }

  lemma StepKeeps(s: Settings, w: World, act: Action)
    requires Inv(s, w)
    ensures Inv(s, Next(s, false, w, act))
  {
    match act
    case Enqueue(id, tenant, kind, payload, now) =>
      if id !in w.db.jobs { EnqueueKeeps(s, w, id, Job(tenant, kind, payload, Pending, 0, now, "")); }
    case Claim(worker, ids, limit, now) =>
      if ClaimEnabled(w, worker, ids, limit, now) { ClaimKeeps(s, w, worker, ids, limit, now); }
    case CommitClaim(worker, told) => if worker in w.claims { CommitClaimKeeps(s, w, worker, told); }
    case Rollback(worker) =>
    case _ => if act.owner < |w.owners| { OwnerStepKeeps(s, w, act, act.owner); }
  }

  lemma {:induction false} RunKeeps(s: Settings, acts: seq<Action>)
    ensures Inv(s, Run(s, acts))
  {
    if acts != [] {
      RunKeeps(s, acts[..|acts| - 1]);
      StepKeeps(s, Run(s, acts[..|acts| - 1]), acts[|acts| - 1]);
    }
  }
}
