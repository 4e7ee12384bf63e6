// The queue repository and the worker as they are written: tables updated in
// place, the claimed rows scanned into event objects, the branches of
// ProcessEvent, and one batch of the worker.
module QueueService {
  import opened Ids
  import opened Seqs
  import opened Options
  import opened Backoff
  import opened Queue

  /** A claimed row in memory. */
  class ClaimedEvent {
    const id: nat
    const tenant: nat
    const kind: string
    const payload: string
    var attemptCount: nat

    constructor (id: nat, j: Job)
      ensures Copy() == EventOf(id, j)
    {
      this.id, this.tenant, this.kind, this.payload, this.attemptCount := id, j.tenant, j.kind, j.payload, j.attempts;
    }

    function Copy(): Event
      reads this
    {
      Event(id, tenant, kind, payload, attemptCount)
    }
  }

  function Copies(events: seq<ClaimedEvent>): (copies: seq<Event>)
    reads events
    ensures |copies| == |events|
    ensures forall i :: 0 <= i < |events| ==> copies[i] == events[i].Copy()
  {
    if events == [] then [] else Copies(events[..|events| - 1]) + [events[|events| - 1].Copy()]
  }

  /** Everything outside the process that one ProcessEvent meets. stored: its
      write to the tables succeeds. */
  datatype Net = Net(endpoint: Endpoint, code: Option<int>, error: string, now: int, roll: Option<nat>, stored: bool)

  /** service.go deliver */
  function OutcomeOf(net: Net): Outcome {
    match net.endpoint
    case Missing => NoEndpoint
    case Broken(error) => Refused(error)
    case Url => if Success(net.code) then Accepted else Refused(net.error)
  }

  /** The receiver has answered with a 2xx status. */
  predicate Arrived(net: Net) { net.endpoint == Url && net.code.Some? && 200 <= net.code.value <= 299 }

  predicate Fails(net: Net) { net.endpoint != Missing && !Arrived(net) }

  function Reason(net: Net): string { if net.endpoint.Broken? then net.endpoint.error else net.error }

  /** delay is within a fifth of the smaller of product and cap. */
  predicate Around(delay: int, product: int, cap: int) {
    var d := if product <= cap then product else cap;
    d - d / 5 <= delay < d + d / 5
  }

  lemma DelayAround(s: Settings, attempt: nat, roll: Option<nat>)
    requires s.base >= 5 && s.cap >= 5 && attempt >= 1
    ensures var delay := BackoffForAttempt(s.base, s.cap, attempt, roll);
      delay.Some? && delay.value > 0 && Around(delay.value, s.base * Pow2(attempt - 1), s.cap)
  {
    NominalIsTheMinimum(s.base, s.cap, attempt);
    if attempt > 1 {
      PowGrows(s.base, 0, attempt - 1);
    }
    JitterWithin(Nominal(s.base, s.cap, attempt), roll);
    hide Jitter, Nominal, Pow2;
  }

  function WriteOf(s: Settings, e: Event, net: Net): Write { Decide(s, e, OutcomeOf(net), net.now, net.roll) }

  function Processed(s: Settings, db: Db, e: Event, net: Net): Db {
    if net.stored then Applied(db, e, WriteOf(s, e, net)) else db
  }

  /** The tables after the events have been processed in this order. */
  function BatchDone(s: Settings, db: Db, events: seq<Event>, nets: nat -> Net): Db
  {
    if events == [] then db
    else
      var e := events[|events| - 1];
      Processed(s, BatchDone(s, db, events[..|events| - 1], nets), e, nets(e.id))
  }

  predicate DistinctIds(events: seq<Event>) { forall i, j :: 0 <= i < j < |events| ==> events[i].id != events[j].id }

  /** Each event decides its own row, and no other. */
  lemma {:induction false} BatchRows(s: Settings, db: Db, events: seq<Event>, nets: nat -> Net)
    requires DistinctIds(events)
    ensures var v := BatchDone(s, db, events, nets);
      && v.jobs.Keys == db.jobs.Keys
      && (forall e :: e in events && e.id in db.jobs ==>
            v.jobs[e.id] == if nets(e.id).stored then Updated(db.jobs[e.id], WriteOf(s, e, nets(e.id))) else db.jobs[e.id])
      && (forall id :: id in db.jobs && id !in IdsOf(events) ==> v.jobs[id] == db.jobs[id])
  {
    if events != [] {
      var init, e := events[..|events| - 1], events[|events| - 1];
      var before := BatchDone(s, db, init, nets);
      assert BatchDone(s, db, events, nets) == Processed(s, before, e, nets(e.id));
      BatchRows(s, db, init, nets);
      assert forall f :: f in events <==> f in init || f == e;
      assert forall f :: f in init ==> f.id != e.id;
      assert IdsOf(events) == IdsOf(init) + {e.id} && e.id !in IdsOf(init);
      hide BatchDone, Decide, WriteOf, Updated, IdsOf;
    }
  }

  /** The letters a batch adds. */
  function Letters(s: Settings, events: seq<Event>, nets: nat -> Net): multiset<DeadLetter>
  {
    if events == [] then multiset{}
    else
      var e := events[0];
      var w := WriteOf(s, e, nets(e.id));
      (if nets(e.id).stored && w.Bury? then multiset{Buried(e, w.attempts, w.error)} else multiset{})
      + Letters(s, events[1..], nets)
  }

  lemma {:induction false} LettersSplit(s: Settings, a: seq<Event>, b: seq<Event>, nets: nat -> Net)
    ensures Letters(s, a + b, nets) == Letters(s, a, nets) + Letters(s, b, nets)
  {
    if a == [] {
      assert a + b == b;
    } else {
      assert (a + b)[1..] == a[1..] + b;
      LettersSplit(s, a[1..], b, nets);
      hide Decide;
    }
  }

  lemma {:induction false} BatchLetters(s: Settings, db: Db, events: seq<Event>, nets: nat -> Net)
    ensures multiset(BatchDone(s, db, events, nets).dead) == multiset(db.dead) + Letters(s, events, nets)
  {
    if events != [] {
      var init, e := events[..|events| - 1], events[|events| - 1];
      assert events == init + [e];
      BatchLetters(s, db, init, nets);
      LettersSplit(s, init, [e], nets);
      hide Decide;
    }
  }

  lemma LettersTake(s: Settings, b: seq<Event>, k: nat, nets: nat -> Net)
    requires k < |b|
    ensures Letters(s, b, nets) == Letters(s, [b[k]], nets) + Letters(s, Without(b, k), nets)
  {
    var pre, post := b[..k], b[k + 1..];
    assert b == pre + ([b[k]] + post);
    LettersSplit(s, pre, post, nets);
    LettersSplit(s, [b[k]], post, nets);
    LettersSplit(s, pre, [b[k]] + post, nets);
  }

  lemma {:induction false} LettersPermutation(s: Settings, a: seq<Event>, b: seq<Event>, nets: nat -> Net)
    requires multiset(a) == multiset(b)
    ensures Letters(s, a, nets) == Letters(s, b, nets)
    decreases |a|
  {
    if a == [] {
      assert |multiset(b)| == 0;
    } else {
      assert a[0] in multiset(b);
      var k :| 0 <= k < |b| && b[k] == a[0];
      LettersTake(s, a, 0, nets);
      LettersTake(s, b, k, nets);
      BagWithout(a, 0);
      BagWithout(b, k);
      hide Letters, Without;
      assert |Without(a, 0)| == |multiset(Without(a, 0))| < |multiset(a)| == |a|;
      LettersPermutation(s, Without(a, 0), Without(b, k), nets);
    }
  }

  lemma SameMembers(a: seq<Event>, b: seq<Event>)
    requires multiset(a) == multiset(b)
    ensures forall e :: e in a <==> e in b
    ensures IdsOf(a) == IdsOf(b)
  {
    forall e ensures e in a <==> e in b {
      assert (e in a <==> e in multiset(a)) && (e in b <==> e in multiset(b));
    }
  }

  lemma BatchOrderRows(s: Settings, db: Db, events: seq<Event>, order: seq<Event>, nets: nat -> Net)
    requires DistinctIds(events) && DistinctIds(order) && multiset(events) == multiset(order)
    ensures BatchDone(s, db, events, nets).jobs == BatchDone(s, db, order, nets).jobs
  {
    SameMembers(events, order);
    BatchRows(s, db, events, nets);
    BatchRows(s, db, order, nets);
    hide BatchDone, Decide, Updated, WriteOf, IdsOf, DistinctIds;
    var a, b := BatchDone(s, db, events, nets), BatchDone(s, db, order, nets);
    forall id | id in db.jobs ensures a.jobs[id] == b.jobs[id] {
      if id in IdsOf(events) {
        var e := Member(events, id);
      }
    }
  }

  /** The goroutines of a batch may finish in any order. */
  lemma BatchOrderIsIrrelevant(s: Settings, db: Db, events: seq<Event>, order: seq<Event>, nets: nat -> Net)
    requires DistinctIds(events) && DistinctIds(order) && multiset(events) == multiset(order)
    ensures var a, b := BatchDone(s, db, events, nets), BatchDone(s, db, order, nets);
      a.jobs == b.jobs && multiset(a.dead) == multiset(b.dead)
  {
    BatchOrderRows(s, db, events, order, nets);
    LettersPermutation(s, events, order, nets);
    hide BatchDone, Letters;
    BatchLetters(s, db, events, nets);
    BatchLetters(s, db, order, nets);
  }

  /** The events at the indices not in todo have been processed, in this order. */
  ghost predicate Progress(s: Settings, db: Db, copies: seq<Event>, todo: set<nat>, order: seq<Event>, now: Db, nets: nat -> Net) {
    && DistinctIds(order) && now == BatchDone(s, db, order, nets)
    && (forall e :: e in order ==> exists i: nat :: i < |copies| && i !in todo && copies[i] == e)
    && (forall i: nat :: i < |copies| && i !in todo ==> copies[i] in order)
  }

  lemma ProgressOne(s: Settings, db: Db, copies: seq<Event>, todo: set<nat>, order: seq<Event>, now: Db, nets: nat -> Net, i: nat)
    requires DistinctIds(copies) && i < |copies| && i in todo && Progress(s, db, copies, todo, order, now, nets)
    ensures Progress(s, db, copies, todo - {i}, order + [copies[i]], Processed(s, now, copies[i], nets(copies[i].id)), nets)
  {
    assert forall j: nat :: j < |copies| && j !in todo ==> copies[j].id != copies[i].id;
    Appended(s, db, copies, order, i, nets);
    hide Processed, BatchDone;
  }

  lemma ProgressAll(s: Settings, db: Db, copies: seq<Event>, order: seq<Event>, now: Db, nets: nat -> Net)
    requires DistinctIds(copies) && Progress(s, db, copies, {}, order, now, nets)
    ensures now.jobs == BatchDone(s, db, copies, nets).jobs
    ensures multiset(now.dead) == multiset(BatchDone(s, db, copies, nets).dead)
  {
    hide BatchDone;
    SameBag(copies, order);
    BatchOrderIsIrrelevant(s, db, copies, order, nets);
  }

  lemma Appended(s: Settings, db: Db, copies: seq<Event>, order: seq<Event>, i: nat, nets: nat -> Net)
    requires i < |copies| && DistinctIds(copies) && DistinctIds(order)
    requires forall e :: e in order ==> exists j: nat :: j < |copies| && j != i && copies[j] == e
    ensures DistinctIds(order + [copies[i]])
    ensures BatchDone(s, db, order + [copies[i]], nets) == Processed(s, BatchDone(s, db, order, nets), copies[i], nets(copies[i].id))
  {
    assert (order + [copies[i]])[..|order|] == order;
    forall k | 0 <= k < |order| ensures order[k].id != copies[i].id {
      assert order[k] in order;
    }
  }

  lemma {:induction false} Once(a: seq<Event>, e: Event)
    requires DistinctIds(a)
    ensures multiset(a)[e] == if e in a then 1 else 0
  {
    if a != [] {
      var init, last := a[..|a| - 1], a[|a| - 1];
      assert a == init + [last];
      Once(init, e);
    }
  }

  /** Lists without repetition and with the same members are permutations. */
  lemma SameBag(a: seq<Event>, b: seq<Event>)
    requires DistinctIds(a) && DistinctIds(b) && forall e :: e in a <==> e in b
    ensures multiset(a) == multiset(b)
  {
    forall e ensures multiset(a)[e] == multiset(b)[e] {
      Once(a, e);
      Once(b, e);
    }
  }

  lemma Member(events: seq<Event>, id: nat) returns (e: Event)
    requires id in IdsOf(events)
    ensures e in events && e.id == id
  {
    e :| e in events && e.id == id;
  }

  // -------------------------------------------------------------- the claim

  function Due(jobs: map<nat, Job>, now: int): set<nat> {
    set id | id in jobs && jobs[id].status.Pending? && jobs[id].nextRetry <= now
  }

  /** The due jobs a claim takes: as many as allowed, the longest due first. */
  predicate Chosen(jobs: map<nat, Job>, now: int, limit: nat, ids: set<nat>) {
    && ids <= Due(jobs, now)
    && |ids| == (if |Due(jobs, now)| < limit then |Due(jobs, now)| else limit)
    && forall a, b :: a in ids && b in Due(jobs, now) - ids ==> jobs[a].nextRetry <= jobs[b].nextRetry
  }

  predicate WasDue(jobs: map<nat, Job>, id: nat, now: int) {
    id in jobs && jobs[id].status == Pending && jobs[id].nextRetry <= now
  }

  /** What such a claim comes to: copies of distinct rows that were pending and
      due, no more than the limit; those rows, and no others, are processing; a
      due row is left only when the limit is reached, and none that has been due
      longer than a claimed one. */
  lemma ClaimMeaning(before: map<nat, Job>, now: int, limit: nat, events: seq<Event>)
    requires DistinctIds(events) && Chosen(before, now, limit, IdsOf(events))
    requires forall e :: e in events ==> e == EventOf(e.id, before[e.id])
    ensures |events| <= limit
    ensures forall e :: e in events ==>
      var j := before[e.id];
      WasDue(before, e.id, now) && e == Event(e.id, j.tenant, j.kind, j.payload, j.attempts)
    ensures var after := Claimed(before, IdsOf(events));
      && after.Keys == before.Keys
      && (forall e :: e in events ==> after[e.id] == before[e.id].(status := Processing))
      && (forall id :: id in before && (forall e :: e in events ==> e.id != id) ==> after[id] == before[id])
    ensures forall id, e :: WasDue(before, id, now) && (forall f :: f in events ==> f.id != id) && e in events ==>
      before[e.id].nextRetry <= before[id].nextRetry
    ensures |events| < limit ==> forall id :: WasDue(before, id, now) ==> exists e :: e in events && e.id == id
  {
    EventCount(events);
    var ids := IdsOf(events);
    assert forall e :: e in events ==> e.id in ids && e.id in Due(before, now);
    assert forall id :: WasDue(before, id, now) <==> id in Due(before, now);
    if |events| < limit {
      assert |ids| == |Due(before, now)|;
      if ids != Due(before, now) {
        Smaller(ids, Due(before, now));
      }
    }
  }

  lemma {:induction false} EventCount(events: seq<Event>)
    requires DistinctIds(events)
    ensures |IdsOf(events)| == |events|
  {
    if events != [] {
      var init, e := events[..|events| - 1], events[|events| - 1];
      assert events == init + [e];
      EventCount(init);
      assert e.id !in IdsOf(init);
      assert IdsOf(events) == IdsOf(init) + {e.id};
    }
  }

  /** ids have been picked from due, rest have not. */
  predicate Picking(jobs: map<nat, Job>, due: set<nat>, ids: seq<nat>, rest: set<nat>) {
    && due <= jobs.Keys && Distinct(ids) && ToSet(ids) + rest == due && ToSet(ids) !! rest
    && |ids| + |rest| == |due|
    && forall a, b :: a in ToSet(ids) && b in rest ==> jobs[a].nextRetry <= jobs[b].nextRetry
  }

  lemma PickOne(jobs: map<nat, Job>, due: set<nat>, ids: seq<nat>, rest: set<nat>, best: nat)
    requires Picking(jobs, due, ids, rest) && best in rest
    requires forall b :: b in rest ==> jobs[best].nextRetry <= jobs[b].nextRetry
    ensures Picking(jobs, due, ids + [best], rest - {best})
  {}

  lemma PickDone(jobs: map<nat, Job>, now: int, ids: seq<nat>, rest: set<nat>)
    requires Picking(jobs, Due(jobs, now), ids, rest)
    ensures Due(jobs, now) - ToSet(ids) == rest && |ToSet(ids)| == |ids|
  {
    assert ToSet(ids) == Due(jobs, now) - rest;
  }

  /** Flipping the rows one at a time. */
  lemma ClaimedMore(jobs: map<nat, Job>, ids: seq<nat>, i: nat)
    requires i < |ids| && Distinct(ids) && ids[i] in jobs
    ensures var done := Claimed(jobs, ToSet(ids[..i]));
      done[ids[i]] == jobs[ids[i]] && Claimed(jobs, ToSet(ids[..i + 1])) == done[ids[i] := jobs[ids[i]].(status := Processing)]
  {}

  lemma CopiesIds(ids: seq<nat>, copies: seq<Event>)
    requires Distinct(ids) && |copies| == |ids| && forall k :: 0 <= k < |ids| ==> copies[k].id == ids[k]
    ensures DistinctIds(copies) && IdsOf(copies) == ToSet(ids)
  {}

  class Repository {
    var jobs: map<nat, Job>
    var dead: seq<DeadLetter>

    constructor ()
      ensures Tables() == Db(map[], [])
    {
      jobs, dead := map[], [];
    }

    function Tables(): Db
      reads this
    {
      Db(jobs, dead)
    }

    /** repository.go Enqueue; id is the one the table generates. */
    method Enqueue(id: nat, tenant: nat, kind: string, payload: string, now: int)
      requires id !in jobs
      modifies this
      ensures jobs == old(jobs)[id := Job(tenant, kind, payload, Pending, 0, now, "")] && dead == old(dead)
    {
      jobs := jobs[id := Job(tenant, kind, payload, Pending, 0, now, "")];
    }

    /** One of the jobs in rest that has been due longest. */
    method LongestDue(rest: set<nat>) returns (best: nat)
      requires rest != {} && rest <= jobs.Keys
      ensures best in rest && forall b :: b in rest ==> jobs[best].nextRetry <= jobs[b].nextRetry
    {
      best :| best in rest;
      var todo := rest - {best};
      while todo != {}
        invariant todo <= rest && best in rest - todo
        invariant forall b :: b in rest - todo ==> jobs[best].nextRetry <= jobs[b].nextRetry
      {
        var x :| x in todo;
        if jobs[x].nextRetry < jobs[best].nextRetry {
          best := x;
        }
        todo := todo - {x};
      }
    }

    /** The subquery of repository.go ClaimPending. */
    method SelectDue(limit: nat, now: int) returns (ids: seq<nat>)
      ensures Distinct(ids) && Chosen(jobs, now, limit, ToSet(ids))
    {
      ids := [];
      var rest := Due(jobs, now);
      while |ids| < limit && rest != {}
        invariant |ids| <= limit && Picking(jobs, Due(jobs, now), ids, rest)
        decreases rest
      {
        var best := LongestDue(rest);
        PickOne(jobs, Due(jobs, now), ids, rest, best);
        ids := ids + [best];
        rest := rest - {best};
      }
      PickDone(jobs, now, ids, rest);
    }

    /** SET status = 'processing' … RETURNING, and the scan of the rows. */
    method FlipAndScan(ids: seq<nat>) returns (events: seq<ClaimedEvent>)
      requires Distinct(ids) && forall k :: 0 <= k < |ids| ==> ids[k] in jobs
      modifies this
      ensures fresh(events) && dead == old(dead) && jobs == Claimed(old(jobs), ToSet(ids))
      ensures |events| == |ids|
      ensures forall k :: 0 <= k < |ids| ==> ids[k] in old(jobs) && events[k].Copy() == EventOf(ids[k], old(jobs)[ids[k]])
    {
      events := [];
      var i := 0;
      while i < |ids|
        invariant i <= |ids| && |events| == i && fresh(events) && dead == old(dead)
        invariant forall k :: 0 <= k < i ==> events[k].Copy() == EventOf(ids[k], old(jobs)[ids[k]])
        invariant jobs == Claimed(old(jobs), ToSet(ids[..i]))
      {
        ClaimedMore(old(jobs), ids, i);
        var event := new ClaimedEvent(ids[i], jobs[ids[i]]);
        jobs := jobs[ids[i] := jobs[ids[i]].(status := Processing)];
        events := events + [event];
        i := i + 1;
      }
      assert ids[..i] == ids;
    }

    /** repository.go ClaimPending, run without interference. A negative limit
        is an error of the database. */
    method ClaimPending(limit: int, now: int) returns (events: seq<ClaimedEvent>, ok: bool)
      modifies this
      ensures ok == (limit >= 0) && fresh(events) && dead == old(dead)
      ensures !ok ==> events == [] && jobs == old(jobs)
      ensures ok ==>
        && DistinctIds(Copies(events)) && Chosen(old(jobs), now, limit, IdsOf(Copies(events)))
        && jobs == Claimed(old(jobs), IdsOf(Copies(events)))
        && forall e :: e in Copies(events) ==> e == EventOf(e.id, old(jobs)[e.id])
    {
      if limit < 0 {
        return [], false;
      }
      var ids := SelectDue(limit, now);
      forall k | 0 <= k < |ids| ensures ids[k] in jobs {
        assert ids[k] in ToSet(ids) && ids[k] in Due(jobs, now);
      }
      events := FlipAndScan(ids);
      ok := true;
      CopiesIds(ids, Copies(events));
    }

    /** repository.go MarkDelivered */
    method MarkDelivered(id: nat)
      modifies this
      ensures dead == old(dead)
      ensures jobs == if id in old(jobs) then old(jobs)[id := old(jobs)[id].(status := Delivered)] else old(jobs)
    {
      if id in jobs {
        jobs := jobs[id := jobs[id].(status := Delivered)];
      }
    }

    /** repository.go ScheduleRetry */
    method ScheduleRetry(id: nat, attempts: nat, at: int, error: string)
      modifies this
      ensures dead == old(dead)
      ensures id !in old(jobs) ==> jobs == old(jobs)
      ensures id in old(jobs) ==>
        jobs == old(jobs)[id := old(jobs)[id].(status := Pending, attempts := attempts, nextRetry := at, lastError := error)]
    {
      if id in jobs {
        jobs := jobs[id := jobs[id].(status := Pending, attempts := attempts, nextRetry := at, lastError := error)];
      }
    }

    /** repository.go MoveToDeadLetter: the copy's attempt count goes into the
        letter, the row keeps its own. */
    method MoveToDeadLetter(ev: ClaimedEvent, error: string)
      modifies this
      ensures dead == old(dead) + [DeadLetter(ev.tenant, ev.id, ev.kind, ev.payload, ev.attemptCount, error)]
      ensures jobs == if ev.id in old(jobs) then old(jobs)[ev.id := old(jobs)[ev.id].(status := Failed, lastError := error)] else old(jobs)
    {
      dead := dead + [DeadLetter(ev.tenant, ev.id, ev.kind, ev.payload, ev.attemptCount, error)];
      if ev.id in jobs {
        jobs := jobs[ev.id := jobs[ev.id].(status := Failed, lastError := error)];
      }
    }

    /** service.go deliver: at most one request. */
    method Deliver(net: Net) returns (outcome: Outcome, sent: bool)
      ensures sent == net.endpoint.Url?
      ensures outcome == Accepted <==> sent && net.code.Some? && 200 <= net.code.value <= 299
      ensures outcome == NoEndpoint <==> net.endpoint == Missing
      ensures outcome.Refused? ==> outcome.error == if net.endpoint.Broken? then net.endpoint.error else net.error
      ensures outcome == OutcomeOf(net)
    {
      sent := false;
      if net.endpoint.Missing? {
        return NoEndpoint, sent;
      }
      if net.endpoint.Broken? {
        return Refused(net.endpoint.error), sent;
      }
      sent := true;
      if net.code.None? || net.code.value < 200 || net.code.value >= 300 {
        return Refused(net.error), sent;
      }
      outcome := Accepted;
    }

    /** service.go ProcessEvent */
    method ProcessEvent(s: Settings, ev: ClaimedEvent, net: Net) returns (sent: bool, panicked: bool)
      modifies this, ev
      ensures Tables() == Processed(s, old(Tables()), old(ev.Copy()), net)
      ensures sent == net.endpoint.Url? && panicked == WriteOf(s, old(ev.Copy()), net).Panic?
      ensures !net.stored || panicked ==> Tables() == old(Tables())
      ensures net.stored && ev.id in old(jobs) && Arrived(net) ==>
        dead == old(dead) && jobs == old(jobs)[ev.id := old(jobs)[ev.id].(status := Delivered)]
      ensures net.stored && ev.id in old(jobs) && net.endpoint == Missing ==>
        && dead == old(dead)
        && jobs == old(jobs)[ev.id := old(jobs)[ev.id].(status := Pending, attempts := old(ev.attemptCount),
             nextRetry := net.now + s.base, lastError := "webhook: tenant has no webhook endpoint configured")]
      ensures net.stored && ev.id in old(jobs) && Fails(net) && old(ev.attemptCount) + 1 >= s.maxAttempts ==>
        && dead == old(dead) + [DeadLetter(ev.tenant, ev.id, ev.kind, ev.payload, old(ev.attemptCount) + 1, Reason(net))]
        && jobs == old(jobs)[ev.id := old(jobs)[ev.id].(status := Failed, lastError := Reason(net))]
      ensures net.stored && ev.id in old(jobs) && Fails(net) && old(ev.attemptCount) + 1 < s.maxAttempts && s.base >= 5 && s.cap >= 5 ==>
        && dead == old(dead) && ev.id in jobs
        && jobs == old(jobs)[ev.id := old(jobs)[ev.id].(status := Pending, attempts := old(ev.attemptCount) + 1,
             nextRetry := jobs[ev.id].nextRetry, lastError := Reason(net))]
        && Around(jobs[ev.id].nextRetry - net.now, s.base * Pow2(old(ev.attemptCount)), s.cap)
    {
      panicked := false;
      var outcome;
      outcome, sent := Deliver(net);
      var attempt := ev.attemptCount + 1;
      if outcome.Accepted? {
        if net.stored {
          MarkDelivered(ev.id);
        }
        return;
      }
      if outcome.NoEndpoint? {
        if net.stored {
          ScheduleRetry(ev.id, ev.attemptCount, net.now + s.base, NO_ENDPOINT);
        }
        return;
      }
      if attempt >= s.maxAttempts {
        ghost var e := ev.Copy();
        ev.attemptCount := attempt;
        if net.stored {
          MoveToDeadLetter(ev, outcome.error);
          assert Buried(ev.Copy(), attempt, outcome.error) == Buried(e, attempt, outcome.error);
        }
        return;
      }
      if s.base >= 5 && s.cap >= 5 {
        DelayAround(s, attempt, net.roll);
      }
      var delay := BackoffForAttempt(s.base, s.cap, attempt, net.roll);
      if delay.None? {
        return sent, true;
      }
      if net.stored {
        ScheduleRetry(ev.id, attempt, net.now + delay.value, outcome.error);
      }
    }

    /** The goroutines of worker.go processBatch, their writes in any order. */
    method ProcessAll(s: Settings, events: seq<ClaimedEvent>, nets: nat -> Net)
      requires DistinctIds(Copies(events))
      modifies this, events
      ensures jobs == BatchDone(s, old(Tables()), old(Copies(events)), nets).jobs
      ensures multiset(dead) == multiset(BatchDone(s, old(Tables()), old(Copies(events)), nets).dead)
    {
      ghost var copies := Copies(events);
      ghost var order: seq<Event> := [];
      assert forall i, j :: 0 <= i < j < |events| ==> copies[i].id != copies[j].id;
      var todo := Below(|events|);
      assert Progress(s, old(Tables()), copies, todo, order, Tables(), nets);
      hide Progress, Processed, DistinctIds, BatchDone;
      while todo != {}
        invariant forall i :: i in todo ==> i < |events| && events[i].Copy() == copies[i]
        invariant Progress(s, old(Tables()), copies, todo, order, Tables(), nets)
        decreases todo
      {
        var i :| i in todo;
        ProgressOne(s, old(Tables()), copies, todo, order, Tables(), nets, i);
        var _, _ := ProcessEvent(s, events[i], nets(events[i].id));
        order := order + [copies[i]];
        todo := todo - {i};
      }
      ProgressAll(s, old(Tables()), copies, order, Tables(), nets);
    }

    /** worker.go processBatch. committed: the claim's commit succeeds. */
    method ProcessBatch(s: Settings, limit: int, now: int, committed: bool, nets: nat -> Net) returns (ghost claimed: seq<Event>)
      modifies this
      ensures limit < 0 || !committed ==> Tables() == old(Tables())
      ensures limit >= 0 && committed ==>
        && DistinctIds(claimed) && Chosen(old(jobs), now, limit, IdsOf(claimed))
        && (forall e :: e in claimed ==> e == EventOf(e.id, old(jobs)[e.id]))
      ensures limit >= 0 && committed ==>
        var done := BatchDone(s, Db(Claimed(old(jobs), IdsOf(claimed)), old(dead)), claimed, nets);
        jobs == done.jobs && multiset(dead) == multiset(done.dead)
    {
      var rowsBefore := jobs;
      var events, ok := ClaimPending(limit, now);
      claimed := Copies(events);
      if !ok {
        return;
      }
      if !committed {
        jobs := rowsBefore;
        return;
      }
      hide Chosen, Claimed, BatchDone, IdsOf, EventOf, DistinctIds;
      ProcessAll(s, events, nets);
    }
  }

  /** When every write of a batch is stored and no backoff panics, no claimed row
      is left processing: each is delivered, waiting again with its attempts
      counted, or failed with its last attempt. */
  lemma BatchLeavesNoneProcessing(s: Settings, db: Db, events: seq<Event>, nets: nat -> Net, e: Event)
    requires DistinctIds(events) && e in events && e.id in db.jobs
    requires forall id: nat :: nets(id).stored
    requires s.base >= 5 && s.cap >= 5
    ensures e.id in BatchDone(s, db, events, nets).jobs
    ensures var j := BatchDone(s, db, events, nets).jobs[e.id];
      match OutcomeOf(nets(e.id))
         case Accepted => j.status.Delivered?
         case NoEndpoint => j.status.Pending? && j.attempts == e.attempts && j.nextRetry == nets(e.id).now + s.base
         case Refused(_) =>
           if e.attempts + 1 >= s.maxAttempts then j.status.Failed?
           else
             && j.status.Pending? && j.attempts == e.attempts + 1
             && Around(j.nextRetry - nets(e.id).now, s.base * Pow2(e.attempts), s.cap)
  {
    BatchRows(s, db, events, nets);
    DelayAround(s, e.attempts + 1, nets(e.id).roll);
    hide BatchDone, BackoffForAttempt, Around;
  }

  lemma {:induction false} DistinctSize(ids: seq<nat>)
    requires Distinct(ids)
    ensures |ToSet(ids)| == |ids|
  {
    if ids != [] {
      var init, last := ids[..|ids| - 1], ids[|ids| - 1];
      DistinctSize(init);
      assert last !in ToSet(init);
      assert ToSet(ids) == ToSet(init) + {last};
    }
  }

  /** A claim of the repository is one the machine allows when nobody else holds
      a row, and leaves the same rows: what is proved of all interleavings covers
      it. */
  lemma ClaimIsMachineStep(s: Settings, db: Db, now: int, limit: nat, ids: seq<nat>)
    requires Distinct(ids) && Chosen(db.jobs, now, limit, ToSet(ids))
    ensures var w := World(db, map[], [], []);
      var v := Next(s, false, Next(s, false, w, Claim(0, ids, limit, now)), CommitClaim(0, true));
      && v.db == Db(Claimed(db.jobs, ToSet(ids)), db.dead) && v.claims == map[]
      && |v.owners| == |ids| && forall i :: 0 <= i < |ids| ==> v.owners[i].event == EventOf(ids[i], db.jobs[ids[i]])
  {
    var w := World(db, map[], [], []);
    DistinctSize(ids);
    forall id | id in ids ensures Claimable(w, id, now) {
      assert id in ToSet(ids);
    }
    var events := EventsOf(db.jobs, ids);
    CopiesIds(ids, events);
    assert ClaimEnabled(w, 0, ids, limit, now);
    hide ClaimEnabled, Claimable, Chosen, Due, IdsOf, Claimed;
    assert Next(s, false, w, Claim(0, ids, limit, now)) == w.(claims := map[0 := events]);
    assert map[0 := events] - {0} == map[];
  }
}
