// The outbox queue and its delivery workers (internal/queue, internal/webhook):
// the statements, and the machine that interleaves any number of workers and
// of the goroutines they start, one for each claimed job.
module Queue {
  import opened Options
  import opened Backoff

  datatype Status = Pending | Processing | Delivered | Failed

  datatype Job = Job(
    tenant: nat, kind: string, payload: string, status: Status, attempts: nat, nextRetry: int, lastError: string)

  datatype DeadLetter = DeadLetter(tenant: nat, id: nat, kind: string, payload: string, attempts: nat, lastError: string)

  datatype Db = Db(jobs: map<nat, Job>, dead: seq<DeadLetter>)

  /** A claimed job as its goroutine holds it. */
  datatype Event = Event(id: nat, tenant: nat, kind: string, payload: string, attempts: nat)

  datatype Settings = Settings(maxAttempts: int, base: int, cap: int)

  /** At least one attempt is made, whatever maxAttempts says. */
  function Limit(s: Settings): (n: nat)
    ensures n >= 1 && n >= s.maxAttempts && (n == 1 || n == s.maxAttempts)
  {
    if s.maxAttempts <= 1 then 1 else s.maxAttempts
  }

  // ------------------------------------------------- one event's processing

  /** What GetTenantWebhookConfig, and building the request, come to. */
  datatype Endpoint = Url | Missing | Broken(error: string)

  /** What service.go deliver returns. */
  datatype Outcome = Accepted | NoEndpoint | Refused(error: string)

  const NO_ENDPOINT := "webhook: tenant has no webhook endpoint configured"

  predicate Success(code: Option<int>) { code.Some? && 200 <= code.value < 300 }

  /** The row update that ends an attempt, or a panic in the backoff. */
  datatype Write =
    | Deliver
    | Retry(attempts: nat, at: int, error: string)
    | Bury(attempts: nat, error: string)
    | Panic

  /** service.go ProcessEvent, after deliver has returned. */
  function Decide(s: Settings, e: Event, outcome: Outcome, now: int, roll: Option<nat>): Write {
    match outcome
    case Accepted => Deliver
    case NoEndpoint => Retry(e.attempts, now + s.base, NO_ENDPOINT)
    case Refused(error) =>
      var attempt := e.attempts + 1;
      if attempt >= s.maxAttempts then Bury(attempt, error)
      else
        match BackoffForAttempt(s.base, s.cap, attempt, roll)
        case None => Panic
        case Some(delay) => Retry(attempt, now + delay, error)
  }

  function Buried(e: Event, attempts: nat, error: string): DeadLetter {
    DeadLetter(e.tenant, e.id, e.kind, e.payload, attempts, error)
  }

  function Updated(j: Job, w: Write): Job {
    match w
    case Deliver => j.(status := Delivered)
    case Retry(attempts, at, error) => j.(status := Pending, attempts := attempts, nextRetry := at, lastError := error)
    case Bury(_, error) => j.(status := Failed, lastError := error)
    case Panic => j
  }

  /** MarkDelivered, ScheduleRetry and MoveToDeadLetter: UPDATE … WHERE id = …,
      whatever the row's status. */
  function Applied(db: Db, e: Event, w: Write): Db {
    Db(if e.id in db.jobs then db.jobs[e.id := Updated(db.jobs[e.id], w)] else db.jobs,
       if w.Bury? then db.dead + [Buried(e, w.attempts, w.error)] else db.dead)
  }

  /** The same with a guard the code does not have: the row must still be in
      the state in which this goroutine claimed it. */
  function GuardedApplied(db: Db, e: Event, w: Write): Db {
    if e.id in db.jobs && db.jobs[e.id].status.Processing? && db.jobs[e.id].attempts == e.attempts
    then Applied(db, e, w) else db
  }

  function EventOf(id: nat, j: Job): Event { Event(id, j.tenant, j.kind, j.payload, j.attempts) }

  function IdsOf(events: seq<Event>): (ids: set<nat>)
    ensures forall e :: e in events ==> e.id in ids
  {
    set e | e in events :: e.id
  }

  function Claimed(jobs: map<nat, Job>, ids: set<nat>): map<nat, Job> {
    map id | id in jobs :: if id in ids then jobs[id].(status := Processing) else jobs[id]
  }

  // ------------------------------------------------------------- the machine

  datatype Stage =
    | Fetching                  // about to read the endpoint
    | Sending                   // about to make the request
    | Answered(outcome: Outcome)
    | Burying(write: Write)     // dead letter inserted, row updated, uncommitted
    | Gone                      // returned, with or without its write; or stopped

  /** One ProcessEvent goroutine. */
  datatype Owner = Owner(event: Event, stage: Stage)

  /** History: a request made for a job, and the status received, if any. */
  datatype Send = Send(id: nat, code: Option<int>)

  /** claims holds the open claim transactions, by worker: the events their
      statement returned, whose rows they lock. */
  datatype World = World(db: Db, claims: map<nat, seq<Event>>, owners: seq<Owner>, sends: seq<Send>)

  datatype Action =
    | Enqueue(id: nat, tenant: nat, kind: string, payload: string, now: int)
    | Claim(worker: nat, ids: seq<nat>, limit: int, now: int)
    | CommitClaim(worker: nat, told: bool)  // told: the worker sees it succeed
    | Rollback(worker: nat)
    | ReadEndpoint(owner: nat, endpoint: Endpoint)
    | Post(owner: nat, code: Option<int>, error: string)  // error: what a failure is reported as
    | Settle(owner: nat, now: int, roll: Option<nat>)
    | CommitBurial(owner: nat)
    | Lose(owner: nat)                      // the write fails, or the process stops

  /** A write whose answer is late or lost needs no step of its own: the
      goroutine does nothing after it, so it is a Settle that comes later. */

  predicate Live(w: World, i: int) { 0 <= i < |w.owners| && !w.owners[i].stage.Gone? }

  predicate LockedByClaim(w: World, id: nat) { exists p :: p in w.claims && id in IdsOf(w.claims[p]) }

  predicate LockedByBurial(w: World, i: nat, id: nat) {
    exists j :: 0 <= j < |w.owners| && j != i && w.owners[j].event.id == id && w.owners[j].stage.Burying?
  }

  /** What FOR UPDATE SKIP LOCKED may return for one row. */
  predicate Claimable(w: World, id: nat, now: int) {
    && id in w.db.jobs && w.db.jobs[id].status.Pending? && w.db.jobs[id].nextRetry <= now
    && !LockedByClaim(w, id) && !LockedByBurial(w, |w.owners|, id)
  }

  predicate Distinct<T(==)>(s: seq<T>) { forall i, j :: 0 <= i < j < |s| ==> s[i] != s[j] }

  predicate ClaimEnabled(w: World, worker: nat, ids: seq<nat>, limit: int, now: int) {
    worker !in w.claims && |ids| <= limit && Distinct(ids) && forall id :: id in ids ==> Claimable(w, id, now)
  }

  function EventsOf(jobs: map<nat, Job>, ids: seq<nat>): (events: seq<Event>)
    requires forall id :: id in ids ==> id in jobs
    ensures |events| == |ids|
    ensures forall i :: 0 <= i < |ids| ==> events[i] == EventOf(ids[i], jobs[ids[i]])
  {
    seq(|ids|, i requires 0 <= i < |ids| => EventOf(ids[i], jobs[ids[i]]))
  }

  function Spawned(events: seq<Event>): (owners: seq<Owner>)
    ensures |owners| == |events|
    ensures forall i :: 0 <= i < |events| ==> owners[i] == Owner(events[i], Fetching)
  {
    seq(|events|, i requires 0 <= i < |events| => Owner(events[i], Fetching))
  }

  function At(w: World, i: nat, stage: Stage): World
    requires i < |w.owners|
  {
    w.(owners := w.owners[i := w.owners[i].(stage := stage)])
  }

  /** Whether the write goes through unguarded, as in the code, or guarded. */
  function Land(guarded: bool, db: Db, e: Event, w: Write): Db {
    if guarded then GuardedApplied(db, e, w) else Applied(db, e, w)
  }

  function SettleStep(s: Settings, guarded: bool, w: World, i: nat, now: int, roll: Option<nat>): World
    requires i < |w.owners| && w.owners[i].stage.Answered?
  {
    var e := w.owners[i].event;
    var write := Decide(s, e, w.owners[i].stage.outcome, now, roll);
    if LockedByClaim(w, e.id) || LockedByBurial(w, i, e.id) then w
    else if write.Bury? then At(w, i, Burying(write))
    else At(w, i, Gone).(db := Land(guarded, w.db, e, write))
  }

  function OwnerStep(s: Settings, guarded: bool, w: World, act: Action, i: nat): World
    requires i < |w.owners|
  {
    var o := w.owners[i];
    match act
    case ReadEndpoint(_, endpoint) =>
      if !o.stage.Fetching? then w
      else At(w, i, match endpoint
                    case Url => Sending
                    case Missing => Answered(NoEndpoint)
                    case Broken(error) => Answered(Refused(error)))
    case Post(_, code, error) =>
      if !o.stage.Sending? then w
      else At(w, i, Answered(if Success(code) then Accepted else Refused(error))).(
             sends := w.sends + [Send(o.event.id, code)])
    case Settle(_, now, roll) => if o.stage.Answered? then SettleStep(s, guarded, w, i, now, roll) else w
    case CommitBurial(_) =>
      if o.stage.Burying? then At(w, i, Gone).(db := Land(guarded, w.db, o.event, o.stage.write)) else w
    case Lose(_) => if o.stage.Gone? then w else At(w, i, Gone)
    case _ => w
  }

  function Next(s: Settings, guarded: bool, w: World, act: Action): World {
    match act
    case Enqueue(id, tenant, kind, payload, now) =>
      if id in w.db.jobs then w
      else w.(db := w.db.(jobs := w.db.jobs[id := Job(tenant, kind, payload, Pending, 0, now, "")]))
    case Claim(worker, ids, limit, now) =>
      if ClaimEnabled(w, worker, ids, limit, now)
      then w.(claims := w.claims[worker := EventsOf(w.db.jobs, ids)]) else w
    case CommitClaim(worker, told) =>
      if worker !in w.claims then w
      else
        w.(db := w.db.(jobs := Claimed(w.db.jobs, IdsOf(w.claims[worker]))),
           claims := w.claims - {worker},
           owners := if told then w.owners + Spawned(w.claims[worker]) else w.owners)
    case Rollback(worker) => w.(claims := w.claims - {worker})
    case _ => if act.owner < |w.owners| then OwnerStep(s, guarded, w, act, act.owner) else w
  }

  const START := World(Db(map[], []), map[], [], [])

  function RunWith(s: Settings, guarded: bool, acts: seq<Action>): World {
    if acts == [] then START
    else Next(s, guarded, RunWith(s, guarded, acts[..|acts| - 1]), acts[|acts| - 1])
  }

  /** The code's own runs. */
  function Run(s: Settings, acts: seq<Action>): World { RunWith(s, false, acts) }

  lemma RunSnoc(s: Settings, acts: seq<Action>, act: Action)
    ensures Run(s, acts + [act]) == Next(s, false, Run(s, acts), act)
  {
    assert (acts + [act])[..|acts|] == acts;
  }

  // ---------------------------------------------------------------- counting

  /** Requests made for a job. */
  function Sends(h: seq<Send>, id: nat): nat {
    if h == [] then 0 else Sends(h[..|h| - 1], id) + if h[|h| - 1].id == id then 1 else 0
  }

  /** Requests answered with a 2xx status. */
  function Accepts(h: seq<Send>, id: nat): nat {
    if h == [] then 0
    else Accepts(h[..|h| - 1], id) + if h[|h| - 1].id == id && Success(h[|h| - 1].code) then 1 else 0
  }
}
