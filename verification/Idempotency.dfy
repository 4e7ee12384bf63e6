// Idempotency keys as a lease with a fencing token
// (internal/middleware/idempotency). The single statements, and the machine
// that interleaves any number of requests on any number of servers.
module Idempotency {
  import opened Options

  datatype Key = Key(tenant: nat, name: string)

  datatype Response = Response(code: int, body: string)

  datatype Answer = Processing | Completed(response: Response)

  /** A row of idempotency_keys. Times are stored in microseconds. claim is a
      history variable: which claim of the run wrote created_at. */
  datatype Row = Row(hash: string, answer: Answer, createdAt: int, expiresAt: int, claim: nat)

  /** The processing lease and the retention, in nanoseconds. */
  datatype Settings = Settings(lease: int, retention: int)

  const DEFAULT_TTL: nat := 24 * 3600 * 1_000_000_000

  /** Middleware: a retention that is not positive means the default. */
  function EffectiveRetention(retention: int): (r: nat)
    ensures r > 0 && (retention > 0 ==> r == retention)
    ensures retention <= 0 ==> r == 86_400_000_000_000
  {
    if retention <= 0 then DEFAULT_TTL else retention
  }

  /** A nanosecond time as a timestamptz keeps it. */
  function Micro(t: int): int { t / 1000 }

  /** The last microsecond not after t. */
  lemma MicroIs(t: int)
    ensures 1000 * Micro(t) <= t < 1000 * Micro(t) + 1000
  {}

  lemma MicroMonotone(s: int, t: int)
    requires s <= t
    ensures Micro(s) <= Micro(t)
  {}

  // ------------------------------------------------------------- statements

  /** INSERT … ON CONFLICT DO UPDATE … WHERE expires_at < now: whether the claim
      gets the row. */
  predicate Claimable(rows: map<Key, Row>, k: Key, now: int) {
    k !in rows || rows[k].expiresAt < Micro(now)
  }

  function ClaimedRow(hash: string, now: int, lease: int, claim: nat): Row {
    Row(hash, Processing, Micro(now), Micro(now + lease), claim)
  }

  /** A Complete statement on its way to the database. */
  datatype Completion = Completion(key: Key, token: int, response: Response, expiresAt: int, claim: nat)

  /** WHERE … created_at = token matches the row. */
  predicate Fenced(rows: map<Key, Row>, c: Completion) {
    c.key in rows && rows[c.key].createdAt == c.token
  }

  function Complete(rows: map<Key, Row>, c: Completion): map<Key, Row> {
    if Fenced(rows, c)
    then rows[c.key := rows[c.key].(answer := Completed(c.response), expiresAt := c.expiresAt)]
    else rows
  }

  datatype Reply =
    | Executed(response: Response)  // the handler's own response
    | Replayed(response: Response, claim: nat)  // claim: history, the row's
    | KeyReused
    | InFlight
    | NoRecord

  /** middleware.go handleExisting */
  function HandleExisting(row: Row, hash: string): (reply: Reply)
    ensures reply == KeyReused <==> row.hash != hash
    ensures reply == InFlight <==> row.hash == hash && row.answer == Processing
    ensures reply.Replayed? <==> row.hash == hash && row.answer.Completed?
    ensures reply.Replayed? ==> row.answer == Completed(reply.response) && reply.claim == row.claim
  {
    if row.hash != hash then KeyReused
    else match row.answer
      case Processing => InFlight
      case Completed(response) => Replayed(response, row.claim)
  }

  // ----------------------------------------------------------- the machine

  const ATTEMPTS := 3

  datatype Proc =
    | Arrived(server: nat, key: Key, hash: string)
    | Claiming(server: nat, key: Key, hash: string, now: int)  // the clock has been read
    | Reading(key: Key, hash: string)                          // the claim matched no row
    | Running(server: nat, key: Key, hash: string, token: int, claim: nat)
    | Completing(server: nat, key: Key, hash: string, token: int, claim: nat, response: Response, attempt: nat)
    | Done(key: Key, hash: string, reply: Reply)
    | Crashed

  /** In Running, Completing and Completion, token is the created_at the claim
      returned, and claim is the history variable of Row. */

  /** History: the claims won and the handler runs. */
  datatype Claim = Claim(key: Key, hash: string, token: int)
  datatype Exec = Exec(claim: nat, response: Option<Response>, committed: bool)

  datatype World = World(
    clocks: map<nat, int>,
    rows: map<Key, Row>,
    procs: map<nat, Proc>,
    limbo: seq<Completion>,   // sent, reported as failed, may still be applied
    claims: seq<Claim>,
    execs: seq<Exec>)

  /** What becomes of one Complete attempt. */
  datatype Fate = Acknowledged | AppliedButFailed | Lost | Delayed

  datatype Action =
    | Tick(server: nat, now: int)           // a server's clock is set, forward or back
    | Arrive(pid: nat, server: nat, key: Key, hash: string)
    | ReadClock(pid: nat)
    | TryClaim(pid: nat)
    | ReadRow(pid: nat)
    | Handle(pid: nat, response: Response, committed: bool)
    | Die(pid: nat, committed: bool)        // the handler panics or its server stops
    | Attempt(pid: nat, fate: Fate)
    | Flush(i: nat)                         // a delayed statement reaches the database
    | Crash(pid: nat)

  function Clock(w: World, server: nat): int { if server in w.clocks then w.clocks[server] else 0 }

  function Move(w: World, pid: nat, p: Proc): World { w.(procs := w.procs[pid := p]) }

  function ClaimStep(s: Settings, w: World, pid: nat, p: Proc): World
    requires p.Claiming?
  {
    if Claimable(w.rows, p.key, p.now) then
      var n := |w.claims|;
      Move(w, pid, Running(p.server, p.key, p.hash, Micro(p.now), n)).(
        rows := w.rows[p.key := ClaimedRow(p.hash, p.now, s.lease, n)],
        claims := w.claims + [Claim(p.key, p.hash, Micro(p.now))])
    else Move(w, pid, Reading(p.key, p.hash))
  }

  function ReadStep(w: World, pid: nat, p: Proc): World
    requires p.Reading?
  {
    if p.key !in w.rows then Move(w, pid, Done(p.key, p.hash, NoRecord))
    else Move(w, pid, Done(p.key, p.hash, HandleExisting(w.rows[p.key], p.hash)))
  }

  function Statement(s: Settings, w: World, p: Proc): Completion
    requires p.Completing?
  {
    Completion(p.key, p.token, p.response,
               Micro(Clock(w, p.server) + EffectiveRetention(s.retention)), p.claim)
  }

  /** One round of completeWithRetry: success and a lost claim end the loop, an
      error goes round again, at most ATTEMPTS times. */
  function AttemptStep(s: Settings, w: World, pid: nat, p: Proc, fate: Fate): World
    requires p.Completing?
  {
    var c := Statement(s, w, p);
    var again := if p.attempt < ATTEMPTS then p.(attempt := p.attempt + 1) else Done(p.key, p.hash, Executed(p.response));
    match fate
    case Acknowledged => Move(w, pid, Done(p.key, p.hash, Executed(p.response))).(rows := Complete(w.rows, c))
    case AppliedButFailed => Move(w, pid, again).(rows := Complete(w.rows, c))
    case Lost => Move(w, pid, again)
    case Delayed => Move(w, pid, again).(limbo := w.limbo + [c])
  }

  function ProcStep(s: Settings, w: World, act: Action, p: Proc): World
    requires act.ReadClock? || act.TryClaim? || act.ReadRow? || act.Handle? || act.Die? || act.Attempt? || act.Crash?
  {
    match act
    case ReadClock(pid) =>
      if p.Arrived? then Move(w, pid, Claiming(p.server, p.key, p.hash, Clock(w, p.server))) else w
    case TryClaim(pid) => if p.Claiming? then ClaimStep(s, w, pid, p) else w
    case ReadRow(pid) => if p.Reading? then ReadStep(w, pid, p) else w
    case Handle(pid, response, committed) =>
      if p.Running? then
        Move(w, pid, Completing(p.server, p.key, p.hash, p.token, p.claim, response, 1)).(
          execs := w.execs + [Exec(p.claim, Some(response), committed)])
      else w
    case Die(pid, committed) =>
      if p.Running? then Move(w, pid, Crashed).(execs := w.execs + [Exec(p.claim, None, committed)]) else w
    case Attempt(pid, fate) =>
      if p.Completing? then AttemptStep(s, w, pid, p, fate) else w
    case Crash(pid) => if p.Done? then w else Move(w, pid, Crashed)
  }

  function Next(s: Settings, w: World, act: Action): World {
    match act
    case Tick(server, now) => w.(clocks := w.clocks[server := now])
    case Arrive(pid, server, key, hash) => if pid in w.procs then w else Move(w, pid, Arrived(server, key, hash))
    case Flush(i) =>
      if i < |w.limbo| then
        w.(rows := Complete(w.rows, w.limbo[i]), limbo := w.limbo[..i] + w.limbo[i + 1..])
      else w
    case _ => if act.pid in w.procs then ProcStep(s, w, act, w.procs[act.pid]) else w
  }

  const START := World(map[], map[], map[], [], [], [])

  function Run(s: Settings, acts: seq<Action>): World {
    if acts == [] then START else Next(s, Run(s, acts[..|acts| - 1]), acts[|acts| - 1])
  }

  lemma RunSnoc(s: Settings, acts: seq<Action>, act: Action)
    ensures Run(s, acts + [act]) == Next(s, Run(s, acts), act)
  {
    assert (acts + [act])[..|acts|] == acts;
  }
}
