// The idempotency repository and middleware as they are written: a table whose
// rows are updated in place, the retry loop, and the response recorder.
module IdempotencyStore {
  import opened Options
  import opened Idempotency

  /** What one call of Store.Complete comes to, at server time now. */
  datatype Try = Try(now: int, fate: Fate)

  function TryStatement(k: Key, token: int, response: Response, retention: int, claim: nat, t: Try): Completion {
    Completion(k, token, response, Micro(t.now + EffectiveRetention(retention)), claim)
  }

  predicate Applied(t: Try) { t.fate.Acknowledged? || t.fate.AppliedButFailed? }

  /** The rows after the given tries: each applied one overwrites the row if,
      and only if, it still carries the token. */
  function Landed(rows: map<Key, Row>, k: Key, token: int, response: Response, retention: int, claim: nat, tries: seq<Try>): map<Key, Row> {
    if tries == [] then rows
    else
      var t := tries[|tries| - 1];
      var before := Landed(rows, k, token, response, retention, claim, tries[..|tries| - 1]);
      if Applied(t) then Complete(before, TryStatement(k, token, response, retention, claim, t)) else before
  }

  predicate LastApplied(tries: seq<Try>, i: nat) {
    i < |tries| && Applied(tries[i]) && forall j :: i < j < |tries| ==> !Applied(tries[j])
  }

  /** However the tries went, every other row is untouched, a row taken over by
      another claim is untouched, and the claim's own row holds the handler's
      response, and its retention from the last try applied, as soon as one was. */
  lemma {:induction false} LandedMeaning(rows: map<Key, Row>, k: Key, token: int, response: Response, retention: int, claim: nat, tries: seq<Try>)
    ensures var after := Landed(rows, k, token, response, retention, claim, tries);
      && after.Keys == rows.Keys
      && (forall j :: j in rows && (j != k || rows[j].createdAt != token) ==> after[j] == rows[j])
      && (k in rows && rows[k].createdAt == token ==>
            && after[k].hash == rows[k].hash && after[k].createdAt == token
            && after[k].claim == rows[k].claim
            && (if exists t :: t in tries && (t.fate == Acknowledged || t.fate == AppliedButFailed) then after[k].answer == Completed(response) else after[k] == rows[k])
            && forall i :: 0 <= i < |tries| && LastApplied(tries, i) ==>
                 after[k].expiresAt == Micro(tries[i].now + EffectiveRetention(retention)))
  {
    if tries != [] {
      var init, t := tries[..|tries| - 1], tries[|tries| - 1];
      assert tries == init + [t];
      assert forall i: nat :: i < |init| && LastApplied(tries, i) ==> LastApplied(init, i) && !Applied(t);
      LandedMeaning(rows, k, token, response, retention, claim, init);
    }
  }

  /** How many of the tries completeWithRetry makes: it stops at the first that
      is answered. */
  predicate Stops(tries: seq<Try>, made: nat) {
    && 1 <= made <= |tries| && (forall i :: 0 <= i < made - 1 ==> !tries[i].fate.Acknowledged?)
    && (made < |tries| ==> tries[made - 1].fate.Acknowledged?)
  }

  class Store {
    var rows: map<Key, Row>

    constructor ()
      ensures rows == map[]
    {
      rows := map[];
    }

    /** repository.go ClaimOrGet, run without interference: claimed exactly when
        no unexpired row exists; otherwise the existing row. */
    method ClaimOrGet(k: Key, hash: string, now: int, lease: int, claim: nat) returns (row: Row, claimed: bool)
      modifies this
      ensures claimed <==> k !in old(rows) || old(rows)[k].expiresAt < Micro(now)
      ensures claimed ==> row == Row(hash, Processing, Micro(now), Micro(now + lease), claim) && rows == old(rows)[k := row]
      ensures !claimed ==> rows == old(rows) && k in rows && row == rows[k]
    {
      var createdAt, expiresAt := Micro(now), Micro(now + lease);
      if k !in rows {
        rows := rows[k := Row(hash, Processing, createdAt, expiresAt, claim)];
        return rows[k], true;
      }
      if rows[k].expiresAt < createdAt {
        rows := rows[k := rows[k].(hash := hash, answer := Processing, createdAt := createdAt, expiresAt := expiresAt, claim := claim)];
        return rows[k], true;
      }
      return rows[k], false;
    }

    /** repository.go Complete: the number of rows that matched the fence. */
    method CompleteRow(c: Completion) returns (affected: nat)
      modifies this
      ensures rows == Complete(old(rows), c)
      ensures affected == if c.key in old(rows) && old(rows)[c.key].createdAt == c.token then 1 else 0
      ensures affected == 0 ==> rows == old(rows)
      ensures affected == 1 ==> rows == old(rows)[c.key := old(rows)[c.key].(answer := Completed(c.response), expiresAt := c.expiresAt)]
    {
      if c.key !in rows || rows[c.key].createdAt != c.token {
        return 0;
      }
      rows := rows[c.key := rows[c.key].(answer := Completed(c.response), expiresAt := c.expiresAt)];
      affected := 1;
    }

    /** middleware.go completeWithRetry: at most three tries; it stops at the
        first that is answered, with a row or with "superseded". tries says how
        each would come out; one that is delayed has not landed yet. */
    method CompleteWithRetry(k: Key, token: int, response: Response, retention: int, claim: nat, tries: seq<Try>)
      returns (made: nat)
      requires |tries| == ATTEMPTS
      modifies this
      ensures Stops(tries, made) && 1 <= made <= 3
      ensures rows == Landed(old(rows), k, token, response, retention, claim, tries[..made])
    {
      made := 0;
      while made < ATTEMPTS
        invariant made <= ATTEMPTS
        invariant rows == Landed(old(rows), k, token, response, retention, claim, tries[..made])
        invariant forall i :: 0 <= i < made ==> !tries[i].fate.Acknowledged?
      {
        var t := tries[made];
        assert tries[..made + 1][..made] == tries[..made];
        if t.fate.Acknowledged? || t.fate.AppliedButFailed? {
          var _ := CompleteRow(TryStatement(k, token, response, retention, claim, t));
        }
        made := made + 1;
        if t.fate.Acknowledged? {
          return;
        }
      }
    }

    /** middleware.go Middleware, one request run without interference; response
        is what the handler answers if it is run. */
    method Serve(k: Key, hash: string, now: int, s: Settings, claim: nat, response: Response, tries: seq<Try>)
      returns (reply: Reply, ran: bool, ghost made: nat)
      requires |tries| == ATTEMPTS
      modifies this
      ensures ran <==> k !in old(rows) || old(rows)[k].expiresAt < Micro(now)
      ensures ran ==> reply == Executed(response) && Stops(tries, made)
      ensures ran ==>
        rows == Landed(old(rows)[k := ClaimedRow(hash, now, s.lease, claim)], k, Micro(now), response, s.retention, claim, tries[..made])
      ensures !ran ==> rows == old(rows)
      ensures !ran ==> (reply == KeyReused <==> rows[k].hash != hash)
      ensures !ran ==> (reply == InFlight <==> rows[k].hash == hash && rows[k].answer == Processing)
      ensures !ran && rows[k].hash == hash && rows[k].answer.Completed? ==>
        reply.Replayed? && rows[k].answer == Completed(reply.response)
    {
      var row: Row;
      row, ran := ClaimOrGet(k, hash, now, s.lease, claim);
      if !ran {
        return HandleExisting(row, hash), false, 0;
      }
      made := CompleteWithRetry(k, row.createdAt, response, s.retention, claim, tries);
      reply := Executed(response);
    }
  }

  /** The promise to clients: a retry with the same key and request, before the
      row has expired, runs nothing; it gets the first answer back as soon as any
      of the Completes made has been applied, and is told to wait otherwise. */
  method RetryIsReplayed(store: Store, k: Key, hash: string, now: int, later: int, s: Settings, response: Response, other: Response, tries: seq<Try>, made: nat)
    returns (reply: Reply, ran: bool)
    requires |tries| == ATTEMPTS && Stops(tries, made)
    requires Claimable(store.rows, k, now)
    requires var claimed := store.rows[k := ClaimedRow(hash, now, s.lease, 0)];
      var landed := Landed(claimed, k, Micro(now), response, s.retention, 0, tries[..made]);
      k in landed && Micro(later) <= landed[k].expiresAt
    modifies store
    ensures !ran
    ensures (exists t :: t in tries[..made] && Applied(t)) ==> reply.Replayed? && reply.response == response
    ensures !(exists t :: t in tries[..made] && Applied(t)) ==> reply.InFlight?
  {
    ghost var claimed := store.rows[k := ClaimedRow(hash, now, s.lease, 0)];
    var _, _, n := store.Serve(k, hash, now, s, 0, response, tries);
    assert n == made;
    LandedMeaning(claimed, k, Micro(now), response, s.retention, 0, tries[..made]);
    reply, ran, n := store.Serve(k, hash, later, s, 1, other, tries);
  }

  // -------------------------------------------------------- the recorder

  /** What a handler does with its http.ResponseWriter. */
  datatype Call = WriteHeader(code: int) | Write(bytes: string)

  /** The status the client is sent: the first call decides it. */
  function SentCode(calls: seq<Call>): int {
    if calls == [] then 200 else match calls[0] case WriteHeader(code) => code case Write(_) => 200
  }

  /** The status the recorder ends with: the last WriteHeader decides it. */
  function RecordedCode(calls: seq<Call>): int {
    if calls == [] then 200
    else match calls[|calls| - 1]
      case WriteHeader(code) => code
      case Write(_) => RecordedCode(calls[..|calls| - 1])
  }

  function Body(calls: seq<Call>): string {
    if calls == [] then ""
    else Body(calls[..|calls| - 1]) + if calls[|calls| - 1].Write? then calls[|calls| - 1].bytes else ""
  }

  class ResponseRecorder {
    var statusCode: int
    var body: string
    var wroteHead: bool
    ghost var calls: seq<Call>

    ghost predicate Valid()
      reads this
    {
      && statusCode == RecordedCode(calls) && body == Body(calls)
      && (wroteHead <==> exists c :: c in calls && c.WriteHeader?)
    }

    constructor ()
      ensures Valid() && calls == [] && statusCode == 200 && body == ""
    {
      statusCode, body, wroteHead, calls := 200, "", false, [];
    }

    method DoWriteHeader(code: int)
      requires Valid()
      modifies this
      ensures Valid() && calls == old(calls) + [Call.WriteHeader(code)]
      ensures statusCode == code && body == old(body)
    {
      statusCode := code;
      wroteHead := true;
      calls := calls + [Call.WriteHeader(code)];
      assert calls[..|calls| - 1] == old(calls);
    }

    method DoWrite(bytes: string)
      requires Valid()
      modifies this
      ensures Valid() && calls == old(calls) + [Call.Write(bytes)]
      ensures statusCode == old(statusCode) && body == old(body) + bytes
    {
      if !wroteHead {
        NoHeader(calls);
        statusCode := 200;
      }
      body := body + bytes;
      calls := calls + [Call.Write(bytes)];
      assert calls[..|calls| - 1] == old(calls);
    }
  }

  /** The client's status is fixed by the first call: a WriteHeader sends its
      code, a Write, or nothing at all, 200. */
  lemma SentOnce(first: Call, more: seq<Call>)
    ensures SentCode([]) == 200
    ensures first.Write? ==> SentCode([first] + more) == 200
    ensures first.WriteHeader? ==> SentCode([first] + more) == first.code
  {}

  lemma {:induction false} NoHeader(calls: seq<Call>)
    requires forall c :: c in calls ==> c.Write?
    ensures RecordedCode(calls) == 200 && SentCode(calls) == 200
  {
    if calls != [] {
      assert calls[|calls| - 1] in calls;
      NoHeader(calls[..|calls| - 1]);
    }
  }

  /** Call i is the last that sets a status. */
  predicate LastHeader(calls: seq<Call>, i: nat) {
    i < |calls| && calls[i].WriteHeader? && forall j :: i < j < |calls| ==> calls[j].Write?
  }

  /** A response is replayed with the status its first client saw if and only if
      the last status the handler set, if it set any, is that one. */
  lemma {:induction false} ReplayedStatusIsTheSentOne(calls: seq<Call>)
    ensures RecordedCode(calls) == SentCode(calls) <==>
      forall i: nat :: LastHeader(calls, i) ==> calls[i].code == SentCode(calls)
  {
    if i: nat :| LastHeader(calls, i) {
      RecordedIsLast(calls, i);
      assert forall j: nat :: LastHeader(calls, j) ==> j == i;
    } else {
      HeaderOrNone(calls);
      NoHeader(calls);
    }
  }

  lemma {:induction false} RecordedIsLast(calls: seq<Call>, i: nat)
    requires LastHeader(calls, i)
    ensures RecordedCode(calls) == calls[i].code
  {
    if i < |calls| - 1 {
      RecordedIsLast(calls[..|calls| - 1], i);
    }
  }

  lemma {:induction false} HeaderOrNone(calls: seq<Call>)
    requires forall i: nat :: !LastHeader(calls, i)
    ensures forall c :: c in calls ==> c.Write?
  {
    if calls != [] {
      var n := |calls| - 1;
      assert !LastHeader(calls, n);
      forall i: nat ensures !LastHeader(calls[..n], i) {
        assert !LastHeader(calls, i);
      }
      HeaderOrNone(calls[..n]);
      assert calls == calls[..n] + [calls[n]];
    }
  }

  /** A failure noticed after the first byte is replayed as one; the first client
      saw a success. */
  lemma LateStatusIsReplayedWrong()
    ensures var calls := [Call.Write("x"), Call.WriteHeader(500)];
      SentCode(calls) == 200 && RecordedCode(calls) == 500
  {}
}
