/** What the coordinator does with the records of dead workers, and what that conserves. */
module Reclaim {
  import opened Types
  import opened Books
  import R = Redis
  import P = Postgres

  // ---- One envelope ----

  predicate LastAttempt(e: Envelope) { e.attempts + 1 >= e.maxAttempts }

  function Retried(e: Envelope, now: int): Envelope { R.Stamped(R.Bump(e), now) }

  function Tombstone(e: Envelope, now: int): R.DeadLetter { R.DeadLetter(R.Bump(e), WORKER_DIED, now) }

  /** The reclaimed envelope, with the attempt counted, is ready again or dead-lettered. */
  predicate Returned(d: R.Data, e: Envelope, now: int) {
    if LastAttempt(e) then Tombstone(e, now) in d.dlq else Retried(e, now) in d.ready
  }

  function HandOn(d: R.Data, e: Envelope, now: int): R.Data {
    if LastAttempt(e) then R.PushDead(d, R.Bump(e), WORKER_DIED, now) else R.Enqueue(d, R.Bump(e), now)
  }

  function RecordOn(t: P.Tables, e: Envelope, now: int): P.Tables {
    if LastAttempt(e) then P.MarkDead(t, e.id, WORKER_DIED_MID_TASK, now) else t
  }

  /** What becomes of a reclaimed envelope that has a row and a stamp. */
  lemma HandedOn(d: R.Data, t: P.Tables, e: Envelope, now: int)
    requires e.id in t.rows && t.rows[e.id].payload == e.payload && e.enqueuedAt != 0
    ensures var env := e.(attempts := e.attempts + 1); var row := t.rows[e.id];
      if env.attempts >= env.maxAttempts then
        && HandOn(d, e, now) == d.(dlq := d.dlq + [R.DeadLetter(env, "worker died", now)])
        && RecordOn(t, e, now)
           == t.(rows := t.rows[e.id := row.(status := Dead, lastError := "worker died mid-task")],
                 deadLetters := t.deadLetters + [P.DeadRow(e.id, "worker died mid-task", e.payload, now)])
      else HandOn(d, e, now) == d.(ready := d.ready[env := R.ScoreOf(env)]) && RecordOn(t, e, now) == t
  {}

  // ---- The records of one worker, in the order of the loop ----

  function Handed(d: R.Data, envs: seq<Envelope>, now: int): R.Data {
    if envs == [] then d else HandOn(Handed(d, envs[..|envs| - 1], now), envs[|envs| - 1], now)
  }

  function Inscribed(t: P.Tables, envs: seq<Envelope>, now: int): P.Tables {
    if envs == [] then t else RecordOn(Inscribed(t, envs[..|envs| - 1], now), envs[|envs| - 1], now)
  }

  function Elements(envs: seq<Envelope>): set<Envelope> { set e | e in envs }

  predicate DistinctIds(envs: seq<Envelope>) {
    forall i, j | 0 <= i < j < |envs| :: envs[i].id != envs[j].id
  }

  /** The records of w, each once. */
  predicate Lists(envs: seq<Envelope>, d: R.Data, w: WorkerId) {
    Elements(envs) == R.Hash(d, w) && DistinctIds(envs)
  }

  // ---- One sweep: the workers that it closes, in the order of the loop ----

  datatype Round = Round(worker: WorkerId, envs: seq<Envelope>)

  function SweptData(d: R.Data, rounds: seq<Round>, now: int): R.Data {
    if rounds == [] then d
    else
      var last := rounds[|rounds| - 1];
      Handed(R.DropHash(SweptData(d, rounds[..|rounds| - 1], now), last.worker), last.envs, now)
  }

  function CloseUp(t: P.Tables, w: WorkerId, now: int): P.Tables {
    P.MarkWorkerDead(P.RequeueOrphans(t, w, now), w)
  }

  function SweptTables(t: P.Tables, rounds: seq<Round>, now: int): P.Tables {
    if rounds == [] then t
    else
      var last := rounds[|rounds| - 1];
      CloseUp(Inscribed(SweptTables(t, rounds[..|rounds| - 1], now), last.envs, now), last.worker, now)
  }

  /** Every round is another worker's, with all of its records. */
  predicate Covers(rounds: seq<Round>, d: R.Data, closed: set<WorkerId>) {
    && Workers(rounds) == closed
    && (forall i, j | 0 <= i < j < |rounds| :: rounds[i].worker != rounds[j].worker)
    && (forall x | x in rounds :: Lists(x.envs, d, x.worker))
  }

  /** All the records that a sweep hands on, in order. */
  function Records(rounds: seq<Round>): seq<Envelope> {
    if rounds == [] then [] else Records(rounds[..|rounds| - 1]) + rounds[|rounds| - 1].envs
  }

  // ---- What is in Redis afterwards, exactly ----

  /** The dead letters of those whose last attempt this was, one each and in order. */
  function DeadLetters(envs: seq<Envelope>, now: int): seq<R.DeadLetter> {
    if envs == [] then []
    else
      var e := envs[|envs| - 1];
      DeadLetters(envs[..|envs| - 1], now) + if LastAttempt(e) then [Tombstone(e, now)] else []
  }

  function Retries(envs: seq<Envelope>, now: int): set<Envelope> {
    set e | e in envs && !LastAttempt(e) :: Retried(e, now)
  }

  lemma RetriesOneMore(envs: seq<Envelope>, e: Envelope, now: int)
    ensures Retries(envs + [e], now) == Retries(envs, now) + if LastAttempt(e) then {} else {Retried(e, now)}
  {
    assert forall x :: x in envs + [e] <==> x in envs || x == e;
  }

  lemma ScoresOneMore(ready: map<Envelope, int>, ms: set<Envelope>, m: Envelope)
    ensures (ready + R.ScoresOf(ms))[m := R.ScoreOf(m)] == ready + R.ScoresOf(ms + {m})
  {}

  lemma ScoresUnion(ready: map<Envelope, int>, a: set<Envelope>, b: set<Envelope>)
    ensures ready + R.ScoresOf(a) + R.ScoresOf(b) == ready + R.ScoresOf(a + b)
    ensures ready + R.ScoresOf({}) == ready
  {}

  /** d with these envelopes handed on. */
  function After(d: R.Data, envs: seq<Envelope>, now: int): R.Data {
    d.(ready := d.ready + R.ScoresOf(Retries(envs, now)), dlq := d.dlq + DeadLetters(envs, now))
  }

  lemma DeadLettersOneMore(envs: seq<Envelope>, e: Envelope, now: int)
    ensures DeadLetters(envs + [e], now) == DeadLetters(envs, now) + if LastAttempt(e) then [Tombstone(e, now)] else []
  {
    assert (envs + [e])[..|envs|] == envs;
  }

  lemma HandOnLast(d: R.Data, envs: seq<Envelope>, e: Envelope, now: int)
    requires LastAttempt(e)
    ensures HandOn(After(d, envs, now), e, now) == After(d, envs + [e], now)
  {
    DeadLettersOneMore(envs, e, now);
    RetriesOneMore(envs, e, now);
    assert Retries(envs, now) + {} == Retries(envs, now);
    assert d.dlq + DeadLetters(envs, now) + [Tombstone(e, now)] == d.dlq + (DeadLetters(envs, now) + [Tombstone(e, now)]);
  }

  lemma HandOnRetry(d: R.Data, envs: seq<Envelope>, e: Envelope, now: int)
    requires !LastAttempt(e)
    ensures HandOn(After(d, envs, now), e, now) == After(d, envs + [e], now)
  {
    DeadLettersOneMore(envs, e, now);
    RetriesOneMore(envs, e, now);
    ScoresOneMore(d.ready, Retries(envs, now), Retried(e, now));
    assert DeadLetters(envs, now) + [] == DeadLetters(envs, now);
  }

  lemma {:induction false} HandedExactly(d: R.Data, envs: seq<Envelope>, now: int)
    ensures Handed(d, envs, now) == After(d, envs, now)
    decreases |envs|
  {
    if envs == [] {
      ScoresUnion(d.ready, {}, {});
    } else {
      var k := |envs| - 1;
      HandedExactly(d, envs[..k], now);
      if LastAttempt(envs[k]) {
        HandOnLast(d, envs[..k], envs[k], now);
      } else {
        HandOnRetry(d, envs[..k], envs[k], now);
      }
      assert envs == envs[..k] + [envs[k]];
    }
  }

  lemma {:induction false} DeadLettersAppend(a: seq<Envelope>, b: seq<Envelope>, now: int)
    ensures DeadLetters(a + b, now) == DeadLetters(a, now) + DeadLetters(b, now)
    decreases |b|
  {
    if b == [] {
      assert a + b == a;
    } else {
      var k := |b| - 1;
      DeadLettersAppend(a, b[..k], now);
      assert (a + b)[..|a + b| - 1] == a + b[..k];
    }
  }

  lemma RetriesAppend(a: seq<Envelope>, b: seq<Envelope>, now: int)
    ensures Retries(a + b, now) == Retries(a, now) + Retries(b, now)
  {
    assert forall x :: x in a + b <==> x in a || x in b;
  }

  function Without(d: R.Data, closed: set<WorkerId>): map<(WorkerId, TaskId), Envelope> {
    map k | k in d.inflight && k.0 !in closed :: d.inflight[k]
  }

  /** After a sweep the hashes of the closed workers are gone and the others are as they were; each of
      their records is ready again under its own score or has one dead letter; nothing else changes. */
  lemma {:induction false} SweptExactly(d: R.Data, rounds: seq<Round>, now: int)
    ensures SweptData(d, rounds, now) == After(d, Records(rounds), now).(inflight := Without(d, Workers(rounds)))
    decreases |rounds|
  {
    if rounds == [] {
      ScoresUnion(d.ready, {}, {});
      assert Without(d, Workers([])) == d.inflight;
    } else {
      var k := |rounds| - 1;
      var before, last := rounds[..k], rounds[k];
      SweptExactly(d, before, now);
      OneRoundMore(d, Records(before), last.envs, Workers(before), last.worker, now);
      assert rounds == before + [last] && Workers(rounds) == Workers(before) + {last.worker};
    }
  }

  lemma OneRoundMore(d: R.Data, a: seq<Envelope>, b: seq<Envelope>, closed: set<WorkerId>, w: WorkerId, now: int)
    ensures var middle := After(d, a, now).(inflight := Without(d, closed));
            Handed(R.DropHash(middle, w), b, now) == After(d, a + b, now).(inflight := Without(d, closed + {w}))
  {
    var middle := R.DropHash(After(d, a, now).(inflight := Without(d, closed)), w);
    HandedExactly(middle, b, now);
    AfterTwice(d, a, b, now);
    assert middle.inflight == Without(d, closed + {w});
  }

  function Workers(rounds: seq<Round>): set<WorkerId> { set x | x in rounds :: x.worker }

  lemma AfterTwice(d: R.Data, a: seq<Envelope>, b: seq<Envelope>, now: int)
    ensures After(d, a + b, now).dlq == d.dlq + DeadLetters(a, now) + DeadLetters(b, now)
    ensures After(d, a + b, now).ready == d.ready + R.ScoresOf(Retries(a, now)) + R.ScoresOf(Retries(b, now))
  {
    DeadLettersAppend(a, b, now);
    RetriesAppend(a, b, now);
    ScoresUnion(d.ready, Retries(a, now), Retries(b, now));
  }

  lemma {:induction false} IsRecord(rounds: seq<Round>, d: R.Data, closed: set<WorkerId>, e: Envelope)
    requires Covers(rounds, d, closed)
    ensures e in Records(rounds) <==> exists k :: k in d.inflight && k.0 in closed && d.inflight[k] == e
  {
    InRecords(rounds, e);
    if e in Records(rounds) {
      var x :| x in rounds && e in x.envs;
      assert e in Elements(x.envs);
      var k :| k in d.inflight && k.0 == x.worker && d.inflight[k] == e;
      assert k.0 in closed;
    }
    if k :| k in d.inflight && k.0 in closed && d.inflight[k] == e {
      var x :| x in rounds && x.worker == k.0;
      assert e in R.Hash(d, k.0);
      assert e in Elements(x.envs);
    }
  }

  lemma {:induction false} InRecords(rounds: seq<Round>, e: Envelope)
    ensures e in Records(rounds) <==> exists x :: x in rounds && e in x.envs
    decreases |rounds|
  {
    if rounds != [] {
      var k := |rounds| - 1;
      InRecords(rounds[..k], e);
      assert rounds == rounds[..k] + [rounds[k]];
    }
  }

  lemma {:induction false} DeadLetterOf(envs: seq<Envelope>, e: Envelope, now: int)
    requires e in envs && LastAttempt(e)
    ensures Tombstone(e, now) in DeadLetters(envs, now)
    decreases |envs|
  {
    var k := |envs| - 1;
    if e != envs[k] {
      assert e in envs[..k];
      DeadLetterOf(envs[..k], e, now);
    }
  }

  /** Every record of a closed worker is returned. */
  lemma SweptReturns(d: R.Data, rounds: seq<Round>, closed: set<WorkerId>, now: int, k: (WorkerId, TaskId))
    requires Covers(rounds, d, closed) && k in d.inflight && k.0 in closed
    ensures Returned(SweptData(d, rounds, now), d.inflight[k], now)
    ensures var e, d' := d.inflight[k].(attempts := d.inflight[k].attempts + 1), SweptData(d, rounds, now);
            if e.attempts >= e.maxAttempts then R.DeadLetter(e, "worker died", now) in d'.dlq
            else e.(enqueuedAt := if e.enqueuedAt == 0 then now else e.enqueuedAt) in d'.ready
  {
    var e := d.inflight[k];
    SweptExactly(d, rounds, now);
    IsRecord(rounds, d, closed, e);
    if LastAttempt(e) {
      DeadLetterOf(Records(rounds), e, now);
    } else {
      assert Retried(e, now) in Retries(Records(rounds), now);
    }
  }

  // ---- What is in Postgres afterwards ----

  function DeadIds(envs: seq<Envelope>): set<TaskId> { set e | e in envs && LastAttempt(e) :: e.id }

  /** One dead_letters record for each last attempt whose task has a row. */
  function DeadRecords(envs: seq<Envelope>, rows: map<TaskId, Row>, now: int): seq<P.DeadRow> {
    if envs == [] then []
    else
      var e := envs[|envs| - 1];
      DeadRecords(envs[..|envs| - 1], rows, now)
      + if LastAttempt(e) && e.id in rows then [P.DeadRow(e.id, WORKER_DIED_MID_TASK, rows[e.id].payload, now)] else []
  }

  function Buries(rows: map<TaskId, Row>, ids: set<TaskId>): map<TaskId, Row> {
    map id | id in rows ::
      if id in ids then rows[id].(status := Dead, lastError := WORKER_DIED_MID_TASK) else rows[id]
  }

  lemma DeadIdsOneMore(envs: seq<Envelope>, e: Envelope)
    ensures DeadIds(envs + [e]) == DeadIds(envs) + if LastAttempt(e) then {e.id} else {}
  {
    assert forall x :: x in envs + [e] <==> x in envs || x == e;
  }

  lemma {:induction false} InscribedExactly(t: P.Tables, envs: seq<Envelope>, now: int)
    ensures Inscribed(t, envs, now)
         == t.(rows := Buries(t.rows, DeadIds(envs)), deadLetters := t.deadLetters + DeadRecords(envs, t.rows, now))
    decreases |envs|
  {
    if envs == [] {
      assert Buries(t.rows, {}) == t.rows;
    } else {
      var k := |envs| - 1;
      InscribedExactly(t, envs[..k], now);
      assert envs == envs[..k] + [envs[k]];
      DeadIdsOneMore(envs[..k], envs[k]);
      assert Inscribed(t, envs, now).rows == Buries(t.rows, DeadIds(envs));
    }
  }

  /** What a sweep makes of a row: dead if the last attempt was reclaimed, else queued again if it was
      running on a closed worker, else unchanged. */
  predicate RowSwept(before: Row, after: Row, buried: bool, closed: set<WorkerId>, now: int) {
    if buried then
      && after.status == Dead && after.lastError == WORKER_DIED_MID_TASK && after.attempts == before.attempts
      && after.typ == before.typ && after.payload == before.payload
      && after.priority == before.priority && after.maxAttempts == before.maxAttempts
    else if before.status == Running && before.worker.Some? && before.worker.value in closed then
      after == before.(status := Queued, worker := None, availableAt := now)
    else after == before
  }

  lemma CloseUpExactly(t: P.Tables, w: WorkerId, now: int)
    ensures CloseUp(t, w, now).deadLetters == t.deadLetters && CloseUp(t, w, now).rows.Keys == t.rows.Keys
    ensures CloseUp(t, w, now).workers == if w in t.workers then t.workers[w := P.Gone] else t.workers
    ensures forall id | id in t.rows :: RowSwept(t.rows[id], CloseUp(t, w, now).rows[id], false, {w}, now)
  {}

  lemma RowSweptTwice(a: Row, b: Row, c: Row, d: Row, buried: bool, again: bool, closed: set<WorkerId>, w: WorkerId, now: int)
    requires RowSwept(a, b, buried, closed, now)
    requires c == if again then b.(status := Dead, lastError := WORKER_DIED_MID_TASK) else b
    requires RowSwept(c, d, false, {w}, now)
    ensures RowSwept(a, d, buried || again, closed + {w}, now)
  {}

  function Payloads(rows: map<TaskId, Row>): map<TaskId, string> { map id | id in rows :: rows[id].payload }

  lemma {:induction false} SamePayloads(envs: seq<Envelope>, a: map<TaskId, Row>, b: map<TaskId, Row>, now: int)
    requires Payloads(a) == Payloads(b)
    ensures DeadRecords(envs, a, now) == DeadRecords(envs, b, now)
    decreases |envs|
  {
    if envs != [] {
      var k := |envs| - 1;
      SamePayloads(envs[..k], a, b, now);
      var id := envs[k].id;
      assert id in a <==> id in Payloads(a);
      assert id in b <==> id in Payloads(b);
      if id in a {
        assert Payloads(a)[id] == Payloads(b)[id];
      }
    }
  }

  lemma {:induction false} DeadRecordsAppend(a: seq<Envelope>, b: seq<Envelope>, rows: map<TaskId, Row>, now: int)
    ensures DeadRecords(a + b, rows, now) == DeadRecords(a, rows, now) + DeadRecords(b, rows, now)
    decreases |b|
  {
    if b == [] {
      assert a + b == a;
    } else {
      var k := |b| - 1;
      DeadRecordsAppend(a, b[..k], rows, now);
      assert (a + b)[..|a + b| - 1] == a + b[..k];
    }
  }

  lemma DeadIdsAppend(a: seq<Envelope>, b: seq<Envelope>)
    ensures DeadIds(a + b) == DeadIds(a) + DeadIds(b)
  {
    assert forall x :: x in a + b <==> x in a || x in b;
  }

  /** The dead_letters table after a sweep. */
  lemma {:induction false} SweptDeadLetters(t: P.Tables, rounds: seq<Round>, now: int)
    ensures var t' := SweptTables(t, rounds, now);
            && t'.deadLetters == t.deadLetters + DeadRecords(Records(rounds), t.rows, now)
            && Payloads(t'.rows) == Payloads(t.rows)
    decreases |rounds|
  {
    if rounds != [] {
      var k := |rounds| - 1;
      var before, last := rounds[..k], rounds[k];
      SweptDeadLetters(t, before, now);
      var b := SweptTables(t, before, now);
      RoundDeadLetters(b, last, now);
      SamePayloads(last.envs, t.rows, b.rows, now);
      DeadRecordsAppend(Records(before), last.envs, t.rows, now);
    }
  }

  lemma RoundDeadLetters(t: P.Tables, x: Round, now: int)
    ensures var t' := CloseUp(Inscribed(t, x.envs, now), x.worker, now);
            t'.deadLetters == t.deadLetters + DeadRecords(x.envs, t.rows, now) && Payloads(t'.rows) == Payloads(t.rows)
  {
    InscribedExactly(t, x.envs, now);
    CloseUpExactly(Inscribed(t, x.envs, now), x.worker, now);
  }

  lemma RoundRow(t: P.Tables, x: Round, now: int, id: TaskId)
    requires id in t.rows
    ensures var c := if id in DeadIds(x.envs) then t.rows[id].(status := Dead, lastError := WORKER_DIED_MID_TASK) else t.rows[id];
            var t' := CloseUp(Inscribed(t, x.envs, now), x.worker, now);
            id in t'.rows && RowSwept(c, t'.rows[id], false, {x.worker}, now)
  {
    InscribedExactly(t, x.envs, now);
    CloseUpExactly(Inscribed(t, x.envs, now), x.worker, now);
  }

  /** A row after a sweep. */
  lemma {:induction false} SweptRow(t: P.Tables, rounds: seq<Round>, now: int, id: TaskId)
    requires id in t.rows
    ensures id in SweptTables(t, rounds, now).rows
    ensures RowSwept(t.rows[id], SweptTables(t, rounds, now).rows[id], id in DeadIds(Records(rounds)), Workers(rounds), now)
    decreases |rounds|
  {
    if rounds != [] {
      var k := |rounds| - 1;
      var before, last := rounds[..k], rounds[k];
      SweptRow(t, before, now, id);
      var b := SweptTables(t, before, now);
      RoundRow(b, last, now, id);
      var again := id in DeadIds(last.envs);
      var c := if again then b.rows[id].(status := Dead, lastError := WORKER_DIED_MID_TASK) else b.rows[id];
      RowSweptTwice(t.rows[id], b.rows[id], c, SweptTables(t, rounds, now).rows[id], id in DeadIds(Records(before)), again,
                    Workers(before), last.worker, now);
      DeadIdsAppend(Records(before), last.envs);
      assert rounds == before + [last] && Workers(rounds) == Workers(before) + {last.worker};
    }
  }

  lemma {:induction false} SweptRowKeys(t: P.Tables, rounds: seq<Round>, now: int)
    ensures SweptTables(t, rounds, now).rows.Keys == t.rows.Keys
    decreases |rounds|
  {
    if rounds != [] {
      var k := |rounds| - 1;
      SweptRowKeys(t, rounds[..k], now);
      InscribedExactly(SweptTables(t, rounds[..k], now), rounds[k].envs, now);
    }
  }

  function Closed(workers: map<WorkerId, P.WorkerStatus>, closed: set<WorkerId>): map<WorkerId, P.WorkerStatus> {
    map w | w in workers :: if w in closed then P.Gone else workers[w]
  }

  lemma {:induction false} SweptWorkers(t: P.Tables, rounds: seq<Round>, now: int)
    ensures SweptTables(t, rounds, now).workers == Closed(t.workers, Workers(rounds))
    decreases |rounds|
  {
    if rounds == [] {
      assert Closed(t.workers, Workers([])) == t.workers;
    } else {
      var k := |rounds| - 1;
      SweptWorkers(t, rounds[..k], now);
      assert rounds == rounds[..k] + [rounds[k]];
      InscribedExactly(SweptTables(t, rounds[..k], now), rounds[k].envs, now);
    }
  }

  // ---- Conservation of ids ----

  function InReady(d: R.Data, id: TaskId): set<Envelope> { set e | e in d.ready && e.id == id }

  function InDelayed(d: R.Data, id: TaskId): set<Envelope> { set e | e in d.delayed && e.id == id }

  function InHashes(d: R.Data, id: TaskId): set<WorkerId> { set k | k in d.inflight && k.1 == id :: k.0 }

  /** How often the id occurs outside the DLQ. */
  function LiveCount(d: R.Data, id: TaskId): nat { |InReady(d, id)| + |InDelayed(d, id)| + |InHashes(d, id)| }

  function CountOf(d: R.Data, id: TaskId): nat { LiveCount(d, id) + DlqEntries(d.dlq, id) }

  function Occurrences(envs: seq<Envelope>, id: TaskId): nat {
    if envs == [] then 0
    else Occurrences(envs[..|envs| - 1], id) + if envs[|envs| - 1].id == id then 1 else 0
  }

  /** ZADDs that find an equal member: the only way in which a sweep loses a count. */
  function Merged(d: R.Data, envs: seq<Envelope>, now: int, id: TaskId): nat {
    if envs == [] then 0
    else
      var k := |envs| - 1;
      Merged(d, envs[..k], now, id)
      + if !LastAttempt(envs[k]) && envs[k].id == id && Retried(envs[k], now) in Handed(d, envs[..k], now).ready then 1 else 0
  }

  lemma BuriedCounts(d: R.Data, e: Envelope, now: int, id: TaskId)
    requires LastAttempt(e)
    ensures CountOf(HandOn(d, e, now), id) == CountOf(d, id) + if e.id == id then 1 else 0
    ensures DlqEntries(d.dlq, id) <= DlqEntries(HandOn(d, e, now).dlq, id)
  {
    var d' := HandOn(d, e, now);
    DlqAppend(d.dlq, Tombstone(e, now), id);
    assert InReady(d', id) == InReady(d, id);
    SameElsewhere(d, d', id);
  }

  lemma RequeuedCounts(d: R.Data, e: Envelope, now: int, id: TaskId)
    requires !LastAttempt(e)
    ensures CountOf(HandOn(d, e, now), id) + (if e.id == id && Retried(e, now) in d.ready then 1 else 0)
         == CountOf(d, id) + if e.id == id then 1 else 0
  {
    var m := Retried(e, now);
    var d' := d.(ready := d.ready[m := R.ScoreOf(m)]);
    assert HandOn(d, e, now) == d';
    SameElsewhere(d, d', id);
    ReadyCounts(d, m, id);
  }

  lemma ReadyCounts(d: R.Data, m: Envelope, id: TaskId)
    ensures var d' := d.(ready := d.ready[m := R.ScoreOf(m)]);
            |InReady(d', id)| == |InReady(d, id)| + if m.id == id && m !in d.ready then 1 else 0
  {
    var d' := d.(ready := d.ready[m := R.ScoreOf(m)]);
    if m.id == id && m !in d.ready {
      assert InReady(d', id) == InReady(d, id) + {m};
    } else {
      assert InReady(d', id) == InReady(d, id);
    }
  }

  lemma SameElsewhere(d: R.Data, d': R.Data, id: TaskId)
    requires d'.delayed == d.delayed && d'.inflight == d.inflight
    ensures InDelayed(d', id) == InDelayed(d, id) && InHashes(d', id) == InHashes(d, id)
  {}

  lemma HandOnCounts(d: R.Data, e: Envelope, now: int, id: TaskId)
    ensures var merged := !LastAttempt(e) && e.id == id && Retried(e, now) in d.ready;
            CountOf(HandOn(d, e, now), id) + (if merged then 1 else 0) == CountOf(d, id) + if e.id == id then 1 else 0
    ensures d.ready.Keys <= HandOn(d, e, now).ready.Keys
    ensures DlqEntries(d.dlq, id) <= DlqEntries(HandOn(d, e, now).dlq, id)
  {
    if LastAttempt(e) {
      BuriedCounts(d, e, now, id);
    } else {
      RequeuedCounts(d, e, now, id);
    }
  }

  lemma {:induction false} HandedCounts(d: R.Data, envs: seq<Envelope>, now: int, id: TaskId)
    ensures CountOf(Handed(d, envs, now), id) + Merged(d, envs, now, id) == CountOf(d, id) + Occurrences(envs, id)
    ensures Merged(d, envs, now, id) > 0 ==> InReady(Handed(d, envs, now), id) != {}
    ensures d.ready.Keys <= Handed(d, envs, now).ready.Keys
    ensures DlqEntries(d.dlq, id) <= DlqEntries(Handed(d, envs, now).dlq, id)
    decreases |envs|
  {
    if envs != [] {
      var k := |envs| - 1;
      var before := Handed(d, envs[..k], now);
      HandedCounts(d, envs[..k], now, id);
      HandOnCounts(before, envs[k], now, id);
      if envs[k].id == id && Retried(envs[k], now) in before.ready {
        assert Retried(envs[k], now) in InReady(before, id);
      }
      if e :| e in InReady(before, id) {
        assert e in InReady(Handed(d, envs, now), id);
      }
    }
  }

  predicate WellKeyed(d: R.Data) { forall k | k in d.inflight :: d.inflight[k].id == k.1 }

  lemma {:induction false} OccursOnce(envs: seq<Envelope>, id: TaskId)
    requires DistinctIds(envs)
    ensures Occurrences(envs, id) == if exists e :: e in envs && e.id == id then 1 else 0
    decreases |envs|
  {
    if envs != [] {
      var k := |envs| - 1;
      OccursOnce(envs[..k], id);
      assert envs == envs[..k] + [envs[k]];
      assert envs[k].id == id ==> forall e | e in envs[..k] :: e.id != id;
      if e :| e in envs[..k] && e.id == id {
        assert e in envs;
      } else if envs[k].id == id {
        assert envs[k] in envs;
      }
    }
  }

  lemma ListedCounts(d: R.Data, w: WorkerId, envs: seq<Envelope>, id: TaskId)
    requires Lists(envs, d, w) && WellKeyed(d)
    ensures CountOf(R.DropHash(d, w), id) + Occurrences(envs, id) == CountOf(d, id)
    ensures LiveCount(R.DropHash(d, w), id) + Occurrences(envs, id) == LiveCount(d, id)
  {
    var d' := R.DropHash(d, w);
    OccursOnce(envs, id);
    assert InReady(d', id) == InReady(d, id) && InDelayed(d', id) == InDelayed(d, id);
    if (w, id) in d.inflight {
      assert d.inflight[(w, id)] in Elements(envs);
      assert w in InHashes(d, id);
      assert InHashes(d', id) == InHashes(d, id) - {w};
    } else {
      forall e | e in envs
        ensures e.id != id
      {
        assert e in Elements(envs);
        var k :| k in d.inflight && k.0 == w && d.inflight[k] == e;
      }
      assert InHashes(d', id) == InHashes(d, id);
    }
  }

  function MergedInSweep(d: R.Data, rounds: seq<Round>, now: int, id: TaskId): nat {
    if rounds == [] then 0
    else
      var k := |rounds| - 1;
      MergedInSweep(d, rounds[..k], now, id)
      + Merged(R.DropHash(SweptData(d, rounds[..k], now), rounds[k].worker), rounds[k].envs, now, id)
  }

  predicate RoundsList(rounds: seq<Round>, d: R.Data) {
    && (forall i, j | 0 <= i < j < |rounds| :: rounds[i].worker != rounds[j].worker)
    && (forall x | x in rounds :: Lists(x.envs, d, x.worker))
  }

  lemma HashUntouched(d: R.Data, rounds: seq<Round>, now: int, w: WorkerId)
    requires w !in Workers(rounds)
    ensures R.Hash(SweptData(d, rounds, now), w) == R.Hash(d, w)
    ensures WellKeyed(d) ==> WellKeyed(SweptData(d, rounds, now))
  {
    SweptExactly(d, rounds, now);
    var d' := SweptData(d, rounds, now);
    assert forall k: (WorkerId, TaskId) | k.0 == w :: k in d'.inflight <==> k in d.inflight;
  }

  lemma RoundConserves(d: R.Data, w: WorkerId, envs: seq<Envelope>, now: int, id: TaskId)
    requires Lists(envs, d, w) && WellKeyed(d)
    ensures var d' := Handed(R.DropHash(d, w), envs, now);
            && CountOf(d', id) + Merged(R.DropHash(d, w), envs, now, id) == CountOf(d, id)
            && (Merged(R.DropHash(d, w), envs, now, id) > 0 || InReady(d, id) != {} ==> InReady(d', id) != {})
            && DlqEntries(d.dlq, id) <= DlqEntries(d'.dlq, id)
  {
    ListedCounts(d, w, envs, id);
    HandedCounts(R.DropHash(d, w), envs, now, id);
    if e :| e in InReady(d, id) {
      assert e in InReady(Handed(R.DropHash(d, w), envs, now), id);
    }
  }

  /** A sweep conserves the number of occurrences of every id, up to ZADDs that find an equal member. */
  lemma {:induction false} SweepConserves(d: R.Data, rounds: seq<Round>, now: int, id: TaskId)
    requires RoundsList(rounds, d) && WellKeyed(d)
    ensures CountOf(SweptData(d, rounds, now), id) + MergedInSweep(d, rounds, now, id) == CountOf(d, id)
    ensures MergedInSweep(d, rounds, now, id) > 0 ==> InReady(SweptData(d, rounds, now), id) != {}
    ensures DlqEntries(d.dlq, id) <= DlqEntries(SweptData(d, rounds, now).dlq, id)
    decreases |rounds|
  {
    if rounds != [] {
      var k := |rounds| - 1;
      var before, last := rounds[..k], rounds[k];
      assert rounds == before + [last] && last in rounds;
      SweepConserves(d, before, now, id);
      assert last.worker !in Workers(before);
      HashUntouched(d, before, now, last.worker);
      RoundConserves(SweptData(d, before, now), last.worker, last.envs, now, id);
    }
  }

  /** Where an id occurs at most once outside the DLQ nothing merges: its count is conserved. */
  lemma SweepConservesDistinct(d: R.Data, rounds: seq<Round>, now: int, id: TaskId)
    requires RoundsList(rounds, d) && WellKeyed(d) && LiveCount(d, id) <= 1
    ensures CountOf(SweptData(d, rounds, now), id) == CountOf(d, id)
  {
    SweepConserves(d, rounds, now, id);
  }
}
