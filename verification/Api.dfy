/** The two API handlers that move tasks: persist first, then enqueue. */
module Api {
  import opened Types
  import opened Protocol
  import opened Mirror
  import opened Prefixes
  import P = Postgres
  import R = Redis
  import Q = Queue
  import S = Store
  import Wire

  datatype Reply = BadRequest | ServerError | Ok(id: TaskId)

  /** Persisting and enqueueing, as two steps. */
  lemma Submitted(r: Run, q: Req, id: TaskId, typ: string, payload: string, priority: int, max: nat)
    requires Valid(r) && q !in End(r).apis && id !in End(r).db.rows && typ != "" && max > 0
    ensures var st := CreateRow(q, id, typ, payload, priority, max); var s, s' := End(r), End(Then(r, st));
      && Valid(Then(r, st)) && s'.redis == s.redis && s'.now == s.now
      && s'.db == P.Insert(s.db, id, typ, payload, priority, max, s.now)
      && q in s'.apis && s'.apis[q] == Envelope(id, typ, priority, 0, max, payload, 0)
  {
    StepEnds(r, CreateRow(q, id, typ, payload, priority, max));
  }

  lemma Enqueued(r: Run, q: Req)
    requires Valid(r) && q in End(r).apis
    ensures Valid(Then(r, ApiEnqueue(q))) && End(Then(r, ApiEnqueue(q))).db == End(r).db
    ensures End(Then(r, ApiEnqueue(q))).redis == R.Enqueue(End(r).redis, End(r).apis[q], End(r).now)
  {
    StepEnds(r, ApiEnqueue(q));
  }

  class Server {
    const queue: Q.Queue
    const store: S.Store

    constructor (queue: Q.Queue, store: S.Store)
      ensures this.queue == queue && this.store == store
    {
      this.queue, this.store := queue, store;
    }

    /** `id` is the new UUID.  The request takes two steps of the protocol, or none. */
    method CreateTask(typ: string, payload0: string, priority: int, max0: int, id: TaskId, now: int,
                      ghost r: Run, ghost q: Req) returns (reply: Reply, ghost r': Run)
      requires Mirrors(r, queue, store) && End(r).now == now && q !in End(r).apis
      modifies queue, store, queue.log
      ensures Mirrors(r', queue, store)
      ensures reply == if typ == "" then BadRequest else if id in old(store.rows) then ServerError else Ok(id)
      ensures !reply.Ok? ==> r' == r
      ensures reply.Ok? ==>
        r' == Then(Then(r, CreateRow(q, id, typ, if payload0 == "" then "{}" else payload0, priority, P.DefaultMax(max0))),
                   ApiEnqueue(q))
      ensures !reply.Ok? ==> queue.Image() == old(queue.Image()) && store.Image() == old(store.Image())
      ensures reply.Ok? ==>
        var payload := if payload0 == "" then "{}" else payload0; var max := if max0 <= 0 then 3 else max0;
        var env := Envelope(id, typ, priority, 0, max, payload, now);
        && queue.Image() == old(queue.Image()).(ready := old(queue.ready)[env := R.ScoreOf(env)])
        && store.Image() == old(store.Image()).(
             rows := old(store.rows)[id := Row(typ, payload, priority, Queued, 0, max, now, None, "")])
      ensures reply.Ok? ==>
        var env := Envelope(id, typ, priority, 0, if max0 <= 0 then 3 else max0, if payload0 == "" then "{}" else payload0, now);
        queue.log.calls == old(queue.log.calls) + [Wire.InsertTask(id), Wire.ZAddReady(env)]
    {
      if typ == "" {
        return BadRequest, r;
      }
      var max, payload := max0, payload0;
      if max <= 0 {
        max := P.DEFAULT_MAX_ATTEMPTS;
      }
      if |payload| == 0 {
        payload := "{}";
      }
      var ok := store.CreateTask(id, typ, payload, priority, max, now);
      if !ok {
        return ServerError, r;
      }
      var created := Then(r, CreateRow(q, id, typ, payload, priority, max));
      Submitted(r, q, id, typ, payload, priority, max);
      Enqueued(created, q);
      var env := Envelope(id, typ, priority, 0, max, payload, 0);
      Wire.TwoInTurn(old(queue.log.calls), Wire.InsertTask(id), Wire.ZAddReady(env.(enqueuedAt := now)));
      queue.Enqueue(env, now);
      return Ok(id), Then(created, ApiEnqueue(q));
    }

    /** Of any number of requests for one death only the first finds the row dead. */
    method RedriveDLQ(id: TaskId, now: int, ghost r: Run, ghost q: Req) returns (reply: Reply, ghost r': Run)
      requires Mirrors(r, queue, store) && End(r).now == now && q !in End(r).apis
      modifies queue, store, queue.log
      ensures Mirrors(r', queue, store)
      ensures reply == if P.CanRedrive(old(store.Image()), id) then Ok(id) else ServerError
      ensures r' == if reply.Ok? then Then(Then(r, RedriveRow(q, id)), ApiEnqueue(q)) else r
      ensures !P.CanRedrive(store.Image(), id)
      ensures reply.Ok? <==> id in old(store.rows) && old(store.rows)[id].status == Dead
      ensures !reply.Ok? ==> queue.Image() == old(queue.Image()) && store.Image() == old(store.Image())
      ensures reply.Ok? ==>
        var row := old(store.rows)[id];
        var env := Envelope(id, row.typ, row.priority, 0, row.maxAttempts, row.payload, now);
        && queue.Image() == old(queue.Image()).(ready := old(queue.ready)[env := R.ScoreOf(env)])
        && store.Image() == old(store.Image()).(
             rows := old(store.rows)[id :=
               row.(status := Queued, attempts := 0, lastError := "", availableAt := now, worker := None)])
      ensures reply.Ok? ==>
        var row := old(store.rows)[id];
        queue.log.calls == old(queue.log.calls)
          + [Wire.ResetDead(id), Wire.ZAddReady(Envelope(id, row.typ, row.priority, 0, row.maxAttempts, row.payload, now))]
    {
      var row := store.Redrive(id, now);
      if row.None? {
        return ServerError, r;
      }
      ghost var reset := Then(r, RedriveRow(q, id));
      StepEnds(r, RedriveRow(q, id));
      assert Mirrors(reset, queue, store);
      Enqueued(reset, q);
      var t := row.value;
      var env := Envelope(id, t.typ, t.priority, 0, t.maxAttempts, t.payload, 0);
      assert End(reset).apis[q] == env;
      Wire.TwoInTurn(old(queue.log.calls), Wire.ResetDead(id), Wire.ZAddReady(env.(enqueuedAt := now)));
      queue.Enqueue(env, now);
      return Ok(id), Then(reset, ApiEnqueue(q));
    }
  }
}
