/** The store object: each method runs its statements against Postgres, here the object's own fields. */
module Store {
  import opened Types
  import P = Postgres
  import Wire

  class Store {
    var rows: map<TaskId, Row>
    var workers: map<WorkerId, P.WorkerStatus>
    var deadLetters: seq<P.DeadRow>
    const log: Wire.Log

    function Image(): P.Tables
      reads this
    {
      P.Tables(rows, workers, deadLetters)
    }

    constructor (log: Wire.Log)
      ensures Image() == P.EMPTY && this.log == log
    {
      this.log := log;
      rows, workers, deadLetters := map[], map[], [];
    }

    /** The primary key makes inserting a known id an error. */
    method CreateTask(id: TaskId, typ: string, payload: string, priority: int, max: int, now: int) returns (ok: bool)
      modifies this, log
      ensures log.calls == old(log.calls) + [Wire.InsertTask(id)]
      ensures ok == (id !in old(rows))
      ensures Image() == if ok then P.Insert(old(Image()), id, typ, payload, priority, max, now) else old(Image())
      ensures ok ==> rows == old(rows)[id := Row(typ, payload, priority, Queued, 0, if max <= 0 then 3 else max, now, None, "")]
      ensures workers == old(workers) && deadLetters == old(deadLetters)
    {
      log.calls := log.calls + [Wire.InsertTask(id)];
      if id in rows {
        return false;
      }
      var maxAttempts := max;
      if maxAttempts <= 0 {
        maxAttempts := P.DEFAULT_MAX_ATTEMPTS;
      }
      rows := rows[id := Row(typ, payload, priority, Queued, 0, maxAttempts, now, None, "")];
      return true;
    }

    method MarkRunning(id: TaskId, w: WorkerId)
      modifies this, log
      ensures log.calls == old(log.calls) + [Wire.SetRunning(id)]
      ensures Image() == P.MarkRunning(old(Image()), id, w)
      ensures id in old(rows) ==>
        rows[id] == old(rows)[id].(status := Running, worker := Some(w), attempts := old(rows)[id].attempts + 1)
    {
      log.calls := log.calls + [Wire.SetRunning(id)];
      if id in rows {
        rows := rows[id := rows[id].(status := Running, worker := Some(w), attempts := rows[id].attempts + 1)];
      }
    }

    method MarkSucceeded(id: TaskId)
      modifies this, log
      ensures log.calls == old(log.calls) + [Wire.SetSucceeded(id)]
      ensures Image() == P.MarkSucceeded(old(Image()), id)
      ensures id in old(rows) ==> rows[id] == old(rows)[id].(status := Succeeded)
    {
      log.calls := log.calls + [Wire.SetSucceeded(id)];
      if id in rows {
        rows := rows[id := rows[id].(status := Succeeded)];
      }
    }

    method MarkRetry(id: TaskId, availableAt: int, lastError: string)
      modifies this, log
      ensures log.calls == old(log.calls) + [Wire.SetRetrying(id)]
      ensures Image() == P.MarkRetry(old(Image()), id, availableAt, lastError)
      ensures id in old(rows) ==>
        rows[id] == old(rows)[id].(status := Retrying, availableAt := availableAt, lastError := lastError, worker := None)
    {
      log.calls := log.calls + [Wire.SetRetrying(id)];
      if id in rows {
        rows := rows[id := rows[id].(status := Retrying, availableAt := availableAt, lastError := lastError, worker := None)];
      }
    }

    /** UPDATE ... RETURNING payload, then the INSERT; a missing row rolls the transaction back. */
    method MarkDead(id: TaskId, lastError: string, now: int) returns (ok: bool)
      modifies this, log
      ensures log.calls == old(log.calls) + [Wire.SetDead(id)]
      ensures ok == (id in old(rows))
      ensures Image() == P.MarkDead(old(Image()), id, lastError, now)
      ensures ok ==> rows == old(rows)[id := old(rows)[id].(status := Dead, lastError := lastError)]
      ensures ok ==> deadLetters == old(deadLetters) + [P.DeadRow(id, lastError, old(rows)[id].payload, now)]
      ensures !ok ==> Image() == old(Image())
    {
      log.calls := log.calls + [Wire.SetDead(id)];
      if id !in rows {
        return false;
      }
      var payload := rows[id].payload;
      rows := rows[id := rows[id].(status := Dead, lastError := lastError)];
      deadLetters := deadLetters + [P.DeadRow(id, lastError, payload, now)];
      return true;
    }

    method RequeueOrphans(w: WorkerId, now: int) returns (affected: set<TaskId>)
      modifies this, log
      ensures log.calls == old(log.calls) + [Wire.ResetOrphansOf(w)]
      ensures Image() == P.RequeueOrphans(old(Image()), w, now)
      ensures affected == set id | id in old(rows) && old(rows)[id].status == Running && old(rows)[id].worker == Some(w)
      ensures rows.Keys == old(rows).Keys && workers == old(workers) && deadLetters == old(deadLetters)
      ensures forall id | id in rows ::
        rows[id] == if id in affected then old(rows)[id].(status := Queued, worker := None, availableAt := now) else old(rows)[id]
    {
      log.calls := log.calls + [Wire.ResetOrphansOf(w)];
      affected := set id | id in rows && P.IsOrphan(rows[id], w);
      rows := map id | id in rows ::
        if P.IsOrphan(rows[id], w) then rows[id].(status := Queued, worker := None, availableAt := now) else rows[id];
    }

    /** Compare-and-set on status 'dead'. */
    method Redrive(id: TaskId, now: int) returns (row: Option<Row>)
      modifies this, log
      ensures log.calls == old(log.calls) + [Wire.ResetDead(id)]
      ensures row.Some? <==> P.CanRedrive(old(Image()), id)
      ensures row.Some? <==> id in old(rows) && old(rows)[id].status == Dead
      ensures row.Some? ==>
        rows == old(rows)[id := old(rows)[id].(status := Queued, attempts := 0, lastError := "", availableAt := now, worker := None)]
      ensures row.Some? ==> Image() == P.Redrive(old(Image()), id, now) && row.value == rows[id]
      ensures row.None? ==> Image() == old(Image())
    {
      log.calls := log.calls + [Wire.ResetDead(id)];
      if id !in rows || rows[id].status != Dead {
        return None;
      }
      rows := rows[id := rows[id].(status := Queued, attempts := 0, lastError := "", availableAt := now, worker := None)];
      return Some(rows[id]);
    }

    method UpsertWorker(w: WorkerId)
      modifies this, log
      ensures log.calls == old(log.calls) + [Wire.UpsertWorker(w)]
      ensures Image() == P.UpsertWorker(old(Image()), w) && workers == old(workers)[w := P.Alive]
    {
      log.calls := log.calls + [Wire.UpsertWorker(w)];
      workers := workers[w := P.Alive];
    }

    method TouchWorker(w: WorkerId)
      modifies this, log
      ensures log.calls == old(log.calls) + [Wire.TouchWorker(w)]
      ensures Image() == P.TouchWorker(old(Image()), w) && (w in workers ==> workers[w] == P.Alive)
    {
      log.calls := log.calls + [Wire.TouchWorker(w)];
      if w in workers {
        workers := workers[w := P.Alive];
      }
    }

    method MarkWorkerDead(w: WorkerId)
      modifies this, log
      ensures log.calls == old(log.calls) + [Wire.SetWorkerDead(w)]
      ensures Image() == P.MarkWorkerDead(old(Image()), w) && (w in workers ==> workers[w] == P.Gone)
    {
      log.calls := log.calls + [Wire.SetWorkerDead(w)];
      if w in workers {
        workers := workers[w := P.Gone];
      }
    }

    /** Every registered worker once, in some order, with its status at the time of the query. */
    method ListWorkers() returns (list: seq<(WorkerId, P.WorkerStatus)>)
      ensures (set x | x in list :: x.0) == workers.Keys
      ensures forall i | 0 <= i < |list| :: list[i].0 in workers && list[i].1 == workers[list[i].0]
      ensures forall i, j | 0 <= i < j < |list| :: list[i].0 != list[j].0
    {
      var left := workers.Keys;
      list := [];
      while left != {}
        invariant left <= workers.Keys
        invariant (set x | x in list :: x.0) == workers.Keys - left
        invariant forall i | 0 <= i < |list| :: list[i].0 in workers && list[i].0 !in left && list[i].1 == workers[list[i].0]
        invariant forall i, j | 0 <= i < j < |list| :: list[i].0 != list[j].0
        decreases left
      {
        var w :| w in left;
        assert (set x | x in list + [(w, workers[w])] :: x.0) == (set x | x in list :: x.0) + {w};
        list := list + [(w, workers[w])];
        left := left - {w};
      }
    }
  }
}
