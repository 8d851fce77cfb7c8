/** The coordinator object.  Each method also follows a path of the protocol. */
module Coordinators {
  import opened Types
  import opened Protocol
  import opened Envelopes
  import opened Mirror
  import opened Prefixes
  import opened Reclaim
  import opened Sweeps
  import R = Redis
  import P = Postgres
  import Q = Queue
  import S = Store
  import Detection
  import Guarantees
  import Wire

  class Coordinator {
    const queue: Q.Queue
    const store: S.Store

    constructor (queue: Q.Queue, store: S.Store)
      ensures this.queue == queue && this.store == store
    {
      this.queue, this.store := queue, store;
    }

    ghost predicate AtRest(r: Run, now: int)
      reads queue, store
    {
      Mirrors(r, queue, store) && End(r).now == now && End(r).coord.Idle?
    }

    /** One type: promote its batch. */
    method PromoteType(typ: string, now: int, ghost d: R.Data, ghost some: seq<string>, ghost moved: set<Envelope>,
                       ghost r0: Run, ghost r: Run)
      returns (ghost r': Run, ghost moved': set<Envelope>)
      requires AtRest(r, now) && Continues(r0, r) && typ !in some
      requires queue.Image() == R.Promote(d, moved, now) && IsHarvest(moved, some, d, now)
      modifies queue, queue.log
      ensures AtRest(r', now) && Continues(r0, r')
      ensures queue.Image() == R.Promote(d, moved', now) && IsHarvest(moved', some + [typ], d, now)
    {
      var n;
      ghost var batch;
      n, batch := queue.PromoteDelayed(typ, now);
      PromoteTwice(d, moved, batch, now);
      OneTypeMore(d, moved, some, typ, batch, now);
      moved' := moved + batch;
      r' := PromotePath(r, typ, batch);
      ContinuesTrans(r0, r, r');
    }

    /** The loop of one tick over the discovered types, each handled once: together they promote
        `moved`, for each type one batch. */
    method PromoteDelayed(found: seq<string>, now: int, ghost r: Run) returns (ghost r': Run, ghost moved: set<Envelope>)
      requires AtRest(r, now)
      modifies queue, queue.log
      ensures AtRest(r', now) && Continues(r, r')
      ensures queue.Image() == R.Promote(old(queue.Image()), moved, now)
      ensures IsHarvest(moved, found, old(queue.Image()), now)
    {
      r', moved := r, {};
      Q.PromoteNothing(queue.Image(), now);
      var seen: set<string> := {};
      var i := 0;
      while i < |found|
        invariant i <= |found| && AtRest(r', now) && Continues(r, r')
        invariant queue.Image() == R.Promote(old(queue.Image()), moved, now)
        invariant seen == set typ | typ in found[..i]
        invariant IsHarvest(moved, found[..i], old(queue.Image()), now)
      {
        var typ := found[i];
        assert found[..i + 1] == found[..i] + [typ];
        if typ !in seen {
          r', moved := PromoteType(typ, now, old(queue.Image()), found[..i], moved, r, r');
        } else {
          HarvestRepeats(old(queue.Image()), moved, found[..i], typ, now);
        }
        seen := seen + {typ};
        i := i + 1;
      }
      assert found[..|found|] == found;
    }

    /** The body of the loop over the reclaimed envelopes. */
    method Return(env0: Envelope, now: int, ghost w: WorkerId, ghost envs: set<Envelope>, ghost r: Run)
      returns (ghost r': Run)
      requires Mirrors(r, queue, store) && End(r).now == now
      requires End(r).coord == Sweeping(w, envs) && env0 in envs
      modifies queue, store, queue.log
      ensures r' == ReturnPath(r, env0) && Continues(r, r')
      ensures Mirrors(r', queue, store) && End(r').now == now && End(r').coord == Sweeping(w, envs - {env0})
      ensures queue.Image() == HandOn(old(queue.Image()), env0, now)
      ensures store.Image() == RecordOn(old(store.Image()), env0, now)
      ensures env0.id in old(store.rows)
      ensures var env := env0.(attempts := env0.attempts + 1); var row := old(store.rows)[env.id];
        if env.attempts >= env.maxAttempts then
          && queue.Image() == old(queue.Image()).(dlq := old(queue.dlq) + [R.DeadLetter(env, "worker died", now)])
          && store.Image()
             == old(store.Image()).(rows := old(store.rows)[env.id := row.(status := Dead, lastError := "worker died mid-task")],
                  deadLetters := old(store.deadLetters) + [P.DeadRow(env.id, "worker died mid-task", env.payload, now)])
        else
          && queue.Image() == old(queue.Image()).(ready := old(queue.ready)[env := R.ScoreOf(env)])
          && store.Image() == old(store.Image())
      ensures queue.log.calls == old(queue.log.calls) + HandOnCalls(env0)
    {
      ReclaimedOk(r, env0);
      HandedOn(queue.Image(), store.Image(), env0, now);
      var env := env0.(attempts := env0.attempts + 1);
      r' := ReturnPath(r, env0);
      assert End(r').redis == HandOn(queue.Image(), env0, now) && End(r').db == RecordOn(store.Image(), env0, now);
      if env.attempts >= env.maxAttempts {
        Wire.TwoInTurn(queue.log.calls, Wire.RPush(env, "worker died"), Wire.SetDead(env.id));
        queue.DeadLetter(env, WORKER_DIED, now);
        var _ := store.MarkDead(env.id, WORKER_DIED_MID_TASK, now);
      } else {
        queue.Enqueue(env, now);
      }
    }

    /** The loop over the reclaimed envelopes. */
    method ReturnAll(envs: seq<Envelope>, now: int, ghost w: WorkerId, ghost r: Run) returns (ghost r': Run)
      requires Mirrors(r, queue, store) && End(r).now == now && End(r).coord == Sweeping(w, Elements(envs))
      requires DistinctIds(envs)
      modifies queue, store, queue.log
      ensures Mirrors(r', queue, store) && End(r').now == now && End(r').coord == Sweeping(w, {})
      ensures queue.Image() == Handed(old(queue.Image()), envs, now)
      ensures store.Image() == Inscribed(old(store.Image()), envs, now)
      ensures Continues(r, r')
      ensures queue.log.calls == old(queue.log.calls) + HandedCalls(envs)
    {
      r' := r;
      var i := 0;
      Ends(envs);
      while i < |envs|
        invariant i <= |envs| && Mirrors(r', queue, store) && End(r').now == now
        invariant End(r').coord == Sweeping(w, Elements(envs[i..]))
        invariant queue.Image() == Handed(old(queue.Image()), envs[..i], now)
        invariant store.Image() == Inscribed(old(store.Image()), envs[..i], now)
        invariant Continues(r, r') && queue.log.calls == old(queue.log.calls) + HandedCalls(envs[..i])
      {
        ghost var before := r';
        RestOf(envs, i);
        OneMore(old(queue.Image()), old(store.Image()), envs, i, now);
        Wire.InTurn(old(queue.log.calls), HandedCalls(envs[..i]), HandOnCalls(envs[i]));
        r' := Return(envs[i], now, w, Elements(envs[i..]), r');
        ContinuesTrans(r, before, r');
        i := i + 1;
      }
    }

    /** One expired worker: reclaim its hash, hand each envelope on, reset its rows, close it. */
    method ReclaimWorker(w: WorkerId, now: int, ghost r: Run) returns (ghost r': Run, envs: seq<Envelope>)
      requires AtRest(r, now) && w in store.workers && store.workers[w] != P.Gone && !R.IsAlive(queue.Image(), w, now)
      modifies queue, store, queue.log
      ensures AtRest(r', now) && Continues(r, r') && Checked(r, r', w)
      ensures Lists(envs, old(queue.Image()), w)
      ensures queue.Image() == Handed(R.DropHash(old(queue.Image()), w), envs, now)
      ensures store.Image() == CloseUp(Inscribed(old(store.Image()), envs, now), w, now)
      ensures queue.log.calls == old(queue.log.calls) + (if envs == [] then [] else [Wire.DelHash(w)])
                                 + HandedCalls(envs) + [Wire.ResetOrphansOf(w), Wire.SetWorkerDead(w)]
    {
      RecordsKeyed(r);
      ghost var read := ReadHashPath(r, w);
      envs := queue.ReclaimInflight(w);
      assert (set e | e in envs) == Elements(envs);
      ghost var returned := ReturnAll(envs, now, w, read);
      r' := ClosePath(returned);
      Wire.TwoInTurn(queue.log.calls, Wire.ResetOrphansOf(w), Wire.SetWorkerDead(w));
      var _ := store.RequeueOrphans(w, now);
      store.MarkWorkerDead(w);
      WorkerChecked(r, read, returned, w);
    }

    /** What a sweep has done to the objects so far. */
    ghost predicate SweptSoFar(d: R.Data, t: P.Tables, rounds: seq<Round>, now: int)
      reads queue, store
    {
      queue.Image() == SweptData(d, rounds, now) && store.Image() == SweptTables(t, rounds, now)
    }

    /** One entry of the worker list. */
    method SweepEntry(w: WorkerId, status: P.WorkerStatus, now: int, ghost d: R.Data, ghost t: P.Tables,
                      ghost rounds: seq<Round>, ghost r: Run)
      returns (ghost r': Run, ghost rounds': seq<Round>)
      requires AtRest(r, now) && SweptSoFar(d, t, rounds, now)
      requires w in t.workers && w !in Workers(rounds) && status == t.workers[w]
      modifies queue, store, queue.log
      ensures AtRest(r', now) && Continues(r, r') && SweptSoFar(d, t, rounds', now)
      ensures status != P.Gone ==> Checked(r, r', w)
      ensures if Expired(t.workers, d, w, now)
              then exists envs :: rounds' == rounds + [Round(w, envs)] && Lists(envs, d, w)
              else rounds' == rounds
    {
      r', rounds' := r, rounds;
      SweptExactly(d, rounds, now);
      SweptWorkers(t, rounds, now);
      HashUntouched(d, rounds, now, w);
      if status != P.Gone {
        var alive := queue.IsAlive(w, now);
        if !alive {
          var envs;
          r', envs := ReclaimWorker(w, now, r);
          rounds' := rounds + [Round(w, envs)];
          assert rounds'[..|rounds|] == rounds;
        }
      }
    }

    /** One sweep: every registered worker that is not marked dead and has no heartbeat is
        reclaimed completely; every other worker's hash and row are left alone. */
    method ReclaimDead(now: int, ghost r: Run) returns (ghost r': Run, ghost rounds: seq<Round>)
      requires AtRest(r, now)
      modifies queue, store, queue.log
      ensures AtRest(r', now) && Continues(r, r') && IsSweep(r, r')
      ensures Covers(rounds, old(queue.Image()), AllExpired(old(store.workers), old(queue.Image()), now))
      ensures queue.Image() == SweptData(old(queue.Image()), rounds, now)
      ensures store.Image() == SweptTables(old(store.Image()), rounds, now)
      ensures store.workers.Keys == old(store.workers).Keys
      ensures forall w | w in store.workers ::
                store.workers[w] == if w in old(queue.heartbeats) && now < old(queue.heartbeats)[w] then old(store.workers)[w]
                                    else P.Gone
    {
      ghost var d, t := queue.Image(), store.Image();
      var list := store.ListWorkers();
      assert Names(list) == t.workers.Keys;
      r', rounds := r, [];
      var i := 0;
      while i < |list|
        invariant i <= |list| && AtRest(r', now) && Continues(r, r')
        invariant SweptSoFar(d, t, rounds, now)
        invariant Covers(rounds, d, Names(list[..i]) * AllExpired(t.workers, d, now))
        invariant forall j | 0 <= j < i :: list[j].1 != P.Gone ==> Checked(r, r', list[j].0)
      {
        ghost var before, some := r', rounds;
        NamesOneMore(list, i);
        r', rounds := SweepEntry(list[i].0, list[i].1, now, d, t, rounds, r');
        OneWorkerMore(some, rounds, d, t.workers, list[i].0, Names(list[..i]), now);
        CheckedSoFar(r, before, r', list, i);
        ContinuesTrans(r, before, r');
        i := i + 1;
      }
      assert list[..|list|] == list;
      assert Names(list) * AllExpired(t.workers, d, now) == AllExpired(t.workers, d, now);
      WorkersAfter(t, d, rounds, now);
      LoopStepsRun(r, r');
      forall w | w in t.workers && t.workers[w] != P.Gone
        ensures Checked(r, r', w)
      {
        assert w in Names(list);
      }
    }

    /** One tick: promote, then reclaim. */
    method Tick(found: seq<string>, now: int, ghost r: Run)
      returns (ghost r': Run, ghost moved: set<Envelope>, ghost rounds: seq<Round>)
      requires AtRest(r, now)
      modifies queue, store, queue.log
      ensures AtRest(r', now) && Continues(r, r') && IsSweep(r, r') && (FailStop(r) ==> FailStop(r'))
      ensures IsHarvest(moved, found, old(queue.Image()), now)
      ensures Covers(rounds, old(queue.Image()), AllExpired(old(store.workers), old(queue.Image()), now))
      ensures queue.Image() == SweptData(R.Promote(old(queue.Image()), moved, now), rounds, now)
      ensures store.Image() == SweptTables(old(store.Image()), rounds, now)
      ensures forall k | k in old(queue.inflight) ::
                if k.0 in old(store.workers) && old(store.workers)[k.0] != P.Gone
                   && !(k.0 in old(queue.heartbeats) && now < old(queue.heartbeats)[k.0])
                then k !in queue.inflight && Returned(queue.Image(), old(queue.inflight)[k], now)
                else k in queue.inflight && queue.inflight[k] == old(queue.inflight)[k]
      ensures forall k | FailStop(r) && k in old(queue.inflight) && LongCrashed(r, k.0) ::
                k !in queue.inflight && Returned(queue.Image(), old(queue.inflight)[k], now)
    {
      ghost var d, workers := queue.Image(), store.workers;
      ghost var promoted;
      promoted, moved := PromoteDelayed(found, now, r);
      ghost var middle := queue.Image();
      r', rounds := ReclaimDead(now, promoted);
      SweepAfterPromotion(r, promoted, r');
      ContinuesTrans(r, promoted, r');
      LoopStepsKeep(r, r', 0, 0);
      TickRecords(d, middle, workers, rounds, now);
      forall k | FailStop(r) && k in d.inflight && LongCrashed(r, k.0)
        ensures Expired(workers, d, k.0, now)
      {
        HeldByCrashedIsExpired(r, k);
      }
    }
  }

  lemma WorkerChecked(r: Run, read: Run, returned: Run, w: WorkerId)
    requires Valid(r) && Continues(r, read) && Continues(read, returned) && Valid(returned)
    requires End(returned).coord == Sweeping(w, {})
    ensures Continues(r, ClosePath(returned)) && Checked(r, ClosePath(returned), w)
  {
    ContinuesTrans(r, read, returned);
    ContinuesTrans(r, returned, ClosePath(returned));
    LoopStepsRun(r, returned);
  }

  lemma RecordsKeyed(r: Run)
    requires Valid(r)
    ensures forall k | k in End(r).redis.inflight :: End(r).redis.inflight[k].id == k.1
  {
    AlwaysSound(r);
  }

  /** The process of w crashed a TTL ago or earlier. */
  ghost predicate LongCrashed(r: Run, w: WorkerId)
    requires Valid(r)
  {
    CrashTime(r, w).Some? && CrashTime(r, w).value + End(r).cfg.ttl <= End(r).now
  }

  lemma HeldByCrashedIsExpired(r: Run, k: (WorkerId, TaskId))
    requires Valid(r) && FailStop(r) && k in End(r).redis.inflight && LongCrashed(r, k.0)
    ensures Expired(End(r).db.workers, End(r).redis, k.0, End(r).now)
  {
    Detection.CrashedStaysSilent(r, k.0);
    if End(r).db.workers[k.0] == P.Gone {
      Guarantees.DeadWorkerHasNoRecords(r, k.0);
      InHash(End(r).redis, k);
    }
  }

  lemma TickRecords(d: R.Data, middle: R.Data, workers: map<WorkerId, P.WorkerStatus>, rounds: seq<Round>, now: int)
    requires middle.inflight == d.inflight && middle.heartbeats == d.heartbeats
    requires Covers(rounds, middle, AllExpired(workers, middle, now))
    ensures AllExpired(workers, middle, now) == AllExpired(workers, d, now) && Covers(rounds, d, AllExpired(workers, d, now))
    ensures var d' := SweptData(middle, rounds, now);
            forall k | k in d.inflight ::
              if Expired(workers, d, k.0, now) then k !in d'.inflight && Returned(d', d.inflight[k], now)
              else k in d'.inflight && d'.inflight[k] == d.inflight[k]
  {
    SweptExactly(middle, rounds, now);
    assert AllExpired(workers, middle, now) == AllExpired(workers, d, now);
    forall w
      ensures R.Hash(middle, w) == R.Hash(d, w)
    {}
    forall k | k in d.inflight && Expired(workers, d, k.0, now)
      ensures Returned(SweptData(middle, rounds, now), d.inflight[k], now)
    {
      SweptReturns(middle, rounds, AllExpired(workers, middle, now), now, k);
    }
  }

  function OfType(es: set<Envelope>, typ: string): set<Envelope> { set e | e in es && e.typ == typ }

  /** For each of the types one batch of what is due, and nothing of another type. */
  ghost predicate IsHarvest(moved: set<Envelope>, found: seq<string>, d: R.Data, now: int) {
    && (forall e | e in moved :: e.typ in found)
    && (forall typ | typ in found :: R.IsBatch(d, typ, now, OfType(moved, typ)))
  }

  lemma PromoteTwice(d: R.Data, a: set<Envelope>, b: set<Envelope>, now: int)
    ensures R.Promote(R.Promote(d, a, now), b, now) == R.Promote(d, a + b, now)
  {
    assert R.Restamp(a + b, now) == R.Restamp(a, now) + R.Restamp(b, now);
    ScoresUnion(d.ready, R.Restamp(a, now), R.Restamp(b, now));
    assert d.delayed - a - b == d.delayed - (a + b);
  }

  lemma BatchElsewhere(d: R.Data, moved: set<Envelope>, typ: string, batch: set<Envelope>, now: int)
    requires OfType(moved, typ) == {} && R.IsBatch(R.Promote(d, moved, now), typ, now, batch)
    ensures R.IsBatch(d, typ, now, batch)
  {
    assert forall e: Envelope | e.typ == typ :: e !in moved by {
      forall e: Envelope | e.typ == typ
        ensures e !in moved
      {
        assert e !in OfType(moved, typ);
      }
    }
    assert R.Due(R.Promote(d, moved, now), typ, now) == R.Due(d, typ, now);
  }

  lemma OneTypeMore(d: R.Data, moved: set<Envelope>, some: seq<string>, typ: string, batch: set<Envelope>, now: int)
    requires IsHarvest(moved, some, d, now) && typ !in some && R.IsBatch(R.Promote(d, moved, now), typ, now, batch)
    ensures IsHarvest(moved + batch, some + [typ], d, now)
  {
    assert OfType(moved, typ) == {};
    BatchElsewhere(d, moved, typ, batch, now);
    SplitByType(moved, batch, typ);
    forall other | other in some + [typ]
      ensures R.IsBatch(d, other, now, OfType(moved + batch, other))
    {
      if other != typ {
        assert other in some && R.IsBatch(d, other, now, OfType(moved, other));
      }
    }
  }

  lemma SplitByType(moved: set<Envelope>, batch: set<Envelope>, typ: string)
    requires OfType(moved, typ) == {} && forall e | e in batch :: e.typ == typ
    ensures OfType(moved + batch, typ) == batch
    ensures forall other | other != typ :: OfType(moved + batch, other) == OfType(moved, other)
  {
    forall e | e in moved
      ensures e.typ != typ
    {
      assert e.typ == typ ==> e in OfType(moved, typ);
    }
  }

  lemma HarvestRepeats(d: R.Data, moved: set<Envelope>, some: seq<string>, typ: string, now: int)
    requires IsHarvest(moved, some, d, now) && typ in some
    ensures IsHarvest(moved, some + [typ], d, now)
  {
    assert forall other :: other in some + [typ] <==> other in some;
  }

  /** What a harvest means: of the n due tasks of a type min(256, n) become ready, with the new stamp
      and its score; what is not due, or of a type not found, stays. */
  lemma HarvestExactly(d: R.Data, moved: set<Envelope>, found: seq<string>, now: int, typ: string, e: Envelope)
    requires IsHarvest(moved, found, d, now)
    ensures var d' := R.Promote(d, moved, now); var m := e.(enqueuedAt := now); var n := |R.Due(d, typ, now)|;
            && |R.Due(d', typ, now)| == |R.Due(d, typ, now)| - (if typ !in found then 0 else if n < 256 then n else 256)
            && (e in moved ==> e in d.delayed && d.delayed[e] <= now && e !in d'.delayed)
            && (e in moved ==> m in d'.ready && d'.ready[m] == R.ScoreOf(m))
            && (e in d.delayed && (d.delayed[e] > now || e.typ !in found) ==> e in d'.delayed && d'.delayed[e] == d.delayed[e])
  {
    if e in moved {
      assert e in OfType(moved, e.typ);
      assert e.(enqueuedAt := now) in R.Restamp(moved, now);
    }
    var batch := OfType(moved, typ);
    DueAfter(d, moved, typ, now);
    if typ in found {
      assert R.IsBatch(d, typ, now, batch);
      BatchSize(d, typ, now, batch);
    } else {
      assert batch == {};
      assert R.Due(d, typ, now) - {} == R.Due(d, typ, now);
    }
  }

  lemma DueAfter(d: R.Data, moved: set<Envelope>, typ: string, now: int)
    ensures R.Due(R.Promote(d, moved, now), typ, now) == R.Due(d, typ, now) - OfType(moved, typ)
  {
    forall x: Envelope | x.typ == typ
      ensures x in moved <==> x in OfType(moved, typ)
    {}
  }

  lemma SweepAfterPromotion(r: Run, promoted: Run, r': Run)
    requires Valid(r') && Valid(promoted) && Valid(r) && Continues(r, promoted) && Continues(promoted, r') && IsSweep(promoted, r')
    requires End(r).db == End(promoted).db && End(r).coord.Idle?
    ensures IsSweep(r, r')
  {
    ContinuesTrans(r, promoted, r');
    LoopStepsRun(r, r');
    LoopStepsRun(r, promoted);
    LoopStepsRun(promoted, r');
    forall w | w in End(r).db.workers && End(r).db.workers[w] != P.Gone
      ensures Checked(r, r', w)
    {
      CheckedSince(r, promoted, r', w);
    }
  }

  lemma CheckedSoFar(r: Run, before: Run, after: Run, list: seq<(WorkerId, P.WorkerStatus)>, i: nat)
    requires Valid(after) && Valid(before) && Continues(r, before) && Continues(before, after) && i < |list|
    requires forall j | 0 <= j < i :: list[j].1 != P.Gone ==> Checked(r, before, list[j].0)
    requires list[i].1 != P.Gone ==> Checked(before, after, list[i].0)
    ensures forall j | 0 <= j < i + 1 :: list[j].1 != P.Gone ==> Checked(r, after, list[j].0)
  {
    LoopStepsRun(r, before);
    LoopStepsRun(before, after);
    forall j | 0 <= j < i + 1 && list[j].1 != P.Gone
      ensures Checked(r, after, list[j].0)
    {
      if j < i {
        CheckedStays(r, before, after, list[j].0);
      } else {
        CheckedSince(r, before, after, list[i].0);
      }
    }
  }

  lemma OneWorkerMore(some: seq<Round>, rounds: seq<Round>, d: R.Data, workers: map<WorkerId, P.WorkerStatus>, w: WorkerId,
                      seen: set<WorkerId>, now: int)
    requires Covers(some, d, seen * AllExpired(workers, d, now)) && w !in seen
    requires if Expired(workers, d, w, now) then exists envs :: rounds == some + [Round(w, envs)] && Lists(envs, d, w)
             else rounds == some
    ensures Covers(rounds, d, (seen + {w}) * AllExpired(workers, d, now))
  {
    var all := AllExpired(workers, d, now);
    if Expired(workers, d, w, now) {
      var envs :| rounds == some + [Round(w, envs)] && Lists(envs, d, w);
      assert Workers(rounds) == Workers(some) + {w};
      assert (seen + {w}) * all == seen * all + {w};
      forall i, j | 0 <= i < j < |rounds|
        ensures rounds[i].worker != rounds[j].worker
      {
        assert some[i].worker in Workers(some);
      }
    } else {
      assert (seen + {w}) * all == seen * all;
    }
  }

  function AllExpired(workers: map<WorkerId, P.WorkerStatus>, d: R.Data, now: int): set<WorkerId> {
    set w | w in workers && Expired(workers, d, w, now)
  }

  predicate Expired(workers: map<WorkerId, P.WorkerStatus>, d: R.Data, w: WorkerId, now: int) {
    w in workers && workers[w] != P.Gone && !R.IsAlive(d, w, now)
  }

  lemma WorkersAfter(t: P.Tables, d: R.Data, rounds: seq<Round>, now: int)
    requires Covers(rounds, d, AllExpired(t.workers, d, now))
    ensures var t' := SweptTables(t, rounds, now);
            && t'.workers.Keys == t.workers.Keys
            && forall w | w in t.workers ::
                 t'.workers[w] == if w in d.heartbeats && now < d.heartbeats[w] then t.workers[w] else P.Gone
  {
    SweptWorkers(t, rounds, now);
  }

  function Names(list: seq<(WorkerId, P.WorkerStatus)>): set<WorkerId> { set x | x in list :: x.0 }

  lemma NamesOneMore(list: seq<(WorkerId, P.WorkerStatus)>, i: nat)
    requires i < |list| && forall a, b | 0 <= a < b < |list| :: list[a].0 != list[b].0
    ensures list[i].0 !in Names(list[..i])
    ensures Names(list[..i + 1]) == Names(list[..i]) + {list[i].0}
  {
    assert list[..i + 1] == list[..i] + [list[i]];
  }

  lemma InHash(d: R.Data, k: (WorkerId, TaskId))
    requires k in d.inflight
    ensures d.inflight[k] in R.Hash(d, k.0)
  {}

  lemma DropEmptyHash(d: R.Data, w: WorkerId)
    requires R.Hash(d, w) == {}
    ensures R.DropHash(d, w) == d
  {
    forall k | k in d.inflight
      ensures k.0 != w
    {
      InHash(d, k);
    }
    assert R.DropHash(d, w).inflight == d.inflight;
  }

  lemma RestOf(envs: seq<Envelope>, i: nat)
    requires i < |envs| && DistinctIds(envs)
    ensures envs[i] in Elements(envs[i..])
    ensures Elements(envs[i..]) - {envs[i]} == Elements(envs[i + 1..])
  {
    assert envs[i..] == [envs[i]] + envs[i + 1..];
  }

  lemma Ends(envs: seq<Envelope>)
    ensures envs[0..] == envs == envs[..|envs|] && Elements(envs[|envs|..]) == {}
  {}

  /** The calls for one reclaimed envelope: the dead letter before the row, or one ZADD. */
  function HandOnCalls(e0: Envelope): seq<Wire.Call> {
    var e := e0.(attempts := e0.attempts + 1);
    if e.attempts >= e.maxAttempts then [Wire.RPush(e, "worker died"), Wire.SetDead(e.id)] else [Wire.ZAddReady(e)]
  }

  function HandedCalls(envs: seq<Envelope>): seq<Wire.Call> {
    if envs == [] then [] else HandedCalls(envs[..|envs| - 1]) + HandOnCalls(envs[|envs| - 1])
  }

  lemma OneMore(d: R.Data, t: P.Tables, envs: seq<Envelope>, i: nat, now: int)
    requires i < |envs|
    ensures Handed(d, envs[..i + 1], now) == HandOn(Handed(d, envs[..i], now), envs[i], now)
    ensures Inscribed(t, envs[..i + 1], now) == RecordOn(Inscribed(t, envs[..i], now), envs[i], now)
    ensures HandedCalls(envs[..i + 1]) == HandedCalls(envs[..i]) + HandOnCalls(envs[i])
  {
    assert envs[..i + 1][..i] == envs[..i];
  }

  /** HGETALL, and DEL unless the hash was empty. */
  ghost function ReadHashPath(r: Run, w: WorkerId): (r': Run)
    requires Valid(r) && Enabled(End(r), CheckAlive(w))
    ensures Valid(r') && Continues(r, r')
    ensures End(r') == End(r).(redis := R.DropHash(End(r).redis, w), coord := Sweeping(w, R.Hash(End(r).redis, w)))
  {
    HGetAllEnd(Then(r, CheckAlive(w)), w);
    assert Continues(r, Then(r, CheckAlive(w)));
    assert Continues(r, Then(Then(r, CheckAlive(w)), HGetAll));
    var read := Then(Then(r, CheckAlive(w)), HGetAll);
    if R.Hash(End(r).redis, w) == {} then
      DropEmptyHash(End(r).redis, w);
      read
    else
      DelEnd(read, w, R.Hash(End(r).redis, w));
      Then(read, Del)
  }

  lemma HGetAllEnd(r: Run, w: WorkerId)
    requires Valid(r) && End(r).coord == Suspect(w)
    ensures Valid(Then(r, HGetAll))
    ensures var h := R.Hash(End(r).redis, w);
            End(Then(r, HGetAll)) == End(r).(coord := if h == {} then Sweeping(w, {}) else Snapshot(w, h))
  {}

  lemma DelEnd(r: Run, w: WorkerId, envs: set<Envelope>)
    requires Valid(r) && End(r).coord == Snapshot(w, envs)
    ensures Valid(Then(r, Del))
    ensures End(Then(r, Del)) == End(r).(redis := R.DropHash(End(r).redis, w), coord := Sweeping(w, envs))
  {
    StepEnds(r, Del);
  }

  lemma RequeuedEnd(r: Run, e: Envelope)
    requires Valid(r) && End(r).coord.Sweeping? && e in End(r).coord.envs && e.attempts + 1 < e.maxAttempts
    ensures var s, r' := End(r), Then(r, Requeue(e));
            && Valid(r') && Continues(r, r')
            && End(r') == s.(redis := R.Enqueue(s.redis, R.Bump(e), s.now), coord := Sweeping(s.coord.worker, s.coord.envs - {e}))
  {
    StepEnds(r, Requeue(e));
  }

  /** One turn of the loop over the reclaimed envelopes. */
  ghost function ReturnPath(r: Run, e: Envelope): (r': Run)
    requires Valid(r) && End(r).coord.Sweeping? && e in End(r).coord.envs
    ensures Valid(r') && Continues(r, r')
    ensures var s := End(r); var rest := Sweeping(s.coord.worker, s.coord.envs - {e});
            End(r') == if e.attempts + 1 < e.maxAttempts
                       then s.(redis := R.Enqueue(s.redis, R.Bump(e), s.now), coord := rest)
                       else s.(redis := R.PushDead(s.redis, R.Bump(e), WORKER_DIED, s.now),
                               db := P.MarkDead(s.db, e.id, WORKER_DIED_MID_TASK, s.now), coord := rest)
  {
    if e.attempts + 1 < e.maxAttempts then
      RequeuedEnd(r, e);
      Then(r, Requeue(e))
    else
      PushedEnd(r, e);
      StepEnds(Then(r, SweepDead(e)), SweepMarkDead);
      Then(Then(r, SweepDead(e)), SweepMarkDead)
  }

  lemma PushedEnd(r: Run, e: Envelope)
    requires Valid(r) && End(r).coord.Sweeping? && e in End(r).coord.envs && e.attempts + 1 >= e.maxAttempts
    ensures var s, pushed := End(r), Then(r, SweepDead(e));
            && Valid(pushed) && Continues(r, pushed)
            && End(pushed) == s.(redis := R.PushDead(s.redis, R.Bump(e), WORKER_DIED, s.now),
                                 coord := Interring(s.coord.worker, e, s.coord.envs - {e}))
  {
    StepEnds(r, SweepDead(e));
  }

  ghost function ClosePath(r: Run): (r': Run)
    requires Valid(r) && End(r).coord.Sweeping? && End(r).coord.envs == {}
    ensures Valid(r') && Continues(r, r') && r'.Then? && r'.step == CloseWorker && End(r'.prev).coord.worker == End(r).coord.worker
    ensures var s := End(r);
            End(r') == s.(db := P.MarkWorkerDead(P.RequeueOrphans(s.db, s.coord.worker, s.now), s.coord.worker), coord := Idle)
  {
    StepEnds(r, ResetOrphans);
    StepEnds(Then(r, ResetOrphans), CloseWorker);
    Then(Then(r, ResetOrphans), CloseWorker)
  }

  function Left(n: nat): nat { if n <= R.BATCH then 0 else n - R.BATCH }

  lemma BatchSize(d: R.Data, typ: string, now: int, batch: set<Envelope>)
    requires R.IsBatch(d, typ, now, batch)
    ensures |R.Due(d, typ, now) - batch| == Left(|R.Due(d, typ, now)|)
  {
    assert R.Due(d, typ, now) == (R.Due(d, typ, now) - batch) + batch;
  }

  /** An empty range read ends the promotion; otherwise EXEC follows. */
  ghost function PromotePath(r: Run, typ: string, batch: set<Envelope>): (r': Run)
    requires Valid(r) && End(r).coord.Idle? && R.IsBatch(End(r).redis, typ, End(r).now, batch)
    ensures Valid(r') && Continues(r, r') && End(r').coord.Idle? && End(r').now == End(r).now && End(r').db == End(r).db
    ensures End(r').redis == R.Promote(End(r).redis, batch, End(r).now)
  {
    if batch == {} then
      Q.PromoteNothing(End(r).redis, End(r).now);
      r
    else
      assert Continues(r, Then(r, PromoteRead(typ, batch)));
      Then(Then(r, PromoteRead(typ, batch)), PromoteExec)
  }
}
