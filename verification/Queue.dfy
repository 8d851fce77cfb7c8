/** The queue object: each method sends its commands to Redis, here the object's own fields. */
module Queue {
  import opened Types
  import R = Redis
  import Score
  import Wire

  // ---- Redis can always answer ----

  lemma {:induction false} NextExists(d: R.Data, typ: string, among: set<Envelope>) returns (e: Envelope)
    requires among != {} && among <= R.ReadyOf(d, typ)
    ensures e in among && forall x | x in among :: d.ready[e] <= d.ready[x]
    decreases among
  {
    e :| e in among;
    if among != {e} {
      var m := NextExists(d, typ, among - {e});
      if d.ready[m] < d.ready[e] {
        e := m;
      }
    }
  }

  ghost predicate IsFirst(d: R.Data, all: set<Envelope>, part: set<Envelope>)
    requires all <= d.delayed.Keys
  {
    part <= all && forall e, x | e in part && x in all - part :: d.delayed[e] <= d.delayed[x]
  }

  lemma {:induction false} EarliestExists(d: R.Data, all: set<Envelope>) returns (e: Envelope)
    requires all != {} && all <= d.delayed.Keys
    ensures e in all && forall x | x in all :: d.delayed[e] <= d.delayed[x]
    decreases all
  {
    e :| e in all;
    if all != {e} {
      var m := EarliestExists(d, all - {e});
      if d.delayed[m] < d.delayed[e] {
        e := m;
      }
    }
  }

  lemma {:induction false} FirstExist(d: R.Data, all: set<Envelope>, k: nat) returns (part: set<Envelope>)
    requires all <= d.delayed.Keys && k <= |all|
    ensures IsFirst(d, all, part) && |part| == k
    decreases k
  {
    part := {};
    if k > 0 {
      var e := EarliestExists(d, all);
      var rest := FirstExist(d, all - {e}, k - 1);
      part := rest + {e};
    }
  }

  lemma BatchExists(d: R.Data, typ: string, now: int) returns (batch: set<Envelope>)
    ensures R.IsBatch(d, typ, now, batch)
  {
    var due := R.Due(d, typ, now);
    if |due| <= R.BATCH {
      batch := due;
    } else {
      batch := FirstExist(d, due, R.BATCH);
    }
  }

  class Queue {
    var ready: map<Envelope, int>
    var delayed: map<Envelope, int>
    var inflight: map<(WorkerId, TaskId), Envelope>
    var dlq: seq<R.DeadLetter>
    var heartbeats: map<WorkerId, int>
    const log: Wire.Log

    function Image(): R.Data
      reads this
    {
      R.Data(ready, delayed, inflight, dlq, heartbeats)
    }

    constructor (log: Wire.Log)
      ensures Image() == R.EMPTY && this.log == log
    {
      this.log := log;
      ready, delayed, inflight, dlq, heartbeats := map[], map[], map[], [], map[];
    }

    method Enqueue(e0: Envelope, now: int)
      modifies this, log
      ensures log.calls == old(log.calls) + [Wire.ZAddReady(R.Stamped(e0, now))]
      ensures Image() == R.Enqueue(old(Image()), e0, now)
      ensures var stamp := if e0.enqueuedAt == 0 then now else e0.enqueuedAt; var e := e0.(enqueuedAt := stamp);
              && ready.Keys == old(ready).Keys + {e} && (forall x | x in old(ready) && x != e :: ready[x] == old(ready)[x])
              && (0 <= stamp < 10_000_000_000_000 ==>
                    ready[e] == stamp + 10_000_000_000_000 * if e.priority < 0 then 0 else if e.priority > 9 then 9 else e.priority)
      ensures delayed == old(delayed) && inflight == old(inflight) && dlq == old(dlq) && heartbeats == old(heartbeats)
    {
      log.calls := log.calls + [Wire.ZAddReady(R.Stamped(e0, now))];
      var e := e0;
      if e.enqueuedAt == 0 {
        e := e.(enqueuedAt := now);
      }
      var score := R.ScoreOf(e);
      if 0 <= e.enqueuedAt < 10_000_000_000_000 {
        Score.PriorityScoreExact(e.priority, e.enqueuedAt);
      }
      ready := ready[e := score];
    }

    method EnqueueDelayed(e: Envelope, at: int)
      modifies this, log
      ensures log.calls == old(log.calls) + [Wire.ZAddDelayed(e, at)]
      ensures Image() == R.EnqueueDelayed(old(Image()), e, at) && delayed == old(delayed)[e := at]
    {
      log.calls := log.calls + [Wire.ZAddDelayed(e, at)];
      delayed := delayed[e := at];
    }

    /** ZPOPMIN returns a member of least score; None stands for ErrEmpty. */
    method Lease(typ: string, w: WorkerId) returns (popped: Option<Envelope>)
      modifies this, log
      ensures log.calls == old(log.calls) + [Wire.LeaseScript(typ)]
      ensures popped.None? ==> R.ReadyOf(old(Image()), typ) == {} && Image() == old(Image())
      ensures popped.None? <==> forall e | e in old(ready) :: e.typ != typ
      ensures popped.Some? ==> R.IsNext(old(Image()), typ, popped.value)
      ensures popped.Some? ==>
        && popped.value in old(ready) && popped.value.typ == typ
        && forall x | x in old(ready) && x.typ == typ :: old(ready)[popped.value] <= old(ready)[x]
      ensures popped.Some? ==> Image() == R.Lease(old(Image()), w, popped.value)
      ensures popped.Some? ==>
        ready == old(ready) - {popped.value} && inflight == old(inflight)[(w, popped.value.id) := popped.value]
      ensures delayed == old(delayed) && dlq == old(dlq) && heartbeats == old(heartbeats)
    {
      log.calls := log.calls + [Wire.LeaseScript(typ)];
      assert forall e | e in ready && e.typ == typ :: e in R.ReadyOf(Image(), typ);
      if R.ReadyOf(Image(), typ) == {} {
        return None;
      }
      ghost var first := NextExists(Image(), typ, R.ReadyOf(Image(), typ));
      assert first in R.ReadyOf(Image(), typ);
      var e :| e in ready && e.typ == typ && forall x | x in ready && x.typ == typ :: ready[e] <= ready[x];
      ready := ready - {e};
      inflight := inflight[(w, e.id) := e];
      return Some(e);
    }

    /** Tries the types in order; the first that has work decides. */
    method LeaseAny(types: seq<string>, w: WorkerId) returns (popped: Option<Envelope>, tried: nat)
      modifies this, log
      ensures tried <= |types|
      ensures forall i | 0 <= i < tried :: R.ReadyOf(old(Image()), types[i]) == {}
      ensures popped.None? ==> tried == |types| && Image() == old(Image())
      ensures popped.Some? ==> tried < |types| && R.IsNext(old(Image()), types[tried], popped.value)
      ensures log.calls == old(log.calls) + Scripts(types[..if popped.Some? then tried + 1 else tried])
      ensures popped.Some? ==> Image() == R.Lease(old(Image()), w, popped.value)
      ensures forall i, e | 0 <= i < tried && e in old(ready) :: e.typ != types[i]
      ensures popped.Some? ==>
        && popped.value in old(ready) && popped.value.typ == types[tried]
        && (forall x | x in old(ready) && x.typ == types[tried] :: old(ready)[popped.value] <= old(ready)[x])
        && ready == old(ready) - {popped.value} && inflight == old(inflight)[(w, popped.value.id) := popped.value]
    {
      tried := 0;
      while tried < |types|
        invariant tried <= |types|
        invariant forall i | 0 <= i < tried :: R.ReadyOf(old(Image()), types[i]) == {}
        invariant forall i, e | 0 <= i < tried && e in old(ready) :: e.typ != types[i]
        invariant Image() == old(Image()) && log.calls == old(log.calls) + Scripts(types[..tried])
      {
        ScriptsOneMore(types, tried);
        popped := Lease(types[tried], w);
        if popped.Some? {
          return;
        }
        tried := tried + 1;
      }
      popped := None;
      assert types[..tried] == types;
    }

    method Ack(w: WorkerId, id: TaskId)
      modifies this, log
      ensures log.calls == old(log.calls) + [Wire.HDel(w, id)]
      ensures Image() == R.Unlease(old(Image()), w, id) && inflight == old(inflight) - {(w, id)}
    {
      log.calls := log.calls + [Wire.HDel(w, id)];
      inflight := inflight - {(w, id)};
    }

    method Nack(w: WorkerId, id: TaskId)
      modifies this, log
      ensures log.calls == old(log.calls) + [Wire.HDel(w, id)]
      ensures Image() == R.Unlease(old(Image()), w, id) && inflight == old(inflight) - {(w, id)}
    {
      log.calls := log.calls + [Wire.HDel(w, id)];
      inflight := inflight - {(w, id)};
    }

    method DeadLetter(e: Envelope, reason: string, now: int)
      modifies this, log
      ensures log.calls == old(log.calls) + [Wire.RPush(e, reason)]
      ensures Image() == R.PushDead(old(Image()), e, reason, now) && dlq == old(dlq) + [R.DeadLetter(e, reason, now)]
    {
      log.calls := log.calls + [Wire.RPush(e, reason)];
      dlq := dlq + [R.DeadLetter(e, reason, now)];
    }

    method Heartbeat(w: WorkerId, ttl: int, now: int)
      modifies this, log
      ensures log.calls == old(log.calls) + [Wire.SetHeartbeat(w)]
      ensures Image() == R.Beat(old(Image()), w, now + ttl) && heartbeats == old(heartbeats)[w := now + ttl]
    {
      log.calls := log.calls + [Wire.SetHeartbeat(w)];
      heartbeats := heartbeats[w := now + ttl];
    }

    method IsAlive(w: WorkerId, now: int) returns (alive: bool)
      ensures alive == R.IsAlive(Image(), w, now)
      ensures alive <==> w in heartbeats && now < heartbeats[w]
    {
      alive := w in heartbeats && now < heartbeats[w];
    }

    /** HGETALL, a loop over the values, DEL.  Every record comes out once. */
    method ReclaimInflight(w: WorkerId) returns (envs: seq<Envelope>)
      requires forall k | k in inflight :: inflight[k].id == k.1
      modifies this, log
      ensures log.calls == old(log.calls) + if envs == [] then [] else [Wire.DelHash(w)]
      ensures Image() == R.DropHash(old(Image()), w)
      ensures (set e | e in envs) == R.Hash(old(Image()), w)
      ensures forall i, j | 0 <= i < j < |envs| :: envs[i].id != envs[j].id
      ensures forall k | k in old(inflight) ::
        if k.0 == w then k !in inflight && old(inflight)[k] in envs else k in inflight && inflight[k] == old(inflight)[k]
      ensures forall e | e in envs :: (w, e.id) in old(inflight) && old(inflight)[(w, e.id)] == e
      ensures ready == old(ready) && delayed == old(delayed) && dlq == old(dlq) && heartbeats == old(heartbeats)
    {
      var all := map k | k in inflight && k.0 == w :: inflight[k];
      var left := all.Keys;
      envs := [];
      while left != {}
        invariant left <= all.Keys && Image() == old(Image()) && log.calls == old(log.calls)
        invariant envs == [] <==> left == all.Keys
        invariant forall e :: e in envs <==> exists k :: k in all && k !in left && all[k] == e
        invariant forall i, j | 0 <= i < j < |envs| :: envs[i].id != envs[j].id
        decreases left
      {
        var k :| k in left;
        forall e | e in envs
          ensures e.id != all[k].id
        {
          var k' :| k' in all && k' !in left && all[k'] == e;
          assert k' == (w, e.id) && k == (w, all[k].id);
        }
        envs := envs + [all[k]];
        left := left - {k};
      }
      forall e | e in R.Hash(old(Image()), w)
        ensures e in envs
      {
        var k :| k in inflight && k.0 == w && inflight[k] == e;
        assert k in all && all[k] == e;
      }
      if |all| > 0 {
        log.calls := log.calls + [Wire.DelHash(w)];
        inflight := map k | k in inflight && k.0 != w :: inflight[k];
      } else {
        assert all.Keys == {};
        assert forall k | k in inflight && k.0 == w :: k in all.Keys;
        assert (map k | k in inflight && k.0 != w :: inflight[k]) == inflight;
      }
    }

    /** ZRANGEBYSCORE with LIMIT 0 256. */
    method ReadDue(typ: string, now: int) returns (members: set<Envelope>)
      ensures R.IsBatch(Image(), typ, now, members)
      ensures forall e | e in members :: e in delayed && e.typ == typ && delayed[e] <= now
      ensures |members| <= 256
      ensures forall x | x in delayed && x.typ == typ && delayed[x] <= now && x !in members ::
        |members| == 256 && forall e | e in members :: delayed[e] <= delayed[x]
    {
      ghost var some := BatchExists(Image(), typ, now);
      members :| members <= R.Due(Image(), typ, now) && R.IsBatch(Image(), typ, now, members);
    }

    /** The loop that queues a ZREM and a ZADD per member. */
    static method Pipeline(members: set<Envelope>, now: int) returns (removed: set<Envelope>, added: map<Envelope, int>)
      ensures removed == members
      ensures added == R.ScoresOf(R.Restamp(members, now))
      ensures added.Keys == set e | e in members :: e.(enqueuedAt := now)
    {
      var left := members;
      removed, added := {}, map[];
      while left != {}
        invariant left <= members && removed == members - left
        invariant added == R.ScoresOf(R.Restamp(removed, now))
        decreases left
      {
        var e :| e in left;
        RestampOneMore(removed, e, now);
        removed := removed + {e};
        added := added[e.(enqueuedAt := now) := R.ScoreOf(e.(enqueuedAt := now))];
        left := left - {e};
      }
    }

    /** The queued commands run together at EXEC. */
    method PromoteDelayed(typ: string, now: int) returns (n: nat, ghost batch: set<Envelope>)
      modifies this, log
      ensures log.calls == old(log.calls) + if batch == {} then [] else [Wire.ExecPromotion(batch)]
      ensures R.IsBatch(old(Image()), typ, now, batch) && n == |batch|
      ensures Image() == R.Promote(old(Image()), batch, now)
      ensures delayed == old(delayed) - batch && inflight == old(inflight) && dlq == old(dlq) && heartbeats == old(heartbeats)
      ensures ready.Keys == old(ready).Keys + set e | e in batch :: e.(enqueuedAt := now)
    {
      var members := ReadDue(typ, now);
      batch := members;
      n := |members|;
      if n == 0 {
        PromoteNothing(Image(), now);
        return;
      }
      var removed, added := Pipeline(members, now);
      log.calls := log.calls + [Wire.ExecPromotion(batch)];
      delayed := delayed - removed;
      ready := ready + added;
    }
  }

  /** The leases that `LeaseAny` tries. */
  function Scripts(types: seq<string>): seq<Wire.Call> {
    seq(|types|, i requires 0 <= i < |types| => Wire.LeaseScript(types[i]))
  }

  lemma ScriptsOneMore(types: seq<string>, i: nat)
    requires i < |types|
    ensures Scripts(types[..i + 1]) == Scripts(types[..i]) + [Wire.LeaseScript(types[i])]
  {}

  lemma RestampOneMore(some: set<Envelope>, e: Envelope, now: int)
    ensures var m := e.(enqueuedAt := now);
            R.ScoresOf(R.Restamp(some + {e}, now)) == R.ScoresOf(R.Restamp(some, now))[m := R.ScoreOf(m)]
  {
    assert R.Restamp(some + {e}, now) == R.Restamp(some, now) + {e.(enqueuedAt := now)};
  }

  lemma PromoteNothing(d: R.Data, now: int)
    ensures R.Promote(d, {}, now) == d
  {
    assert R.Restamp({}, now) == {};
  }
}
