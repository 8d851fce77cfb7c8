/** The copies of a task, wherever they are, and what one step does to them.
    Nothing here depends on heartbeats: it holds even when live workers are reclaimed. */
module Tokens {
  import opened Types
  import opened Protocol
  import R = Redis
  import P = Postgres

  /** One place that holds an envelope. */
  datatype Token =
    | AtReady(env: Envelope)
    | AtDelayed(env: Envelope)
    | AtApi(req: Req, env: Envelope)
    | AtRecord(worker: WorkerId, env: Envelope, orphan: bool)   // in-flight hash; orphan: its process is gone
    | AtExec(pid: Pid, exec: Exec)
    | AtSweep(env: Envelope)                                    // reclaimed, before the attempt is counted
    | AtInterring(env: Envelope)

  function EnvOf(t: Token): Envelope {
    match t
    case AtExec(_, x) => x.env
    case other => other.env
  }

  function IdOf(t: Token): TaskId { EnvOf(t).id }

  function Reclaimed(c: Coord): set<Envelope> {
    match c
    case Snapshot(_, envs) => envs
    case Sweeping(_, envs) => envs
    case Interring(_, _, envs) => envs
    case _ => {}
  }

  /** Between HGETALL and DEL a record read by the coordinator counts as reclaimed already. */
  predicate InSnapshot(s: State, w: WorkerId, e: Envelope) {
    s.coord.Snapshot? && s.coord.worker == w && e in s.coord.envs
  }

  predicate Orphaned(s: State, w: WorkerId) { w !in s.procs }

  predicate Holds(s: State, t: Token) {
    match t
    case AtReady(e) => e in s.redis.ready
    case AtDelayed(e) => e in s.redis.delayed
    case AtApi(q, e) => q in s.apis && s.apis[q] == e
    case AtRecord(w, e, orphan) =>
      && (w, e.id) in s.redis.inflight && s.redis.inflight[(w, e.id)] == e
      && orphan == Orphaned(s, w) && !InSnapshot(s, w, e)
    case AtExec(p, x) => p in s.execs && s.execs[p] == x
    case AtSweep(e) => e in Reclaimed(s.coord)
    case AtInterring(e) => s.coord.Interring? && s.coord.env == e
  }

  function RecordAt(s: State, k: (WorkerId, TaskId)): Token
    requires k in s.redis.inflight
  {
    AtRecord(k.0, s.redis.inflight[k], Orphaned(s, k.0))
  }

  function RecordTokens(s: State): set<Token> {
    set k | k in s.redis.inflight && !InSnapshot(s, k.0, s.redis.inflight[k]) :: RecordAt(s, k)
  }

  function TokensOf(s: State): set<Token> {
    (set e | e in s.redis.ready :: AtReady(e))
    + (set e | e in s.redis.delayed :: AtDelayed(e))
    + (set q | q in s.apis :: AtApi(q, s.apis[q]))
    + RecordTokens(s)
    + (set p | p in s.execs :: AtExec(p, s.execs[p]))
    + (set e | e in Reclaimed(s.coord) :: AtSweep(e))
    + (if s.coord.Interring? then {AtInterring(s.coord.env)} else {})
  }

  lemma RecordTokenIff(s: State, t: Token)
    requires WellKeyed(s) && t.AtRecord?
    ensures t in RecordTokens(s) <==> Holds(s, t)
  {
    if Holds(s, t) {
      assert RecordAt(s, (t.worker, t.env.id)) == t;
    }
  }

  lemma TokenIff(s: State, t: Token)
    requires WellKeyed(s)
    ensures t in TokensOf(s) <==> Holds(s, t)
  {
    if t.AtRecord? {
      RecordTokenIff(s, t);
    }
  }

  /** HSET files every envelope under its own id. */
  predicate WellKeyed(s: State) {
    forall k | k in s.redis.inflight :: s.redis.inflight[k].id == k.1
  }

  /** Structure that every step keeps. */
  ghost predicate Wf(s: State) {
    && WellKeyed(s)
    && (forall k | k in s.redis.inflight :: k.0 in s.db.workers)
    && (forall w | w in s.procs :: w in s.db.workers)
    && (forall p | p in s.execs :: s.execs[p].worker in s.procs)
    && (s.coord.Promoting? ==> s.coord.batch != {} && s.coord.batch <= s.redis.delayed.Keys && 0 < s.coord.asOf <= s.now)
    && (s.coord.Suspect? || s.coord.Snapshot? || s.coord.Sweeping? || s.coord.Interring? || s.coord.Closing?
        ==> s.coord.worker in s.db.workers)
    && 0 < s.now < CLOCK_END && GoodConfig(s.cfg)
  }

  lemma KeysStep(s: State, st: Step)
    requires Wf(s) && Enabled(s, st)
    ensures WellKeyed(Apply(s, st))
    ensures forall k | k in Apply(s, st).redis.inflight :: k.0 in Apply(s, st).db.workers
  {}

  lemma ProcsStep(s: State, st: Step)
    requires Wf(s) && Enabled(s, st)
    ensures forall w | w in Apply(s, st).procs :: w in Apply(s, st).db.workers
    ensures forall p | p in Apply(s, st).execs :: Apply(s, st).execs[p].worker in Apply(s, st).procs
  {}

  lemma WfStep(s: State, st: Step)
    requires Wf(s) && Enabled(s, st)
    ensures Wf(Apply(s, st))
  {
    KeysStep(s, st);
    ProcsStep(s, st);
  }

  /** The tokens that a step takes away. */
  function Removed(s: State, st: Step): set<Token>
    requires Enabled(s, st)
  {
    match st
    case ApiEnqueue(q) => {AtApi(q, s.apis[q])}
    case ApiCrash(q) => {AtApi(q, s.apis[q])}
    case LeaseHit(_, e, _) => {AtReady(e)}
    case Crash(w) =>
      (set p | p in s.execs && s.execs[p].worker == w :: AtExec(p, s.execs[p])) + RecordsOf(s, w)
    case Reject(p) => {AtExec(p, s.execs[p])}
    case MarkRunning(p) => {AtExec(p, s.execs[p])}
    case Ack(p) => {AtExec(p, s.execs[p])}
    case Nack(p) => {AtExec(p, s.execs[p])}
    case MarkSucceeded(p) => {AtExec(p, s.execs[p])}
    case DeadLetter(p, _) => {AtExec(p, s.execs[p])}
    case MarkDead(p) => {AtExec(p, s.execs[p])}
    case Park(p, _) => {AtExec(p, s.execs[p])}
    case MarkRetry(p, _) => {AtExec(p, s.execs[p])}
    case PromoteExec => set e | e in s.coord.batch && e in s.redis.delayed :: AtDelayed(e)
    case HGetAll => RecordsOf(s, s.coord.worker)
    case Requeue(e) => {AtSweep(e)}
    case SweepDead(e) => {AtSweep(e)}
    case SweepMarkDead => {AtInterring(s.coord.env)}
    case CoordCrash => set e | e in Reclaimed(s.coord) :: AtSweep(e)
    case _ => {}
  }

  /** The records that still count for worker w. */
  function RecordsOf(s: State, w: WorkerId): set<Token> {
    set k | k in s.redis.inflight && k.0 == w && !InSnapshot(s, w, s.redis.inflight[k]) :: RecordAt(s, k)
  }

  /** The tokens that a step puts somewhere. */
  function Added(s: State, st: Step): set<Token>
    requires Enabled(s, st)
  {
    match st
    case CreateRow(q, id, _, _, _, _) => {AtApi(q, P.FreshEnvelope(id, NewRow(st, s.now)))}
    case RedriveRow(q, id) => {AtApi(q, P.FreshEnvelope(id, s.db.rows[id]))}
    case ApiEnqueue(q) => {AtReady(R.Stamped(s.apis[q], s.now))}
    case LeaseHit(w, e, p) => {AtRecord(w, e, false), AtExec(p, Exec(w, e, Leased))}
    case Crash(w) => set t | t in RecordsOf(s, w) :: t.(orphan := true)
    case Reject(p) => {AtExec(p, s.execs[p].(phase := Rejected))}
    case MarkRunning(p) => {AtExec(p, s.execs[p].(phase := Started))}
    case Ack(p) => {AtExec(p, s.execs[p].(phase := Acked))}
    case Nack(p) => {AtExec(p, Exec(s.execs[p].worker, R.Bump(s.execs[p].env), Nacked))}
    case DeadLetter(p, reason) => {AtExec(p, s.execs[p].(phase := Buried(reason)))}
    case Park(p, at) => {AtExec(p, s.execs[p].(phase := Parked(at))), AtDelayed(s.execs[p].env)}
    case PromoteExec => set m | m in R.Restamp(s.coord.batch, s.coord.asOf) :: AtReady(m)
    case HGetAll => set t | t in RecordsOf(s, s.coord.worker) :: AtSweep(t.env)
    case Requeue(e) => {AtReady(R.Stamped(R.Bump(e), s.now))}
    case SweepDead(e) => {AtInterring(e)}
    case CoordCrash =>
      if s.coord.Snapshot?
      then set e | e in s.coord.envs :: AtRecord(s.coord.worker, e, Orphaned(s, s.coord.worker))
      else {}
    case _ => {}
  }

  lemma RemovedIsHeld(s: State, st: Step, t: Token)
    requires Wf(s) && Enabled(s, st) && t in Removed(s, st)
    ensures Holds(s, t)
  {}

  predicate MovesMany(st: Step) {
    st.Crash? || st.PromoteExec? || st.HGetAll? || st.CoordCrash?
  }

  predicate ByExec(st: Step) {
    || st.Reject? || st.MarkRunning? || st.Ack? || st.Nack? || st.MarkSucceeded?
    || st.DeadLetter? || st.MarkDead? || st.Park? || st.MarkRetry?
  }

  /** HDEL. */
  predicate Unleases(st: Step) { st.Reject? || st.Ack? || st.Nack? }

  lemma OriginOfExec(s: State, st: Step, t: Token)
    requires Wf(s) && Enabled(s, st) && Holds(Apply(s, st), t) && ByExec(st) && t.AtExec?
    ensures t in Added(s, st) || (Holds(s, t) && t !in Removed(s, st))
  {}

  lemma OriginOfRecord(s: State, st: Step, t: Token)
    requires Wf(s) && Enabled(s, st) && Holds(Apply(s, st), t) && ByExec(st) && t.AtRecord?
    ensures Holds(s, t) && t !in Removed(s, st)
  {}

  lemma OriginByExec(s: State, st: Step, t: Token)
    requires Wf(s) && Enabled(s, st) && Holds(Apply(s, st), t) && ByExec(st)
    ensures t in Added(s, st) || (Holds(s, t) && t !in Removed(s, st))
  {
    if t.AtExec? {
      OriginOfExec(s, st, t);
    } else if t.AtRecord? {
      OriginOfRecord(s, st, t);
    }
  }

  lemma OriginCrash(s: State, w: WorkerId, t: Token)
    requires Wf(s) && Enabled(s, Crash(w)) && Holds(Apply(s, Crash(w)), t)
    ensures t in Added(s, Crash(w)) || (Holds(s, t) && t !in Removed(s, Crash(w)))
  {
    if t.AtRecord? && t.worker == w {
      var before := RecordAt(s, (w, t.env.id));
      assert before in RecordsOf(s, w);
      assert before.(orphan := true) == t;
    }
  }

  lemma RecordIsRead(s: State, k: (WorkerId, TaskId))
    requires Wf(s) && s.coord.Suspect? && k in s.redis.inflight && k.0 == s.coord.worker
    ensures s.redis.inflight[k] in R.Hash(s.redis, k.0)
    ensures RecordAt(s, k) in RecordsOf(s, k.0)
    ensures AtSweep(s.redis.inflight[k]) in Added(s, HGetAll)
  {
    assert RecordAt(s, k) in RecordsOf(s, k.0);
  }

  lemma OriginHGetAll(s: State, t: Token)
    requires Wf(s) && Enabled(s, HGetAll) && Holds(Apply(s, HGetAll), t)
    ensures t in Added(s, HGetAll) || (Holds(s, t) && t !in Removed(s, HGetAll))
  {
    var w := s.coord.worker;
    if t.AtSweep? {
      assert t.env in R.Hash(s.redis, w);
      RecordIsRead(s, (w, t.env.id));
    } else if t.AtRecord? && t.worker == w {
      RecordIsRead(s, (w, t.env.id));
    }
  }

  lemma OriginPromote(s: State, st: Step, t: Token)
    requires Wf(s) && Enabled(s, st) && Holds(Apply(s, st), t) && (st.PromoteExec? || st.CoordCrash?)
    ensures t in Added(s, st) || (Holds(s, t) && t !in Removed(s, st))
  {}

  lemma OriginRecordByCoord(s: State, st: Step, t: Token)
    requires Wf(s) && Enabled(s, st) && Holds(Apply(s, st), t) && !MovesMany(st) && ByCoord(st) && t.AtRecord?
    ensures Holds(s, t) && t !in Removed(s, st)
  {}

  lemma OriginRecordOther(s: State, st: Step, t: Token)
    requires Wf(s) && Enabled(s, st) && Holds(Apply(s, st), t) && !MovesMany(st) && !ByExec(st) && t.AtRecord?
    ensures t in Added(s, st) || (Holds(s, t) && t !in Removed(s, st))
  {
    if ByCoord(st) {
      OriginRecordByCoord(s, st, t);
    }
  }

  lemma OriginOther(s: State, st: Step, t: Token)
    requires Wf(s) && Enabled(s, st) && Holds(Apply(s, st), t) && !MovesMany(st) && !ByExec(st)
    ensures t in Added(s, st) || (Holds(s, t) && t !in Removed(s, st))
  {
    if t.AtRecord? {
      OriginRecordOther(s, st, t);
    }
  }

  /** A step changes the tokens by no more than `Removed` and `Added`: nothing is duplicated silently. */
  lemma TokensStep(s: State, st: Step)
    requires Wf(s) && Enabled(s, st)
    ensures Removed(s, st) <= TokensOf(s)
    ensures TokensOf(Apply(s, st)) <= (TokensOf(s) - Removed(s, st)) + Added(s, st)
  {
    var s' := Apply(s, st);
    WfStep(s, st);
    forall t | t in TokensOf(s')
      ensures t in (TokensOf(s) - Removed(s, st)) + Added(s, st)
    {
      TokenIff(s', t);
      TokenIff(s, t);
      if ByExec(st) {
        OriginByExec(s, st, t);
      } else if st.Crash? {
        OriginCrash(s, st.worker, t);
      } else if st.HGetAll? {
        OriginHGetAll(s, t);
      } else if MovesMany(st) {
        OriginPromote(s, st, t);
      } else {
        OriginOther(s, st, t);
      }
    }
    forall t | t in Removed(s, st)
      ensures t in TokensOf(s)
    {
      RemovedIsHeld(s, st, t);
      TokenIff(s, t);
    }
  }
}
