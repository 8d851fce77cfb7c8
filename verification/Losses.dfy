/** How the last copy of a task can go, in every run, also with live workers declared dead. */
module Losses {
  import opened Types
  import opened Protocol
  import opened Tokens
  import opened Envelopes
  import opened Copies
  import R = Redis

  /** Before DEL the record that the coordinator has read is still in the hash of its dead worker. */
  predicate StillInHash(s: State, e: Envelope) {
    && s.coord.Snapshot? && s.coord.worker !in s.procs
    && (s.coord.worker, e.id) in s.redis.inflight && s.redis.inflight[(s.coord.worker, e.id)] == e
  }

  /** The step takes this copy away and puts none in its place: it delivers the task, kills the process
      that has it in hand, or wipes a record that the coordinator has not read. */
  predicate Takes(s: State, st: Step, t: Token)
    requires Enabled(s, st)
  {
    match t
    case AtApi(q, _) => st == ApiCrash(q)
    case AtExec(p, x) =>
      || ((st.MarkSucceeded? || st.DeadLetter?) && st.pid == p)
      || (st == Crash(x.worker) && (x.worker, x.env.id) !in s.redis.inflight)
    case AtSweep(e) => (st == SweepDead(e)) || (st.CoordCrash? && !StillInHash(s, e))
    case AtRecord(w, _, _) => st.Del? && s.coord.worker == w
    case _ => false
  }

  lemma CopyIff(s: State, t: Token, id: TaskId)
    requires Wf(s)
    ensures t in CopiesOf(s, id) <==> Holds(s, t) && IsCopy(t) && IdOf(t) == id
  {
    TokenIff(s, t);
  }

  // ---- A copy that is not taken leaves one behind ----

  lemma GoesOnByExec(s: State, st: Step, t: Token) returns (t': Token)
    requires Wf(s) && Enabled(s, st) && ByExec(st) && Holds(s, t) && IsCopy(t) && !Takes(s, st, t)
    ensures Holds(Apply(s, st), t') && IsCopy(t') && IdOf(t') == IdOf(t)
  {
    if t.AtExec? && t.pid == st.pid {
      t' := if st.Park? then AtDelayed(t.exec.env) else AtExec(st.pid, Apply(s, st).execs[st.pid]);
    } else {
      t' := t;
      OtherStays(s, st, t);
    }
  }

  lemma OtherStays(s: State, st: Step, t: Token)
    requires Wf(s) && Enabled(s, st) && ByExec(st) && Holds(s, t) && IsCopy(t) && !(t.AtExec? && t.pid == st.pid)
    ensures Holds(Apply(s, st), t)
  {}

  lemma GoesOnAtCrash(s: State, w: WorkerId, t: Token) returns (t': Token)
    requires Wf(s) && w in s.procs && Holds(s, t) && IsCopy(t) && !Takes(s, Crash(w), t)
    ensures Holds(Apply(s, Crash(w)), t') && IsCopy(t') && IdOf(t') == IdOf(t)
  {
    if t.AtExec? && t.exec.worker == w {
      var e := s.redis.inflight[(w, t.exec.env.id)];
      t' := if InSnapshot(s, w, e) then AtSweep(e) else AtRecord(w, e, true);
    } else {
      t' := t;
    }
  }

  predicate BySweep(st: Step) { st.HGetAll? || st.Del? || st.Requeue? || st.SweepDead? || st.CoordCrash? }

  lemma GoesOnByPromotion(s: State, t: Token) returns (t': Token)
    requires Enabled(s, PromoteExec) && Holds(s, t) && IsCopy(t)
    ensures Holds(Apply(s, PromoteExec), t') && IsCopy(t') && IdOf(t') == IdOf(t)
  {
    t' := t;
    if t.AtDelayed? && t.env in s.coord.batch {
      t' := AtReady(t.env.(enqueuedAt := s.coord.asOf));
      assert t'.env in R.Restamp(s.coord.batch, s.coord.asOf);
    }
  }

  lemma GoesOnByHGetAll(s: State, t: Token) returns (t': Token)
    requires Wf(s) && Enabled(s, HGetAll) && Holds(s, t) && IsCopy(t)
    ensures Holds(Apply(s, HGetAll), t') && IsCopy(t') && IdOf(t') == IdOf(t)
  {
    t' := t;
    if t.AtRecord? && t.worker == s.coord.worker {
      t' := AtSweep(t.env);
      RecordIsRead(s, (t.worker, t.env.id));
    }
  }

  lemma GoesOnAtCoordCrash(s: State, t: Token) returns (t': Token)
    requires Wf(s) && Holds(s, t) && IsCopy(t) && !Takes(s, CoordCrash, t)
    ensures Holds(Apply(s, CoordCrash), t') && IsCopy(t') && IdOf(t') == IdOf(t)
  {
    t' := if t.AtSweep? then AtRecord(s.coord.worker, t.env, true) else t;
  }

  lemma GoesOnBySweep(s: State, st: Step, t: Token) returns (t': Token)
    requires Wf(s) && Enabled(s, st) && Holds(s, t) && IsCopy(t) && !Takes(s, st, t)
    requires st.Del? || st.Requeue? || st.SweepDead?
    ensures Holds(Apply(s, st), t') && IsCopy(t') && IdOf(t') == IdOf(t)
  {
    t' := t;
    if st.Del? {
      DelLeaves(s, t);
    } else if st.Requeue? && t == AtSweep(st.env) {
      t' := AtReady(R.Stamped(R.Bump(t.env), s.now));
    }
  }

  lemma DelLeaves(s: State, t: Token)
    requires Wf(s) && Enabled(s, Del) && IsCopy(t)
    ensures Holds(Apply(s, Del), t) <==> Holds(s, t) && !Takes(s, Del, t)
  {}

  lemma GoesOnOther(s: State, st: Step, t: Token) returns (t': Token)
    requires Wf(s) && Enabled(s, st) && !ByExec(st) && !st.Crash? && Holds(s, t) && IsCopy(t) && !Takes(s, st, t)
    requires !BySweep(st) && !st.PromoteExec?
    ensures Holds(Apply(s, st), t') && IsCopy(t') && IdOf(t') == IdOf(t)
  {
    t' := t;
    if st.LeaseHit? && t == AtReady(st.env) {
      t' := AtExec(st.pid, Exec(st.worker, st.env, Leased));
    } else if st.ApiEnqueue? && t == AtApi(st.req, s.apis[st.req]) {
      t' := AtReady(R.Stamped(t.env, s.now));
    }
  }

  lemma GoesOn(s: State, st: Step, t: Token) returns (t': Token)
    requires Wf(s) && Enabled(s, st) && Holds(s, t) && IsCopy(t) && !Takes(s, st, t)
    ensures Holds(Apply(s, st), t') && IsCopy(t') && IdOf(t') == IdOf(t)
  {
    if ByExec(st) {
      t' := GoesOnByExec(s, st, t);
    } else if st.Crash? {
      t' := GoesOnAtCrash(s, st.worker, t);
    } else if st.PromoteExec? {
      t' := GoesOnByPromotion(s, t);
    } else if st.HGetAll? {
      t' := GoesOnByHGetAll(s, t);
    } else if st.CoordCrash? {
      t' := GoesOnAtCoordCrash(s, t);
    } else if BySweep(st) {
      t' := GoesOnBySweep(s, st, t);
    } else {
      t' := GoesOnOther(s, st, t);
    }
  }

  // ---- A copy comes from one that is not taken ----

  predicate Renews(st: Step, id: TaskId) { (st.CreateRow? || st.RedriveRow?) && st.id == id }

  lemma CameByExec(s: State, st: Step, t': Token) returns (t: Token)
    requires Wf(s) && Enabled(s, st) && ByExec(st) && Holds(Apply(s, st), t') && IsCopy(t')
    ensures Holds(s, t) && IsCopy(t) && IdOf(t) == IdOf(t') && !Takes(s, st, t)
  {
    if t' in Added(s, st) {
      t := AtExec(st.pid, s.execs[st.pid]);
      AddedGoesOn(s, st, t');
    } else {
      t := t';
      OriginByExec(s, st, t');
    }
  }

  lemma AddedGoesOn(s: State, st: Step, t': Token)
    requires Enabled(s, st) && ByExec(st) && t' in Added(s, st) && IsCopy(t')
    ensures var t := AtExec(st.pid, s.execs[st.pid]); IsCopy(t) && IdOf(t') == IdOf(t) && !Takes(s, st, t)
  {}

  lemma CameThroughCrash(s: State, w: WorkerId, t': Token) returns (t: Token)
    requires Wf(s) && Covered(s) && w in s.procs && Holds(Apply(s, Crash(w)), t') && IsCopy(t')
    ensures Holds(s, t) && IsCopy(t) && IdOf(t) == IdOf(t') && !Takes(s, Crash(w), t)
  {
    if t'.AtRecord? && t'.worker == w {
      var p := CoverOf(s, w, t'.env.id);
      t := AtExec(p, s.execs[p]);
    } else {
      t := t';
    }
  }

  lemma CameByPromotion(s: State, t': Token) returns (t: Token)
    requires Wf(s) && Enabled(s, PromoteExec) && Holds(Apply(s, PromoteExec), t') && IsCopy(t')
    ensures Holds(s, t) && IsCopy(t) && IdOf(t) == IdOf(t') && !Takes(s, PromoteExec, t)
  {
    t := t';
    if t'.AtReady? && t'.env !in s.redis.ready {
      var e :| e in s.coord.batch && e.(enqueuedAt := s.coord.asOf) == t'.env;
      t := AtDelayed(e);
    }
  }

  lemma CameByHGetAll(s: State, t': Token) returns (t: Token)
    requires Wf(s) && Covered(s) && Enabled(s, HGetAll) && Holds(Apply(s, HGetAll), t') && IsCopy(t')
    ensures Holds(s, t) && IsCopy(t) && IdOf(t) == IdOf(t') && !Takes(s, HGetAll, t)
  {
    t := t';
    if t'.AtSweep? {
      var k :| k in s.redis.inflight && k.0 == s.coord.worker && s.redis.inflight[k] == t'.env;
      if k.0 in s.procs {
        var p := CoverOf(s, k.0, k.1);
        t := AtExec(p, s.execs[p]);
      } else {
        t := AtRecord(k.0, t'.env, true);
      }
    }
  }

  lemma CameThroughCoordCrash(s: State, t': Token) returns (t: Token)
    requires Wf(s) && Holds(Apply(s, CoordCrash), t') && IsCopy(t')
    ensures Holds(s, t) && IsCopy(t) && IdOf(t) == IdOf(t') && !Takes(s, CoordCrash, t)
  {
    t := if t'.AtRecord? && !Holds(s, t') then AtSweep(t'.env) else t';
  }

  lemma CameBySweep(s: State, st: Step, t': Token) returns (t: Token)
    requires Wf(s) && Enabled(s, st) && Holds(Apply(s, st), t') && IsCopy(t') && (st.Del? || st.Requeue? || st.SweepDead?)
    ensures Holds(s, t) && IsCopy(t) && IdOf(t) == IdOf(t') && !Takes(s, st, t)
  {
    if st.Del? {
      t := t';
      DelLeaves(s, t);
    } else {
      t := if st.Requeue? && t'.AtReady? && t'.env !in s.redis.ready then AtSweep(st.env) else t';
    }
  }

  lemma CameOtherwise(s: State, st: Step, t': Token) returns (t: Token)
    requires Wf(s) && Enabled(s, st) && !ByExec(st) && !st.Crash? && Holds(Apply(s, st), t') && IsCopy(t')
    requires !BySweep(st) && !st.PromoteExec? && !Renews(st, IdOf(t'))
    ensures Holds(s, t) && IsCopy(t) && IdOf(t) == IdOf(t') && !Takes(s, st, t)
  {
    t := t';
    if st.LeaseHit? && t' == AtExec(st.pid, Exec(st.worker, st.env, Leased)) {
      t := AtReady(st.env);
    } else if st.ApiEnqueue? && t'.AtReady? && t'.env !in s.redis.ready {
      t := AtApi(st.req, s.apis[st.req]);
    }
  }

  lemma Came(s: State, st: Step, t': Token) returns (t: Token)
    requires Wf(s) && Covered(s) && Enabled(s, st) && Holds(Apply(s, st), t') && IsCopy(t') && !Renews(st, IdOf(t'))
    ensures Holds(s, t) && IsCopy(t) && IdOf(t) == IdOf(t') && !Takes(s, st, t)
  {
    if ByExec(st) {
      t := CameByExec(s, st, t');
    } else if st.Crash? {
      t := CameThroughCrash(s, st.worker, t');
    } else if st.PromoteExec? {
      t := CameByPromotion(s, t');
    } else if st.HGetAll? {
      t := CameByHGetAll(s, t');
    } else if st.CoordCrash? {
      t := CameThroughCoordCrash(s, t');
    } else if BySweep(st) {
      t := CameBySweep(s, st, t');
    } else {
      t := CameOtherwise(s, st, t');
    }
  }

  // ---- The theorem ----

  ghost predicate TakesAll(s: State, st: Step, id: TaskId)
    requires Enabled(s, st)
  {
    forall t | t in CopiesOf(s, id) :: Takes(s, st, t)
  }

  lemma RenewalTakesNothing(s: State, st: Step, t: Token)
    requires Enabled(s, st) && Renews(st, IdOf(t))
    ensures !Takes(s, st, t)
  {}

  lemma RenewalMakesOne(s: State, st: Step, id: TaskId)
    requires Wf(s) && Enabled(s, st) && Renews(st, id)
    ensures CopiesOf(Apply(s, st), id) != {} && (CopiesOf(s, id) != {} ==> !TakesAll(s, st, id))
  {
    WfStep(s, st);
    CopyIff(Apply(s, st), AtApi(st.req, Apply(s, st).apis[st.req]), id);
    if t :| t in CopiesOf(s, id) {
      RenewalTakesNothing(s, st, t);
    }
  }

  lemma CopiesStepIff(s: State, st: Step, id: TaskId)
    requires Wf(s) && Covered(s) && Enabled(s, st) && !Renews(st, id)
    ensures CopiesOf(Apply(s, st), id) == {} <==> TakesAll(s, st, id)
  {
    var s' := Apply(s, st);
    WfStep(s, st);
    if t :| t in CopiesOf(s, id) && !Takes(s, st, t) {
      CopyIff(s, t, id);
      var t' := GoesOn(s, st, t);
      CopyIff(s', t', id);
    } else {
      forall t' | t' in CopiesOf(s', id)
        ensures false
      {
        CopyIff(s', t', id);
        var t := Came(s, st, t');
        CopyIff(s, t, id);
      }
    }
  }

  /** Every run, also with live workers reclaimed: the last copies of a task go if and only if the step
      takes them all; once none is left only a creation or a redrive makes one. */
  lemma LastCopiesGoIff(r: Run, id: TaskId)
    requires Valid(r) && r.Then?
    ensures CopiesOf(End(r.prev), id) != {} ==>
              (CopiesOf(End(r), id) == {} <==> TakesAll(End(r.prev), r.step, id))
    ensures CopiesOf(End(r.prev), id) == {} ==>
              (CopiesOf(End(r), id) != {} <==> Renews(r.step, id))
  {
    AlwaysSound(r.prev);
    AlwaysCovered(r.prev);
    if Renews(r.step, id) {
      RenewalMakesOne(End(r.prev), r.step, id);
    } else {
      CopiesStepIff(End(r.prev), r.step, id);
    }
  }

  // ---- The records of a dead worker ----

  /** The orphaned record of a dead worker leaves the hash only into the hands of the coordinator, or,
      if the coordinator had read the hash before, by its DEL. */
  lemma OrphanGoesIff(s: State, st: Step, t: Token)
    requires Wf(s) && Enabled(s, st) && Holds(s, t) && t.AtRecord? && t.orphan
    ensures !Holds(Apply(s, st), t) <==> (st.HGetAll? || st.Del?) && s.coord.worker == t.worker
    ensures st.HGetAll? && s.coord.worker == t.worker ==> Holds(Apply(s, st), AtSweep(t.env))
  {
    if ByExec(st) {
      OtherStays(s, st, t);
    } else if st.HGetAll? && s.coord.worker == t.worker {
      RecordIsRead(s, (t.worker, t.env.id));
    }
  }
}
