/** Fail-stop runs in which MarkRetry lands before its task is leased again: rows and Redis agree. */
module Agreement {
  import opened Types
  import opened Protocol
  import opened Tokens
  import opened Envelopes
  import opened Locations
  import opened Guarantees
  import opened Books
  import P = Postgres

  predicate IsWaitingPlace(here: Place) { here.Live? && (here.token.AtDelayed? || here.token.AtReady?) }

  /** A goroutine that owes a MarkRetry: its retry waits, and the row is still its own. */
  predicate OwesRetry(rows: map<TaskId, Row>, at: Places, x: Exec) {
    && x.env.id in at && IsWaitingPlace(at[x.env.id])
    && x.env.id in rows && P.IsOrphan(rows[x.env.id], x.worker)
  }

  ghost predicate RetriesPending(s: State, at: Places) {
    && (forall p | p in s.execs && s.execs[p].phase.Parked? :: OwesRetry(s.db.rows, at, s.execs[p]))
    && (forall p, q | p in s.execs && q in s.execs && s.execs[p].phase.Parked? && s.execs[q].phase.Parked?
          && s.execs[p].env.id == s.execs[q].env.id :: p == q)
  }

  /** The row says what the place says. */
  predicate RowAgrees(r: Row, here: Place) {
    && (here.Done? ==> r.status == Succeeded)
    && (here == InDlq(Recorded) ==> r.status == Dead)
    && (here.Live? && here.token.AtExec? && PastMarkRunning(here.token.exec) ==> P.IsOrphan(r, here.token.exec.worker))
  }

  ghost predicate RowsAgree(s: State, at: Places) {
    forall id | id in s.db.rows :: id in at && RowAgrees(s.db.rows[id], at[id])
  }

  // ---- Pending retries ----

  lemma OwesOwn(s: State, st: Step, at: Places)
    requires Enabled(s, st) && ByExec(st) && Sited(s, st, at)
    requires st.pid in Apply(s, st).execs && Apply(s, st).execs[st.pid].phase.Parked?
    requires RowsAgree(s, at) && at.Keys == s.db.rows.Keys
    ensures OwesRetry(Apply(s, st).db.rows, Move(s, st, at), Apply(s, st).execs[st.pid])
  {}

  lemma OwesElse(s: State, st: Step, at: Places, p: Pid)
    requires Enabled(s, st) && ByExec(st) && Sited(s, st, at) && RetriesPending(s, at) && p != st.pid
    requires p in Apply(s, st).execs && Apply(s, st).execs[p].phase.Parked?
    ensures OwesRetry(Apply(s, st).db.rows, Move(s, st, at), Apply(s, st).execs[p])
  {
    OtherStays(s, st, p);
    if WritesRow(st) {
      OwesElseByWrite(s, st, at, p);
    }
  }

  lemma OtherStays(s: State, st: Step, p: Pid)
    requires Enabled(s, st) && ByExec(st) && p != st.pid && p in Apply(s, st).execs
    ensures p in s.execs && Apply(s, st).execs[p] == s.execs[p]
  {}

  lemma OwesElseByWrite(s: State, st: Step, at: Places, p: Pid)
    requires Enabled(s, st) && WritesRow(st) && Sited(s, st, at) && RetriesPending(s, at) && p != st.pid
    requires p in s.execs && s.execs[p].phase.Parked? && OwesRetry(s.db.rows, at, s.execs[p])
    ensures OwesRetry(Apply(s, st).db.rows, Move(s, st, at), s.execs[p])
  {}

  lemma OwesByExec(s: State, st: Step, at: Places, p: Pid)
    requires Enabled(s, st) && ByExec(st) && Sited(s, st, at)
    requires RetriesPending(s, at)
    requires p in Apply(s, st).execs && Apply(s, st).execs[p].phase.Parked?
    requires RowsAgree(s, at) && at.Keys == s.db.rows.Keys
    ensures OwesRetry(Apply(s, st).db.rows, Move(s, st, at), Apply(s, st).execs[p])
  {
    if st.pid != p {
      OwesElse(s, st, at, p);
    } else {
      OwesOwn(s, st, at);
    }
  }

  lemma OwesReset(s: State, at: Places, p: Pid)
    requires Wf(s) && SweepsMatch(s) && Enabled(s, ResetOrphans) && RetriesPending(s, at)
    requires p in s.execs && s.execs[p].phase.Parked?
    ensures OwesRetry(Apply(s, ResetOrphans).db.rows, Move(s, ResetOrphans, at), s.execs[p])
  {
    assert OwesRetry(s.db.rows, at, s.execs[p]);
  }

  lemma OwesOther(s: State, st: Step, at: Places, p: Pid)
    requires Enabled(s, st) && !ByExec(st) && !st.ResetOrphans? && Sited(s, st, at) && RetryLanded(s, st)
    requires p in Apply(s, st).execs && Apply(s, st).execs[p].phase.Parked?
    requires p in s.execs && s.execs[p] == Apply(s, st).execs[p] && OwesRetry(s.db.rows, at, s.execs[p])
    ensures OwesRetry(Apply(s, st).db.rows, Move(s, st, at), Apply(s, st).execs[p])
  {}

  lemma OneRetryEach(s: State, st: Step, at: Places, p: Pid, q: Pid)
    requires Enabled(s, st) && Sited(s, st, at) && RetriesPending(s, at)
    requires p in Apply(s, st).execs && Apply(s, st).execs[p].phase.Parked?
    requires q in Apply(s, st).execs && Apply(s, st).execs[q].phase.Parked?
    requires Apply(s, st).execs[p].env.id == Apply(s, st).execs[q].env.id
    ensures p == q
  {
    if !st.Park? {
      ParkedBefore(s, st, p);
      ParkedBefore(s, st, q);
    }
  }

  lemma ParkedBefore(s: State, st: Step, p: Pid)
    requires Enabled(s, st) && !st.Park? && p in Apply(s, st).execs && Apply(s, st).execs[p].phase.Parked?
    ensures p in s.execs && s.execs[p] == Apply(s, st).execs[p]
  {}

  lemma RetriesStep(s: State, st: Step, at: Places)
    requires Inv(s, at) && RetriesPending(s, at) && RowsAgree(s, at) && Enabled(s, st) && RetryLanded(s, st)
    ensures RetriesPending(Apply(s, st), Move(s, st, at))
  {
    var s', to := Apply(s, st), Move(s, st, at);
    InvSites(s, st, at);
    forall p | p in s'.execs && s'.execs[p].phase.Parked?
      ensures OwesRetry(s'.db.rows, to, s'.execs[p])
    {
      if ByExec(st) {
        OwesByExec(s, st, at, p);
      } else {
        ParkedBefore(s, st, p);
        if st.ResetOrphans? {
          OwesReset(s, at, p);
        } else {
          OwesOther(s, st, at, p);
        }
      }
    }
    forall p, q | p in s'.execs && q in s'.execs && s'.execs[p].phase.Parked? && s'.execs[q].phase.Parked?
                  && s'.execs[p].env.id == s'.execs[q].env.id
      ensures p == q
    {
      OneRetryEach(s, st, at, p, q);
    }
  }

  // ---- Rows ----

  lemma RowAgreesByWrite(s: State, st: Step, at: Places, id: TaskId)
    requires Enabled(s, st) && WritesRow(st) && Sited(s, st, at) && RetriesPending(s, at)
    requires id in at && id in s.db.rows && RowAgrees(s.db.rows[id], at[id])
    ensures id in Move(s, st, at) && id in Apply(s, st).db.rows && RowAgrees(Apply(s, st).db.rows[id], Move(s, st, at)[id])
  {
    if st.MarkRetry? {
      assert OwesRetry(s.db.rows, at, s.execs[st.pid]);
    }
  }

  lemma RowAgreesByExec(s: State, st: Step, at: Places, id: TaskId)
    requires Enabled(s, st) && ByExec(st) && Sited(s, st, at) && RetriesPending(s, at)
    requires id in at && id in s.db.rows && RowAgrees(s.db.rows[id], at[id])
    ensures id in Move(s, st, at) && id in Apply(s, st).db.rows && RowAgrees(Apply(s, st).db.rows[id], Move(s, st, at)[id])
  {
    if WritesRow(st) {
      RowAgreesByWrite(s, st, at, id);
    }
  }

  /** A running goroutine's row is never an orphan of the worker being closed. */
  lemma LiveRowIsNoOrphan(s: State, at: Places, id: TaskId)
    requires Inv(s, at) && id in at && id in s.db.rows && RowAgrees(s.db.rows[id], at[id]) && s.coord.Sweeping?
    requires at[id].Live? && at[id].token.AtExec? && PastMarkRunning(at[id].token.exec)
    ensures !P.IsOrphan(s.db.rows[id], s.coord.worker)
  {
    var t := at[id].token;
    assert Holds(s, t);
    assert t.exec.worker in s.procs;
  }

  lemma RowAgreesReset(s: State, at: Places, id: TaskId)
    requires Inv(s, at) && Enabled(s, ResetOrphans) && id in s.db.rows && id in at && RowAgrees(s.db.rows[id], at[id])
    ensures id in Move(s, ResetOrphans, at) && id in Apply(s, ResetOrphans).db.rows
    ensures RowAgrees(Apply(s, ResetOrphans).db.rows[id], Move(s, ResetOrphans, at)[id])
  {
    if at[id].Live? && at[id].token.AtExec? && PastMarkRunning(at[id].token.exec) {
      LiveRowIsNoOrphan(s, at, id);
    }
    OnlyOrphansChange(s, id);
  }

  lemma RowAgreesOther(s: State, st: Step, at: Places, id: TaskId)
    requires Enabled(s, st) && !ByExec(st) && !st.ResetOrphans? && Sited(s, st, at)
    requires id in Apply(s, st).db.rows && at.Keys == s.db.rows.Keys
    requires id in s.db.rows ==> RowAgrees(s.db.rows[id], at[id])
    ensures id in Move(s, st, at) && RowAgrees(Apply(s, st).db.rows[id], Move(s, st, at)[id])
  {}

  lemma RowsAgreeStep(s: State, st: Step, at: Places)
    requires Inv(s, at) && RetriesPending(s, at) && RowsAgree(s, at) && Enabled(s, st)
    ensures RowsAgree(Apply(s, st), Move(s, st, at))
  {
    InvSites(s, st, at);
    RowsPersist(s, st);
    forall id | id in Apply(s, st).db.rows
      ensures id in Move(s, st, at) && RowAgrees(Apply(s, st).db.rows[id], Move(s, st, at)[id])
    {
      if ByExec(st) {
        RowAgreesByExec(s, st, at, id);
      } else if st.ResetOrphans? {
        RowAgreesReset(s, at, id);
      } else {
        RowAgreesOther(s, st, at, id);
      }
    }
  }

  lemma {:induction false} AlwaysAgree(r: Run)
    requires Valid(r) && FailStop(r) && Timely(r)
    ensures RetriesPending(End(r), Locate(r)) && RowsAgree(End(r), Locate(r))
  {
    if r.Then? {
      AlwaysAgree(r.prev);
      AlwaysInv(r.prev);
      RetriesStep(End(r.prev), r.step, Locate(r.prev));
      RowsAgreeStep(End(r.prev), r.step, Locate(r.prev));
    }
  }

  // ---- Due times ----

  /** If the task is delayed, it is until then. */
  predicate DueIs(delayed: map<Envelope, int>, here: Place, due: int) {
    here.Live? && here.token.AtDelayed? ==> here.token.env in delayed && delayed[here.token.env] == due
  }

  /** A retrying row, and a goroutine that owes a MarkRetry, have the due time of the delayed task. */
  ghost predicate DuesAgree(s: State, at: Places) {
    && (forall id | id in s.db.rows && s.db.rows[id].status == Retrying ::
          id in at && DueIs(s.redis.delayed, at[id], s.db.rows[id].availableAt))
    && (forall p | p in s.execs && s.execs[p].phase.Parked? ::
          s.execs[p].env.id in at && DueIs(s.redis.delayed, at[s.execs[p].env.id], s.execs[p].phase.at))
  }

  predicate ParksTask(s: State, st: Step, id: TaskId)
    requires Enabled(s, st)
  {
    st.Park? && s.execs[st.pid].env.id == id
  }

  /** Nothing but a promotion or a new retry of the task touches its due time. */
  lemma DueKept(s: State, st: Step, at: Places, id: TaskId, due: int)
    requires Enabled(s, st) && Sited(s, st, at) && id in at && DueIs(s.redis.delayed, at[id], due)
    requires at[id].Live? ==> IdOf(at[id].token) == id
    requires !ParksTask(s, st, id)
    ensures id in Move(s, st, at) && DueIs(Apply(s, st).redis.delayed, Move(s, st, at)[id], due)
  {
    if ByExec(st) {
      DueKeptByExec(s, st, at, id, due);
    }
  }

  lemma DueKeptByExec(s: State, st: Step, at: Places, id: TaskId, due: int)
    requires Enabled(s, st) && ByExec(st) && Sited(s, st, at) && id in at && DueIs(s.redis.delayed, at[id], due)
    requires at[id].Live? ==> IdOf(at[id].token) == id
    requires !ParksTask(s, st, id)
    ensures id in Move(s, st, at) && DueIs(Apply(s, st).redis.delayed, Move(s, st, at)[id], due)
  {}

  lemma RetryingBefore(s: State, st: Step, id: TaskId)
    requires Enabled(s, st) && id in Apply(s, st).db.rows && Apply(s, st).db.rows[id].status == Retrying
    ensures (st.MarkRetry? && s.execs[st.pid].env.id == id && Apply(s, st).db.rows[id].availableAt == s.execs[st.pid].phase.at)
         || (id in s.db.rows && s.db.rows[id].status == Retrying
             && Apply(s, st).db.rows[id].availableAt == s.db.rows[id].availableAt)
  {}

  lemma LocatedId(s: State, at: Places, id: TaskId)
    requires Located(s, at) && id in at
    ensures at[id].Live? ==> IdOf(at[id].token) == id
  {}

  lemma DueOfRow(s: State, st: Step, at: Places, id: TaskId)
    requires Inv(s, at) && RetriesPending(s, at) && RowsAgree(s, at) && DuesAgree(s, at) && Enabled(s, st)
    requires Sited(s, st, at) && id in Apply(s, st).db.rows && Apply(s, st).db.rows[id].status == Retrying
    ensures id in Move(s, st, at)
    ensures DueIs(Apply(s, st).redis.delayed, Move(s, st, at)[id], Apply(s, st).db.rows[id].availableAt)
  {
    RetryingBefore(s, st, id);
    LocatedId(s, at, id);
    if st.Park? {
      assert RowAgrees(s.db.rows[id], at[id]);
    }
    DueKept(s, st, at, id, Apply(s, st).db.rows[id].availableAt);
  }

  lemma DueOfPending(s: State, st: Step, at: Places, p: Pid)
    requires Inv(s, at) && RetriesPending(s, at) && DuesAgree(s, at) && Enabled(s, st) && Sited(s, st, at)
    requires p in Apply(s, st).execs && Apply(s, st).execs[p].phase.Parked? && st != Park(p, Apply(s, st).execs[p].phase.at)
    ensures var x := Apply(s, st).execs[p];
            x.env.id in Move(s, st, at) && DueIs(Apply(s, st).redis.delayed, Move(s, st, at)[x.env.id], x.phase.at)
  {
    PendingBefore(s, st, p);
    var x := s.execs[p];
    assert OwesRetry(s.db.rows, at, x);
    LocatedId(s, at, x.env.id);
    DueKept(s, st, at, x.env.id, x.phase.at);
  }

  lemma PendingBefore(s: State, st: Step, p: Pid)
    requires Enabled(s, st) && p in Apply(s, st).execs && Apply(s, st).execs[p].phase.Parked?
    requires st != Park(p, Apply(s, st).execs[p].phase.at)
    ensures p in s.execs && s.execs[p] == Apply(s, st).execs[p]
  {}

  lemma DueOfOwn(s: State, p: Pid, due: int, at: Places)
    requires Enabled(s, Park(p, due)) && Sited(s, Park(p, due), at)
    ensures var id := s.execs[p].env.id;
            id in Move(s, Park(p, due), at) && DueIs(Apply(s, Park(p, due)).redis.delayed, Move(s, Park(p, due), at)[id], due)
  {}

  lemma DuesStep(s: State, st: Step, at: Places)
    requires Inv(s, at) && RetriesPending(s, at) && RowsAgree(s, at) && DuesAgree(s, at) && Enabled(s, st)
    ensures DuesAgree(Apply(s, st), Move(s, st, at))
  {
    var s', to := Apply(s, st), Move(s, st, at);
    InvSites(s, st, at);
    forall id | id in s'.db.rows && s'.db.rows[id].status == Retrying
      ensures id in to && DueIs(s'.redis.delayed, to[id], s'.db.rows[id].availableAt)
    {
      DueOfRow(s, st, at, id);
    }
    forall p | p in s'.execs && s'.execs[p].phase.Parked?
      ensures s'.execs[p].env.id in to && DueIs(s'.redis.delayed, to[s'.execs[p].env.id], s'.execs[p].phase.at)
    {
      if st == Park(p, s'.execs[p].phase.at) {
        DueOfOwn(s, p, st.at, at);
      } else {
        DueOfPending(s, st, at, p);
      }
    }
  }

  lemma {:induction false} AlwaysDue(r: Run)
    requires Valid(r) && FailStop(r) && Timely(r)
    ensures DuesAgree(End(r), Locate(r))
  {
    if r.Then? {
      AlwaysDue(r.prev);
      AlwaysAgree(r.prev);
      AlwaysInv(r.prev);
      DuesStep(End(r.prev), r.step, Locate(r.prev));
    }
  }

  /** While its row says `retrying`, a delayed task is due exactly at the `available_at` of the row. */
  lemma RetryingRowIsDue(r: Run, e: Envelope)
    requires Valid(r) && FailStop(r) && Timely(r) && e in End(r).redis.delayed
    ensures e.id in End(r).db.rows
    ensures End(r).db.rows[e.id].status == Retrying ==> End(r).db.rows[e.id].availableAt == End(r).redis.delayed[e]
  {
    AlwaysInv(r);
    AlwaysDue(r);
    assert Holds(End(r), AtDelayed(e));
  }

  // ---- What a reader of the table may conclude ----

  /** `succeeded` and `dead` mean exactly that the task is done or recorded in the DLQ. */
  lemma TerminalStatusIsTruth(r: Run, id: TaskId)
    requires Valid(r) && FailStop(r) && Timely(r) && id in End(r).db.rows
    ensures id in Locate(r)
    ensures End(r).db.rows[id].status == Succeeded <==> Locate(r)[id].Done?
    ensures End(r).db.rows[id].status == Dead <==> Locate(r)[id] == InDlq(Recorded)
  {
    AlwaysInv(r);
    AlwaysAgree(r);
    assert RowOk(End(r).db.rows[id], Locate(r)[id]);
    assert RowAgrees(End(r).db.rows[id], Locate(r)[id]);
  }

  /** A goroutine past MarkRunning finds its own mark on the row until it reports. */
  lemma RunningRowIsOwned(r: Run, p: Pid)
    requires Valid(r) && FailStop(r) && Timely(r) && p in End(r).execs
    requires PastMarkRunning(End(r).execs[p]) || End(r).execs[p].phase.Parked?
    ensures var x := End(r).execs[p];
            x.env.id in End(r).db.rows && P.IsOrphan(End(r).db.rows[x.env.id], x.worker)
  {
    AlwaysInv(r);
    AlwaysAgree(r);
    var s := End(r);
    if s.execs[p].phase.Parked? {
      assert OwesRetry(s.db.rows, Locate(r), s.execs[p]);
    } else {
      assert Holds(s, AtExec(p, s.execs[p]));
      assert RowAgrees(s.db.rows[s.execs[p].env.id], Locate(r)[s.execs[p].env.id]);
    }
  }

  /** Terminal rows are final: nothing changes a succeeded row, and only a redrive changes a dead one. */
  lemma TerminalRowsAreFinal(r: Run, id: TaskId)
    requires Valid(r) && FailStop(r) && Timely(r) && r.Then? && id in End(r.prev).db.rows
    requires End(r.prev).db.rows[id].status == Succeeded || End(r.prev).db.rows[id].status == Dead
    ensures id in End(r).db.rows
    ensures End(r.prev).db.rows[id].status == Succeeded ==> End(r).db.rows[id] == End(r.prev).db.rows[id]
    ensures End(r).db.rows[id] != End(r.prev).db.rows[id] ==> IsRedrive(r.step, id)
  {
    TerminalRowChangesIff(r, id);
    if r.step.MarkRetry? {
      RunningRowIsOwned(r.prev, r.step.pid);
    }
  }

  /** At rest the books read: DLQ entries = dead_letters rows = redrives + (1 if the row is dead). */
  lemma LedgerAtRest(r: Run, id: TaskId)
    requires Valid(r) && FailStop(r) && Timely(r) && id in End(r).db.rows
    ensures DeadRows(End(r).db.deadLetters, id) == Redrives(r, id) + if End(r).db.rows[id].status == Dead then 1 else 0
    ensures id in Locate(r)
    ensures DlqEntries(End(r).redis.dlq, id)
         == DeadRows(End(r).db.deadLetters, id)
            + if Locate(r)[id].InDlq? && Locate(r)[id] != InDlq(Recorded) then 1 else 0
  {
    Ledger(r, id);
    TerminalStatusIsTruth(r, id);
  }
}
