/** How soon a crash is noticed, and when it is never imagined. */
module Detection {
  import opened Types
  import opened Protocol
  import opened Prefixes
  import opened Envelopes
  import opened Locations
  import R = Redis

  lemma {:induction false} BeatsAreRecent(r: Run, w: WorkerId)
    requires Valid(r) && w in End(r).redis.heartbeats
    ensures End(r).redis.heartbeats[w] <= End(r).now + End(r).cfg.ttl
  {
    if r.Then? {
      BeatFrame(End(r.prev), r.step, w);
      if w in End(r.prev).redis.heartbeats {
        BeatsAreRecent(r.prev, w);
      }
    }
  }

  lemma BeatFrame(s: State, st: Step, w: WorkerId)
    requires Enabled(s, st)
    ensures s.now <= Apply(s, st).now && Apply(s, st).cfg == s.cfg
    ensures st == Beat(w) || (st.Register? && st.worker == w) ==>
              w in Apply(s, st).redis.heartbeats && Apply(s, st).redis.heartbeats[w] == s.now + s.cfg.ttl
    ensures st != Beat(w) && !(st.Register? && st.worker == w) ==>
              (w in Apply(s, st).redis.heartbeats <==> w in s.redis.heartbeats)
    ensures st != Beat(w) && !(st.Register? && st.worker == w) && w in s.redis.heartbeats ==>
              Apply(s, st).redis.heartbeats[w] == s.redis.heartbeats[w]
  {}

  /** A crashed process is never heard of again: its key expires within the TTL of the crash. */
  lemma {:induction false} CrashedStaysSilent(r: Run, w: WorkerId)
    requires Valid(r) && CrashTime(r, w).Some?
    ensures w !in End(r).procs && w in End(r).db.workers
    ensures w in End(r).redis.heartbeats ==> End(r).redis.heartbeats[w] <= CrashTime(r, w).value + End(r).cfg.ttl
  {
    AlwaysSound(r.prev);
    BeatFrame(End(r.prev), r.step, w);
    if r.step == Crash(w) {
      if w in End(r.prev).redis.heartbeats {
        BeatsAreRecent(r.prev, w);
      }
    } else {
      CrashedStaysSilent(r.prev, w);
    }
  }

  /** A worker crashes once: its name is never used again. */
  lemma {:induction false} CrashTimeStays(a: Run, b: Run, w: WorkerId)
    requires Valid(b) && Extends(a, b) && Valid(a) && CrashTime(a, w).Some?
    ensures CrashTime(b, w) == CrashTime(a, w)
    decreases b
  {
    if a != b {
      CrashTimeStays(a, b.prev, w);
      CrashedStaysSilent(b.prev, w);
    }
  }

  // ---- No false alarms ----

  /** The last registration or heartbeat of w. */
  ghost function LastBeat(r: Run, w: WorkerId): int
    requires Valid(r)
  {
    if r.Start? then 0
    else if r.step == Beat(w) || (r.step.Register? && r.step.worker == w) then End(r.prev).now
    else LastBeat(r.prev, w)
  }

  /** While it lives, w beats again before the TTL of its last beat has passed. */
  ghost predicate Punctual(r: Run, w: WorkerId)
    requires Valid(r)
  {
    r.Then? ==>
      && Punctual(r.prev, w)
      && (r.step.Tick? && w in End(r.prev).procs ==> r.step.now < LastBeat(r.prev, w) + End(r.prev).cfg.ttl)
  }

  lemma {:induction false} KeyFollowsBeat(r: Run, w: WorkerId)
    requires Valid(r) && w in End(r).procs
    ensures w in End(r).redis.heartbeats && End(r).redis.heartbeats[w] == LastBeat(r, w) + End(r).cfg.ttl
  {
    BeatFrame(End(r.prev), r.step, w);
    if w in End(r.prev).procs {
      KeyFollowsBeat(r.prev, w);
    }
  }

  /** If every worker is punctual, only crashed workers lose their heartbeat. */
  lemma {:induction false} PunctualIsFailStop(r: Run)
    requires Valid(r) && forall w :: Punctual(r, w)
    ensures FailStop(r)
  {
    if r.Then? {
      forall w
        ensures Punctual(r.prev, w)
      {
        assert Punctual(r, w);
      }
      PunctualIsFailStop(r.prev);
      forall w | w in End(r.prev).procs && r.step.Tick?
        ensures R.IsAlive(End(r.prev).redis, w, r.step.now)
      {
        assert Punctual(r, w);
        KeyFollowsBeat(r.prev, w);
      }
    }
  }

  lemma {:induction false} PunctualIsAlive(r: Run, w: WorkerId)
    requires Valid(r) && Punctual(r, w) && w in End(r).procs
    ensures R.IsAlive(End(r).redis, w, End(r).now)
  {
    BeatFrame(End(r.prev), r.step, w);
    KeyFollowsBeat(r, w);
    AlwaysSound(r);
    if w in End(r.prev).procs {
      PunctualIsAlive(r.prev, w);
    }
  }

  lemma HandledStep(s: State, st: Step, w: WorkerId)
    requires Enabled(s, st) && w in Apply(s, st).procs && Handles(Apply(s, st).coord) && Apply(s, st).coord.worker == w
    requires w in s.procs && Handles(s.coord) ==> s.coord.worker != w
    ensures w !in s.procs || (st == CheckAlive(w) && !R.IsAlive(s.redis, w, s.now))
  {}

  /** A worker whose own heartbeats land less than the TTL apart is never suspected, let alone
      reclaimed, however slow the others are. */
  lemma {:induction false} LiveWorkerNeverReclaimed(r: Run, w: WorkerId)
    requires Valid(r) && Punctual(r, w) && w in End(r).procs
    ensures R.IsAlive(End(r).redis, w, End(r).now)
    ensures Handles(End(r).coord) ==> End(r).coord.worker != w
  {
    PunctualIsAlive(r, w);
    AlwaysSound(r.prev);
    var s, st := End(r.prev), r.step;
    if w in s.procs {
      LiveWorkerNeverReclaimed(r.prev, w);
    }
    if Handles(End(r).coord) && End(r).coord.worker == w {
      HandledStep(s, st, w);
      NewProc(s, st, w);
    }
  }

  lemma NewProc(s: State, st: Step, w: WorkerId)
    requires Enabled(s, st) && w in Apply(s, st).procs && w !in s.procs
    ensures st.Register? && st.worker == w && Apply(s, st).coord == s.coord
  {}
}
