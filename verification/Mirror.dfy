/** How the objects and the protocol belong together. */
module Mirror {
  import opened Protocol
  import Q = Queue
  import S = Store

  /** The objects hold what the run has left in Redis and Postgres. */
  ghost predicate Mirrors(r: Run, q: Q.Queue, s: S.Store)
    reads q, s
  {
    Valid(r) && End(r).redis == q.Image() && End(r).db == s.Image() && q.log == s.log
  }
}
