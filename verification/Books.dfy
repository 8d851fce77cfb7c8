/** The two books of dead tasks: the DLQ lists in Redis and the `dead_letters` table in Postgres. */
module Books {
  import opened Types
  import R = Redis
  import P = Postgres

  function DlqEntries(dlq: seq<R.DeadLetter>, id: TaskId): nat {
    if dlq == [] then 0
    else DlqEntries(dlq[..|dlq| - 1], id) + if dlq[|dlq| - 1].env.id == id then 1 else 0
  }

  function DeadRows(rows: seq<P.DeadRow>, id: TaskId): nat {
    if rows == [] then 0
    else DeadRows(rows[..|rows| - 1], id) + if rows[|rows| - 1].task == id then 1 else 0
  }

  lemma DlqAppend(dlq: seq<R.DeadLetter>, x: R.DeadLetter, id: TaskId)
    ensures DlqEntries(dlq + [x], id) == DlqEntries(dlq, id) + if x.env.id == id then 1 else 0
  {
    assert (dlq + [x])[..|dlq|] == dlq;
  }

  lemma DeadRowsAppend(rows: seq<P.DeadRow>, x: P.DeadRow, id: TaskId)
    ensures DeadRows(rows + [x], id) == DeadRows(rows, id) + if x.task == id then 1 else 0
  {
    assert (rows + [x])[..|rows|] == rows;
  }

  lemma {:induction false} CountedIsThere(dlq: seq<R.DeadLetter>, id: TaskId)
    requires DlqEntries(dlq, id) > 0
    ensures exists x :: x in dlq && x.env.id == id
  {
    var last := dlq[|dlq| - 1];
    if last.env.id == id {
      assert last in dlq;
    } else {
      CountedIsThere(dlq[..|dlq| - 1], id);
      var x :| x in dlq[..|dlq| - 1] && x.env.id == id;
      assert x in dlq;
    }
  }
}
