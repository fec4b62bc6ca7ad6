/** Which rows a run stores: the columns that reach the database are the ones that
    were pushed (apps/banto-hub-sink/src/{queue,flush}.rs). */
module Contents {
  import opened Rows
  import opened RowQueues
  import opened Plans
  import opened Delivery

  /** A push that gets an id: the queue has room for rows at all. */
  predicate Stamps(s: Sys, step: Step, q: nat) {
    && step.Produce? && Enabled(s, step) && s.generations[step.generation].queue == q
    && s.ledgers[q].queue.maxRows > 0
  }

  /** The rows the producers pushed into queue `q` during the run, in order, without
      those that were rejected at zero capacity. */
  function PushedRows(steps: seq<Step>, q: nat): (rows: seq<Row>)
    decreases |steps|
  {
    if steps == [] then []
    else
      var before := Exec(Start, steps[..|steps| - 1]);
      var step := steps[|steps| - 1];
      PushedRows(steps[..|steps| - 1], q) + if Stamps(before, step, q) then [step.row] else []
  }

  /** Entry, transaction and stored row number `id` are push number `id`. */
  predicate EntryHolds(e: Entry, pushed: seq<Row>) { e.id < |pushed| && e.row == pushed[e.id] }

  ghost predicate LedgerHolds(l: Ledger, pushed: seq<Row>) {
    |pushed| == l.queue.nextId && forall e :: e in l.queue.rows ==> EntryHolds(e, pushed)
  }

  predicate AttemptHolds(a: Attempt, pushed: seq<Row>) { a.hi() < |pushed| && a.rows == pushed[a.lo..a.hi() + 1] }

  predicate StoredHolds(x: Stored, pushed: seq<Row>) { x.id < |pushed| && x.row == pushed[x.id] }

  ghost predicate Holding(s: Sys, steps: seq<Step>) {
    && (forall q: nat :: QueueAt(s, PushedRows(steps, q), q))
    && (forall a: nat :: a < |s.attempts| ==> AttemptHolds(s.attempts[a], PushedRows(steps, s.attempts[a].queue)))
    && (forall i: nat :: i < |s.table| ==> StoredHolds(s.table[i], PushedRows(steps, s.table[i].queue)))
  }

  ghost predicate QueueAt(s: Sys, pushed: seq<Row>, q: nat) {
    if q < |s.ledgers| then LedgerHolds(s.ledgers[q], pushed) else pushed == []
  }

  lemma PushHolds(l: Ledger, pushed: seq<Row>, row: Row)
    requires l.Balanced() && LedgerHolds(l, pushed)
    ensures LedgerHolds(LedgerPushed(l, row, l.dest), if l.queue.maxRows > 0 then pushed + [row] else pushed)
  {
    PushStores(l.queue, row);
    if l.queue.maxRows > 0 {
      var rows, later := l.queue.rows, Pushed(l.queue, row).rows;
      StoredLast(rows, later, |rows| + 1 - |later|, Entry(l.queue.nextId, row), pushed);
    }
  }

  lemma StoredLast(rows: seq<Entry>, later: seq<Entry>, k: nat, last: Entry, pushed: seq<Row>)
    requires k <= |rows| && later == rows[k..] + [last] && last.id == |pushed|
    requires forall e :: e in rows ==> EntryHolds(e, pushed)
    ensures forall e :: e in later ==> EntryHolds(e, pushed + [last.row])
  {
    forall e | e in later ensures EntryHolds(e, pushed + [last.row]) {
      assert e == last || e in rows[k..];
      assert e == last || EntryHolds(e, pushed);
    }
  }

  lemma CommitHolds(l: Ledger, pushed: seq<Row>, last: nat)
    requires LedgerHolds(l, pushed)
    ensures LedgerHolds(LedgerCommitted(l, last), pushed)
  {
  }

  lemma BatchHolds(l: Ledger, pushed: seq<Row>, a: Attempt, limit: nat)
    requires l.Balanced() && LedgerHolds(l, pushed) && Head(l.queue, limit) != []
    requires a.lo == Head(l.queue, limit)[0].id && a.rows == RowsOf(Head(l.queue, limit))
    ensures AttemptHolds(a, pushed)
  {
    var head := Head(l.queue, limit);
    forall i | 0 <= i < |head| ensures a.rows[i] == pushed[a.lo..][i] {
      assert head[i] in l.queue.rows && EntryHolds(head[i], pushed);
    }
    assert EntryHolds(head[|head| - 1], pushed);
    assert a.rows == pushed[a.lo..a.hi() + 1];
  }

  lemma LandingHolds(a: Attempt, pushed: seq<Row>, i: nat)
    requires AttemptHolds(a, pushed) && i < |RowsInserted(a)|
    ensures StoredHolds(RowsInserted(a)[i], pushed)
  {
    assert pushed[a.lo..a.hi() + 1][i] == pushed[a.lo + i];
  }

  /** One step, with the rows pushed before it (`pushed`) and with it (`more`). */
  lemma StepHoldsQueue(s: Sys, step: Step, q: nat, pushed: seq<Row>, more: seq<Row>)
    requires Inv(s) && Enabled(s, step) && QueueAt(s, pushed, q)
    requires more == pushed + if Stamps(s, step, q) then [step.row] else []
    ensures QueueAt(Next(s, step), more, q)
  {
    if q < |s.ledgers| {
      var l := s.ledgers[q];
      match step {
        case Produce(g, row) =>
          assert Destination(s.generations[g].config) == s.ledgers[s.generations[g].queue].dest;
          PushHolds(l, pushed, row);
        case Finish(c, _) => CommitHolds(l, pushed, s.attempts[s.flying[c]].hi());
        case _ =>
      }
    }
  }

  lemma AttemptStays(a: Attempt, pushed: seq<Row>, more: seq<Row>)
    requires AttemptHolds(a, pushed) && pushed <= more
    ensures AttemptHolds(a, more)
  {
  }

  lemma StepHoldsAttempt(s: Sys, step: Step, a: nat, pushed: seq<Row>, more: seq<Row>)
    requires Inv(s) && Enabled(s, step) && a < |Next(s, step).attempts| && pushed <= more
    requires a < |s.attempts| ==> AttemptHolds(s.attempts[a], pushed)
    requires a >= |s.attempts| ==> QueueAt(s, pushed, Next(s, step).attempts[a].queue)
    ensures AttemptHolds(Next(s, step).attempts[a], more)
  {
    var now := Next(s, step).attempts[a];
    if a >= |s.attempts| {
      BatchHolds(s.ledgers[now.queue], pushed, now, step.limit);
    } else {
      assert now.lo == s.attempts[a].lo && now.rows == s.attempts[a].rows;
    }
    AttemptStays(now, pushed, more);
  }

  lemma StepHoldsStored(s: Sys, step: Step, i: nat, pushed: seq<Row>, more: seq<Row>)
    requires Enabled(s, step) && i < |Next(s, step).table| && pushed <= more
    requires i < |s.table| ==> StoredHolds(s.table[i], pushed)
    requires i >= |s.table| ==> AttemptHolds(s.attempts[step.attempt], pushed)
    ensures StoredHolds(Next(s, step).table[i], more)
  {
    if i >= |s.table| {
      LandingHolds(s.attempts[step.attempt], pushed, i - |s.table|);
    }
  }

  lemma StepHolds(s: Sys, steps: seq<Step>)
    requires steps != [] && s == Exec(Start, steps[..|steps| - 1]) && Inv(s) && Enabled(s, steps[|steps| - 1])
    requires Holding(s, steps[..|steps| - 1])
    ensures Holding(Next(s, steps[|steps| - 1]), steps)
  {
    var less, step := steps[..|steps| - 1], steps[|steps| - 1];
    var t := Next(s, step);
    forall q: nat ensures QueueAt(t, PushedRows(steps, q), q) {
      assert QueueAt(s, PushedRows(less, q), q);
      StepHoldsQueue(s, step, q, PushedRows(less, q), PushedRows(steps, q));
    }
    forall a: nat | a < |t.attempts| ensures AttemptHolds(t.attempts[a], PushedRows(steps, t.attempts[a].queue)) {
      var q := t.attempts[a].queue;
      assert QueueAt(s, PushedRows(less, q), q);
      StepHoldsAttempt(s, step, a, PushedRows(less, q), PushedRows(steps, q));
    }
    forall i: nat | i < |t.table| ensures StoredHolds(t.table[i], PushedRows(steps, t.table[i].queue)) {
      var q := t.table[i].queue;
      StepHoldsStored(s, step, i, PushedRows(less, q), PushedRows(steps, q));
    }
  }

  /** In every run the row that is queued, sent or stored under an id has exactly the
      columns of the push with that number. */
  lemma {:induction false} EveryRunHolds(steps: seq<Step>)
    ensures Holding(Exec(Start, steps), steps)
    decreases |steps|
  {
    if steps != [] {
      var before := Exec(Start, steps[..|steps| - 1]);
      EveryRunHolds(steps[..|steps| - 1]);
      EveryRunKeepsInv(steps[..|steps| - 1]);
      if Enabled(before, steps[|steps| - 1]) {
        StepHolds(before, steps);
      } else {
        forall q: nat ensures PushedRows(steps, q) == PushedRows(steps[..|steps| - 1], q) {}
        var less := steps[..|steps| - 1];
        forall q: nat ensures QueueAt(before, PushedRows(steps, q), q) {
          assert QueueAt(before, PushedRows(less, q), q);
        }
      }
    }
  }

  /** Every pushed row that is neither stored nor queued was counted as dropped, and
      whatever copy of it is stored or queued has its columns. */
  lemma PushedRowArrives(steps: seq<Step>, q: nat, id: nat)
    requires id < |PushedRows(steps, q)|
    ensures q < |Exec(Start, steps).ledgers|
    ensures var s, row := Exec(Start, steps), PushedRows(steps, q)[id];
            && (IsStored(s, q, id, row) || Entry(id, row) in s.ledgers[q].queue.rows || id in s.ledgers[q].overflowed || id in s.ledgers[q].discarded)
            && (forall i: nat :: i < |s.table| && s.table[i].queue == q && s.table[i].id == id ==> s.table[i].row == row)
            && (forall e :: e in s.ledgers[q].queue.rows && e.id == id ==> e.row == row)
  {
    EveryRunHolds(steps);
    EveryRunKeepsInv(steps);
    var s := Exec(Start, steps);
    assert QueueAt(s, PushedRows(steps, q), q);
    RowArrives(s, PushedRows(steps, q), q, id, steps);
  }

  ghost predicate IsStored(s: Sys, q: nat, id: nat, row: Row)
    requires q < |s.ledgers|
  {
    exists i: nat :: i < |s.table| && s.table[i] == Stored(q, id, s.ledgers[q].dest, row)
  }

  lemma RowArrives(s: Sys, pushed: seq<Row>, q: nat, id: nat, steps: seq<Step>)
    requires s == Exec(Start, steps) && q < |s.ledgers| && LedgerHolds(s.ledgers[q], pushed) && id < |pushed| && TableOk(s.ledgers, s.table)
    requires forall i: nat :: i < |s.table| && s.table[i].queue == q ==> StoredHolds(s.table[i], pushed)
    ensures || IsStored(s, q, id, pushed[id]) || Entry(id, pushed[id]) in s.ledgers[q].queue.rows
            || id in s.ledgers[q].overflowed || id in s.ledgers[q].discarded
    ensures forall e :: e in s.ledgers[q].queue.rows && e.id == id ==> e.row == pushed[id]
  {
    NothingLostUncounted(steps, q, id);
    var rows := s.ledgers[q].queue.rows;
    if Copies(s.table, q, id) >= 1 {
      CopyAt(s.table, q, id);
      var i: nat :| i < |s.table| && s.table[i].queue == q && s.table[i].id == id;
      assert StoredHolds(s.table[i], pushed);
    } else if i :| 0 <= i < |rows| && rows[i].id == id {
      assert rows[i] in rows && EntryHolds(rows[i], pushed);
    }
    forall e | e in rows && e.id == id ensures e.row == pushed[id] {
      assert EntryHolds(e, pushed);
    }
  }

  lemma {:induction false} CopyAt(table: seq<Stored>, q: nat, id: int)
    requires Copies(table, q, id) >= 1
    ensures exists i: nat :: i < |table| && table[i].queue == q && table[i].id == id
  {
    var n := |table| - 1;
    if !(table[n].queue == q && table[n].id == id) {
      CopyAt(table[..n], q, id);
      var i: nat :| i < n && table[..n][i].queue == q && table[..n][i].id == id;
      assert table[i] == table[..n][i];
    }
  }
}
