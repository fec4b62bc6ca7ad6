/** In which order the rows of a queue reach the table over a whole run
    (apps/banto-hub-sink/src/{flush,group}.rs). */
module PushOrders {
  import opened Rows
  import opened RowQueues
  import opened Plans
  import opened Delivery

  ghost predicate Holds(table: seq<Stored>, q: nat, id: int) {
    exists i :: 0 <= i < |table| && table[i].queue == q && table[i].id == id
  }

  predicate FirstCopy(table: seq<Stored>, i: nat)
    requires i < |table|
  {
    forall k :: 0 <= k < i ==> table[k].queue != table[i].queue || table[k].id != table[i].id
  }

  /** The first copies of a queue's rows appear in push order. */
  ghost predicate InOrder(table: seq<Stored>) {
    forall i, j :: 0 <= i < j < |table| && table[i].queue == table[j].queue && FirstCopy(table, i) && FirstCopy(table, j) ==>
                     table[i].id < table[j].id
  }

  /** `mark` is one more than the largest stored id. */
  ghost predicate MarksOk(ledgers: seq<Ledger>, table: seq<Stored>) {
    && (forall i :: 0 <= i < |table| && table[i].queue < |ledgers| ==> table[i].id < ledgers[table[i].queue].mark)
    && (forall q :: 0 <= q < |ledgers| && ledgers[q].mark > 0 ==> Holds(table, q, ledgers[q].mark - 1))
  }

  /** The stored ids reach from `from` up to the mark without a gap. */
  ghost predicate Filled(ledgers: seq<Ledger>, table: seq<Stored>, q: nat, from: int)
    requires q < |ledgers|
  {
    forall id :: from <= id < ledgers[q].mark ==> Holds(table, q, id)
  }

  /** Below the mark, nothing that is still queued or part of a pending
      transaction is missing. */
  ghost predicate NoGaps(s: Sys) {
    && (forall q :: 0 <= q < |s.ledgers| ==> Filled(s.ledgers, s.table, q, s.ledgers[q].queue.Front()))
    && (forall a :: 0 <= a < |s.attempts| && s.attempts[a].verdict.Pending? && s.attempts[a].queue < |s.ledgers| ==>
                      Filled(s.ledgers, s.table, s.attempts[a].queue, s.attempts[a].lo))
  }

  /** Transactions on one queue start where the queue starts, so never further back. */
  ghost predicate Forward(attempts: seq<Attempt>) {
    forall a, b :: 0 <= a < b < |attempts| && attempts[a].queue == attempts[b].queue ==> attempts[a].lo <= attempts[b].lo
  }

  /** The row was counted as dropped. */
  predicate Dropped(l: Ledger, id: int) { id in l.overflowed || id in l.discarded }

  /** What was dropped of the transaction and lies below the mark is stored already. */
  ghost predicate DroppedStored(s: Sys, a: Attempt)
    requires a.queue < |s.ledgers|
  {
    forall id :: a.lo <= id <= a.hi() && id < s.ledgers[a.queue].mark && Dropped(s.ledgers[a.queue], id) ==> Holds(s.table, a.queue, id)
  }

  /** The rows of the transaction that lie below the mark are stored already. */
  ghost predicate CaughtUp(s: Sys, a: Attempt)
    requires a.queue < |s.ledgers|
  {
    forall id :: a.lo <= id <= a.hi() && id < s.ledgers[a.queue].mark ==> Holds(s.table, a.queue, id)
  }

  lemma HoldsAppend(table: seq<Stored>, a: Attempt, q: nat, id: int)
    ensures Holds(table + RowsInserted(a), q, id) <==> Holds(table, q, id) || a.Covers(q, id)
  {
    var rows := RowsInserted(a);
    if Holds(table, q, id) {
      var i :| 0 <= i < |table| && table[i].queue == q && table[i].id == id;
      assert (table + rows)[i] == table[i];
    }
    if a.Covers(q, id) {
      assert (table + rows)[|table| + (id - a.lo)] == rows[id - a.lo];
    }
  }

  lemma FirstCopyAppend(table: seq<Stored>, rows: seq<Stored>, i: nat)
    requires i < |table|
    ensures FirstCopy(table + rows, i) <==> FirstCopy(table, i)
  {
    forall k | 0 <= k <= i ensures (table + rows)[k] == table[k] {}
  }

  lemma FirstExists(table: seq<Stored>, q: nat, id: int)
    requires Holds(table, q, id)
    ensures exists i :: 0 <= i < |table| && table[i].queue == q && table[i].id == id && FirstCopy(table, i)
  {
    var i :| 0 <= i < |table| && table[i].queue == q && table[i].id == id;
    if !FirstCopy(table, i) {
      var k :| 0 <= k < i && table[k].queue == q && table[k].id == id;
      assert Holds(table[..i], q, id) by { assert table[..i][k] == table[k]; }
      FirstExists(table[..i], q, id);
      var f :| 0 <= f < i && table[..i][f].queue == q && table[..i][f].id == id && FirstCopy(table[..i], f);
      FirstCopyAppend(table[..i], table[i..], f);
      assert table[..i] + table[i..] == table;
    }
  }

  /** When a transaction lands, early or late, the push order of first copies
      survives exactly if everything it holds below the mark is stored already. */
  lemma LandingKeepsOrderIff(s: Sys, a: nat)
    requires Inv(s) && MarksOk(s.ledgers, s.table) && InOrder(s.table)
    requires Enabled(s, Land(a))
    ensures InOrder(Next(s, Land(a)).table) <==> CaughtUp(s, s.attempts[a])
  {
    var attempt := s.attempts[a];
    if CaughtUp(s, attempt) {
      LandingInOrder(s, a);
    } else {
      LandingOutOfOrder(s, a);
    }
  }

  lemma LandingInOrder(s: Sys, a: nat)
    requires MarksOk(s.ledgers, s.table) && InOrder(s.table)
    requires Enabled(s, Land(a)) && CaughtUp(s, s.attempts[a])
    ensures InOrder(Next(s, Land(a)).table)
  {
    var attempt := s.attempts[a];
    var rows := RowsInserted(attempt);
    var table := s.table + rows;
    forall i, j | 0 <= i < j < |table| && table[i].queue == table[j].queue && FirstCopy(table, i) && FirstCopy(table, j)
      ensures table[i].id < table[j].id
    {
      if j < |s.table| {
        FirstCopyAppend(s.table, rows, i);
        FirstCopyAppend(s.table, rows, j);
      } else {
        FirstCopyIsNew(s.table, rows, j);
      }
    }
  }

  lemma NewFirstCopy(table: seq<Stored>, a: Attempt, id: int)
    requires a.lo <= id <= a.hi() && !Holds(table, a.queue, id)
    ensures var j := |table| + (id - a.lo);
            var after := table + RowsInserted(a);
            j < |after| && after[j].queue == a.queue && after[j].id == id && FirstCopy(after, j)
  {
    var rows := RowsInserted(a);
    forall k | 0 <= k < |table| + (id - a.lo)
      ensures (table + rows)[k].queue != a.queue || (table + rows)[k].id != id
    {
      assert (table + rows)[k] == if k < |table| then table[k] else rows[k - |table|];
    }
  }

  lemma LandingOutOfOrder(s: Sys, a: nat)
    requires MarksOk(s.ledgers, s.table)
    requires Enabled(s, Land(a)) && !CaughtUp(s, s.attempts[a])
    ensures !InOrder(Next(s, Land(a)).table)
  {
    var attempt := s.attempts[a];
    var mark := s.ledgers[attempt.queue].mark;
    var id :| attempt.lo <= id <= attempt.hi() && id < mark && !Holds(s.table, attempt.queue, id);
    assert Holds(s.table, attempt.queue, mark - 1);
    AppendedOutOfOrder(s.table, attempt, id, mark - 1);
  }

  lemma AppendedOutOfOrder(table: seq<Stored>, a: Attempt, id: int, higher: int)
    requires a.lo <= id <= a.hi() && id <= higher && !Holds(table, a.queue, id) && Holds(table, a.queue, higher)
    ensures !InOrder(table + RowsInserted(a))
  {
    var rows := RowsInserted(a);
    NewFirstCopy(table, a, id);
    FirstExists(table, a.queue, higher);
    var i :| 0 <= i < |table| && table[i].queue == a.queue && table[i].id == higher && FirstCopy(table, i);
    FirstCopyAppend(table, rows, i);
    NotInOrder(table + rows, i, |table| + (id - a.lo));
  }

  lemma NotInOrder(table: seq<Stored>, i: nat, j: nat)
    requires i < j < |table| && table[i].queue == table[j].queue && table[j].id <= table[i].id
    requires FirstCopy(table, i) && FirstCopy(table, j)
    ensures !InOrder(table)
  {
  }

  lemma LandingMarks(ledgers: seq<Ledger>, table: seq<Stored>, a: Attempt)
    requires MarksOk(ledgers, table) && a.queue < |ledgers| && a.lo <= a.hi()
    ensures var l := ledgers[a.queue];
            MarksOk(ledgers[a.queue := l.(mark := Max(l.mark, a.hi() + 1))], table + RowsInserted(a))
  {
    var l := ledgers[a.queue];
    var later := ledgers[a.queue := l.(mark := Max(l.mark, a.hi() + 1))];
    forall q | 0 <= q < |later| && later[q].mark > 0 ensures Holds(table + RowsInserted(a), q, later[q].mark - 1) {
      HoldsAppend(table, a, q, later[q].mark - 1);
    }
  }

  /** Only a landing moves a mark. */
  lemma MarksStay(ledgers: seq<Ledger>, later: seq<Ledger>, table: seq<Stored>)
    requires TableOk(ledgers, table) && MarksOk(ledgers, table) && |ledgers| <= |later|
    requires forall q :: 0 <= q < |later| ==> later[q].mark == if q < |ledgers| then ledgers[q].mark else 0
    ensures MarksOk(later, table)
  {
  }

  lemma OnlyLandingsMark(s: Sys, step: Step)
    requires GenerationsOk(s.ledgers, s.generations) && Enabled(s, step) && !step.Land?
    ensures var t := Next(s, step);
            && t.table == s.table && |s.ledgers| <= |t.ledgers|
            && forall q :: 0 <= q < |t.ledgers| ==> t.ledgers[q].mark == if q < |s.ledgers| then s.ledgers[q].mark else 0
  {
  }

  lemma StepKeepsMarks(s: Sys, step: Step)
    requires AttemptsOk(s.ledgers, s.attempts) && TableOk(s.ledgers, s.table) && MarksOk(s.ledgers, s.table)
    requires GenerationsOk(s.ledgers, s.generations) && FlyingOk(s.flying, s.attempts) && Enabled(s, step)
    ensures MarksOk(Next(s, step).ledgers, Next(s, step).table)
  {
    var t := Next(s, step);
    if step.Land? {
      assert AttemptOk(s.ledgers, s.attempts[step.attempt]);
      LandingMarks(s.ledgers, s.table, s.attempts[step.attempt]);
    } else {
      OnlyLandingsMark(s, step);
      MarksStay(s.ledgers, t.ledgers, s.table);
    }
  }

  lemma FilledByLanding(s: Sys, a: nat, q: nat, from: int)
    requires Enabled(s, Land(a)) && q < |s.ledgers| && Filled(s.ledgers, s.table, q, from)
    requires q == s.attempts[a].queue ==> s.attempts[a].lo <= from
    ensures Filled(Next(s, Land(a)).ledgers, Next(s, Land(a)).table, q, from)
  {
    var t := Next(s, Land(a));
    forall id | from <= id < t.ledgers[q].mark ensures Holds(t.table, q, id) {
      HoldsAppend(s.table, s.attempts[a], q, id);
    }
  }

  /** A landing, early or late, leaves no gap. */
  lemma LandingFills(s: Sys, a: nat)
    requires Inv(s) && NoGaps(s) && Forward(s.attempts) && Enabled(s, Land(a))
    ensures NoGaps(Next(s, Land(a)))
  {
    var t := Next(s, Land(a));
    assert AttemptOk(s.ledgers, s.attempts[a]);
    forall q | 0 <= q < |t.ledgers| ensures Filled(t.ledgers, t.table, q, t.ledgers[q].queue.Front()) {
      assert Filled(s.ledgers, s.table, q, s.ledgers[q].queue.Front());
      FilledByLanding(s, a, q, s.ledgers[q].queue.Front());
    }
    forall b | 0 <= b < |t.attempts| && t.attempts[b].verdict.Pending? && t.attempts[b].queue < |t.ledgers|
      ensures Filled(t.ledgers, t.table, t.attempts[b].queue, t.attempts[b].lo)
    {
      PendingIsLast(s.attempts, a, b);
      assert Filled(s.ledgers, s.table, s.attempts[b].queue, s.attempts[b].lo);
      FilledByLanding(s, a, s.attempts[b].queue, s.attempts[b].lo);
    }
  }

  lemma PendingIsLast(attempts: seq<Attempt>, a: nat, b: nat)
    requires Serial(attempts) && Forward(attempts) && a < |attempts| && b < |attempts| && attempts[b].verdict.Pending?
    ensures attempts[a].queue == attempts[b].queue ==> attempts[a].lo <= attempts[b].lo
  {
    var first, second := attempts[Min(a, b)], attempts[Max(a, b)];
    assert a != b && first.queue == second.queue ==> Before(first, second);
  }

  lemma StepKeepsForward(s: Sys, step: Step)
    requires LedgersOk(s.ledgers) && AttemptsOk(s.ledgers, s.attempts) && Forward(s.attempts) && Enabled(s, step)
    ensures Forward(Next(s, step).attempts)
  {
    if step.Begin? {
      var q := s.generations[step.generation].queue;
      assert s.ledgers[q].Balanced();
      forall a | 0 <= a < |s.attempts| && s.attempts[a].queue == q ensures s.attempts[a].lo <= Head(s.ledgers[q].queue, step.limit)[0].id {
        assert AttemptOk(s.ledgers, s.attempts[a]);
      }
    }
  }

  lemma StepKeepsOthers(s: Sys, step: Step)
    requires AttemptsOk(s.ledgers, s.attempts) && GenerationsOk(s.ledgers, s.generations) && FlyingOk(s.flying, s.attempts)
    requires Enabled(s, step) && !step.Land?
    ensures var t := Next(s, step);
            && t.table == s.table && |s.ledgers| <= |t.ledgers|
            && (forall q :: 0 <= q < |t.ledgers| ==> t.ledgers[q].mark == if q < |s.ledgers| then s.ledgers[q].mark else 0)
            && (forall a :: 0 <= a < |s.attempts| && t.attempts[a].verdict.Pending? ==> t.attempts[a] == s.attempts[a])
            && (forall a :: |s.attempts| <= a < |t.attempts| ==>
                              t.attempts[a].queue < |s.ledgers| && t.attempts[a].lo == Head(s.ledgers[t.attempts[a].queue].queue, step.limit)[0].id)
  {
  }

  lemma StepKeepsNoGaps(s: Sys, step: Step)
    requires LedgersOk(s.ledgers) && AttemptsOk(s.ledgers, s.attempts) && GenerationsOk(s.ledgers, s.generations)
    requires FlyingOk(s.flying, s.attempts) && NoGaps(s) && Enabled(s, step) && !step.Land?
    requires LedgersAdvance(s.ledgers, Next(s, step).ledgers)
    ensures NoGaps(Next(s, step))
  {
    var t := Next(s, step);
    StepKeepsOthers(s, step);
    assert t.table == s.table;
    forall q | 0 <= q < |t.ledgers| ensures Filled(t.ledgers, t.table, q, t.ledgers[q].queue.Front()) {
      if q < |s.ledgers| {
        assert LedgerAdvances(s.ledgers[q], t.ledgers[q]);
        assert Filled(s.ledgers, s.table, q, s.ledgers[q].queue.Front());
      } else {
        assert t.ledgers[q].Balanced();
      }
    }
    forall a | 0 <= a < |t.attempts| && t.attempts[a].verdict.Pending? && t.attempts[a].queue < |t.ledgers|
      ensures Filled(t.ledgers, t.table, t.attempts[a].queue, t.attempts[a].lo)
    {
      if a < |s.attempts| {
        assert AttemptOk(s.ledgers, s.attempts[a]);
        assert Filled(s.ledgers, s.table, s.attempts[a].queue, s.attempts[a].lo);
      } else {
        var l := s.ledgers[t.attempts[a].queue];
        assert l.Balanced();
        assert Filled(s.ledgers, s.table, t.attempts[a].queue, l.queue.Front());
      }
    }
  }

  /** In every run, whatever overflows, is retried or lands late, nothing that is
      queued or pending is missing below the mark. */
  lemma {:induction false} EveryRunKeepsNoGaps(steps: seq<Step>)
    ensures var s := Exec(Start, steps);
            MarksOk(s.ledgers, s.table) && Forward(s.attempts) && NoGaps(s)
    decreases |steps|
  {
    if steps != [] {
      var before := Exec(Start, steps[..|steps| - 1]);
      var step := steps[|steps| - 1];
      EveryRunKeepsNoGaps(steps[..|steps| - 1]);
      EveryRunKeepsInv(steps[..|steps| - 1]);
      if Enabled(before, step) {
        StepKeepsMarks(before, step);
        StepKeepsForward(before, step);
        if step.Land? {
          LandingFills(before, step.attempt);
        } else {
          StepAdvancesLedgers(before, step);
          StepKeepsNoGaps(before, step);
        }
      }
    }
  }

  // --- Which rows can be out of order -------------------------------------------------

  lemma {:induction false} CopiedMeansHeld(table: seq<Stored>, q: nat, id: int)
    requires Copies(table, q, id) >= 1
    ensures Holds(table, q, id)
  {
    var n := |table| - 1;
    if !(table[n].queue == q && table[n].id == id) {
      CopiedMeansHeld(table[..n], q, id);
      var i :| 0 <= i < n && table[..n][i].queue == q && table[..n][i].id == id;
      assert table[i] == table[..n][i];
    }
  }

  /** Below the mark every row is stored, unless it was counted as dropped. */
  lemma MissingMeansDropped(s: Sys, q: nat, id: nat)
    requires Inv(s) && NoGaps(s) && q < |s.ledgers| && id < s.ledgers[q].mark
    ensures Holds(s.table, q, id) || Dropped(s.ledgers[q], id)
  {
    var l := s.ledgers[q];
    assert l.Balanced() && Filled(s.ledgers, s.table, q, l.queue.Front());
    if id in l.acked {
      var a :| a in ConfirmedOn(s.attempts, q, id);
      assert AttemptOk(s.ledgers, s.attempts[a]);
      assert a in LandedOn(s.attempts, q, id);
      assert Copies(s.table, q, id) == |LandedOn(s.attempts, q, id)|;
      CopiedMeansHeld(s.table, q, id);
    }
  }

  /** A transaction is caught up exactly if what was dropped of it is stored; one
      that lands before the flusher gave up on it always is. */
  lemma CaughtUpIff(s: Sys, a: nat)
    requires Inv(s) && NoGaps(s) && Enabled(s, Land(a))
    ensures CaughtUp(s, s.attempts[a]) <==> DroppedStored(s, s.attempts[a])
    ensures s.attempts[a].verdict.Pending? ==> CaughtUp(s, s.attempts[a])
  {
    var attempt := s.attempts[a];
    assert attempt.verdict.Pending? ==> Filled(s.ledgers, s.table, attempt.queue, attempt.lo);
    forall id | attempt.lo <= id <= attempt.hi() && id < s.ledgers[attempt.queue].mark
      ensures Holds(s.table, attempt.queue, id) || Dropped(s.ledgers[attempt.queue], id)
    {
      MissingMeansDropped(s, attempt.queue, id);
    }
  }

  /** A stored row that comes after a row pushed later was counted as dropped. */
  ghost predicate OnlyDroppedAreLate(s: Sys) {
    forall i, j :: 0 <= i < j < |s.table| && Misplaced(s.table, i, j) ==> DroppedRow(s.ledgers, s.table[j])
  }

  predicate Misplaced(table: seq<Stored>, i: nat, j: nat)
    requires i < j < |table|
  {
    table[i].queue == table[j].queue && table[j].id <= table[i].id && FirstCopy(table, i) && FirstCopy(table, j)
  }

  predicate DroppedRow(ledgers: seq<Ledger>, row: Stored) { row.queue < |ledgers| && Dropped(ledgers[row.queue], row.id) }

  lemma FirstCopyIsNew(table: seq<Stored>, rows: seq<Stored>, j: nat)
    requires |table| <= j < |table + rows| && FirstCopy(table + rows, j)
    ensures !Holds(table, (table + rows)[j].queue, (table + rows)[j].id)
  {
    forall k | 0 <= k < |table| ensures table[k].queue != (table + rows)[j].queue || table[k].id != (table + rows)[j].id {
      assert (table + rows)[k] == table[k];
    }
  }

  lemma LandingMisplacesDropped(s: Sys, a: nat, i: nat, j: nat)
    requires Inv(s) && MarksOk(s.ledgers, s.table) && NoGaps(s) && Enabled(s, Land(a))
    requires i < j < |Next(s, Land(a)).table| && |s.table| <= j && Misplaced(Next(s, Land(a)).table, i, j)
    ensures DroppedRow(s.ledgers, Next(s, Land(a)).table[j])
  {
    var attempt := s.attempts[a];
    var table := Next(s, Land(a)).table;
    var id := table[j].id;
    FirstCopyIsNew(s.table, RowsInserted(attempt), j);
    if i < |s.table| {
      assert table[i] == s.table[i];
      MissingMeansDropped(s, attempt.queue, id);
    }
  }

  lemma StepMisplacesDropped(s: Sys, step: Step)
    requires Inv(s) && MarksOk(s.ledgers, s.table) && NoGaps(s) && Enabled(s, step) && OnlyDroppedAreLate(s)
    ensures OnlyDroppedAreLate(Next(s, step))
  {
    var t := Next(s, step);
    StepAdvancesLedgers(s, step);
    forall i, j | 0 <= i < j < |t.table| && Misplaced(t.table, i, j) ensures DroppedRow(t.ledgers, t.table[j]) {
      if j >= |s.table| {
        LandingMisplacesDropped(s, step.attempt, i, j);
      } else {
        var more := t.table[|s.table|..];
        assert t.table == s.table + more;
        FirstCopyAppend(s.table, more, i);
        FirstCopyAppend(s.table, more, j);
        assert Misplaced(s.table, i, j);
      }
      var q := t.table[j].queue;
      assert DroppedRow(s.ledgers, t.table[j]);
      assert LedgerAdvances(s.ledgers[q], t.ledgers[q]);
    }
  }

  /** In every run the first copies of the rows that were not dropped are stored in
      push order: whatever lands late, a row is out of order only if it was
      counted as dropped before. */
  lemma {:induction false} PushOrder(steps: seq<Step>)
    ensures OnlyDroppedAreLate(Exec(Start, steps))
    decreases |steps|
  {
    if steps != [] {
      var before := Exec(Start, steps[..|steps| - 1]);
      PushOrder(steps[..|steps| - 1]);
      EveryRunKeepsNoGaps(steps[..|steps| - 1]);
      EveryRunKeepsInv(steps[..|steps| - 1]);
      if Enabled(before, steps[|steps| - 1]) {
        StepMisplacesDropped(before, steps[|steps| - 1]);
      }
    }
  }

  /** No transaction that was given up on brings in a row that was dropped, below
      the mark and for the first time. */
  ghost predicate NoDroppedRowLandsLate(steps: seq<Step>)
    decreases |steps|
  {
    steps != [] ==>
      var before := Exec(Start, steps[..|steps| - 1]);
      var step := steps[|steps| - 1];
      && NoDroppedRowLandsLate(steps[..|steps| - 1])
      && (step.Land? && Enabled(before, step) && before.attempts[step.attempt].verdict.Unknown? ==>
            DroppedStored(before, before.attempts[step.attempt]))
  }

  lemma DisorderStays(table: seq<Stored>, more: seq<Stored>)
    requires !InOrder(table)
    ensures !InOrder(table + more)
  {
    var i, j :| 0 <= i < j < |table| && table[i].queue == table[j].queue && FirstCopy(table, i) && FirstCopy(table, j)
                && table[j].id <= table[i].id;
    FirstCopyAppend(table, more, i);
    FirstCopyAppend(table, more, j);
    NotInOrder(table + more, i, j);
  }

  /** A run stores the first copies in push order exactly if no dropped row of a
      given-up transaction lands below the mark for the first time. */
  lemma {:induction false} InOrderIff(steps: seq<Step>)
    ensures InOrder(Exec(Start, steps).table) <==> NoDroppedRowLandsLate(steps)
    decreases |steps|
  {
    if steps != [] {
      var before := Exec(Start, steps[..|steps| - 1]);
      var step := steps[|steps| - 1];
      InOrderIff(steps[..|steps| - 1]);
      EveryRunKeepsNoGaps(steps[..|steps| - 1]);
      EveryRunKeepsInv(steps[..|steps| - 1]);
      if step.Land? && Enabled(before, step) {
        CaughtUpIff(before, step.attempt);
        if InOrder(before.table) {
          LandingKeepsOrderIff(before, step.attempt);
        } else {
          DisorderStays(before.table, RowsInserted(before.attempts[step.attempt]));
        }
      }
    }
  }

  lemma ExecSnoc(steps: seq<Step>, step: Step)
    requires Enabled(Exec(Start, steps), step)
    ensures Exec(Start, steps + [step]) == Next(Exec(Start, steps), step)
  {
    assert (steps + [step])[..|steps + [step]| - 1] == steps;
  }

  lemma OneRow(q: Queue, id: nat, row: Row)
    requires q.rows == [Entry(id, row)]
    ensures Head(q, 1) == [Entry(id, row)] && RowsOf(Head(q, 1)) == [row]
  {
  }

  lemma FirstRowQueued(config: GroupConfig, row: Row)
    ensures var s := Exec(Start, [Open(config, 1, 0)] + [Produce(0, row)]);
            && s.generations == [Generation(config, 0, true)]
            && |s.ledgers| == 1 && s.ledgers[0].queue == Queue([Entry(0, row)], 1, 1, 0)
            && s.attempts == [] && s.flying == map[] && s.table == []
  {
    var begun := [Open(config, 1, 0)];
    ExecSnoc([], Open(config, 1, 0));
    assert [] + begun == begun;
    ExecSnoc(begun, Produce(0, row));
  }

  lemma FirstBatchGivenUp(config: GroupConfig, row: Row)
    ensures var steps := [Open(config, 1, 0)] + [Produce(0, row)] + [Begin(0, 1)] + [Finish(config.connectionId, Unknown)];
            var s := Exec(Start, steps);
            && s.generations == [Generation(config, 0, true)]
            && s.attempts == [Attempt(0, Destination(config), 0, [row], Unknown, false)]
            && |s.ledgers| == 1 && s.ledgers[0].queue == Queue([Entry(0, row)], 1, 1, 0)
            && s.flying == map[] && s.table == []
  {
    var queued := [Open(config, 1, 0)] + [Produce(0, row)];
    FirstRowQueued(config, row);
    OneRow(Exec(Start, queued).ledgers[0].queue, 0, row);
    ExecSnoc(queued, Begin(0, 1));
    ExecSnoc(queued + [Begin(0, 1)], Finish(config.connectionId, Unknown));
  }

  lemma SecondBatchBegun(steps: seq<Step>, config: GroupConfig, row: Row, next: Row)
    requires var s := Exec(Start, steps);
             && s.generations == [Generation(config, 0, true)]
             && s.attempts == [Attempt(0, Destination(config), 0, [row], Unknown, false)]
             && |s.ledgers| == 1 && s.ledgers[0].queue == Queue([Entry(0, row)], 1, 1, 0)
             && s.flying == map[] && s.table == []
    ensures var s := Exec(Start, steps + [Produce(0, next)] + [Begin(0, 1)]);
            && s.attempts == [Attempt(0, Destination(config), 0, [row], Unknown, false), Attempt(0, Destination(config), 1, [next], Pending, false)]
            && |s.ledgers| == 1 && s.table == []
  {
    ExecSnoc(steps, Produce(0, next));
    var s := Exec(Start, steps + [Produce(0, next)]);
    assert s.ledgers[0].queue == Queue([Entry(1, next)], 2, 1, 1);
    OneRow(s.ledgers[0].queue, 1, next);
    ExecSnoc(steps + [Produce(0, next)], Begin(0, 1));
  }

  lemma BothLand(s: Sys, dest: Dest, row: Row, next: Row)
    requires s.attempts == [Attempt(0, dest, 0, [row], Unknown, false), Attempt(0, dest, 1, [next], Pending, false)]
    requires |s.ledgers| == 1 && s.table == []
    ensures Enabled(s, Land(1)) && Enabled(Next(s, Land(1)), Land(0))
    ensures var t := Next(Next(s, Land(1)), Land(0));
            t.table == [Stored(0, 1, dest, next), Stored(0, 0, dest, row)]
  {
    assert RowsInserted(s.attempts[1]) == [Stored(0, 1, dest, next)];
    assert RowsInserted(s.attempts[0]) == [Stored(0, 0, dest, row)];
  }

  lemma ReorderedBy(steps: seq<Step>, dest: Dest, row: Row, next: Row)
    requires var s := Exec(Start, steps);
             && s.attempts == [Attempt(0, dest, 0, [row], Unknown, false), Attempt(0, dest, 1, [next], Pending, false)]
             && |s.ledgers| == 1 && s.table == []
    ensures var after := Exec(Start, steps + [Land(1)] + [Land(0)]);
            !InOrder(after.table) && after.table == [Stored(0, 1, dest, next), Stored(0, 0, dest, row)]
  {
    BothLand(Exec(Start, steps), dest, row, next);
    ExecSnoc(steps, Land(1));
    ExecSnoc(steps + [Land(1)], Land(0));
    NotInOrder(Exec(Start, steps + [Land(1)] + [Land(0)]).table, 0, 1);
  }

  /** A batch is given up on, its row overflows, the next batch is stored, and
      then the first one lands. */
  function LateRun(config: GroupConfig, row: Row, next: Row): seq<Step> {
    [Open(config, 1, 0)] + [Produce(0, row)] + [Begin(0, 1)] + [Finish(config.connectionId, Unknown)]
    + [Produce(0, next)] + [Begin(0, 1)] + [Land(1)] + [Land(0)]
  }

  /** A late landing can break the order. */
  lemma LateLandingCanReorder(config: GroupConfig, row: Row, next: Row)
    ensures var s := Exec(Start, LateRun(config, row, next));
            !InOrder(s.table) && s.table == [Stored(0, 1, Destination(config), next), Stored(0, 0, Destination(config), row)]
  {
    var steps := [Open(config, 1, 0)] + [Produce(0, row)] + [Begin(0, 1)] + [Finish(config.connectionId, Unknown)];
    assert LateRun(config, row, next) == steps + [Produce(0, next)] + [Begin(0, 1)] + [Land(1)] + [Land(0)];
    ReorderedAfter(steps, config, row, next) by {
      FirstBatchGivenUp(config, row);
    }
  }

  lemma ReorderedAfter(steps: seq<Step>, config: GroupConfig, row: Row, next: Row)
    requires var s := Exec(Start, steps);
             && s.generations == [Generation(config, 0, true)]
             && s.attempts == [Attempt(0, Destination(config), 0, [row], Unknown, false)]
             && |s.ledgers| == 1 && s.ledgers[0].queue == Queue([Entry(0, row)], 1, 1, 0)
             && s.flying == map[] && s.table == []
    ensures var s := Exec(Start, steps + [Produce(0, next)] + [Begin(0, 1)] + [Land(1)] + [Land(0)]);
            !InOrder(s.table) && s.table == [Stored(0, 1, Destination(config), next), Stored(0, 0, Destination(config), row)]
  {
    SecondBatchBegun(steps, config, row, next);
    ReorderedBy(steps + [Produce(0, next)] + [Begin(0, 1)], Destination(config), row, next);
  }
}
