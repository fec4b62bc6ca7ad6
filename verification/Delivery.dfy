/** Whole runs of the sink: producers, generations sharing or replacing a
    queue, one flusher per connection, and a database that decides by itself
    when - and whether - a batch becomes visible
    (apps/banto-hub-sink/src/{queue,group,flush,run}.rs). */
module Delivery {
  import opened Rows
  import opened RowQueues
  import opened Plans

  // --- One queue and the fate of every id it gave out -------------------------

  /** `origins[id]` is the destination of the generation that pushed row `id`;
      `mark` is one more than the largest id the database holds. */
  datatype Ledger = Ledger(
    queue: Queue, dest: Dest, origins: seq<Dest>, carried: nat, rejected: nat,
    acked: set<int>, overflowed: set<int>, discarded: set<int>, mark: nat)
  {
    ghost predicate Balanced() {
      && queue.Valid()
      && |origins| == queue.nextId
      && (forall o :: o in origins ==> o == dest)
      && Placed(queue.Front())
      && |acked| + |overflowed| + |discarded| == queue.Front()
      && queue.dropped == Min(carried + rejected + |overflowed| + |discarded|, U64_MAX)
    }

    /** Every id below `front`, and no other, left the queue in exactly one way. */
    ghost predicate Placed(front: int) {
      && (forall i :: i in acked ==> 0 <= i < front && i !in overflowed && i !in discarded)
      && (forall i :: i in overflowed ==> 0 <= i < front && i !in discarded)
      && (forall i :: i in discarded ==> 0 <= i < front)
      && (forall i :: 0 <= i < front ==> i in acked || i in overflowed || i in discarded)
    }
  }

  /** The ids `lo` up to but not including `hi`. */
  function Ids(lo: int, hi: int): (ids: set<int>)
    ensures forall i :: i in ids <==> lo <= i < hi
    ensures |ids| == Max(0, hi - lo)
    decreases hi - lo
  {
    if hi <= lo then {} else Ids(lo, hi - 1) + {hi - 1}
  }

  /** Ids that leave the front are new to every set of ids that left before. */
  lemma Joined(ids: set<int>, from: int, to: int)
    requires from <= to && forall i :: i in ids ==> i < from
    ensures |ids + Ids(from, to)| == |ids| + (to - from)
  {
    assert ids !! Ids(from, to);
  }

  function Opened(dest: Dest, maxRows: nat, carried: nat): Ledger {
    Ledger(Queue([], 0, maxRows, carried), dest, [], carried, 0, {}, {}, {}, 0)
  }

  function LedgerPushed(l: Ledger, row: Row, origin: Dest): Ledger {
    var next := Pushed(l.queue, row);
    if l.queue.maxRows == 0 then
      l.(queue := next, rejected := l.rejected + 1)
    else
      l.(queue := next, origins := l.origins + [origin],
         overflowed := l.overflowed + Ids(l.queue.Front(), next.Front()))
  }

  function LedgerCommitted(l: Ledger, last: nat): Ledger {
    var next := Committed(l.queue, Some(last));
    l.(queue := next, acked := l.acked + Ids(l.queue.Front(), next.Front()))
  }

  function LedgerDiscarded(l: Ledger): Ledger {
    var next := Discarded(l.queue);
    l.(queue := next, discarded := l.discarded + Ids(l.queue.Front(), next.Front()))
  }

  /** A ledger only moves forward. */
  ghost predicate LedgerAdvances(l: Ledger, later: Ledger) {
    && later.Balanced()
    && later.dest == l.dest
    && l.queue.nextId <= later.queue.nextId
    && l.queue.Front() <= later.queue.Front()
    && l.origins <= later.origins
    && l.acked <= later.acked && l.overflowed <= later.overflowed && l.discarded <= later.discarded
  }

  /** Ids that leave the front join one of the three sets of departed ids. */
  lemma PlacedGrows(l: Ledger, later: Ledger, from: int, to: int)
    requires l.Placed(from) && 0 <= from <= to
    requires || (later.acked == l.acked + Ids(from, to) && later.overflowed == l.overflowed && later.discarded == l.discarded)
             || (later.acked == l.acked && later.overflowed == l.overflowed + Ids(from, to) && later.discarded == l.discarded)
             || (later.acked == l.acked && later.overflowed == l.overflowed && later.discarded == l.discarded + Ids(from, to))
    ensures later.Placed(to)
    ensures |later.acked| + |later.overflowed| + |later.discarded| == |l.acked| + |l.overflowed| + |l.discarded| + (to - from)
  {
    Joined(l.acked, from, to);
    Joined(l.overflowed, from, to);
    Joined(l.discarded, from, to);
    forall i | 0 <= i < to ensures i in later.acked || i in later.overflowed || i in later.discarded {
      assert i < from || i in Ids(from, to);
    }
  }

  /** What a push evicts is what it counts. */
  lemma PushCounts(q: Queue, row: Row)
    requires q.Valid() && q.maxRows != 0
    ensures q.Front() <= Pushed(q, row).Front() && Pushed(q, row).nextId == q.nextId + 1
    ensures Pushed(q, row).dropped == SatAdd(q.dropped, Pushed(q, row).Front() - q.Front())
  {
  }

  lemma CappedTwice(total: nat, more: nat)
    ensures SatAdd(Min(total, U64_MAX), more) == Min(total + more, U64_MAX)
  {
  }

  /** A push at zero capacity only counts the row. */
  lemma RejectionKeepsBalance(l: Ledger, row: Row)
    requires l.Balanced() && l.queue.maxRows == 0
    ensures LedgerAdvances(l, LedgerPushed(l, row, l.dest))
  {
    CappedTwice(l.carried + l.rejected + |l.overflowed| + |l.discarded|, 1);
  }

  lemma LedgerPushKeepsBalance(l: Ledger, row: Row)
    requires l.Balanced()
    ensures LedgerAdvances(l, LedgerPushed(l, row, l.dest))
  {
    if l.queue.maxRows == 0 {
      RejectionKeepsBalance(l, row);
    } else {
      var later := LedgerPushed(l, row, l.dest);
      var evicted := later.queue.Front() - l.queue.Front();
      PushDescends(l.queue, row);
      PushCounts(l.queue, row);
      PlacedGrows(l, later, l.queue.Front(), later.queue.Front());
      Joined(l.overflowed, l.queue.Front(), later.queue.Front());
      CappedTwice(l.carried + l.rejected + |l.overflowed| + |l.discarded|, evicted);
    }
  }

  lemma LedgerCommitKeepsBalance(l: Ledger, last: nat)
    requires l.Balanced()
    ensures LedgerAdvances(l, LedgerCommitted(l, last))
    ensures last < l.queue.nextId ==> last < LedgerCommitted(l, last).queue.Front()
  {
    CommitDescends(l.queue, Some(last));
    PlacedGrows(l, LedgerCommitted(l, last), l.queue.Front(), Committed(l.queue, Some(last)).Front());
  }

  lemma LedgerDiscardKeepsBalance(l: Ledger)
    requires l.Balanced()
    ensures LedgerAdvances(l, LedgerDiscarded(l))
  {
    DiscardDescends(l.queue);
    PlacedGrows(l, LedgerDiscarded(l), l.queue.Front(), l.queue.nextId);
  }

  // --- The system ---------------------------------------------------------------

  /** What the flusher learned about one INSERT transaction. */
  datatype Verdict = Pending | Confirmed | NotCommitted | Unknown

  /** A batch is never empty. */
  type BatchRows = rows: seq<Row> | rows != [] witness [Row(0, 0, "", None, "")]

  /** One transaction with the rows `lo..hi` of a queue. `landed`: its rows are in
      the table, whether or not the flusher knows. */
  datatype Attempt = Attempt(queue: nat, dest: Dest, lo: nat, rows: BatchRows, verdict: Verdict, landed: bool) {
    function hi(): nat { lo + |rows| - 1 }

    predicate Covers(q: nat, id: int) { queue == q && lo <= id <= hi() }
  }

  /** `queue` and `id` say which row this is; the database sees `dest` and `row`. */
  datatype Stored = Stored(queue: nat, id: nat, dest: Dest, row: Row)

  datatype Generation = Generation(config: GroupConfig, queue: nat, producing: bool)

  datatype Sys = Sys(
    ledgers: seq<Ledger>, generations: seq<Generation>, attempts: seq<Attempt>,
    flying: map<int, nat>, table: seq<Stored>)

  const Start := Sys([], [], [], map[], [])

  datatype Step =
    | Open(config: GroupConfig, maxRows: nat, carried: nat)
      // a generation with a queue of its own
    | HandOff(generation: nat, desired: Option<GroupConfig>, connectionsToStop: seq<int>)
      // the next generation shares the queue object
    | Halt(generation: nat)
      // the producer is aborted
    | Produce(generation: nat, row: Row)
    | Begin(generation: nat, limit: nat)
      // the connection's flusher peeks a batch through this generation, current or not
    | Land(attempt: nat)
      // the COMMIT takes effect, possibly long after the flusher gave up
    | Finish(connection: int, verdict: Verdict)
      // the flusher gets its answer, times out or is aborted
    | Drop(generation: nat)
      // `discard_queue`

  predicate Enabled(s: Sys, step: Step) {
    match step
    case Open(_, _, carried) => carried <= U64_MAX
    case HandOff(g, desired, stops) =>
      g < |s.generations| && QueueCarriesOver(s.generations[g].config, desired, stops)
    case Halt(g) => g < |s.generations|
    case Produce(g, _) =>
      g < |s.generations| && s.generations[g].producing && s.generations[g].queue < |s.ledgers|
    case Begin(g, limit) =>
      && g < |s.generations|
      && s.generations[g].config.connectionId !in s.flying
      && s.generations[g].queue < |s.ledgers|
      && Head(s.ledgers[s.generations[g].queue].queue, limit) != []
    case Land(a) =>
      && a < |s.attempts| && s.attempts[a].queue < |s.ledgers|
      && !s.attempts[a].landed && (s.attempts[a].verdict.Pending? || s.attempts[a].verdict.Unknown?)
    case Finish(c, verdict) =>
      && c in s.flying && s.flying[c] < |s.attempts| && s.attempts[s.flying[c]].queue < |s.ledgers|
      && !verdict.Pending?
      && (verdict.Confirmed? ==> s.attempts[s.flying[c]].landed)
      && (verdict.NotCommitted? ==> !s.attempts[s.flying[c]].landed)
    case Drop(g) => g < |s.generations| && s.generations[g].queue < |s.ledgers|
  }

  function Next(s: Sys, step: Step): Sys
    requires Enabled(s, step)
  {
    match step
    case Open(config, maxRows, carried) =>
      s.(ledgers := s.ledgers + [Opened(Destination(config), maxRows, carried)],
         generations := s.generations + [Generation(config, |s.ledgers|, true)])
    case HandOff(g, desired, _) =>
      var current := s.generations[g];
      s.(generations := s.generations[g := current.(producing := false)] + [Generation(desired.value, current.queue, true)])
    case Halt(g) =>
      s.(generations := s.generations[g := s.generations[g].(producing := false)])
    case Produce(g, row) =>
      var q := s.generations[g].queue;
      s.(ledgers := s.ledgers[q := LedgerPushed(s.ledgers[q], row, Destination(s.generations[g].config))])
    case Begin(g, limit) =>
      var q := s.generations[g].queue;
      var head := Head(s.ledgers[q].queue, limit);
      s.(attempts := s.attempts + [Attempt(q, Destination(s.generations[g].config), head[0].id, RowsOf(head), Pending, false)],
         flying := s.flying[s.generations[g].config.connectionId := |s.attempts|])
    case Land(a) =>
      var attempt := s.attempts[a];
      var l := s.ledgers[attempt.queue];
      s.(attempts := s.attempts[a := attempt.(landed := true)],
         ledgers := s.ledgers[attempt.queue := l.(mark := Max(l.mark, attempt.hi() + 1))],
         table := s.table + RowsInserted(attempt))
    case Finish(c, verdict) =>
      var a := s.flying[c];
      var attempt := s.attempts[a];
      var l := s.ledgers[attempt.queue];
      s.(attempts := s.attempts[a := attempt.(verdict := verdict)],
         flying := s.flying - {c},
         ledgers := if verdict.Confirmed? then s.ledgers[attempt.queue := LedgerCommitted(l, attempt.hi())] else s.ledgers)
    case Drop(g) =>
      var q := s.generations[g].queue;
      s.(ledgers := s.ledgers[q := LedgerDiscarded(s.ledgers[q])])
  }

  function RowsInserted(a: Attempt): (rows: seq<Stored>)
    ensures |rows| == |a.rows|
    ensures forall i :: 0 <= i < |rows| ==> rows[i] == Stored(a.queue, a.lo + i, a.dest, a.rows[i])
  {
    seq(|a.rows|, i requires 0 <= i < |a.rows| => Stored(a.queue, a.lo + i, a.dest, a.rows[i]))
  }

  /** Every interleaving: a step that is not possible leaves the system as it is. */
  function Exec(s: Sys, steps: seq<Step>): Sys
    decreases |steps|
  {
    if steps == [] then s
    else
      var before := Exec(s, steps[..|steps| - 1]);
      var step := steps[|steps| - 1];
      if Enabled(before, step) then Next(before, step) else before
  }

  // --- What every step keeps ----------------------------------------------------

  ghost predicate LedgersOk(ledgers: seq<Ledger>) {
    forall q :: 0 <= q < |ledgers| ==> ledgers[q].Balanced()
  }

  /** A queue belongs to one destination, and only generations with that
      destination use it. */
  ghost predicate GenerationsOk(ledgers: seq<Ledger>, generations: seq<Generation>) {
    forall g :: 0 <= g < |generations| ==>
                  && generations[g].queue < |ledgers|
                  && Destination(generations[g].config) == ledgers[generations[g].queue].dest
  }

  ghost predicate AttemptOk(ledgers: seq<Ledger>, a: Attempt) {
    && a.queue < |ledgers|
    && a.dest == ledgers[a.queue].dest
    && a.lo <= a.hi() < ledgers[a.queue].queue.nextId
    && a.lo <= ledgers[a.queue].queue.Front()
    && (a.verdict.Confirmed? ==> a.landed && a.hi() < ledgers[a.queue].queue.Front())
    && (a.verdict.NotCommitted? ==> !a.landed)
  }

  ghost predicate AttemptsOk(ledgers: seq<Ledger>, attempts: seq<Attempt>) {
    forall a :: 0 <= a < |attempts| ==> AttemptOk(ledgers, attempts[a])
  }

  /** One transaction per connection, and the pending ones are exactly those. */
  ghost predicate FlyingOk(flying: map<int, nat>, attempts: seq<Attempt>) {
    && (forall c :: c in flying ==>
                      flying[c] < |attempts| && attempts[flying[c]].verdict.Pending? && attempts[flying[c]].dest.connection == c)
    && (forall a :: 0 <= a < |attempts| && attempts[a].verdict.Pending? ==>
                      attempts[a].dest.connection in flying && flying[attempts[a].dest.connection] == a)
  }

  /** Of two transactions on one queue the earlier has ended, and once it was
      confirmed the later one starts past it. */
  ghost predicate Serial(attempts: seq<Attempt>) {
    forall a, b :: 0 <= a < b < |attempts| && attempts[a].queue == attempts[b].queue ==> Before(attempts[a], attempts[b])
  }

  predicate Before(earlier: Attempt, later: Attempt) {
    && !earlier.verdict.Pending?
    && (earlier.verdict.Confirmed? ==> earlier.hi() < later.lo)
  }

  ghost predicate TableOk(ledgers: seq<Ledger>, table: seq<Stored>) {
    forall i :: 0 <= i < |table| ==>
                  && table[i].queue < |ledgers|
                  && table[i].dest == ledgers[table[i].queue].dest
                  && table[i].id < ledgers[table[i].queue].queue.nextId
  }

  /** An acked id was part of a confirmed transaction. */
  ghost predicate AcksOk(ledgers: seq<Ledger>, attempts: seq<Attempt>) {
    forall q, id :: 0 <= q < |ledgers| && id in ledgers[q].acked ==> exists a :: a in ConfirmedOn(attempts, q, id)
  }

  /** `Copies` counts what the transactions landed. */
  ghost predicate CopiesOk(table: seq<Stored>, attempts: seq<Attempt>) {
    forall q, id :: Copies(table, q, id) == |LandedOn(attempts, q, id)|
  }

  ghost predicate Inv(s: Sys) {
    && LedgersOk(s.ledgers)
    && GenerationsOk(s.ledgers, s.generations)
    && AttemptsOk(s.ledgers, s.attempts)
    && FlyingOk(s.flying, s.attempts)
    && Serial(s.attempts)
    && TableOk(s.ledgers, s.table)
    && AcksOk(s.ledgers, s.attempts)
    && CopiesOk(s.table, s.attempts)
  }

  function Copies(table: seq<Stored>, q: nat, id: int): nat {
    if table == [] then 0
    else Copies(table[..|table| - 1], q, id)
         + if table[|table| - 1].queue == q && table[|table| - 1].id == id then 1 else 0
  }

  ghost function LandedOn(attempts: seq<Attempt>, q: nat, id: int): set<nat> {
    set a: nat | a < |attempts| && attempts[a].landed && attempts[a].Covers(q, id)
  }

  ghost function UnknownOn(attempts: seq<Attempt>, q: nat, id: int): set<nat> {
    set a: nat | a < |attempts| && attempts[a].verdict.Unknown? && attempts[a].Covers(q, id)
  }

  ghost function ConfirmedOn(attempts: seq<Attempt>, q: nat, id: int): set<nat> {
    set a: nat | a < |attempts| && attempts[a].verdict.Confirmed? && attempts[a].Covers(q, id)
  }

  /** Every ledger keeps its place and only moves forward. */
  ghost predicate LedgersAdvance(ledgers: seq<Ledger>, later: seq<Ledger>) {
    && |ledgers| <= |later|
    && LedgersOk(later)
    && forall q :: 0 <= q < |ledgers| ==> LedgerAdvances(ledgers[q], later[q])
  }

  lemma ReplacingAdvances(ledgers: seq<Ledger>, q: nat, later: Ledger)
    requires LedgersOk(ledgers) && q < |ledgers| && LedgerAdvances(ledgers[q], later)
    ensures LedgersAdvance(ledgers, ledgers[q := later])
  {
  }

  lemma MarkingAdvances(l: Ledger, mark: nat)
    requires l.Balanced()
    ensures LedgerAdvances(l, l.(mark := mark))
  {
  }

  lemma OpeningAdvances(ledgers: seq<Ledger>, dest: Dest, maxRows: nat, carried: nat)
    requires LedgersOk(ledgers) && carried <= U64_MAX
    ensures LedgersAdvance(ledgers, ledgers + [Opened(dest, maxRows, carried)])
  {
  }

  lemma KeepingAdvances(ledgers: seq<Ledger>)
    requires LedgersOk(ledgers)
    ensures LedgersAdvance(ledgers, ledgers)
  {
  }

  lemma StepAdvancesLedgers(s: Sys, step: Step)
    requires LedgersOk(s.ledgers) && GenerationsOk(s.ledgers, s.generations) && AttemptsOk(s.ledgers, s.attempts) && Enabled(s, step)
    ensures LedgersAdvance(s.ledgers, Next(s, step).ledgers)
  {
    match step
    case Open(config, maxRows, carried) =>
      OpeningAdvances(s.ledgers, Destination(config), maxRows, carried);
    case Produce(g, row) =>
      var q := s.generations[g].queue;
      LedgerPushKeepsBalance(s.ledgers[q], row);
      ReplacingAdvances(s.ledgers, q, LedgerPushed(s.ledgers[q], row, s.ledgers[q].dest));
    case Land(a) =>
      var q := s.attempts[a].queue;
      var mark := Max(s.ledgers[q].mark, s.attempts[a].hi() + 1);
      MarkingAdvances(s.ledgers[q], mark);
      ReplacingAdvances(s.ledgers, q, s.ledgers[q].(mark := mark));
    case Finish(c, verdict) =>
      var q, hi := s.attempts[s.flying[c]].queue, s.attempts[s.flying[c]].hi();
      LedgerCommitKeepsBalance(s.ledgers[q], hi);
      KeepingAdvances(s.ledgers);
      ReplacingAdvances(s.ledgers, q, LedgerCommitted(s.ledgers[q], hi));
    case Drop(g) =>
      var q := s.generations[g].queue;
      LedgerDiscardKeepsBalance(s.ledgers[q]);
      ReplacingAdvances(s.ledgers, q, LedgerDiscarded(s.ledgers[q]));
    case _ =>
      KeepingAdvances(s.ledgers);
  }

  lemma AttemptSurvives(ledgers: seq<Ledger>, later: seq<Ledger>, a: Attempt)
    requires LedgersAdvance(ledgers, later) && AttemptOk(ledgers, a)
    ensures AttemptOk(later, a)
  {
    assert LedgerAdvances(ledgers[a.queue], later[a.queue]);
  }

  lemma StepKeepsAttempts(s: Sys, step: Step)
    requires LedgersOk(s.ledgers) && GenerationsOk(s.ledgers, s.generations) && AttemptsOk(s.ledgers, s.attempts) && Enabled(s, step)
    requires LedgersAdvance(s.ledgers, Next(s, step).ledgers)
    ensures AttemptsOk(Next(s, step).ledgers, Next(s, step).attempts)
  {
    var t := Next(s, step);
    forall a | 0 <= a < |t.attempts| ensures AttemptOk(t.ledgers, t.attempts[a]) {
      if a < |s.attempts| {
        AttemptSurvives(s.ledgers, t.ledgers, s.attempts[a]);
        if step.Finish? && s.flying[step.connection] == a {
          LedgerCommitKeepsBalance(s.ledgers[s.attempts[a].queue], s.attempts[a].hi());
        }
      } else {
        BegunAttemptOk(s, step.generation, step.limit);
      }
    }
  }

  lemma BegunAttemptOk(s: Sys, g: nat, limit: nat)
    requires LedgersOk(s.ledgers) && GenerationsOk(s.ledgers, s.generations) && Enabled(s, Begin(g, limit))
    ensures AttemptOk(s.ledgers, Next(s, Begin(g, limit)).attempts[|s.attempts|])
  {
    var l := s.ledgers[s.generations[g].queue];
    assert l.Balanced() && Head(l.queue, limit)[0].id == l.queue.Front();
  }

  lemma StepKeepsGenerations(s: Sys, step: Step)
    requires GenerationsOk(s.ledgers, s.generations) && Enabled(s, step)
    requires LedgersAdvance(s.ledgers, Next(s, step).ledgers)
    ensures GenerationsOk(Next(s, step).ledgers, Next(s, step).generations)
  {
    var t := Next(s, step);
    forall g | 0 <= g < |t.generations|
      ensures t.generations[g].queue < |t.ledgers|
      ensures Destination(t.generations[g].config) == t.ledgers[t.generations[g].queue].dest
    {
      if g < |s.generations| {
        assert LedgerAdvances(s.ledgers[s.generations[g].queue], t.ledgers[s.generations[g].queue]);
      } else if step.HandOff? {
        assert LedgerAdvances(s.ledgers[t.generations[g].queue], t.ledgers[t.generations[g].queue]);
      }
    }
  }

  lemma StepKeepsTable(s: Sys, step: Step)
    requires AttemptsOk(s.ledgers, s.attempts) && TableOk(s.ledgers, s.table) && Enabled(s, step)
    requires LedgersAdvance(s.ledgers, Next(s, step).ledgers)
    ensures TableOk(Next(s, step).ledgers, Next(s, step).table)
  {
    var t := Next(s, step);
    forall i | 0 <= i < |t.table|
      ensures t.table[i].queue < |t.ledgers|
      ensures t.table[i].dest == t.ledgers[t.table[i].queue].dest
      ensures t.table[i].id < t.ledgers[t.table[i].queue].queue.nextId
    {
      if i >= |s.table| {
        assert AttemptOk(s.ledgers, s.attempts[step.attempt]);
      }
      assert LedgerAdvances(s.ledgers[t.table[i].queue], t.ledgers[t.table[i].queue]);
    }
  }

  /** A batch peeked now starts at the front, past every confirmed transaction;
      no other transaction of the queue is pending, because its connection is idle. */
  lemma BeginKeepsSerial(s: Sys, g: nat, limit: nat)
    requires LedgersOk(s.ledgers) && GenerationsOk(s.ledgers, s.generations) && AttemptsOk(s.ledgers, s.attempts)
    requires FlyingOk(s.flying, s.attempts) && Serial(s.attempts)
    requires Enabled(s, Begin(g, limit))
    ensures Serial(Next(s, Begin(g, limit)).attempts)
  {
    var t := Next(s, Begin(g, limit));
    var begun := t.attempts[|s.attempts|];
    forall a | 0 <= a < |s.attempts| && s.attempts[a].queue == begun.queue
      ensures Before(s.attempts[a], begun)
    {
      assert AttemptOk(s.ledgers, s.attempts[a]);
    }
  }

  lemma BeginKeepsFlying(flying: map<int, nat>, attempts: seq<Attempt>, a: Attempt)
    requires FlyingOk(flying, attempts) && a.verdict.Pending? && a.dest.connection !in flying
    ensures FlyingOk(flying[a.dest.connection := |attempts|], attempts + [a])
  {
  }

  lemma LandKeepsFlying(flying: map<int, nat>, attempts: seq<Attempt>, a: nat)
    requires FlyingOk(flying, attempts) && a < |attempts|
    ensures FlyingOk(flying, attempts[a := attempts[a].(landed := true)])
  {
  }

  lemma FinishKeepsFlying(flying: map<int, nat>, attempts: seq<Attempt>, c: int, verdict: Verdict)
    requires FlyingOk(flying, attempts) && c in flying && !verdict.Pending?
    ensures FlyingOk(flying - {c}, attempts[flying[c] := attempts[flying[c]].(verdict := verdict)])
  {
  }

  lemma StepKeepsFlying(s: Sys, step: Step)
    requires FlyingOk(s.flying, s.attempts) && Enabled(s, step)
    ensures FlyingOk(Next(s, step).flying, Next(s, step).attempts)
  {
    match step
    case Begin(g, limit) =>
      BeginKeepsFlying(s.flying, s.attempts, Next(s, step).attempts[|s.attempts|]);
    case Land(a) =>
      LandKeepsFlying(s.flying, s.attempts, a);
    case Finish(c, verdict) =>
      FinishKeepsFlying(s.flying, s.attempts, c, verdict);
    case _ =>
  }

  lemma EndingKeepsSerial(attempts: seq<Attempt>, k: nat, verdict: Verdict, landed: bool)
    requires Serial(attempts) && k < |attempts|
    requires !verdict.Pending? || attempts[k].verdict.Pending?
    requires !attempts[k].verdict.Pending? ==> verdict == attempts[k].verdict
    ensures Serial(attempts[k := attempts[k].(verdict := verdict, landed := landed)])
  {
  }

  lemma StepKeepsSerial(s: Sys, step: Step)
    requires LedgersOk(s.ledgers) && GenerationsOk(s.ledgers, s.generations) && AttemptsOk(s.ledgers, s.attempts)
    requires FlyingOk(s.flying, s.attempts) && Serial(s.attempts)
    requires Enabled(s, step)
    ensures Serial(Next(s, step).attempts)
  {
    match step
    case Begin(g, limit) =>
      BeginKeepsSerial(s, g, limit);
    case Land(a) =>
      EndingKeepsSerial(s.attempts, a, s.attempts[a].verdict, true);
    case Finish(c, verdict) =>
      EndingKeepsSerial(s.attempts, s.flying[c], verdict, s.attempts[s.flying[c]].landed);
    case _ =>
  }

  lemma {:induction false} CopiesAppend(table: seq<Stored>, more: seq<Stored>, q: nat, id: int)
    ensures Copies(table + more, q, id) == Copies(table, q, id) + Copies(more, q, id)
    decreases |more|
  {
    if more == [] {
      assert table + more == table;
    } else {
      var n := |more| - 1;
      assert (table + more)[..|table + more| - 1] == table + more[..n];
      CopiesAppend(table, more[..n], q, id);
    }
  }

  lemma {:induction false} CopiesOfInsert(a: Attempt, n: nat, q: nat, id: int)
    requires n <= |RowsInserted(a)|
    ensures Copies(RowsInserted(a)[..n], q, id) == if q == a.queue && a.lo <= id < a.lo + n then 1 else 0
  {
    if n > 0 {
      assert RowsInserted(a)[..n][..n - 1] == RowsInserted(a)[..n - 1];
      CopiesOfInsert(a, n - 1, q, id);
    }
  }

  lemma LandingCopies(table: seq<Stored>, attempts: seq<Attempt>, a: nat, q: nat, id: int)
    requires CopiesOk(table, attempts) && a < |attempts| && !attempts[a].landed && attempts[a].lo <= attempts[a].hi()
    ensures Copies(table + RowsInserted(attempts[a]), q, id)
            == |LandedOn(attempts[a := attempts[a].(landed := true)], q, id)|
  {
    var attempt := attempts[a];
    var rows := RowsInserted(attempt);
    var landed := LandedOn(attempts[a := attempt.(landed := true)], q, id);
    CopiesAppend(table, rows, q, id);
    CopiesOfInsert(attempt, |rows|, q, id);
    assert rows[..|rows|] == rows;
    if attempt.Covers(q, id) {
      assert landed == LandedOn(attempts, q, id) + {a};
    } else {
      assert landed == LandedOn(attempts, q, id);
    }
  }

  lemma StepKeepsCopies(s: Sys, step: Step, q: nat, id: int)
    requires AttemptsOk(s.ledgers, s.attempts) && CopiesOk(s.table, s.attempts) && Enabled(s, step)
    ensures Copies(Next(s, step).table, q, id) == |LandedOn(Next(s, step).attempts, q, id)|
  {
    if step.Land? {
      assert AttemptOk(s.ledgers, s.attempts[step.attempt]);
      LandingCopies(s.table, s.attempts, step.attempt, q, id);
    } else {
      assert LandedOn(Next(s, step).attempts, q, id) == LandedOn(s.attempts, q, id);
    }
  }

  /** A commit acknowledges only ids of its own transaction: the queue never
      goes back below an id it once had at its front. */
  lemma CommitAcksItsBatch(l: Ledger, a: Attempt, id: int)
    requires l.Balanced() && a.lo <= a.hi() < l.queue.nextId && a.lo <= l.queue.Front()
    requires id in LedgerCommitted(l, a.hi()).acked
    ensures id in l.acked || a.lo <= id <= a.hi()
  {
    var n := CoveredCount(l.queue.rows, a.hi());
    assert n > 0 ==> l.queue.rows[n - 1].id <= a.hi();
  }

  /** Confirmed transactions stay confirmed. */
  lemma ConfirmationsStay(s: Sys, step: Step, q: nat, id: int, a: nat)
    requires FlyingOk(s.flying, s.attempts) && Enabled(s, step)
    requires a in ConfirmedOn(s.attempts, q, id)
    ensures a in ConfirmedOn(Next(s, step).attempts, q, id)
  {
  }

  /** Only a confirmed answer acknowledges ids. */
  lemma AckedIdsGrow(s: Sys, step: Step, q: nat, id: int)
    requires Enabled(s, step) && q < |Next(s, step).ledgers| && id in Next(s, step).ledgers[q].acked
    ensures || (q < |s.ledgers| && id in s.ledgers[q].acked)
            || (step.Finish? && step.verdict.Confirmed? && q == s.attempts[s.flying[step.connection]].queue
                && id in LedgerCommitted(s.ledgers[q], s.attempts[s.flying[step.connection]].hi()).acked)
  {
  }

  lemma StepKeepsAcks(s: Sys, step: Step)
    requires LedgersOk(s.ledgers) && AttemptsOk(s.ledgers, s.attempts) && AcksOk(s.ledgers, s.attempts)
    requires FlyingOk(s.flying, s.attempts) && Enabled(s, step)
    ensures AcksOk(Next(s, step).ledgers, Next(s, step).attempts)
  {
    var t := Next(s, step);
    forall q, id | 0 <= q < |t.ledgers| && id in t.ledgers[q].acked
      ensures exists a :: a in ConfirmedOn(t.attempts, q, id)
    {
      AckedIdsGrow(s, step, q, id);
      if q < |s.ledgers| && id in s.ledgers[q].acked {
        var a :| a in ConfirmedOn(s.attempts, q, id);
        ConfirmationsStay(s, step, q, id, a);
      } else {
        var a := s.flying[step.connection];
        assert AttemptOk(s.ledgers, s.attempts[a]);
        CommitAcksItsBatch(s.ledgers[q], s.attempts[a], id);
        assert a in ConfirmedOn(t.attempts, q, id);
      }
    }
  }

  lemma StepKeepsInv(s: Sys, step: Step)
    requires Inv(s) && Enabled(s, step)
    ensures Inv(Next(s, step))
  {
    var t := Next(s, step);
    StepAdvancesLedgers(s, step);
    StepKeepsGenerations(s, step);
    StepKeepsAttempts(s, step);
    StepKeepsFlying(s, step);
    StepKeepsSerial(s, step);
    StepKeepsTable(s, step);
    StepKeepsAcks(s, step);
    forall q, id ensures Copies(t.table, q, id) == |LandedOn(t.attempts, q, id)| {
      StepKeepsCopies(s, step, q, id);
    }
  }

  lemma {:induction false} EveryRunKeepsInv(steps: seq<Step>)
    ensures Inv(Exec(Start, steps))
    decreases |steps|
  {
    if steps == [] {
      assert forall q, id :: LandedOn([], q, id) == {};
    } else {
      var before := Exec(Start, steps[..|steps| - 1]);
      EveryRunKeepsInv(steps[..|steps| - 1]);
      if Enabled(before, steps[|steps| - 1]) {
        StepKeepsInv(before, steps[|steps| - 1]);
      }
    }
  }

  // --- Producers ------------------------------------------------------------------

  /** A generation that was halted or succeeded does not push any more; its successor
      pushes into the same queue for the same destination. */
  lemma StoppedByStep(s: Sys, step: Step, g: nat)
    requires Enabled(s, step) && (step == Halt(g) || (step.HandOff? && step.generation == g))
    ensures g < |Next(s, step).generations| && !Next(s, step).generations[g].producing
    ensures step.HandOff? ==>
              var heir := Next(s, step).generations[|s.generations|];
              heir.producing && heir.queue == s.generations[g].queue && Destination(heir.config) == Destination(s.generations[g].config)
  {
  }

  lemma {:induction false} StaysStopped(steps: seq<Step>, more: seq<Step>, g: nat, row: Row)
    requires g < |Exec(Start, steps).generations| && !Exec(Start, steps).generations[g].producing
    ensures var s := Exec(Start, steps + more);
            g < |s.generations| && !s.generations[g].producing && !Enabled(s, Produce(g, row))
    decreases |more|
  {
    if more == [] {
      assert steps + more == steps;
    } else {
      var less := more[..|more| - 1];
      assert (steps + more)[..|steps + more| - 1] == steps + less;
      StaysStopped(steps, less, g, row);
    }
  }

  // --- Queues -----------------------------------------------------------------------

  datatype Opening = Opening(dest: Dest, maxRows: nat, carried: nat)

  /** The queues that were opened during the run, and for what. */
  function Openings(steps: seq<Step>): seq<Opening>
    decreases |steps|
  {
    if steps == [] then []
    else
      var step := steps[|steps| - 1];
      Openings(steps[..|steps| - 1])
      + if step.Open? && step.carried <= U64_MAX then [Opening(Dest(step.config.connectionId, step.config.tableName), step.maxRows, step.carried)] else []
  }

  ghost predicate OpenedAs(l: Ledger, o: Opening) { l.dest == o.dest && l.queue.maxRows == o.maxRows && l.carried == o.carried }

  lemma StaysOpened(s: Sys, step: Step, q: nat, o: Opening)
    requires Enabled(s, step) && q < |s.ledgers| && OpenedAs(s.ledgers[q], o)
    requires GenerationsOk(s.ledgers, s.generations)
    ensures q < |Next(s, step).ledgers| && OpenedAs(Next(s, step).ledgers[q], o)
  {
  }

  lemma OnlyOpenOpens(s: Sys, step: Step)
    requires Enabled(s, step) && GenerationsOk(s.ledgers, s.generations)
    ensures |Next(s, step).ledgers| == |s.ledgers| + if step.Open? then 1 else 0
    ensures step.Open? ==> OpenedAs(Next(s, step).ledgers[|s.ledgers|], Opening(Destination(step.config), step.maxRows, step.carried))
  {
  }

  /** Every queue keeps the destination, the capacity and the count it was opened with. */
  lemma {:induction false} QueuesAreOpened(steps: seq<Step>)
    ensures |Exec(Start, steps).ledgers| == |Openings(steps)|
    ensures forall q :: 0 <= q < |Openings(steps)| ==> OpenedAs(Exec(Start, steps).ledgers[q], Openings(steps)[q])
    decreases |steps|
  {
    if steps != [] {
      var less, step := steps[..|steps| - 1], steps[|steps| - 1];
      var before, openings := Exec(Start, less), Openings(less);
      QueuesAreOpened(less);
      EveryRunKeepsInv(less);
      if Enabled(before, step) {
        OnlyOpenOpens(before, step);
        forall q | 0 <= q < |openings| ensures OpenedAs(Next(before, step).ledgers[q], openings[q]) {
          StaysOpened(before, step, q, openings[q]);
        }
      }
    }
  }

  /** A discard leaves the queue empty, and every row that was in it is counted. */
  lemma DropEmpties(steps: seq<Step>, g: nat)
    requires g < |Exec(Start, steps).generations|
    ensures var s := Exec(Start, steps);
            var q := s.generations[g].queue;
            && Enabled(s, Drop(g))
            && var before, after := s.ledgers[q], Next(s, Drop(g)).ledgers[q];
               && after.queue.rows == [] && after.queue.nextId == before.queue.nextId && after.acked == before.acked
               && (forall e :: e in before.queue.rows ==> e.id in after.discarded)
               && |after.discarded| == |before.discarded| + |before.queue.rows|
               && after.queue.dropped == SatAdd(before.queue.dropped, |before.queue.rows|)
  {
    EveryRunKeepsInv(steps);
    var l := Exec(Start, steps).ledgers[Exec(Start, steps).generations[g].queue];
    assert l.Balanced();
    Joined(l.discarded, l.queue.Front(), l.queue.nextId);
  }

  // --- Accounting -----------------------------------------------------------------

  /** How often a producer pushed into queue `q` during the run. */
  function Pushes(steps: seq<Step>, q: nat): nat
    decreases |steps|
  {
    if steps == [] then 0
    else
      var before := Exec(Start, steps[..|steps| - 1]);
      var step := steps[|steps| - 1];
      Pushes(steps[..|steps| - 1], q)
      + if step.Produce? && Enabled(before, step) && before.generations[step.generation].queue == q then 1 else 0
  }

  function Stamped(s: Sys, q: nat): nat {
    if q < |s.ledgers| then s.ledgers[q].queue.nextId + s.ledgers[q].rejected else 0
  }

  lemma StepStamps(s: Sys, step: Step, q: nat)
    requires GenerationsOk(s.ledgers, s.generations) && Enabled(s, step)
    ensures Stamped(Next(s, step), q)
            == Stamped(s, q) + if step.Produce? && s.generations[step.generation].queue == q then 1 else 0
  {
  }

  lemma {:induction false} PushesAreStamped(steps: seq<Step>, q: nat)
    ensures Pushes(steps, q) == Stamped(Exec(Start, steps), q)
    decreases |steps|
  {
    if steps != [] {
      var before := Exec(Start, steps[..|steps| - 1]);
      PushesAreStamped(steps[..|steps| - 1], q);
      EveryRunKeepsInv(steps[..|steps| - 1]);
      if Enabled(before, steps[|steps| - 1]) {
        StepStamps(before, steps[|steps| - 1], q);
      }
    }
  }

  /** Conservation over every interleaving: every pushed row was acknowledged,
      counted as dropped, or is still queued, and in exactly one of these ways;
      the reported `dropped` is the exact total, capped at `u64::MAX`. */
  lemma Conservation(steps: seq<Step>, q: nat)
    requires q < |Exec(Start, steps).ledgers|
    ensures var l := Exec(Start, steps).ledgers[q];
            var lost := l.carried + l.rejected + |l.overflowed| + |l.discarded|;
            && Pushes(steps, q) + l.carried == |l.acked| + lost + |l.queue.rows|
            && l.queue.dropped == Min(lost, U64_MAX)
            && l.Placed(l.queue.Front())
            && (forall e :: e in l.queue.rows ==> l.queue.Front() <= e.id < l.queue.nextId)
  {
    EveryRunKeepsInv(steps);
    PushesAreStamped(steps, q);
  }

  /** At-least-once: a row that left the queue and is not in the table has been
      counted as dropped. */
  lemma NothingLostUncounted(steps: seq<Step>, q: nat, id: nat)
    requires q < |Exec(Start, steps).ledgers| && id < Exec(Start, steps).ledgers[q].queue.nextId
    ensures var s := Exec(Start, steps);
            var l := s.ledgers[q];
            || Copies(s.table, q, id) >= 1
            || id in l.overflowed || id in l.discarded
            || (exists i :: 0 <= i < |l.queue.rows| && l.queue.rows[i].id == id)
  {
    EveryRunKeepsInv(steps);
    var s := Exec(Start, steps);
    var l := s.ledgers[q];
    if id in l.acked {
      var a :| a in ConfirmedOn(s.attempts, q, id);
      assert AttemptOk(s.ledgers, s.attempts[a]);
      assert a in LandedOn(s.attempts, q, id);
    } else if l.queue.Front() <= id {
      assert l.queue.rows[id - l.queue.Front()].id == id;
    }
  }

  /** An acknowledged row was in a transaction that was confirmed to the flusher,
      and is in the table. */
  lemma AckedMeansConfirmed(steps: seq<Step>, q: nat, id: nat)
    requires q < |Exec(Start, steps).ledgers| && id in Exec(Start, steps).ledgers[q].acked
    ensures var s := Exec(Start, steps);
            && Copies(s.table, q, id) >= 1
            && exists a :: 0 <= a < |s.attempts| && s.attempts[a].verdict.Confirmed? && s.attempts[a].Covers(q, id)
  {
    EveryRunKeepsInv(steps);
    var s := Exec(Start, steps);
    var a :| a in ConfirmedOn(s.attempts, q, id);
    assert AttemptOk(s.ledgers, s.attempts[a]);
    assert a in LandedOn(s.attempts, q, id);
  }

  // --- Duplicates -------------------------------------------------------------------

  lemma AtMostOne(members: set<nat>)
    requires forall a, b :: a in members && b in members ==> a == b
    ensures |members| <= 1
  {
    if a :| a in members {
      assert members == {a};
    }
  }

  /** A row is stored at most once more often than transactions holding it ended
      without an answer, whatever lands and however late. */
  lemma DuplicateBound(steps: seq<Step>, q: nat, id: nat)
    ensures var s := Exec(Start, steps);
            Copies(s.table, q, id) <= 1 + |UnknownOn(s.attempts, q, id)|
  {
    EveryRunKeepsInv(steps);
    var s := Exec(Start, steps);
    var landed, unknown := LandedOn(s.attempts, q, id), UnknownOn(s.attempts, q, id);
    forall a, b | a in landed - unknown && b in landed - unknown ensures a == b {
      assert AttemptOk(s.ledgers, s.attempts[a]) && AttemptOk(s.ledgers, s.attempts[b]);
      assert a < b ==> Before(s.attempts[a], s.attempts[b]);
      assert b < a ==> Before(s.attempts[b], s.attempts[a]);
    }
    AtMostOne(landed - unknown);
    SubsetSize(landed * unknown, unknown);
    assert landed == (landed * unknown) + (landed - unknown);
    assert |landed| == |landed * unknown| + |landed - unknown|;
  }

  lemma SubsetSize(small: set<nat>, large: set<nat>)
    requires small <= large
    ensures |small| <= |large|
  {
    assert large == small + (large - small);
  }

  /** Once confirmed, a row is never part of a later transaction - also when the
      transaction ran through a generation that had already been replaced. */
  lemma NeverResent(steps: seq<Step>, a: nat, b: nat, q: nat, id: nat)
    requires var attempts := Exec(Start, steps).attempts;
             a < b < |attempts| && attempts[a].verdict.Confirmed? && attempts[a].Covers(q, id)
    ensures !Exec(Start, steps).attempts[b].Covers(q, id)
  {
    EveryRunKeepsInv(steps);
    var attempts := Exec(Start, steps).attempts;
    if attempts[b].queue == attempts[a].queue {
      assert Before(attempts[a], attempts[b]);
    }
  }

  // --- Destination --------------------------------------------------------------------

  /** Every stored row is in the table of the connection that the generation
      which pushed it was configured for. */
  lemma DestinationSafety(steps: seq<Step>, i: nat)
    requires i < |Exec(Start, steps).table|
    ensures var s := Exec(Start, steps);
            var stored := s.table[i];
            && stored.queue < |s.ledgers| && stored.id < |s.ledgers[stored.queue].origins|
            && stored.dest == s.ledgers[stored.queue].origins[stored.id]
  {
    EveryRunKeepsInv(steps);
    var s := Exec(Start, steps);
    var l := s.ledgers[s.table[i].queue];
    assert l.Balanced();
    assert l.origins[s.table[i].id] in l.origins;
  }
}
