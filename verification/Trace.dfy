/** The trace of a run: what is recorded, how it is written, and what a complete
    file proves (apps/banto-hub-sink/src/{d5_trace,queue}.rs). */
module Traces {
  import opened Rows
  import opened RowQueues

  datatype BatchOutcome = Confirmed | NotCommitted | Unknown

  datatype Event =
    | QueueOpened
    | Enqueued(rowId: nat, row: Row)
    | Overflow(rowId: nat)
    | RejectedAtZeroCapacity
    | Discarded(rowIds: seq<nat>)
    | AckRemoved(rowId: nat)
    | Handoff(rowIds: seq<nat>)
    | QueueRetiring(rowIds: seq<nat>)
    | Attempted(attemptId: nat, rowIds: seq<nat>)
    | Ended(attemptId: nat, outcome: BatchOutcome)

  datatype Record = Record(queueId: nat, event: Event)

  const BUFFER_EVENTS := 1024
  const MAX_EVENTS := 65536
  const MAX_FILE_BYTES := 64 * 1024 * 1024
  const MAX_IDS := 4096

  // --- Replaying the events of one queue -------------------------------------------

  /** What a reader of the trace knows of a queue: its rows and how many were
      counted as dropped since it was opened. */
  datatype Shadow = Shadow(rows: seq<Entry>, dropped: nat)

  function Popped(rows: seq<Entry>, id: nat): seq<Entry> {
    if rows != [] && rows[0].id == id then rows[1..] else rows
  }

  function Follow(s: Shadow, e: Event): Shadow {
    match e
    case Enqueued(id, row) => s.(rows := s.rows + [Entry(id, row)])
    case Overflow(id) => Shadow(Popped(s.rows, id), s.dropped + 1)
    case RejectedAtZeroCapacity => s.(dropped := s.dropped + 1)
    case Discarded(ids) => if IdsOf(s.rows) == ids then Shadow([], s.dropped + |ids|) else s
    case AckRemoved(id) => s.(rows := Popped(s.rows, id))
    case _ => s
  }

  function Replay(s: Shadow, events: seq<Event>): Shadow {
    if events == [] then s else Follow(Replay(s, events[..|events| - 1]), events[|events| - 1])
  }

  lemma {:induction false} ReplayConcat(s: Shadow, events: seq<Event>, more: seq<Event>)
    ensures Replay(s, events + more) == Replay(Replay(s, events), more)
  {
    if more == [] {
      assert events + more == events;
    } else {
      ReplayConcat(s, events, more[..|more| - 1]);
      assert (events + more)[..|events + more| - 1] == events + more[..|more| - 1];
    }
  }

  function IdsOf(entries: seq<Entry>): (ids: seq<nat>)
    ensures |ids| == |entries| && forall i :: 0 <= i < |ids| ==> ids[i] == entries[i].id
  {
    seq(|entries|, i requires 0 <= i < |entries| => entries[i].id)
  }

  function Overflows(ids: seq<nat>): (events: seq<Event>)
    ensures |events| == |ids| && forall i :: 0 <= i < |ids| ==> events[i] == Overflow(ids[i])
  {
    seq(|ids|, i requires 0 <= i < |ids| => Overflow(ids[i]))
  }

  function Acks(ids: seq<nat>): (events: seq<Event>)
    ensures |events| == |ids| && forall i :: 0 <= i < |ids| ==> events[i] == AckRemoved(ids[i])
  {
    seq(|ids|, i requires 0 <= i < |ids| => AckRemoved(ids[i]))
  }

  lemma {:induction false} OverflowsReplay(s: Shadow, n: nat)
    requires n <= |s.rows|
    ensures Replay(s, Overflows(IdsOf(s.rows[..n]))) == Shadow(s.rows[n..], s.dropped + n)
  {
    if n > 0 {
      OverflowsReplay(s, n - 1);
      assert Overflows(IdsOf(s.rows[..n]))[..n - 1] == Overflows(IdsOf(s.rows[..n - 1]));
    }
  }

  lemma {:induction false} AcksReplay(s: Shadow, n: nat)
    requires n <= |s.rows|
    ensures Replay(s, Acks(IdsOf(s.rows[..n]))) == s.(rows := s.rows[n..])
  {
    if n > 0 {
      AcksReplay(s, n - 1);
      assert Acks(IdsOf(s.rows[..n]))[..n - 1] == Acks(IdsOf(s.rows[..n - 1]));
    }
  }

  // --- What the queue records --------------------------------------------------------

  /** How many rows a push drops. */
  function Excess(q: Queue): (n: nat)
    requires |q.rows| <= q.maxRows
    ensures n <= |q.rows|
  {
    if q.maxRows == 0 then 0 else Max(0, |q.rows| - q.maxRows + 1)
  }

  function PushEvents(q: Queue, row: Row): seq<Event>
    requires |q.rows| <= q.maxRows
  {
    if q.maxRows == 0 then [RejectedAtZeroCapacity]
    else Overflows(IdsOf(q.rows[..Excess(q)])) + [Enqueued(q.nextId, row)]
  }

  function CommitEvents(q: Queue, last: nat): seq<Event> {
    Acks(IdsOf(q.rows[..CoveredCount(q.rows, last)]))
  }

  function DiscardEvents(q: Queue): seq<Event> {
    if q.rows == [] then [] else [Discarded(IdsOf(q.rows))]
  }

  /** The shadow agrees with a queue that was opened with `carried` dropped rows. */
  predicate Agrees(s: Shadow, q: Queue, carried: nat) {
    s.rows == q.rows && q.dropped == Min(carried + s.dropped, U64_MAX)
  }

  lemma PushReplays(s: Shadow, q: Queue, carried: nat, row: Row)
    requires q.Valid() && Agrees(s, q, carried)
    ensures Agrees(Replay(s, PushEvents(q, row)), Pushed(q, row), carried)
  {
    if q.maxRows == 0 {
      assert Replay(s, [RejectedAtZeroCapacity]) == Follow(Replay(s, []), RejectedAtZeroCapacity);
    } else {
      var n := Excess(q);
      var events := Overflows(IdsOf(q.rows[..n]));
      OverflowsReplay(s, n);
      ReplayConcat(s, events, [Enqueued(q.nextId, row)]);
      var popped := Shadow(s.rows[n..], s.dropped + n);
      assert Replay(popped, [Enqueued(q.nextId, row)]) == Follow(Replay(popped, []), Enqueued(q.nextId, row));
    }
  }

  lemma CommitReplays(s: Shadow, q: Queue, carried: nat, last: nat)
    requires Agrees(s, q, carried)
    ensures Agrees(Replay(s, CommitEvents(q, last)), Committed(q, Some(last)), carried)
  {
    AcksReplay(s, CoveredCount(q.rows, last));
  }

  lemma DiscardReplays(s: Shadow, q: Queue, carried: nat)
    requires q.Valid() && Agrees(s, q, carried)
    ensures Agrees(Replay(s, DiscardEvents(q)), RowQueues.Discarded(q), carried)
  {
    if q.rows != [] {
      var e := Discarded(IdsOf(q.rows));
      assert Replay(s, [e]) == Follow(Replay(s, []), e);
    }
  }

  // --- A run of several queues and attempts --------------------------------------------

  /** The peeked ids are `lo..hi`. */
  datatype TracedAttempt = TracedAttempt(queue: nat, lo: nat, hi: nat, commitStarted: bool, ended: bool)

  /** `carried[q]` is the count queue `q` was opened with. */
  datatype TracedSys = TracedSys(queues: seq<Queue>, carried: seq<nat>, attempts: seq<TracedAttempt>, history: seq<Record>, lost: bool)

  /** `recordable`: the texts of the row are short enough and its value is finite. */
  datatype Move =
    | Open(maxRows: nat, carried: nat)
    | Push(queue: nat, row: Row, recordable: bool)
    | Begin(queue: nat, limit: nat)
    | StartCommit(attempt: nat)
    | Confirm(attempt: nat)
    | Abandon(attempt: nat)
    | Discard(queue: nat)
    | Boundary(queue: nat, carriesOver: bool)

  const Fresh := TracedSys([], [], [], [], false)

  /** Once the trace is lost the run is not followed any further. */
  predicate CanMove(s: TracedSys, m: Move) {
    && !s.lost
    && |s.carried| == |s.queues|
    && match m
       case Open(_, carried) => carried <= U64_MAX
       case Push(q, _, _) => q < |s.queues| && |s.queues[q].rows| <= s.queues[q].maxRows
       case Begin(q, limit) => q < |s.queues| && Head(s.queues[q], limit) != []
       case StartCommit(a) => a < |s.attempts| && !s.attempts[a].ended
       case Confirm(a) =>
         a < |s.attempts| && !s.attempts[a].ended && s.attempts[a].commitStarted && s.attempts[a].queue < |s.queues|
       case Abandon(a) => a < |s.attempts| && !s.attempts[a].ended
       case Discard(q) => q < |s.queues|
       case Boundary(q, _) => q < |s.queues|
  }

  function Tagged(queueId: nat, events: seq<Event>): (records: seq<Record>)
    ensures |records| == |events| && forall i :: 0 <= i < |events| ==> records[i] == Record(queueId, events[i])
  {
    seq(|events|, i requires 0 <= i < |events| => Record(queueId, events[i]))
  }

  /** What a move records; `None` is an event that cannot be recorded. */
  function RecordsOf(s: TracedSys, m: Move): Option<seq<Record>>
    requires CanMove(s, m)
  {
    match m
    case Open(_, _) => Some([Record(|s.queues|, QueueOpened)])
    case Push(q, row, recordable) =>
      if recordable || s.queues[q].maxRows == 0 then Some(Tagged(q, PushEvents(s.queues[q], row))) else None
    case Begin(q, limit) =>
      var ids := IdsOf(Head(s.queues[q], limit));
      if |ids| > MAX_IDS then None else Some([Record(q, Attempted(|s.attempts|, ids))])
    case StartCommit(_) => Some([])
    case Confirm(a) =>
      var t := s.attempts[a];
      Some(Tagged(t.queue, CommitEvents(s.queues[t.queue], t.hi)) + [Record(t.queue, Ended(a, Confirmed))])
    case Abandon(a) =>
      Some([Record(s.attempts[a].queue, Ended(a, if s.attempts[a].commitStarted then Unknown else NotCommitted))])
    case Discard(q) =>
      if |s.queues[q].rows| > MAX_IDS then None else Some(Tagged(q, DiscardEvents(s.queues[q])))
    case Boundary(q, carriesOver) =>
      var ids := IdsOf(s.queues[q].rows);
      if |ids| > MAX_IDS then None else Some([Record(q, if carriesOver then Handoff(ids) else QueueRetiring(ids))])
  }

  function AfterMove(s: TracedSys, m: Move): TracedSys
    requires CanMove(s, m)
  {
    var records := RecordsOf(s, m);
    if records.None? then s.(lost := true)
    else Changed(s.(history := s.history + records.value), m)
  }

  /** What a move does to the queues and attempts. */
  function Changed(s: TracedSys, m: Move): TracedSys
    requires CanMove(s, m)
  {
    match m
    case Open(maxRows, carried) => s.(queues := s.queues + [Queue([], 0, maxRows, carried)], carried := s.carried + [carried])
    case Push(q, row, _) => s.(queues := s.queues[q := Pushed(s.queues[q], row)])
    case Begin(q, limit) =>
      var head := Head(s.queues[q], limit);
      s.(attempts := s.attempts + [TracedAttempt(q, head[0].id, head[|head| - 1].id, false, false)])
    case StartCommit(a) => s.(attempts := s.attempts[a := s.attempts[a].(commitStarted := true)])
    case Confirm(a) =>
      var t := s.attempts[a];
      s.(queues := s.queues[t.queue := Committed(s.queues[t.queue], Some(t.hi))], attempts := s.attempts[a := t.(ended := true)])
    case Abandon(a) => s.(attempts := s.attempts[a := s.attempts[a].(ended := true)])
    case Discard(q) => s.(queues := s.queues[q := RowQueues.Discarded(s.queues[q])])
    case Boundary(_, _) => s
  }

  function AfterMoves(moves: seq<Move>): TracedSys {
    if moves == [] then Fresh
    else
      var before := AfterMoves(moves[..|moves| - 1]);
      var m := moves[|moves| - 1];
      if CanMove(before, m) then AfterMove(before, m) else before
  }

  // --- What every run keeps --------------------------------------------------------------

  /** The events of one queue, in order. */
  function OfQueue(records: seq<Record>, q: nat): seq<Event> {
    if records == [] then []
    else
      var last := records[|records| - 1];
      OfQueue(records[..|records| - 1], q) + if last.queueId == q then [last.event] else []
  }

  lemma {:induction false} OfQueueConcat(records: seq<Record>, more: seq<Record>, q: nat)
    ensures OfQueue(records + more, q) == OfQueue(records, q) + OfQueue(more, q)
  {
    if more == [] {
      assert records + more == records;
    } else {
      OfQueueConcat(records, more[..|more| - 1], q);
      assert (records + more)[..|records + more| - 1] == records + more[..|more| - 1];
    }
  }

  lemma {:induction false} OfQueueTagged(tag: nat, events: seq<Event>, q: nat)
    ensures OfQueue(Tagged(tag, events), q) == if q == tag then events else []
  {
    if events != [] {
      OfQueueTagged(tag, events[..|events| - 1], q);
      assert Tagged(tag, events)[..|events| - 1] == Tagged(tag, events[..|events| - 1]);
    }
  }

  ghost predicate QueueAgrees(s: TracedSys, q: nat)
    requires q < |s.queues| && |s.carried| == |s.queues|
  {
    s.queues[q].Valid() && Agrees(Replay(Shadow([], 0), OfQueue(s.history, q)), s.queues[q], s.carried[q])
  }

  /** Replaying the events of each queue gives its ids and its count. */
  ghost predicate QueuesAgree(s: TracedSys) {
    && |s.carried| == |s.queues|
    && (forall q :: 0 <= q < |s.queues| ==> QueueAgrees(s, q))
    && (forall i :: 0 <= i < |s.history| ==> s.history[i].queueId < |s.queues|)
  }

  /** Events that leave the ids and the count alone. */
  predicate Neutral(e: Event) { e.QueueOpened? || e.Handoff? || e.QueueRetiring? || e.Attempted? || e.Ended? }

  lemma {:induction false} NeutralReplay(s: Shadow, events: seq<Event>)
    requires forall i :: 0 <= i < |events| ==> Neutral(events[i])
    ensures Replay(s, events) == s
  {
    if events != [] {
      NeutralReplay(s, events[..|events| - 1]);
    }
  }

  lemma {:induction false} OfNoQueue(records: seq<Record>, q: nat)
    requires forall i :: 0 <= i < |records| ==> records[i].queueId != q
    ensures OfQueue(records, q) == []
  {
    if records != [] {
      OfNoQueue(records[..|records| - 1], q);
    }
  }

  /** A move that records `events` for queue `q` and changes it accordingly. */
  lemma QueueMoves(s: TracedSys, t: TracedSys, q: nat, events: seq<Event>, tail: seq<Record>)
    requires QueuesAgree(s) && q < |s.queues| && |t.queues| == |s.queues| && t.carried == s.carried
    requires t.history == s.history + Tagged(q, events) + tail
    requires forall i :: 0 <= i < |tail| ==> tail[i].queueId == q && Neutral(tail[i].event)
    requires forall k :: 0 <= k < |s.queues| && k != q ==> t.queues[k] == s.queues[k]
    requires t.queues[q].Valid()
    requires var before := Replay(Shadow([], 0), OfQueue(s.history, q));
             Agrees(Replay(before, events), t.queues[q], s.carried[q])
    ensures QueuesAgree(t)
  {
    forall k | 0 <= k < |t.queues| ensures QueueAgrees(t, k) {
      assert QueueAgrees(s, k);
      OfQueueConcat(s.history + Tagged(q, events), tail, k);
      OfQueueConcat(s.history, Tagged(q, events), k);
      OfQueueTagged(q, events, k);
      var before := OfQueue(s.history, k);
      var mine := OfQueue(tail, k);
      if k == q {
        NeutralTail(tail, q);
        ReplayConcat(Shadow([], 0), before + events, mine);
        ReplayConcat(Shadow([], 0), before, events);
        NeutralReplay(Replay(Shadow([], 0), before + events), mine);
      } else {
        OfNoQueue(tail, k);
        assert before + [] + [] == before;
      }
    }
  }

  lemma {:induction false} NeutralTail(tail: seq<Record>, q: nat)
    requires forall i :: 0 <= i < |tail| ==> tail[i].queueId == q && Neutral(tail[i].event)
    ensures forall i :: 0 <= i < |OfQueue(tail, q)| ==> Neutral(OfQueue(tail, q)[i])
  {
    if tail != [] {
      NeutralTail(tail[..|tail| - 1], q);
    }
  }

  /** The peeked ids were the front of the queue or are gone by now. */
  predicate AttemptOk(queues: seq<Queue>, a: TracedAttempt) {
    a.queue < |queues| && a.lo <= a.hi < queues[a.queue].nextId && a.lo <= queues[a.queue].Front()
  }

  ghost predicate AttemptsOk(s: TracedSys) {
    forall a :: 0 <= a < |s.attempts| ==> AttemptOk(s.queues, s.attempts[a])
  }

  lemma OpenAgrees(s: TracedSys, maxRows: nat, carried: nat)
    requires QueuesAgree(s) && CanMove(s, Open(maxRows, carried))
    ensures QueuesAgree(AfterMove(s, Open(maxRows, carried)))
  {
    var t := AfterMove(s, Open(maxRows, carried));
    var n := |s.queues|;
    assert [Record(n, QueueOpened)] == Tagged(n, [QueueOpened]);
    forall k | 0 <= k < |t.queues| ensures QueueAgrees(t, k) {
      OfQueueConcat(s.history, Tagged(n, [QueueOpened]), k);
      OfQueueTagged(n, [QueueOpened], k);
      if k < n {
        assert QueueAgrees(s, k);
        assert OfQueue(s.history, k) + [] == OfQueue(s.history, k);
      } else {
        OfNoQueue(s.history, n);
        assert [] + [QueueOpened] == [QueueOpened];
        NeutralReplay(Shadow([], 0), [QueueOpened]);
        assert t.queues[k] == Queue([], 0, maxRows, carried);
      }
    }
  }

  lemma PushAgrees(s: TracedSys, q: nat, row: Row, recordable: bool)
    requires QueuesAgree(s) && CanMove(s, Move.Push(q, row, recordable)) && !AfterMove(s, Move.Push(q, row, recordable)).lost
    ensures QueuesAgree(AfterMove(s, Move.Push(q, row, recordable)))
  {
    var t, events := AfterMove(s, Move.Push(q, row, recordable)), PushEvents(s.queues[q], row);
    assert QueueAgrees(s, q);
    PushReplays(Replay(Shadow([], 0), OfQueue(s.history, q)), s.queues[q], s.carried[q], row);
    PushDescends(s.queues[q], row);
    assert t.history == s.history + Tagged(q, events) + [];
    QueueMoves(s, t, q, events, []);
  }

  lemma ConfirmAgrees(s: TracedSys, a: nat)
    requires QueuesAgree(s) && CanMove(s, Confirm(a))
    ensures QueuesAgree(AfterMove(s, Confirm(a)))
  {
    var t, q, hi := AfterMove(s, Confirm(a)), s.attempts[a].queue, s.attempts[a].hi;
    var events := CommitEvents(s.queues[q], hi);
    assert QueueAgrees(s, q);
    CommitReplays(Replay(Shadow([], 0), OfQueue(s.history, q)), s.queues[q], s.carried[q], hi);
    CommitDescends(s.queues[q], Some(hi));
    assert t.history == s.history + Tagged(q, events) + [Record(q, Ended(a, Confirmed))];
    QueueMoves(s, t, q, events, [Record(q, Ended(a, Confirmed))]);
  }

  lemma DiscardAgrees(s: TracedSys, q: nat)
    requires QueuesAgree(s) && CanMove(s, Move.Discard(q)) && !AfterMove(s, Move.Discard(q)).lost
    ensures QueuesAgree(AfterMove(s, Move.Discard(q)))
  {
    var t, events := AfterMove(s, Move.Discard(q)), DiscardEvents(s.queues[q]);
    assert QueueAgrees(s, q);
    DiscardReplays(Replay(Shadow([], 0), OfQueue(s.history, q)), s.queues[q], s.carried[q]);
    DiscardDescends(s.queues[q]);
    assert t.history == s.history + Tagged(q, events) + [];
    QueueMoves(s, t, q, events, []);
  }

  /** A move that only records something about queue `q`. */
  lemma NeutralAgrees(s: TracedSys, t: TracedSys, q: nat, event: Event)
    requires QueuesAgree(s) && q < |s.queues| && Neutral(event)
    requires t.queues == s.queues && t.carried == s.carried && t.history == s.history + [Record(q, event)]
    ensures QueuesAgree(t)
  {
    assert QueueAgrees(s, q);
    assert t.history == s.history + Tagged(q, []) + [Record(q, event)];
    QueueMoves(s, t, q, [], [Record(q, event)]);
  }

  lemma StepAgrees(s: TracedSys, m: Move)
    requires QueuesAgree(s) && AttemptsOk(s) && CanMove(s, m) && !AfterMove(s, m).lost
    ensures QueuesAgree(AfterMove(s, m))
  {
    var t := AfterMove(s, m);
    match m
    case Open(maxRows, carried) => OpenAgrees(s, maxRows, carried);
    case Push(q, row, recordable) => PushAgrees(s, q, row, recordable);
    case Begin(q, limit) => NeutralAgrees(s, t, q, t.history[|s.history|].event);
    case StartCommit(a) =>
      assert t.history == s.history;
      forall k | 0 <= k < |t.queues| ensures QueueAgrees(t, k) { assert QueueAgrees(s, k); }
    case Confirm(a) => ConfirmAgrees(s, a);
    case Abandon(a) => NeutralAgrees(s, t, s.attempts[a].queue, t.history[|s.history|].event);
    case Discard(q) => DiscardAgrees(s, q);
    case Boundary(q, carriesOver) => NeutralAgrees(s, t, q, t.history[|s.history|].event);
  }

  /** No move takes an id back. */
  lemma QueueGoesOn(s: TracedSys, m: Move, q: nat)
    requires QueuesAgree(s) && CanMove(s, m) && q < |s.queues|
    ensures var t := AfterMove(s, m);
            q < |t.queues| && s.queues[q].nextId <= t.queues[q].nextId && s.queues[q].Front() <= t.queues[q].Front()
  {
    assert QueueAgrees(s, q);
    match m
    case Push(_, row, _) => PushDescends(s.queues[q], row);
    case Confirm(a) => CommitDescends(s.queues[q], Some(s.attempts[a].hi));
    case Discard(_) => DiscardDescends(s.queues[q]);
    case _ =>
  }

  lemma StepKeepsAttempts(s: TracedSys, m: Move)
    requires QueuesAgree(s) && AttemptsOk(s) && CanMove(s, m)
    ensures AttemptsOk(AfterMove(s, m))
  {
    var t := AfterMove(s, m);
    if m.Begin? {
      assert QueueAgrees(s, m.queue);
      HeadIds(s.queues[m.queue], m.limit);
    }
    StepGrows(s, m);
    forall a | 0 <= a < |t.attempts| ensures AttemptOk(t.queues, t.attempts[a]) {
      if a < |s.attempts| {
        assert AttemptOk(s.queues, s.attempts[a]);
        QueueGoesOn(s, m, s.attempts[a].queue);
      }
    }
  }

  function Range(lo: nat, hi: nat): (ids: seq<nat>)
    requires lo <= hi
    ensures |ids| == hi - lo + 1 && forall i :: 0 <= i < |ids| ==> ids[i] == lo + i
  {
    seq(hi - lo + 1, i requires 0 <= i <= hi - lo => lo + i)
  }

  lemma HeadIds(q: Queue, limit: nat)
    requires q.Valid() && Head(q, limit) != []
    ensures var head := Head(q, limit);
            && head[0].id == q.Front() && head[0].id <= head[|head| - 1].id < q.nextId
            && IdsOf(head) == Range(head[0].id, head[|head| - 1].id)
  {
  }

  /** Each attempt was recorded once, with the ids that were peeked. */
  ghost predicate StartsOk(history: seq<Record>, attempts: seq<TracedAttempt>) {
    && (forall i :: 0 <= i < |history| && history[i].event.Attempted? ==> StartOk(history[i], attempts))
    && (forall i, j :: 0 <= i < j < |history| && history[i].event.Attempted? && history[j].event.Attempted? ==>
                         history[i].event.attemptId != history[j].event.attemptId)
  }

  predicate StartOk(r: Record, attempts: seq<TracedAttempt>)
    requires r.event.Attempted?
  {
    var a := r.event.attemptId;
    && a < |attempts| && attempts[a].lo <= attempts[a].hi
    && r.queueId == attempts[a].queue && r.event.rowIds == Range(attempts[a].lo, attempts[a].hi)
  }

  /** Each ended attempt was recorded once. */
  ghost predicate EndsOk(history: seq<Record>, attempts: seq<TracedAttempt>) {
    && (forall i :: 0 <= i < |history| && history[i].event.Ended? ==>
                      history[i].event.attemptId < |attempts| && attempts[history[i].event.attemptId].ended)
    && (forall i, j :: 0 <= i < j < |history| && history[i].event.Ended? && history[j].event.Ended? ==>
                         history[i].event.attemptId != history[j].event.attemptId)
  }

  /** `r` confirms an attempt on queue `q` that held row `id`. */
  predicate Confirms(r: Record, attempts: seq<TracedAttempt>, q: nat, id: nat) {
    && r.event.Ended? && r.event.outcome.Confirmed? && r.event.attemptId < |attempts|
    && var a := attempts[r.event.attemptId];
       r.queueId == q && a.queue == q && a.lo <= id <= a.hi
  }

  ghost predicate ConfirmedIn(history: seq<Record>, attempts: seq<TracedAttempt>, q: nat, id: nat) {
    exists j :: 0 <= j < |history| && Confirms(history[j], attempts, q, id)
  }

  /** Every acknowledged row was part of a confirmed attempt on its queue. */
  ghost predicate AcksOk(history: seq<Record>, attempts: seq<TracedAttempt>) {
    forall i :: 0 <= i < |history| && history[i].event.AckRemoved? ==>
                  ConfirmedIn(history, attempts, history[i].queueId, history[i].event.rowId)
  }

  /** Attempts are only added and marked. */
  ghost predicate Grow(attempts: seq<TracedAttempt>, later: seq<TracedAttempt>) {
    && |attempts| <= |later|
    && forall a :: 0 <= a < |attempts| ==>
                     && later[a].queue == attempts[a].queue && later[a].lo == attempts[a].lo && later[a].hi == attempts[a].hi
                     && (attempts[a].ended ==> later[a].ended)
  }

  lemma AcksGrow(history: seq<Record>, attempts: seq<TracedAttempt>, more: seq<Record>, later: seq<TracedAttempt>)
    requires AcksOk(history, attempts) && Grow(attempts, later)
    requires forall i :: 0 <= i < |more| && more[i].event.AckRemoved? ==>
                           ConfirmedIn(more, later, more[i].queueId, more[i].event.rowId)
    ensures AcksOk(history + more, later)
  {
    var all := history + more;
    forall i | 0 <= i < |all| && all[i].event.AckRemoved?
      ensures ConfirmedIn(all, later, all[i].queueId, all[i].event.rowId)
    {
      if i < |history| {
        var j :| 0 <= j < |history| && Confirms(history[j], attempts, all[i].queueId, all[i].event.rowId);
        assert Confirms(all[j], later, all[i].queueId, all[i].event.rowId);
      } else {
        assert all[i] == more[i - |history|];
        var j :| 0 <= j < |more| && Confirms(more[j], later, all[i].queueId, all[i].event.rowId);
        assert all[|history| + j] == more[j];
      }
    }
  }

  lemma StepGrows(s: TracedSys, m: Move)
    requires CanMove(s, m)
    ensures Grow(s.attempts, AfterMove(s, m).attempts)
  {
  }

  /** The rows a commit removes were peeked for its attempt. */
  lemma CommitIsCovered(s: TracedSys, a: nat)
    requires QueuesAgree(s) && AttemptsOk(s) && CanMove(s, Confirm(a))
    ensures var q := s.queues[s.attempts[a].queue];
            forall i :: 0 <= i < CoveredCount(q.rows, s.attempts[a].hi) ==> s.attempts[a].lo <= q.rows[i].id <= s.attempts[a].hi
  {
    assert QueueAgrees(s, s.attempts[a].queue);
  }

  lemma StepKeepsAcks(s: TracedSys, m: Move)
    requires QueuesAgree(s) && AttemptsOk(s) && AcksOk(s.history, s.attempts) && CanMove(s, m) && !AfterMove(s, m).lost
    ensures AcksOk(AfterMove(s, m).history, AfterMove(s, m).attempts)
  {
    var t := AfterMove(s, m);
    var more := RecordsOf(s, m).value;
    StepGrows(s, m);
    if m.Confirm? {
      CommitIsCovered(s, m.attempt);
      forall i | 0 <= i < |more| && more[i].event.AckRemoved?
        ensures ConfirmedIn(more, t.attempts, more[i].queueId, more[i].event.rowId)
      {
        assert Confirms(more[|more| - 1], t.attempts, more[i].queueId, more[i].event.rowId);
      }
    } else if m.Push? {
      assert forall i :: 0 <= i < |more| ==> !more[i].event.AckRemoved?;
    }
    AcksGrow(s.history, s.attempts, more, t.attempts);
  }

  lemma StepKeepsStarts(s: TracedSys, m: Move)
    requires QueuesAgree(s) && AttemptsOk(s) && StartsOk(s.history, s.attempts) && CanMove(s, m) && !AfterMove(s, m).lost
    ensures StartsOk(AfterMove(s, m).history, AfterMove(s, m).attempts)
  {
    var more := RecordsOf(s, m).value;
    StepGrows(s, m);
    if m.Begin? {
      assert QueueAgrees(s, m.queue);
      HeadIds(s.queues[m.queue], m.limit);
    } else {
      assert forall i :: 0 <= i < |more| ==> !more[i].event.Attempted?;
    }
  }

  lemma StepKeepsEnds(s: TracedSys, m: Move)
    requires EndsOk(s.history, s.attempts) && CanMove(s, m) && !AfterMove(s, m).lost
    ensures EndsOk(AfterMove(s, m).history, AfterMove(s, m).attempts)
  {
    var more := RecordsOf(s, m).value;
    StepGrows(s, m);
    if !m.Confirm? && !m.Abandon? {
      assert forall i :: 0 <= i < |more| ==> !more[i].event.Ended?;
    } else {
      assert forall i :: 0 <= i < |more| - 1 ==> !more[i].event.Ended?;
    }
  }

  ghost predicate Inv(s: TracedSys) {
    QueuesAgree(s) && AttemptsOk(s) && StartsOk(s.history, s.attempts) && EndsOk(s.history, s.attempts) && AcksOk(s.history, s.attempts)
  }

  /** As long as nothing was lost the history replays to the queues, names every
      attempt once, and acknowledges nothing that was not confirmed. */
  lemma {:induction false} EveryRunKeepsInv(moves: seq<Move>)
    requires !AfterMoves(moves).lost
    ensures Inv(AfterMoves(moves))
  {
    if moves != [] {
      var before := AfterMoves(moves[..|moves| - 1]);
      var m := moves[|moves| - 1];
      EveryRunKeepsInv(moves[..|moves| - 1]);
      if CanMove(before, m) {
        StepAgrees(before, m);
        StepKeepsAttempts(before, m);
        StepKeepsStarts(before, m);
        StepKeepsEnds(before, m);
        StepKeepsAcks(before, m);
      }
    }
  }

  // --- The moves are operations of the queues ----------------------------------------------

  /** What a move does to queue `q`. */
  function OpOf(s: TracedSys, m: Move, q: nat): seq<Op>
    requires CanMove(s, m)
  {
    match m
    case Push(k, row, recordable) => if k == q && (recordable || s.queues[q].maxRows == 0) then [Op.Push(row)] else []
    case Confirm(a) => if s.attempts[a].queue == q then [Op.Commit(Some(s.attempts[a].hi))] else []
    case Discard(k) => if k == q && |s.queues[q].rows| <= MAX_IDS then [Op.Discard] else []
    case _ => []
  }

  function OpsOf(moves: seq<Move>, q: nat): seq<Op> {
    if moves == [] then []
    else
      var before, m := AfterMoves(moves[..|moves| - 1]), moves[|moves| - 1];
      OpsOf(moves[..|moves| - 1], q) + if CanMove(before, m) then OpOf(before, m, q) else []
  }

  lemma {:induction false} RunSnoc(q: Queue, ops: seq<Op>, op: Op)
    ensures Run(q, ops + [op]) == Apply(Run(q, ops), op)
    decreases |ops|
  {
    if ops == [] {
      assert [] + [op] == [op] && Run(Apply(q, op), []) == Apply(q, op);
    } else {
      RunSnoc(Apply(q, ops[0]), ops[1..], op);
      assert (ops + [op])[1..] == ops[1..] + [op];
    }
  }

  function Initial(s: TracedSys, q: nat): Queue
    requires q < |s.queues| && |s.carried| == |s.queues|
  {
    Queue([], 0, s.queues[q].maxRows, s.carried[q])
  }

  lemma MoveIsOp(s: TracedSys, m: Move, q: nat)
    requires CanMove(s, m) && q < |s.queues|
    ensures var t := AfterMove(s, m);
            && |t.carried| == |t.queues| && q < |t.queues| && Initial(t, q) == Initial(s, q)
            && t.queues[q] == if OpOf(s, m, q) == [] then s.queues[q] else Apply(s.queues[q], OpOf(s, m, q)[0])
  {
  }

  lemma OpensEmpty(s: TracedSys, m: Move)
    requires CanMove(s, m)
    ensures var t := AfterMove(s, m);
            && |t.carried| == |t.queues| == |s.queues| + (if m.Open? then 1 else 0)
            && (m.Open? ==> t.queues[|s.queues|] == Queue([], 0, m.maxRows, m.carried) && t.carried[|s.queues|] == m.carried)
            && (forall q: nat :: q >= |s.queues| ==> OpOf(s, m, q) == [])
  {
  }

  /** Each queue of a run is what its pushes, commits and discards make of the queue it
      was opened as. */
  lemma {:induction false} QueuesAreRuns(moves: seq<Move>, q: nat)
    ensures var s := AfterMoves(moves);
            |s.carried| == |s.queues| && if q < |s.queues| then s.queues[q] == Run(Initial(s, q), OpsOf(moves, q)) else OpsOf(moves, q) == []
  {
    if moves != [] {
      var less, m := moves[..|moves| - 1], moves[|moves| - 1];
      var s := AfterMoves(less);
      QueuesAreRuns(less, q);
      var op := if CanMove(s, m) then OpOf(s, m, q) else [];
      assert OpsOf(moves, q) == OpsOf(less, q) + op;
      assert op == [] ==> OpsOf(moves, q) == OpsOf(less, q);
      if CanMove(s, m) {
        OpensEmpty(s, m);
        if q < |s.queues| {
          MoveIsOp(s, m, q);
          if op != [] {
            assert op == [op[0]];
            RunSnoc(Initial(s, q), OpsOf(less, q), op[0]);
          }
        }
      }
    }
  }

  // --- What the outcomes and snapshots say --------------------------------------------

  /** Move `m` took effect in the run. */
  predicate Done(moves: seq<Move>, m: Move) {
    && moves != []
    && (Done(moves[..|moves| - 1], m) || (moves[|moves| - 1] == m && CanMove(AfterMoves(moves[..|moves| - 1]), m)))
  }

  predicate Says(s: TracedSys, a: nat, outcome: BatchOutcome)
    requires a < |s.attempts|
  {
    Record(s.attempts[a].queue, Ended(a, outcome)) in s.history
  }

  /** The recorded outcome of attempt `a` is what happened to it: confirmed; given up
      before its COMMIT was started; or given up after that. */
  ghost predicate OutcomeIs(s: TracedSys, a: nat, started: bool, confirmed: bool, abandoned: bool) {
    if a < |s.attempts| then
      && s.attempts[a].commitStarted == started && s.attempts[a].ended == (confirmed || abandoned) && !(confirmed && abandoned)
      && (Says(s, a, Confirmed) <==> confirmed)
      && (Says(s, a, NotCommitted) <==> abandoned && !started)
      && (Says(s, a, Unknown) <==> abandoned && started)
    else !started && !confirmed && !abandoned
  }

  ghost predicate OutcomeTrue(s: TracedSys, moves: seq<Move>, a: nat) {
    OutcomeIs(s, a, Done(moves, StartCommit(a)), Done(moves, Confirm(a)), Done(moves, Abandon(a)))
  }

  ghost predicate EndsPlaced(s: TracedSys) {
    forall r :: r in s.history && r.event.Ended? ==>
                  r.event.attemptId < |s.attempts| && r.queueId == s.attempts[r.event.attemptId].queue
  }

  /** A move records the end of an attempt, if any, and which. */
  lemma EndRecorded(s: TracedSys, m: Move, r: Record)
    requires CanMove(s, m) && RecordsOf(s, m).Some? && r.event.Ended?
    ensures r in RecordsOf(s, m).value <==>
              || (m.Confirm? && r == Record(s.attempts[m.attempt].queue, Ended(m.attempt, Confirmed)))
              || (m.Abandon? && s.attempts[m.attempt].commitStarted && r == Record(s.attempts[m.attempt].queue, Ended(m.attempt, Unknown)))
              || (m.Abandon? && !s.attempts[m.attempt].commitStarted && r == Record(s.attempts[m.attempt].queue, Ended(m.attempt, NotCommitted)))
  {
    var records := RecordsOf(s, m).value;
    if m.Confirm? {
      assert records[|records| - 1].event.Ended?;
    } else if m.Abandon? {
      assert records[0].event.Ended?;
    }
  }

  lemma StepKeepsEndsPlaced(s: TracedSys, m: Move)
    requires EndsPlaced(s) && CanMove(s, m) && !AfterMove(s, m).lost
    ensures EndsPlaced(AfterMove(s, m))
  {
    var t := AfterMove(s, m);
    StepGrows(s, m);
    forall r | r in t.history && r.event.Ended?
      ensures r.event.attemptId < |t.attempts| && r.queueId == t.attempts[r.event.attemptId].queue
    {
      EndRecorded(s, m, r);
      assert r in s.history || r in RecordsOf(s, m).value;
    }
  }

  /** What a move adds to what is said of attempt `a`. */
  lemma SaysMore(s: TracedSys, m: Move, a: nat, o: BatchOutcome)
    requires CanMove(s, m) && !AfterMove(s, m).lost && EndsPlaced(s) && a < |AfterMove(s, m).attempts|
    ensures Says(AfterMove(s, m), a, o) <==>
              || (a < |s.attempts| && Says(s, a, o))
              || (m == Confirm(a) && o == Confirmed)
              || (m == Abandon(a) && o == if s.attempts[a].commitStarted then Unknown else NotCommitted)
  {
    StepGrows(s, m);
    var r := Record(AfterMove(s, m).attempts[a].queue, Ended(a, o));
    EndRecorded(s, m, r);
    assert r in AfterMove(s, m).history <==> r in s.history || r in RecordsOf(s, m).value;
  }

  lemma StepKeepsOutcome(s: TracedSys, m: Move, a: nat, started: bool, confirmed: bool, abandoned: bool)
    requires CanMove(s, m) && !AfterMove(s, m).lost && EndsPlaced(s) && OutcomeIs(s, a, started, confirmed, abandoned)
    ensures OutcomeIs(AfterMove(s, m), a, started || m == StartCommit(a), confirmed || m == Confirm(a), abandoned || m == Abandon(a))
  {
    if a < |AfterMove(s, m).attempts| {
      SaysMore(s, m, a, Confirmed);
      SaysMore(s, m, a, NotCommitted);
      SaysMore(s, m, a, Unknown);
    }
  }

  /** In every run the recorded outcomes are true. */
  lemma {:induction false} OutcomesAreTrue(moves: seq<Move>, a: nat)
    requires !AfterMoves(moves).lost
    ensures EndsPlaced(AfterMoves(moves)) && OutcomeTrue(AfterMoves(moves), moves, a)
  {
    if moves != [] {
      var before := AfterMoves(moves[..|moves| - 1]);
      OutcomesAreTrue(moves[..|moves| - 1], a);
      if CanMove(before, moves[|moves| - 1]) {
        StepKeepsEndsPlaced(before, moves[|moves| - 1]);
        var less := moves[..|moves| - 1];
        StepKeepsOutcome(
          before, moves[|moves| - 1], a, Done(less, StartCommit(a)), Done(less, Confirm(a)), Done(less, Abandon(a)));
      }
    }
  }

  /** The rows queue `q` holds according to `records`. */
  function RowsAfter(records: seq<Record>, q: nat): seq<Entry> { Replay(Shadow([], 0), OfQueue(records, q)).rows }

  /** Which configuration boundaries queue `q` came to: handed on or not. */
  function Boundaries(moves: seq<Move>, q: nat): seq<bool> {
    if moves == [] then []
    else
      var m := moves[|moves| - 1];
      Boundaries(moves[..|moves| - 1], q)
      + if m.Boundary? && m.queue == q && CanMove(AfterMoves(moves[..|moves| - 1]), m) then [m.carriesOver] else []
  }

  /** The same as recorded. */
  function RecordedBoundaries(records: seq<Record>, q: nat): seq<bool> {
    if records == [] then []
    else
      var r := records[|records| - 1];
      RecordedBoundaries(records[..|records| - 1], q)
      + if r.queueId == q && r.event.Handoff? then [true] else if r.queueId == q && r.event.QueueRetiring? then [false] else []
  }

  predicate Boundless(records: seq<Record>) {
    forall i :: 0 <= i < |records| ==> !records[i].event.Handoff? && !records[i].event.QueueRetiring?
  }

  lemma {:induction false} NoBoundaries(records: seq<Record>, more: seq<Record>, q: nat)
    requires Boundless(more)
    ensures RecordedBoundaries(records + more, q) == RecordedBoundaries(records, q)
  {
    if more == [] {
      assert records + more == records;
    } else {
      NoBoundaries(records, more[..|more| - 1], q);
      assert (records + more)[..|records + more| - 1] == records + more[..|more| - 1];
    }
  }

  lemma OthersAreBoundless(s: TracedSys, m: Move)
    requires CanMove(s, m) && RecordsOf(s, m).Some? && !m.Boundary?
    ensures Boundless(RecordsOf(s, m).value)
  {
  }

  /** What is handed on and what retires is recorded as such, in order. */
  lemma {:induction false} BoundariesAreTrue(moves: seq<Move>, q: nat)
    requires !AfterMoves(moves).lost
    ensures RecordedBoundaries(AfterMoves(moves).history, q) == Boundaries(moves, q)
  {
    if moves != [] {
      var s, m := AfterMoves(moves[..|moves| - 1]), moves[|moves| - 1];
      BoundariesAreTrue(moves[..|moves| - 1], q);
      if CanMove(s, m) {
        var records := RecordsOf(s, m).value;
        if m.Boundary? {
          assert (s.history + records)[..|s.history|] == s.history;
        } else {
          OthersAreBoundless(s, m);
          NoBoundaries(s.history, records, q);
        }
      }
    }
  }

  /** A boundary lists what is queued then; an attempt lists the front of the queue. */
  ghost predicate SnapshotAt(records: seq<Record>, i: nat)
    requires i < |records|
  {
    Snapshot(records[i].event, IdsOf(RowsAfter(records[..i], records[i].queueId)))
  }

  ghost predicate SnapshotsOk(records: seq<Record>) { forall i: nat :: i < |records| ==> SnapshotAt(records, i) }

  predicate Snapshot(e: Event, ids: seq<nat>) {
    match e
    case Handoff(listed) => listed == ids
    case QueueRetiring(listed) => listed == ids
    case Attempted(_, listed) => listed != [] && listed <= ids
    case _ => true
  }

  /** What a move lists is what is queued when it is made. */
  lemma MoveLists(s: TracedSys, m: Move, k: nat)
    requires CanMove(s, m) && RecordsOf(s, m).Some? && k < |RecordsOf(s, m).value|
    ensures var r := RecordsOf(s, m).value[k];
            r.event.Handoff? || r.event.QueueRetiring? || r.event.Attempted? ==>
              k == 0 && r.queueId < |s.queues| && Snapshot(r.event, IdsOf(s.queues[r.queueId].rows))
  {
    if m.Begin? {
      var q := s.queues[m.queue];
      assert IdsOf(Head(q, m.limit)) == IdsOf(q.rows)[..|Head(q, m.limit)|];
    }
  }

  lemma NewSnapshot(s: TracedSys, m: Move, k: nat)
    requires QueuesAgree(s) && CanMove(s, m) && RecordsOf(s, m).Some? && k < |RecordsOf(s, m).value|
    ensures var r := RecordsOf(s, m).value[k];
            if k == 0 then Snapshot(r.event, IdsOf(RowsAfter(s.history, r.queueId)))
            else !r.event.Handoff? && !r.event.QueueRetiring? && !r.event.Attempted?
  {
    var r := RecordsOf(s, m).value[k];
    MoveLists(s, m, k);
    if r.queueId < |s.queues| {
      assert QueueAgrees(s, r.queueId);
    }
  }

  /** Only the first of the new records can be a snapshot. */
  ghost predicate NewAt(history: seq<Record>, records: seq<Record>, k: nat)
    requires k < |records|
  {
    if k == 0 then Snapshot(records[k].event, IdsOf(RowsAfter(history, records[k].queueId)))
    else !records[k].event.Handoff? && !records[k].event.QueueRetiring? && !records[k].event.Attempted?
  }

  lemma SnapshotsAppend(history: seq<Record>, records: seq<Record>, i: nat)
    requires SnapshotsOk(history) && i < |history + records|
    requires i >= |history| ==> NewAt(history, records, i - |history|)
    ensures SnapshotAt(history + records, i)
  {
    var all := history + records;
    if i < |history| {
      assert all[..i] == history[..i] && SnapshotAt(history, i);
    } else if i == |history| {
      assert all[..i] == history;
    }
  }

  lemma StepKeepsSnapshots(s: TracedSys, m: Move)
    requires QueuesAgree(s) && SnapshotsOk(s.history) && CanMove(s, m) && !AfterMove(s, m).lost
    ensures SnapshotsOk(AfterMove(s, m).history)
  {
    var records := RecordsOf(s, m).value;
    var all := s.history + records;
    forall i: nat | i < |all| ensures SnapshotAt(all, i) {
      if i >= |s.history| {
        NewSnapshot(s, m, i - |s.history|);
      }
      SnapshotsAppend(s.history, records, i);
    }
  }

  lemma {:induction false} SnapshotsAreTrue(moves: seq<Move>)
    requires !AfterMoves(moves).lost
    ensures SnapshotsOk(AfterMoves(moves).history)
  {
    if moves != [] {
      var before := AfterMoves(moves[..|moves| - 1]);
      SnapshotsAreTrue(moves[..|moves| - 1]);
      EveryRunKeepsInv(moves[..|moves| - 1]);
      if CanMove(before, moves[|moves| - 1]) {
        StepKeepsSnapshots(before, moves[|moves| - 1]);
      }
    }
  }

  /** An event that cannot be recorded: a row whose texts are too long or whose value is
      not finite, or more ids than one event can list. */
  predicate Unrecordable(s: TracedSys, m: Move)
    requires CanMove(s, m)
  {
    match m
    case Push(q, _, recordable) => !recordable && s.queues[q].maxRows > 0
    case Begin(q, limit) => Min(limit, |s.queues[q].rows|) > 4096
    case Discard(q) => |s.queues[q].rows| > 4096
    case Boundary(q, _) => |s.queues[q].rows| > 4096
    case _ => false
  }

  predicate MetUnrecordable(moves: seq<Move>) {
    && moves != []
    && var before, m := AfterMoves(moves[..|moves| - 1]), moves[|moves| - 1];
       MetUnrecordable(moves[..|moves| - 1]) || (CanMove(before, m) && Unrecordable(before, m))
  }

  /** The run loses its trace exactly by an event that cannot be recorded. */
  lemma {:induction false} LostIff(moves: seq<Move>)
    ensures AfterMoves(moves).lost <==> MetUnrecordable(moves)
  {
    if moves != [] {
      LostIff(moves[..|moves| - 1]);
    }
  }

  // --- The file ------------------------------------------------------------------------------

  datatype Line = StartLine | RecordLine(record: Record) | CompleteLine(records: nat)

  function Lines(records: seq<Record>): (lines: seq<Line>)
    ensures |lines| == |records| && forall i :: 0 <= i < |lines| ==> lines[i] == RecordLine(records[i])
  {
    seq(|records|, i requires 0 <= i < |records| => RecordLine(records[i]))
  }

  /** Each line ends with a newline. */
  function Bytes(lines: seq<Line>, size: Line -> nat): nat {
    if lines == [] then 0 else Bytes(lines[..|lines| - 1], size) + size(lines[|lines| - 1]) + 1
  }

  lemma BytesSnoc(lines: seq<Line>, line: Line, size: Line -> nat)
    ensures Bytes(lines + [line], size) == Bytes(lines, size) + size(line) + 1
  {
    assert (lines + [line])[..|lines|] == lines;
  }

  lemma {:induction false} BytesPrefix(lines: seq<Line>, more: seq<Line>, size: Line -> nat)
    ensures Bytes(lines, size) <= Bytes(lines + more, size)
  {
    if more == [] {
      assert lines + more == lines;
    } else {
      BytesPrefix(lines, more[..|more| - 1], size);
      assert (lines + more)[..|lines + more| - 1] == lines + more[..|more| - 1];
    }
  }

  /** The attempts that were recorded and have no outcome yet. */
  function OpenIds(records: seq<Record>): set<nat> {
    if records == [] then {}
    else OpenAfter(OpenIds(records[..|records| - 1]), records[|records| - 1].event)
  }

  function OpenAfter(ids: set<nat>, e: Event): set<nat> {
    match e
    case Attempted(id, _) => ids + {id}
    case Ended(id, _) => ids - {id}
    case _ => ids
  }

  /** Every outcome belongs to an attempt that was open. */
  ghost predicate Matched(records: seq<Record>) {
    forall i :: 0 <= i < |records| && records[i].event.Ended? ==> records[i].event.attemptId in OpenIds(records[..i])
  }

  predicate Opens(r: Record) { r.event.QueueOpened? }

  ghost predicate SomeQueue(records: seq<Record>) { exists i :: 0 <= i < |records| && Opens(records[i]) }

  /** What the writer makes of `records`. */
  ghost predicate Consistent(records: seq<Record>, size: Line -> nat) {
    && |records| <= MAX_EVENTS && SomeQueue(records) && Matched(records) && OpenIds(records) == {}
    && Bytes(FileOf(records), size) <= MAX_FILE_BYTES
  }

  function FileOf(records: seq<Record>): seq<Line> {
    [StartLine] + Lines(records) + [CompleteLine(|records|)]
  }

  lemma OneMoreRecord(records: seq<Record>, r: Record)
    ensures var more := records + [r];
            && Lines(more) == Lines(records) + [RecordLine(r)]
            && (SomeQueue(more) <==> SomeQueue(records) || Opens(r))
            && OpenIds(more) == OpenAfter(OpenIds(records), r.event)
            && (Matched(more) <==> Matched(records) && (r.event.Ended? ==> r.event.attemptId in OpenIds(records)))
  {
    var more := records + [r];
    assert more[..|records|] == records;
    assert forall i :: 0 <= i < |records| ==> more[..i] == records[..i] && more[i] == records[i];
    if SomeQueue(records) {
      var i :| 0 <= i < |records| && Opens(records[i]);
      assert Opens(more[i]);
    }
    if Opens(r) {
      assert Opens(more[|records|]);
    }
    assert more[|records|] == r;
  }

  /** The state of the writer thread. `broken` after a line that did not fit. */
  datatype Writer = Writer(count: nat, seenQueue: bool, attempts: set<nat>, remaining: nat, file: seq<Line>, broken: bool) {
    /** What the writer knows once `received` reached it. */
    ghost predicate Follows(received: seq<Record>, size: Line -> nat) {
      && count == |received| <= MAX_EVENTS
      && (broken ==> Bytes([StartLine] + Lines(received), size) > MAX_FILE_BYTES)
      && (!broken ==>
            && file == [StartLine] + Lines(received)
            && remaining + Bytes(file, size) == MAX_FILE_BYTES
            && seenQueue == SomeQueue(received) && attempts == OpenIds(received) && Matched(received))
    }

    function Noting(e: Event): Writer {
      this.(count := count + 1, seenQueue := seenQueue || e.QueueOpened?, attempts := OpenAfter(attempts, e))
    }

    /** `write_line`. */
    function Writing(line: Line, size: Line -> nat): Writer {
      if size(line) + 1 > remaining then this.(broken := true)
      else this.(remaining := remaining - (size(line) + 1), file := file + [line])
    }

    predicate Expects(e: Event) { e.Ended? ==> e.attemptId in attempts }
  }

  lemma FileGrows(received: seq<Record>, r: Record, size: Line -> nat)
    ensures var file := [StartLine] + Lines(received);
            && [StartLine] + Lines(received + [r]) == file + [RecordLine(r)]
            && Bytes(file + [RecordLine(r)], size) == Bytes(file, size) + size(RecordLine(r)) + 1
  {
    BytesSnoc([StartLine] + Lines(received), RecordLine(r), size);
  }

  lemma WriterFollows(w: Writer, received: seq<Record>, r: Record, size: Line -> nat)
    requires w.Follows(received, size) && !w.broken && |received| < MAX_EVENTS
    ensures w.Expects(r.event) ==> w.Noting(r.event).Writing(RecordLine(r), size).Follows(received + [r], size)
    ensures !w.Expects(r.event) ==> !Matched(received + [r])
  {
    OneMoreRecord(received, r);
    FileGrows(received, r, size);
    var next := w.Noting(r.event).Writing(RecordLine(r), size);
    assert next.seenQueue == SomeQueue(received + [r]) && next.attempts == OpenIds(received + [r]) && next.count == |received + [r]|;
    assert !next.broken ==> next.file == [StartLine] + Lines(received + [r]) && next.remaining + Bytes(next.file, size) == MAX_FILE_BYTES;
  }

  class TraceOutput {
    const size: Line -> nat
    var lost: bool
    var open: bool
    var channel: seq<Record>
    var writer: Writer

    /** Everything that was to be recorded before the end, and what reached the
        writer, with the last record it could not write. */
    ghost var asked: seq<Record>
    ghost var received: seq<Record>

    /** Unless the trace is lost nothing is missing between the callers and the writer. */
    ghost predicate Valid()
      reads this
    {
      |channel| <= BUFFER_EVENTS && (!lost ==> received + channel == asked && writer.Follows(received, size))
    }

    constructor (size: Line -> nat)
      ensures Valid() && !lost && open && asked == [] && this.size == size
    {
      this.size := size;
      lost, open, channel, asked, received := false, true, [], [], [];
      writer := Writer(0, false, {}, MAX_FILE_BYTES, [], false).Writing(StartLine, size);
      BytesSnoc([], StartLine, size);
      assert [StartLine] + Lines([]) == [] + [StartLine];
    }

    method Invalidate()
      requires Valid()
      modifies this`lost
      ensures Valid() && lost
    {
      lost := true;
    }

    /** `record`: a full channel, or a writer that is gone, loses the trace. */
    method Record(r: Record)
      requires Valid()
      modifies this`lost, this`channel, this`asked
      ensures Valid() && asked == (if open then old(asked) + [r] else old(asked))
      ensures old(lost) ==> lost
    {
      if open {
        asked := asked + [r];
      }
      if lost {
        return;
      }
      if open {
        if |channel| < BUFFER_EVENTS && !writer.broken {
          assert received + (channel + [r]) == (received + channel) + [r];
          channel := channel + [r];
        } else {
          lost := true;
        }
      }
    }

    /** One record in the loop of `write_trace`. */
    method Receive()
      requires Valid() && channel != [] && !writer.broken
      modifies this`lost, this`channel, this`writer, this`received
      ensures Valid() && (old(lost) ==> lost) && channel == old(channel)[1..]
      ensures received == old(received) + [old(channel)[0]]
      ensures !old(lost) && lost ==> |received| > MAX_EVENTS || !Matched(received)
    {
      var r := channel[0];
      if !lost {
        assert received + channel == (received + [r]) + channel[1..];
        if writer.count < MAX_EVENTS {
          WriterFollows(writer, received, r, size);
        }
      }
      channel, received := channel[1..], received + [r];
      if writer.count == MAX_EVENTS {
        lost := true;
        return;
      }
      if !writer.Expects(r.event) {
        lost := true;
      }
      writer := writer.Noting(r.event).Writing(RecordLine(r), size);
    }

    /** `finish`: the writer takes what is left and completes the file only if
        nothing is missing from it. */
    method Finish(success: bool) returns (complete: bool)
      requires Valid()
      modifies this
      ensures asked == old(asked) && (old(lost) ==> lost)
      ensures complete <==> success && !old(lost) && Consistent(asked, size)
      ensures complete ==> writer.file == FileOf(asked)
    {
      open := false;
      while channel != [] && !writer.broken
        invariant Valid() && asked == old(asked) && (old(lost) ==> lost)
        invariant !old(lost) && lost ==> |received| > MAX_EVENTS || !Matched(received)
        invariant !old(lost) ==> received + channel == asked
        decreases |channel|
      {
        MatchedPrefix(received, [channel[0]]);
        assert received + channel == received + [channel[0]] + channel[1..];
        Receive();
      }
      if !old(lost) {
        Outcome(asked, received, channel, writer, lost, size);
      }
      complete := false;
      if !writer.broken && success && !lost && writer.seenQueue && writer.attempts == {} {
        writer := writer.Writing(CompleteLine(writer.count), size);
        complete := !writer.broken;
      }
    }
  }

  lemma MatchedPrefix(records: seq<Record>, more: seq<Record>)
    ensures Matched(records + more) ==> Matched(records)
  {
    forall i | Matched(records + more) && 0 <= i < |records| && records[i].event.Ended?
      ensures records[i].event.attemptId in OpenIds(records[..i])
    {
      assert (records + more)[i] == records[i] && (records + more)[..i] == records[..i];
    }
  }

  /** When the writer stops, what it knows decides whether the file is consistent. */
  lemma Outcome(asked: seq<Record>, received: seq<Record>, channel: seq<Record>, w: Writer, lost: bool, size: Line -> nat)
    requires asked == received + channel && (channel == [] || w.broken)
    requires !lost ==> w.Follows(received, size)
    requires lost ==> |received| > MAX_EVENTS || !Matched(received)
    ensures Consistent(asked, size) <==>
            && !lost && !w.broken && w.seenQueue && w.attempts == {}
            && !w.Writing(CompleteLine(w.count), size).broken
    ensures !lost && !w.broken ==> w.Writing(CompleteLine(w.count), size).broken || w.file + [CompleteLine(w.count)] == FileOf(asked)
  {
    MatchedPrefix(received, channel);
    FileIs(received, channel, size);
    if channel == [] {
      assert received + [] == received;
      BytesSnoc([StartLine] + Lines(received), CompleteLine(|asked|), size);
    }
  }

  lemma FileIs(received: seq<Record>, channel: seq<Record>, size: Line -> nat)
    ensures var start, asked := [StartLine] + Lines(received), received + channel;
            && FileOf(asked) == start + (Lines(channel) + [CompleteLine(|asked|)])
            && (channel == [] ==> FileOf(asked) == start + [CompleteLine(|asked|)])
            && Bytes(start, size) <= Bytes(FileOf(asked), size)
  {
    var start, asked := [StartLine] + Lines(received), received + channel;
    var tail := Lines(channel) + [CompleteLine(|asked|)];
    BytesPrefix(start, tail, size);
    assert start + tail == FileOf(asked);
  }

  // --- What a complete file proves ---------------------------------------------------------

  predicate AttemptAt(records: seq<Record>, i: int, id: nat) {
    0 <= i < |records| && records[i].event.Attempted? && records[i].event.attemptId == id
  }

  predicate EndAt(records: seq<Record>, i: int, id: nat) {
    0 <= i < |records| && records[i].event.Ended? && records[i].event.attemptId == id
  }

  lemma {:induction false} OpenMeansAttempted(records: seq<Record>, id: nat)
    requires id in OpenIds(records)
    ensures exists i :: AttemptAt(records, i, id)
  {
    var n := |records| - 1;
    if AttemptAt(records, n, id) {
    } else {
      OpenMeansAttempted(records[..n], id);
      var i :| AttemptAt(records[..n], i, id);
      assert AttemptAt(records, i, id);
    }
  }

  lemma {:induction false} AttemptedEnds(records: seq<Record>, i: nat, id: nat)
    requires AttemptAt(records, i, id)
    ensures id in OpenIds(records) || exists j :: i < j && EndAt(records, j, id)
  {
    var n := |records| - 1;
    if i < n {
      AttemptedEnds(records[..n], i, id);
      if id in OpenIds(records[..n]) {
        if id !in OpenIds(records) {
          assert EndAt(records, n, id);
        }
      } else {
        var j :| i < j && EndAt(records[..n], j, id);
        assert EndAt(records, j, id);
      }
    }
  }

  /** Every attempt has exactly one outcome, and it comes later. */
  ghost predicate EachEndsOnce(records: seq<Record>) {
    && (forall i, id :: AttemptAt(records, i, id) ==> exists j :: i < j && EndAt(records, j, id))
    && (forall i, j, id :: EndAt(records, i, id) && EndAt(records, j, id) ==> i == j)
    && (forall j, id :: EndAt(records, j, id) ==> exists i :: i < j && AttemptAt(records, i, id))
  }

  /** Row `id` was sent by an attempt on its queue that was confirmed. */
  ghost predicate SentAndConfirmed(records: seq<Record>, q: nat, id: nat) {
    exists i, j :: SendsAndConfirms(records, i, j, q, id)
  }

  predicate SendsAndConfirms(records: seq<Record>, i: int, j: int, q: nat, id: nat) {
    && 0 <= i < j < |records| && records[i].event.Attempted? && id in records[i].event.rowIds
    && records[i].queueId == q && records[j] == Record(q, Ended(records[i].event.attemptId, Confirmed))
  }

  lemma EndHasAttempt(records: seq<Record>, j: nat, id: nat)
    requires Matched(records) && EndAt(records, j, id)
    ensures exists i :: i < j && AttemptAt(records, i, id)
  {
    OpenMeansAttempted(records[..j], id);
    var i :| AttemptAt(records[..j], i, id);
    assert AttemptAt(records, i, id);
  }

  lemma OutcomesMatch(history: seq<Record>, attempts: seq<TracedAttempt>)
    requires Matched(history) && OpenIds(history) == {} && EndsOk(history, attempts)
    ensures EachEndsOnce(history)
  {
    forall i, id | AttemptAt(history, i, id) ensures exists j :: i < j && EndAt(history, j, id) {
      AttemptedEnds(history, i, id);
    }
    forall j, id | EndAt(history, j, id) ensures exists i :: i < j && AttemptAt(history, i, id) {
      EndHasAttempt(history, j, id);
    }
  }

  lemma AckWasSent(history: seq<Record>, attempts: seq<TracedAttempt>, k: nat)
    requires Matched(history) && StartsOk(history, attempts) && AcksOk(history, attempts)
    requires k < |history| && history[k].event.AckRemoved?
    ensures SentAndConfirmed(history, history[k].queueId, history[k].event.rowId)
  {
    var q, id := history[k].queueId, history[k].event.rowId;
    var j :| 0 <= j < |history| && Confirms(history[j], attempts, q, id);
    var a := history[j].event.attemptId;
    EndHasAttempt(history, j, a);
    var i :| i < j && AttemptAt(history, i, a);
    assert StartOk(history[i], attempts);
    assert history[i].event.rowIds[id - attempts[a].lo] == id;
    assert SendsAndConfirms(history, i, j, q, id);
  }

  /** A complete trace is the run: replaying the events of each queue gives its
      remaining rows and its count, every attempt has exactly one outcome, and that is
      the true one; every acknowledged row was in an attempt that was confirmed; and
      what was handed on, retired or sent is listed as it was queued then. */
  lemma CompleteTraceReplays(moves: seq<Move>, size: Line -> nat)
    requires var s := AfterMoves(moves); !s.lost && Consistent(s.history, size)
    ensures var s := AfterMoves(moves);
            && |s.carried| == |s.queues|
            && (forall q :: 0 <= q < |s.queues| ==> QueueAgrees(s, q))
            && EachEndsOnce(s.history)
            && (forall k :: 0 <= k < |s.history| && s.history[k].event.AckRemoved? ==>
                              SentAndConfirmed(s.history, s.history[k].queueId, s.history[k].event.rowId))
            && (forall a: nat :: OutcomeTrue(s, moves, a))
            && (forall q: nat :: RecordedBoundaries(s.history, q) == Boundaries(moves, q))
            && SnapshotsOk(s.history)
  {
    EveryRunKeepsInv(moves);
    SnapshotsAreTrue(moves);
    forall a: nat ensures OutcomeTrue(AfterMoves(moves), moves, a) {
      OutcomesAreTrue(moves, a);
    }
    forall q: nat ensures RecordedBoundaries(AfterMoves(moves).history, q) == Boundaries(moves, q) {
      BoundariesAreTrue(moves, q);
    }
    var s := AfterMoves(moves);
    OutcomesMatch(s.history, s.attempts);
    forall k | 0 <= k < |s.history| && s.history[k].event.AckRemoved?
      ensures SentAndConfirmed(s.history, s.history[k].queueId, s.history[k].event.rowId)
    {
      AckWasSent(s.history, s.attempts, k);
    }
  }

  /** Records a whole run while the writer reads along, `taken[k]` records after
      move `k`. A complete file holds every event of the run, in order. */
  method TraceRun(moves: seq<Move>, taken: seq<nat>, success: bool, size: Line -> nat) returns (output: TraceOutput, complete: bool)
    ensures complete ==> !AfterMoves(moves).lost && output.writer.file == FileOf(AfterMoves(moves).history) && Consistent(AfterMoves(moves).history, size)
  {
    output := new TraceOutput(size);
    var s := Fresh;
    for k := 0 to |moves|
      invariant fresh(output) && output.Valid() && output.open && output.size == size
      invariant s == AfterMoves(moves[..k])
      invariant s.lost ==> output.lost
      invariant !s.lost ==> output.asked == s.history
    {
      assert moves[..k + 1][..k] == moves[..k];
      if CanMove(s, moves[k]) {
        var records := RecordsOf(s, moves[k]);
        if records.None? {
          output.Invalidate();
        } else {
          RecordAll(output, records.value);
        }
        s := AfterMove(s, moves[k]);
      }
      ReadSome(output, if k < |taken| then taken[k] else 0);
    }
    assert moves[..|moves|] == moves;
    complete := output.Finish(success);
  }

  method RecordAll(output: TraceOutput, records: seq<Record>)
    requires output.Valid() && output.open
    modifies output
    ensures output.Valid() && output.open && (old(output.lost) ==> output.lost)
    ensures output.asked == old(output.asked) + records
  {
    for i := 0 to |records|
      invariant output.Valid() && output.open && (old(output.lost) ==> output.lost)
      invariant output.asked == old(output.asked) + records[..i]
    {
      output.Record(records[i]);
    }
    assert records[..|records|] == records;
  }

  /** The writer thread runs for a while. */
  method ReadSome(output: TraceOutput, n: nat)
    requires output.Valid()
    modifies output
    ensures output.Valid() && output.open == old(output.open) && (old(output.lost) ==> output.lost)
    ensures output.asked == old(output.asked)
  {
    for i := 0 to n
      invariant output.Valid() && output.open == old(output.open) && (old(output.lost) ==> output.lost)
      invariant output.asked == old(output.asked)
    {
      if output.channel != [] && !output.writer.broken {
        output.Receive();
      }
    }
  }
}
