/** The bounded, id-stamped row queue of one sink group
    (apps/banto-hub-sink/src/queue.rs). */
module RowQueues {
  import opened Rows

  datatype Entry = Entry(id: nat, row: Row)

  /** What `peek_batch` hands to the INSERT: copies of rows and the id of the last one. */
  datatype Batch = Batch(rows: seq<Row>, lastId: Option<nat>)

  /** The value of a queue. */
  datatype Queue = Queue(rows: seq<Entry>, nextId: nat, maxRows: nat, dropped: nat) {

    /** The queued ids are exactly the range `[nextId - |rows|, nextId)`, in order. */
    ghost predicate Valid() {
      && |rows| <= maxRows
      && |rows| <= nextId
      && dropped <= U64_MAX
      && forall i :: 0 <= i < |rows| ==> rows[i].id == nextId - |rows| + i
    }

    /** The smallest id that can still be queued. */
    function Front(): int { nextId - |rows| }
  }

  /** How many rows at the front have an id up to `last`. */
  function CoveredCount(rows: seq<Entry>, last: nat): (n: nat)
    ensures n <= |rows|
    ensures forall i :: 0 <= i < n ==> rows[i].id <= last
    ensures n < |rows| ==> last < rows[n].id
  {
    if rows == [] || last < rows[0].id then 0 else 1 + CoveredCount(rows[1..], last)
  }

  function Pushed(q: Queue, row: Row): Queue {
    if q.maxRows == 0 then
      q.(dropped := SatAdd(q.dropped, 1))
    else
      var excess := Max(0, |q.rows| - q.maxRows + 1);
      q.(rows := q.rows[excess..] + [Entry(q.nextId, row)], nextId := q.nextId + 1, dropped := SatAdd(q.dropped, excess))
  }

  function RowsOf(entries: seq<Entry>): (rows: seq<Row>)
    ensures |rows| == |entries| && forall i :: 0 <= i < |rows| ==> rows[i] == entries[i].row
  {
    seq(|entries|, i requires 0 <= i < |entries| => entries[i].row)
  }

  /** The entries a peek of up to `limit` rows sees. */
  function Head(q: Queue, limit: nat): seq<Entry> { q.rows[..Min(limit, |q.rows|)] }

  function Peeked(q: Queue, limit: nat): Batch {
    var head := Head(q, limit);
    Batch(RowsOf(head), if head == [] then None else Some(head[|head| - 1].id))
  }

  function Committed(q: Queue, lastId: Option<nat>): Queue {
    match lastId
    case None => q
    case Some(last) => q.(rows := q.rows[CoveredCount(q.rows, last)..])
  }

  function Discarded(q: Queue): Queue {
    q.(rows := [], dropped := SatAdd(q.dropped, |q.rows|))
  }

  /** The queue as the source keeps it: three fields updated in place. Two
      generations of a group may hold the same object. */
  class RowQueue {
    var rows: seq<Entry>
    var nextId: nat
    const maxRows: nat
    var dropped: nat

    ghost function State(): Queue
      reads this
    {
      Queue(rows, nextId, maxRows, dropped)
    }

    constructor WithDropped(maxRows: nat, dropped: nat)
      requires dropped <= U64_MAX
      ensures State() == Queue([], 0, maxRows, dropped) && State().Valid()
    {
      this.rows, this.nextId, this.maxRows, this.dropped := [], 0, maxRows, dropped;
    }

    /** Appends one row; a full queue drops its oldest rows and counts them. */
    method Push(row: Row)
      requires State().Valid()
      requires nextId < U128_MAX
      modifies this
      ensures State() == Pushed(old(State()), row) && State().Valid()
      ensures maxRows > 0 ==>
                && |rows| == Min(|old(rows)| + 1, maxRows) && nextId == old(nextId) + 1
                && rows == old(rows)[|old(rows)| + 1 - |rows|..] + [Entry(old(nextId), row)]
      ensures maxRows == 0 ==> rows == old(rows) && nextId == old(nextId)
    {
      if maxRows == 0 {
        dropped := SatAdd(dropped, 1);
        return;
      }
      ghost var popped := 0;
      while |rows| >= maxRows
        invariant popped <= |old(rows)| && rows == old(rows)[popped..]
        invariant dropped == SatAdd(old(dropped), popped)
        invariant popped <= Max(0, |old(rows)| - maxRows + 1)
        invariant nextId == old(nextId)
        decreases |rows|
      {
        rows := rows[1..];
        dropped := SatAdd(dropped, 1);
        popped := popped + 1;
      }
      rows := rows + [Entry(nextId, row)];
      nextId := nextId + 1;
    }

    /** Copies up to `limit` rows from the front; the queue keeps them. */
    method PeekBatch(limit: nat) returns (batch: Batch)
      ensures batch == Peeked(State(), limit)
    {
      var copied: seq<Row> := [];
      var lastId: Option<nat> := None;
      for i := 0 to Min(limit, |rows|)
        invariant copied == RowsOf(rows[..i])
        invariant lastId == if i == 0 then None else Some(rows[i - 1].id)
      {
        copied := copied + [rows[i].row];
        lastId := Some(rows[i].id);
      }
      batch := Batch(copied, lastId);
    }

    /** Removes the rows of a batch whose INSERT was confirmed. */
    method Commit(batch: Batch)
      requires State().Valid()
      modifies this
      ensures State() == Committed(old(State()), batch.lastId) && State().Valid()
    {
      ghost var popped := 0;
      while batch.lastId.Some? && rows != [] && rows[0].id <= batch.lastId.value
        invariant popped <= |old(rows)| && rows == old(rows)[popped..]
        invariant batch.lastId.None? ==> popped == 0
        invariant batch.lastId.Some? ==>
                    popped + CoveredCount(rows, batch.lastId.value) == CoveredCount(old(rows), batch.lastId.value)
        invariant nextId == old(nextId) && dropped == old(dropped)
        decreases |rows|
      {
        rows := rows[1..];
        popped := popped + 1;
      }
    }

    /** Drops what is left and counts it. */
    method DiscardAll() returns (count: nat)
      requires State().Valid()
      modifies this
      ensures State() == Discarded(old(State())) && State().Valid()
      ensures count == old(|rows|)
    {
      count := |rows|;
      rows := [];
      dropped := SatAdd(dropped, count);
    }
  }

  // --- Any interleaving between a peek and its commit -----------------------

  /** What can happen to a queue: a push, a commit of any batch taken at any
      time (also through an older generation), or a discard. */
  datatype Op = Push(row: Row) | Commit(lastId: Option<nat>) | Discard

  function Apply(q: Queue, op: Op): Queue {
    match op
    case Push(row) => Pushed(q, row)
    case Commit(lastId) => Committed(q, lastId)
    case Discard => Discarded(q)
  }

  function Run(q: Queue, ops: seq<Op>): Queue
    decreases |ops|
  {
    if ops == [] then q else Run(Apply(q, ops[0]), ops[1..])
  }

  /** Later queues hold the survivors of an earlier one followed by newer rows. */
  ghost predicate Descends(q: Queue, later: Queue) {
    && later.Valid()
    && q.nextId <= later.nextId
    && q.Front() <= later.Front()
    && q.dropped <= later.dropped
    && q.maxRows == later.maxRows
    && forall i :: 0 <= i < |later.rows| && later.rows[i].id < q.nextId ==>
                     later.rows[i] in q.rows
  }

  lemma PushDescends(q: Queue, row: Row)
    requires q.Valid()
    ensures Descends(q, Pushed(q, row))
  {
  }

  lemma CommitDescends(q: Queue, lastId: Option<nat>)
    requires q.Valid()
    ensures Descends(q, Committed(q, lastId))
  {
  }

  lemma DiscardDescends(q: Queue)
    requires q.Valid()
    ensures Descends(q, Discarded(q))
  {
  }

  lemma DescendsTransitive(q: Queue, next: Queue, later: Queue)
    requires Descends(q, next) && Descends(next, later)
    ensures Descends(q, later)
  {
    forall i | 0 <= i < |later.rows| && later.rows[i].id < q.nextId
      ensures later.rows[i] in q.rows
    {
      assert later.rows[i] in next.rows;
    }
  }

  /** The pushed row itself is stored, last and under the next id; the rows that stay
      keep their place, and those that do not are counted. */
  lemma PushStores(q: Queue, row: Row)
    requires q.Valid()
    ensures var later := Pushed(q, row);
            && (q.maxRows > 0 ==>
                  && |later.rows| == Min(|q.rows| + 1, q.maxRows) && later.nextId == q.nextId + 1
                  && later.rows == q.rows[|q.rows| + 1 - |later.rows|..] + [Entry(q.nextId, row)]
                  && later.dropped == SatAdd(q.dropped, |q.rows| + 1 - |later.rows|))
            && (q.maxRows == 0 ==> later == q.(dropped := SatAdd(q.dropped, 1)))
  {
  }

  /** Every operation keeps the contiguous id range, never moves an id back
      into the queue and never lowers `dropped`. */
  lemma {:induction false} RunDescends(q: Queue, ops: seq<Op>)
    requires q.Valid()
    ensures Descends(q, Run(q, ops))
    decreases |ops|
  {
    if ops != [] {
      var next := Apply(q, ops[0]);
      match ops[0] {
        case Push(row) => PushDescends(q, row);
        case Commit(lastId) => CommitDescends(q, lastId);
        case Discard => DiscardDescends(q);
      }
      RunDescends(next, ops[1..]);
      DescendsTransitive(q, next, Run(next, ops[1..]));
    }
  }

  /** Exact ACK: whatever happened since the peek, the commit removes exactly
      the rows of the batch that are still queued and keeps every other row in
      its place, also one with the same five columns. */
  lemma ExactAck(q: Queue, limit: nat, ops: seq<Op>)
    requires q.Valid()
    ensures var sent := Head(q, limit);
            var before := Run(q, ops);
            var after := Committed(before, Peeked(q, limit).lastId);
            var cut := |before.rows| - |after.rows|;
            && 0 <= cut && after == before.(rows := before.rows[cut..])
            && forall i :: 0 <= i < |before.rows| ==> (i < cut <==> before.rows[i] in sent)
  {
    RunDescends(q, ops);
    var sent := Head(q, limit);
    var before := Run(q, ops);
    var cut := |before.rows| - |Committed(before, Peeked(q, limit).lastId).rows|;
    forall i | 0 <= i < |before.rows| ensures i < cut <==> before.rows[i] in sent {
      AckedIffSent(q, limit, before, i);
    }
  }

  lemma AckedIffSent(q: Queue, limit: nat, before: Queue, i: nat)
    requires q.Valid() && Descends(q, before) && i < |before.rows|
    ensures var cut := |before.rows| - |Committed(before, Peeked(q, limit).lastId).rows|;
            i < cut <==> before.rows[i] in Head(q, limit)
  {
    var sent := Head(q, limit);
    var e := before.rows[i];
    if sent != [] {
      var last := sent[|sent| - 1].id;
      if e.id <= last {
        var j :| 0 <= j < |q.rows| && q.rows[j] == e;
        assert sent[j] == e;
      }
    }
  }

  /** A repeated commit of the same batch, however late, changes nothing. */
  lemma RepeatedAckIsNoOp(q: Queue, limit: nat, before: seq<Op>, between: seq<Op>)
    requires q.Valid()
    ensures var last := Peeked(q, limit).lastId;
            var later := Run(Committed(Run(q, before), last), between);
            Committed(later, last) == later
  {
    var last := Peeked(q, limit).lastId;
    RunDescends(q, before);
    var seen := Run(q, before);
    RunDescends(Committed(seen, last), between);
    NothingLeftToAck(seen, last, Run(Committed(seen, last), between));
  }

  lemma NothingLeftToAck(seen: Queue, last: Option<nat>, later: Queue)
    requires seen.Valid() && Descends(Committed(seen, last), later)
    requires last.Some? ==> last.value < seen.nextId
    ensures Committed(later, last) == later
  {
    var acked := Committed(seen, last);
    if last.Some? && later.rows != [] {
      var first := later.rows[0];
      if first.id < seen.nextId {
        var j :| 0 <= j < |acked.rows| && acked.rows[j] == first;
        assert acked.rows[j] == seen.rows[CoveredCount(seen.rows, last.value) + j];
      }
      assert last.value < first.id;
    }
    if last.Some? {
      assert later.rows[0..] == later.rows;
    }
  }
}
