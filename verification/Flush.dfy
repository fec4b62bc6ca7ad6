/** `flush_group` on the value of one queue, with everything the other tasks may do
    to all queues meanwhile (apps/banto-hub-sink/src/flush.rs). */
module Flushes {
  import opened Rows
  import opened RowQueues
  import opened Groups

  datatype Scope = Connection | Group

  /** The end of one DB operation. A timed-out INSERT may have been committed. */
  datatype Answer = Done | SqlError(scope: Scope) | TimedOut {
    function Scope(): (scope: Scope)
      requires !Done?
      ensures scope == Connection <==> this == SqlError(Connection)
    {
      if SqlError? then scope else Group
    }
  }

  /** What the producers do to each queue, and the engine that discards one. */
  type Disturbance = map<RowQueue, seq<Op>>

  /** What one step of a flusher meets: what happened to the queues before it looks at
      one of them, the answer of the DB operation and when it came, what happened to
      the queues while it was pending, and the groups registered by then. */
  datatype Reply = Reply(before: Disturbance, answer: Answer, at: int, during: Disturbance, registry: map<int, GroupRuntime>) {
    predicate LeavesAlone(queue: RowQueue) { OpsOn(before, queue) == [] && OpsOn(during, queue) == [] }
  }

  function OpsOn(during: Disturbance, queue: RowQueue): seq<Op> {
    if queue in during then during[queue] else []
  }

  datatype End = Emptied | Failed(scope: Scope) | Aborted

  /** One INSERT of the rows `firstId` to `lastId`, and its answer. */
  datatype Sent = Sent(rows: seq<Row>, firstId: nat, lastId: nat, answer: Answer)

  // --- One group, as a function ---------------------------------------------------

  /** Ids do not run out. */
  function Perform(q: Queue, op: Op): Queue {
    if op.Push? && q.nextId >= U128_MAX then q else Apply(q, op)
  }

  function PerformAll(q: Queue, ops: seq<Op>): Queue
    decreases |ops|
  {
    if ops == [] then q else PerformAll(Perform(q, ops[0]), ops[1..])
  }

  datatype Flush = Flush(queue: Queue, sent: seq<Sent>, end: End, rest: seq<Reply>)

  /** What a flusher sends that peeks up to `limit` rows. */
  function Sending(q: Queue, limit: nat, answer: Answer): Sent
    requires Peeked(q, limit).rows != []
  {
    var head := Head(q, limit);
    Sent(RowsOf(head), head[0].id, head[|head| - 1].id, answer)
  }

  /** The queue when a step looks at it. */
  function Seen(own: RowQueue, q: Queue, reply: Reply): Queue { PerformAll(q, OpsOn(reply.before, own)) }

  /** `flush_group` on the value of queue `own`. A script that runs out is a flusher
      that was stopped there or aborted in the middle of an INSERT. */
  function Flushing(own: RowQueue, q: Queue, limit: nat, script: seq<Reply>): Flush
    decreases |script|
  {
    if script == [] then Flush(q, [], Aborted, [])
    else
      var seen, answer := Seen(own, q, script[0]), script[0].answer;
      var batch := Peeked(seen, limit);
      if batch.rows == [] then Flush(seen, [], Emptied, script[1..])
      else
        var now := PerformAll(seen, OpsOn(script[0].during, own));
        if answer.Done? then
          var next := Flushing(own, Committed(now, batch.lastId), limit, script[1..]);
          next.(sent := [Sending(seen, limit, answer)] + next.sent)
        else Flush(now, [Sending(seen, limit, answer)], Failed(answer.Scope()), script[1..])
  }

  /** The database confirms every batch and nobody else touches the queue. */
  predicate Undisturbed(own: RowQueue, script: seq<Reply>) {
    forall i :: 0 <= i < |script| ==> script[i].answer.Done? && script[i].LeavesAlone(own)
  }

  function Concat(sent: seq<Sent>): (rows: seq<Row>) {
    if sent == [] then [] else sent[0].rows + Concat(sent[1..])
  }

  /** The contents of a queue cut into confirmed transactions of `limit` rows. */
  function Chunks(entries: seq<Entry>, limit: nat): seq<Sent>
    requires limit > 0
  {
    if entries == [] then []
    else var n := Min(limit, |entries|); [Sent(RowsOf(entries[..n]), entries[0].id, entries[n - 1].id, Done)] + Chunks(entries[n..], limit)
  }

  lemma Monotone(x: int, y: int, b: nat)
    ensures x <= y ==> x * b <= y * b
  {
  }

  lemma Quotient(a: int, b: int, k: int)
    requires b > 0 && k * b <= a < (k + 1) * b
    ensures a / b == k
  {
    var d := a / b;
    assert d * b <= a < (d + 1) * b;
    Monotone(d + 1, k, b);
    Monotone(k + 1, d, b);
  }

  /** Together the chunks hold every row once and in order, and there are
      `ceil(n / limit)` of them. */
  lemma {:induction false} ChunksCover(entries: seq<Entry>, limit: nat)
    requires limit > 0
    ensures Concat(Chunks(entries, limit)) == RowsOf(entries)
    ensures |Chunks(entries, limit)| == (|entries| + limit - 1) / limit
  {
    if entries == [] {
      Quotient(limit - 1, limit, 0);
    } else {
      var n := Min(limit, |entries|);
      ChunksCover(entries[n..], limit);
      RowsOfSplit(entries, n);
      RoundUpStep(|entries|, n, limit);
      assert Chunks(entries, limit)[1..] == Chunks(entries[n..], limit);
    }
  }

  lemma RoundUpStep(total: nat, n: nat, limit: nat)
    requires limit > 0 && n == Min(limit, total) && n > 0
    ensures (total + limit - 1) / limit == 1 + (total - n + limit - 1) / limit
  {
    var k := (total - n + limit - 1) / limit;
    if n < limit {
      Quotient(limit - 1, limit, 0);
    }
    assert k * limit <= total - n + limit - 1 < (k + 1) * limit;
    if n == limit {
      Quotient(total + limit - 1, limit, k + 1);
    } else {
      Quotient(total + limit - 1, limit, 1);
    }
  }

  lemma RowsOfSplit(entries: seq<Entry>, n: nat)
    requires n <= |entries|
    ensures RowsOf(entries) == RowsOf(entries[..n]) + RowsOf(entries[n..])
  {
  }

  /** The head of a queue is what its commit removes. */
  lemma CommitRemovesHead(q: Queue, limit: nat)
    requires q.Valid() && limit > 0 && q.rows != []
    ensures Committed(q, Peeked(q, limit).lastId) == q.(rows := q.rows[Min(limit, |q.rows|)..])
  {
    var n := Min(limit, |q.rows|);
    var last := q.rows[n - 1].id;
    assert Peeked(q, limit).lastId == Some(last);
    var cut, next := CoveredCount(q.rows, last), Min(n, |q.rows| - 1);
    assert q.rows[next].id == q.nextId - |q.rows| + next;
    assert cut < |q.rows| ==> q.rows[cut].id == q.nextId - |q.rows| + cut;
  }

  lemma ConfirmedStep(own: RowQueue, q: Queue, limit: nat, script: seq<Reply>)
    requires q.Valid() && limit > 0 && q.rows != [] && script != [] && script[0].answer.Done? && script[0].LeavesAlone(own)
    ensures q.(rows := q.rows[Min(limit, |q.rows|)..]).Valid()
    ensures var n := Min(limit, |q.rows|);
            var f, next := Flushing(own, q, limit, script), Flushing(own, q.(rows := q.rows[n..]), limit, script[1..]);
            f.end == next.end && f.queue == next.queue && f.sent == [Sent(RowsOf(q.rows[..n]), q.rows[0].id, q.rows[n - 1].id, Done)] + next.sent
  {
    CommitRemovesHead(q, limit);
    assert Seen(own, q, script[0]) == q && PerformAll(q, OpsOn(script[0].during, own)) == q;
  }

  /** Drain refines append: an undisturbed flush sends the contents of the queue
      chunk by chunk (see `ChunksCover`) and nothing else, and leaves the queue
      empty with nothing more counted as dropped. */
  lemma {:induction false} DrainAppends(own: RowQueue, q: Queue, limit: nat, script: seq<Reply>)
    requires q.Valid() && limit > 0
    requires Undisturbed(own, script) && |script| > |Chunks(q.rows, limit)|
    ensures var f := Flushing(own, q, limit, script);
            f.end == Emptied && f.sent == Chunks(q.rows, limit) && f.queue == q.(rows := [])
    decreases |script|
  {
    if q.rows != [] {
      ConfirmedStep(own, q, limit, script);
      DrainAppends(own, q.(rows := q.rows[Min(limit, |q.rows|)..]), limit, script[1..]);
    }
  }

  /** The same without the chunks: `ceil(n / limit)` transactions append the
      contents of the queue once each, in order. */
  lemma DrainRefinesAppend(own: RowQueue, q: Queue, limit: nat, script: seq<Reply>)
    requires q.Valid() && limit > 0
    requires Undisturbed(own, script) && |script| > (|q.rows| + limit - 1) / limit
    ensures var f := Flushing(own, q, limit, script);
            && f.end == Emptied && |f.sent| == (|q.rows| + limit - 1) / limit
            && Concat(f.sent) == RowsOf(q.rows) && f.queue == q.(rows := [])
  {
    ChunksCover(q.rows, limit);
    DrainAppends(own, q, limit, script);
  }

  function ConfirmedRows(sent: seq<Sent>): (rows: seq<Row>) {
    if sent == [] then []
    else (if sent[0].answer.Done? then sent[0].rows else []) + ConfirmedRows(sent[1..])
  }

  lemma ConfirmedCons(one: Sent, sent: seq<Sent>)
    requires one.answer.Done?
    ensures ConfirmedRows([one] + sent) == one.rows + ConfirmedRows(sent)
  {
    assert ([one] + sent)[1..] == sent;
  }

  /** Without interference the rows that leave the queue are exactly those of the
      confirmed INSERTs, however the flush ends: a failed batch stays in front. */
  lemma {:induction false} OnlyConfirmedLeave(own: RowQueue, q: Queue, limit: nat, script: seq<Reply>)
    requires q.Valid() && limit > 0 && forall i :: 0 <= i < |script| ==> script[i].LeavesAlone(own)
    ensures var f := Flushing(own, q, limit, script);
            && RowsOf(q.rows) == ConfirmedRows(f.sent) + RowsOf(f.queue.rows)
            && f.queue == q.(rows := f.queue.rows)
    decreases |script|
  {
    if q.rows == [] || script == [] || !script[0].answer.Done? {
      NothingConfirmed(own, q, limit, script);
    } else {
      ConfirmedStep(own, q, limit, script);
      var n := Min(limit, |q.rows|);
      var next := q.(rows := q.rows[n..]);
      OnlyConfirmedLeave(own, next, limit, script[1..]);
      ConfirmedFirst(q, n, Flushing(own, next, limit, script[1..]));
    }
  }

  /** A confirmed first batch of `n` rows, and then `later`. */
  lemma ConfirmedFirst(q: Queue, n: nat, later: Flush)
    requires 0 < n <= |q.rows|
    requires RowsOf(q.rows[n..]) == ConfirmedRows(later.sent) + RowsOf(later.queue.rows)
    ensures var one := Sent(RowsOf(q.rows[..n]), q.rows[0].id, q.rows[n - 1].id, Done);
            RowsOf(q.rows) == ConfirmedRows([one] + later.sent) + RowsOf(later.queue.rows)
  {
    var one := Sent(RowsOf(q.rows[..n]), q.rows[0].id, q.rows[n - 1].id, Done);
    RowsOfSplit(q.rows, n);
    ConfirmedCons(one, later.sent);
    Regroup(one.rows, ConfirmedRows(later.sent), RowsOf(later.queue.rows));
  }

  lemma Regroup(a: seq<Row>, b: seq<Row>, c: seq<Row>)
    ensures a + (b + c) == a + b + c
  {
  }

  lemma NothingConfirmed(own: RowQueue, q: Queue, limit: nat, script: seq<Reply>)
    requires limit > 0 && (script == [] || (script[0].LeavesAlone(own) && (q.rows == [] || !script[0].answer.Done?)))
    ensures Flushing(own, q, limit, script).queue == q && ConfirmedRows(Flushing(own, q, limit, script).sent) == []
  {
  }

  /** Whatever happens meanwhile, a flush only takes rows from the front, and one
      that ends by itself leaves nothing. */
  lemma {:induction false} FlushDescends(own: RowQueue, q: Queue, limit: nat, script: seq<Reply>)
    requires q.Valid()
    ensures Descends(q, Flushing(own, q, limit, script).queue)
    ensures Flushing(own, q, limit, script).end == Emptied && limit > 0 ==> Flushing(own, q, limit, script).queue.rows == []
    decreases |script|
  {
    if script != [] {
      var seen := Seen(own, q, script[0]);
      var batch, now := Peeked(seen, limit), PerformAll(seen, OpsOn(script[0].during, own));
      PerformDescends(q, OpsOn(script[0].before, own));
      PerformDescends(seen, OpsOn(script[0].during, own));
      DescendsTransitive(q, seen, now);
      if batch.rows != [] && script[0].answer.Done? {
        CommitDescends(now, batch.lastId);
        var next := Committed(now, batch.lastId);
        FlushDescends(own, next, limit, script[1..]);
        DescendsTransitive(q, now, next);
        DescendsTransitive(q, next, Flushing(own, next, limit, script[1..]).queue);
      }
    }
  }

  /** Only the last INSERT of a flush can fail, and then the flush fails with it. */
  lemma {:induction false} OnlyLastFails(own: RowQueue, q: Queue, limit: nat, script: seq<Reply>)
    ensures var f := Flushing(own, q, limit, script);
            && (forall i :: 0 <= i < |f.sent| ==> (f.sent[i].answer.Done? <==> i < |f.sent| - 1 || !f.end.Failed?))
            && (f.end.Failed? ==> f.sent != [] && f.end == Failed(f.sent[|f.sent| - 1].answer.Scope()))
    decreases |script|
  {
    if script != [] {
      var seen := Seen(own, q, script[0]);
      var batch := Peeked(seen, limit);
      if batch.rows != [] && script[0].answer.Done? {
        OnlyLastFails(own, Committed(PerformAll(seen, OpsOn(script[0].during, own)), batch.lastId), limit, script[1..]);
      }
    }
  }

  lemma {:induction false} PerformDescends(q: Queue, ops: seq<Op>)
    requires q.Valid()
    ensures Descends(q, PerformAll(q, ops))
    decreases |ops|
  {
    if ops != [] {
      var next := Perform(q, ops[0]);
      RunDescends(q, [ops[0]]);
      assert Run(q, [ops[0]]) == Apply(q, ops[0]) by { assert Run(Apply(q, ops[0]), []) == Apply(q, ops[0]); }
      PerformDescends(next, ops[1..]);
      DescendsTransitive(q, next, PerformAll(next, ops[1..]));
    }
  }

  /** Only an error of the connection ends a flush for the whole connection; one that
      timed out fails its group alone. */
  lemma OnlyConnectionErrorsSpread(own: RowQueue, q: Queue, limit: nat, script: seq<Reply>)
    ensures var f := Flushing(own, q, limit, script);
            && (f.end == Failed(Connection) <==> f.sent != [] && f.sent[|f.sent| - 1].answer == SqlError(Connection))
            && (f.end == Failed(Group) <==> f.sent != [] && f.sent[|f.sent| - 1].answer in [TimedOut, SqlError(Group)])
  {
    OnlyLastFails(own, q, limit, script);
    var f := Flushing(own, q, limit, script);
    if f.sent != [] {
      var last := f.sent[|f.sent| - 1].answer;
      assert last.Done? <==> !f.end.Failed?;
      match last {
        case SqlError(scope) =>
          match scope {
            case Connection =>
            case Group =>
          }
        case _ =>
      }
    }
  }
}
