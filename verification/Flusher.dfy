/** The flusher of one DB connection: table checks, INSERT batches, and the status
    each outcome leaves behind (apps/banto-hub-sink/src/flush.rs). */
module Flushers {
  import opened Rows
  import opened RowQueues
  import opened Plans
  import opened Groups
  import opened Flushes
  import opened FlushLogs
  import D = Delivery

  datatype RoundOutcome = Idle | ConnectionFailed | Stopped

  lemma PerformNext(q: Queue, ops: seq<Op>, i: nat)
    requires i < |ops|
    ensures PerformAll(q, ops[i..]) == PerformAll(Perform(q, ops[i]), ops[i + 1..])
  {
    assert ops[i..][1..] == ops[i + 1..];
  }

  method PerformOn(queue: RowQueue, ops: seq<Op>)
    requires queue.State().Valid()
    modifies queue
    ensures queue.State() == PerformAll(old(queue.State()), ops) && queue.State().Valid()
  {
    for i := 0 to |ops|
      invariant queue.State().Valid()
      invariant PerformAll(old(queue.State()), ops) == PerformAll(queue.State(), ops[i..])
    {
      PerformNext(queue.State(), ops, i);
      match ops[i] {
        case Push(row) =>
          if queue.nextId < U128_MAX {
            queue.Push(row);
          }
        case Commit(lastId) => queue.Commit(Batch([], lastId));
        case Discard => var _ := queue.DiscardAll();
      }
    }
  }

  /** Groups are registered under their own ids. */
  ghost predicate Registered(groups: map<int, GroupRuntime>) { forall id :: id in groups ==> groups[id].config.id == id }

  /** `for_connection`. */
  ghost function OfConnection(groups: map<int, GroupRuntime>, connection: int): set<GroupRuntime> {
    set id | id in groups && groups[id].config.connectionId == connection :: groups[id]
  }

  class Flusher {
    const target: ConnectionConfig
    const batchSize: nat
    const tableRecheck: nat
    var groups: map<int, GroupRuntime>

    /** What happened to the groups of this connection id since it appeared, also
        while earlier flushers served it, and how they began. */
    ghost const beginning: Beginning
    ghost var log: seq<Event>

    ghost function Runtimes(): set<GroupRuntime> { beginning.statuses.Keys }

    ghost function Queues(): set<RowQueue> { beginning.accounts.Keys }

    ghost predicate StatusAt(r: GroupRuntime)
      reads this, r
    {
      r in beginning.statuses ==> Status(r.state, r.tableReady) == beginning.StatusAfter(log, r)
    }

    ghost predicate QueueAt(q: RowQueue)
      reads this, q
    {
      q in beginning.accounts ==> q.State() == beginning.AccountAfter(log, q).queue
    }

    /** The statuses and queues are what the log says. */
    ghost predicate Explained()
      reads this, Runtimes(), Queues()
    {
      && (forall r {:trigger StatusAt(r)} :: r in beginning.statuses ==> StatusAt(r))
      && (forall q {:trigger QueueAt(q)} :: q in beginning.accounts ==> QueueAt(q))
    }

    ghost predicate Valid()
      reads this, Runtimes(), Queues()
    {
      && OfConnection(groups, target.id) <= Runtimes() && Registered(groups)
      && beginning.Fresh() && LogOk(beginning, batchSize > 0, log) && Explained()
    }

    /** The first flusher of a connection id. No generation was checked before. */
    constructor First(
      target: ConnectionConfig, batchSize: nat, tableRecheck: nat, groups: map<int, GroupRuntime>,
      ghost known: set<GroupRuntime>, ghost accounts: map<RowQueue, D.Ledger>)
      requires OfConnection(groups, target.id) <= known && Registered(groups) && forall r :: r in known ==> !r.tableReady && r.queue in accounts
      requires forall q :: q in accounts ==> accounts[q].Balanced() && accounts[q].queue == q.State()
      ensures Valid() && log == [Connected(target)] && Runtimes() == known && Queues() == accounts.Keys
      ensures this.target == target && this.batchSize == batchSize && this.groups == groups
    {
      this.target, this.batchSize, this.tableRecheck, this.groups := target, batchSize, tableRecheck, groups;
      beginning := Beginning(map r | r in known :: Status(r.state, r.tableReady), accounts);
      log := [Connected(target)];
      new;
      LogOneMore(beginning, batchSize > 0, [], Connected(target));
      assert [] + [Connected(target)] == [Connected(target)];
      forall r | r in known ensures StatusAt(r) {
        assert beginning.StatusAfter(log, r) == beginning.StatusAfter([], r);
      }
      forall q | q in accounts ensures QueueAt(q) {
        assert beginning.AccountAfter(log, q) == beginning.AccountAfter([], q);
      }
    }

    /** The flusher that takes over when the connection was edited: the generations
        stay as they are. */
    constructor Successor(previous: Flusher, target: ConnectionConfig)
      requires previous.Valid() && target.id == previous.target.id
      ensures Valid() && beginning == previous.beginning && log == previous.log + [Connected(target)]
      ensures this.target == target && batchSize == previous.batchSize && groups == previous.groups
    {
      this.target, batchSize, tableRecheck, groups := target, previous.batchSize, previous.tableRecheck, previous.groups;
      beginning := previous.beginning;
      log := previous.log + [Connected(target)];
      new;
      LogOneMore(beginning, batchSize > 0, previous.log, Connected(target));
      forall r | r in beginning.statuses ensures StatusAt(r) {
        assert previous.StatusAt(r) && log[..|previous.log|] == previous.log;
      }
      forall q | q in beginning.accounts ensures QueueAt(q) {
        assert previous.QueueAt(q) && log[..|previous.log|] == previous.log;
      }
    }

    ghost function Served(): set<GroupRuntime>
      reads this`groups
    {
      OfConnection(groups, target.id)
    }

    ghost predicate Fits(script: seq<Reply>) {
      forall i :: 0 <= i < |script| ==> FitsOne(script[i])
    }

    ghost predicate FitsOne(reply: Reply) {
      && OfConnection(reply.registry, target.id) <= Runtimes() && Registered(reply.registry)
      && reply.before.Keys <= Queues() && Harmless(reply.before)
      && reply.during.Keys <= Queues() && Harmless(reply.during)
    }

    /** Notes down what just changed. */
    ghost method Note(e: Event)
      requires OfConnection(groups, target.id) <= Runtimes() && Registered(groups) && beginning.Fresh() && LogOk(beginning, batchSize > 0, log)
      requires MayFollow(beginning, batchSize > 0, log, e)
      requires forall r :: r in beginning.statuses ==> Status(r.state, r.tableReady) == After(beginning.StatusAfter(log, r), e, r)
      requires forall q :: q in beginning.accounts ==> q.State() == Accounted(beginning.AccountAfter(log, q), e, q).queue
      modifies this`log
      ensures Valid() && log == old(log) + [e]
    {
      ghost var before := log;
      LogOneMore(beginning, batchSize > 0, log, e);
      log := log + [e];
      assert log[..|before|] == before;
      forall r | r in beginning.statuses ensures StatusAt(r) {
        assert beginning.StatusAfter(log, r) == After(beginning.StatusAfter(before, r), e, r);
      }
      forall q | q in beginning.accounts ensures QueueAt(q) {
        assert beginning.AccountAfter(log, q) == Accounted(beginning.AccountAfter(before, q), e, q);
      }
    }

    lemma QueueIsValid(q: RowQueue)
      requires Valid() && q in beginning.accounts
      ensures q.State().Valid() && q.State() == beginning.AccountAfter(log, q).queue && beginning.AccountAfter(log, q).Balanced()
    {
      assert QueueAt(q);
      AccountsAdvance(beginning, batchSize > 0, log, q);
    }

    lemma StatusIs(r: GroupRuntime)
      requires Valid() && r in beginning.statuses
      ensures Status(r.state, r.tableReady) == beginning.StatusAfter(log, r) && r.queue in beginning.accounts
    {
      assert StatusAt(r);
    }

    /** What the others do to all queues during one DB operation. */
    method DisturbAll(during: Disturbance)
      requires forall q :: q in during ==> q.State().Valid()
      modifies during.Keys
      ensures forall q :: q in during ==> q.State() == PerformAll(old(q.State()), during[q])
    {
      var pending := during.Keys;
      while pending != {}
        invariant pending <= during.Keys
        invariant forall q :: q in during ==>
                    if q in pending then q.State() == old(q.State()) else q.State() == PerformAll(old(q.State()), during[q])
      {
        var q :| q in pending;
        pending := pending - {q};
        PerformOn(q, during[q]);
      }
    }

    lemma AsNoted()
      requires Valid()
      ensures forall r :: r in beginning.statuses ==> Status(r.state, r.tableReady) == beginning.StatusAfter(log, r)
      ensures forall q :: q in beginning.accounts ==> q.State().Valid() && q.State() == beginning.AccountAfter(log, q).queue
    {
      forall r | r in beginning.statuses ensures Status(r.state, r.tableReady) == beginning.StatusAfter(log, r) {
        StatusIs(r);
      }
      forall q | q in beginning.accounts ensures q.State().Valid() && q.State() == beginning.AccountAfter(log, q).queue {
        QueueIsValid(q);
      }
    }

    /** Nothing but the queues changes, and they as their accounts do. */
    lemma Foreseen(during: Disturbance)
      requires Valid() && Harmless(during)
      ensures forall r :: r in beginning.statuses ==> Status(r.state, r.tableReady) == beginning.StatusAfter(log, r)
      ensures forall q :: q in beginning.accounts ==>
                q.State().Valid()
                && PerformAll(q.State(), OpsOn(during, q)) == Accounted(beginning.AccountAfter(log, q), Disturbed(during), q).queue
    {
      forall r | r in beginning.statuses ensures Status(r.state, r.tableReady) == beginning.StatusAfter(log, r) {
        StatusIs(r);
      }
      forall q | q in beginning.accounts
        ensures q.State().Valid()
        ensures PerformAll(q.State(), OpsOn(during, q)) == Accounted(beginning.AccountAfter(log, q), Disturbed(during), q).queue
      {
        QueueIsValid(q);
        OpsAccountIs(beginning.AccountAfter(log, q), OpsOn(during, q));
      }
    }

    /** The other tasks go on: pushes and discards on any queue, and generations that
        are replaced. */
    method Elsewhere(during: Disturbance, registry: map<int, GroupRuntime>)
      requires Valid() && OfConnection(registry, target.id) <= Runtimes() && Registered(registry) && during.Keys <= Queues() && Harmless(during)
      modifies this`groups, this`log, Queues()
      ensures Valid() && log == old(log) + [Disturbed(during)] && groups == registry
      ensures forall q :: q in Queues() ==> q.State() == PerformAll(old(q.State()), OpsOn(during, q))
    {
      Foreseen(during);
      groups := registry;
      DisturbAll(during);
      Note(Disturbed(during));
    }

    ghost method NoteNothingElse(e: Event)
      requires Valid() && (e.Skipped? || e.Drained?) && MayFollow(beginning, batchSize > 0, log, e)
      modifies this`log
      ensures Valid() && log == old(log) + [e]
    {
      AsNoted();
      Note(e);
    }

    method BackOffAll(message: string)
      requires Served() <= Runtimes()
      modifies Runtimes()
      ensures forall r :: r in Runtimes() ==>
                Status(r.state, r.tableReady) == if r in Served() then Status(Backoff, false) else old(Status(r.state, r.tableReady))
    {
      ghost var done: set<GroupRuntime> := {};
      var pending := set id | id in groups && groups[id].config.connectionId == target.id;
      while pending != {}
        invariant pending <= groups.Keys && Served() == done + set id | id in pending :: groups[id]
        invariant forall r :: r in Runtimes() ==>
                    Status(r.state, r.tableReady) == if r in done then Status(Backoff, false) else old(Status(r.state, r.tableReady))
      {
        LeastExists(pending);
        var id :| id in pending && forall k :: k in pending ==> id <= k;
        assert groups[id] in Served();
        groups[id].MarkBackoff(message);
        pending, done := pending - {id}, done + {groups[id]};
      }
    }

    /** `fail_connection`: every group of the connection backs off, and no queue
        changes. */
    method FailConnection(message: string)
      requires Valid()
      modifies this`log, Runtimes()
      ensures Valid() && log == old(log) + [ConnectionLost(Served())]
      ensures forall r :: r in Served() ==> r.state == Backoff && !r.tableReady
    {
      AsNoted();
      BackOffAll(message);
      Note(ConnectionLost(Served()));
    }

    method FailConnectionIf(answer: Answer)
      requires Valid()
      modifies this`log, Runtimes()
      ensures Valid() && log == old(log) + LostBy(answer, Served())
      ensures answer == SqlError(Connection) ==> forall r :: r in Served() ==> r.state == Backoff && !r.tableReady
      ensures answer != SqlError(Connection) ==> forall r :: r in Runtimes() ==>
                r.state == old(r.state) && r.nextCheckAt == old(r.nextCheckAt) && r.lastFlushAt == old(r.lastFlushAt)
      ensures answer.Done? || answer.Scope().Group? ==> forall r :: r in Runtimes() ==> r.tableReady == old(r.tableReady)
    {
      if !answer.Done? && answer.Scope().Connection? {
        FailConnection("");
      }
    }

    /** A check that succeeded makes the group ready at once; one that timed out or failed
        for its group puts that in error until it may be checked again. */
    ghost predicate Judged(runtime: GroupRuntime, answer: Answer, at: int)
      reads runtime
    {
      && (answer.Done? ==> runtime.tableReady && runtime.state == Running && runtime.nextCheckAt == None)
      && (answer in [TimedOut, SqlError(Group)] ==>
            !runtime.tableReady && runtime.state == Error && runtime.nextCheckAt == Some(at + tableRecheck))
    }

    method MarkCheck(runtime: GroupRuntime, answer: Answer, at: int)
      modifies runtime
      ensures Status(runtime.state, runtime.tableReady) == AfterCheck(old(Status(runtime.state, runtime.tableReady)), answer)
      ensures Judged(runtime, answer, at)
    {
      if answer.Done? {
        runtime.MarkTableReady();
      } else if answer.Scope().Group? {
        runtime.MarkError("", at, tableRecheck);
      }
    }

    /** What the answer of a check leads to. */
    method SettleCheck(runtime: GroupRuntime, answer: Answer, at: int)
      requires Valid() && runtime in Runtimes() && !runtime.tableReady
      modifies this`log, Runtimes()
      ensures Valid() && log == old(log) + [Checked(runtime, answer)]
      ensures Judged(runtime, answer, at)
    {
      AsNoted();
      MarkCheck(runtime, answer, at);
      Note(Checked(runtime, answer));
    }

    /** `check_table` of one group, while the other tasks go on. */
    method CheckTable(runtime: GroupRuntime, reply: Reply)
      requires Valid() && runtime in Runtimes() && !runtime.tableReady && FitsOne(reply)
      modifies this`groups, this`log, Runtimes(), Queues()
      ensures Valid() && groups == reply.registry
      ensures log == old(log) + [Disturbed(reply.during), Checked(runtime, reply.answer)] + LostBy(reply.answer, Served())
      ensures forall q :: q in Queues() ==> q.State() == PerformAll(old(q.State()), OpsOn(reply.during, q))
      ensures reply.answer != SqlError(Connection) ==> Judged(runtime, reply.answer, reply.at)
      ensures reply.answer == SqlError(Connection) ==> forall r :: r in Served() ==> r.state == Backoff && !r.tableReady
    {
      ghost var start := log;
      Elsewhere(reply.during, reply.registry);
      SettleCheck(runtime, reply.answer, reply.at);
      FailConnectionIf(reply.answer);
      Appended(start, Disturbed(reply.during), Checked(runtime, reply.answer), LostBy(reply.answer, Served()));
    }

    /** An INSERT that was confirmed is noted as a flush; one that timed out or failed for
        its group puts that in error until it may be checked again. */
    ghost predicate Marked(runtime: GroupRuntime, answer: Answer, at: int)
      reads runtime
    {
      && (answer.Done? ==> runtime.state == Running && runtime.lastFlushAt == Some(at))
      && (answer in [TimedOut, SqlError(Group)] ==>
            !runtime.tableReady && runtime.state == Error && runtime.nextCheckAt == Some(at + tableRecheck))
    }

    /** The rows of a confirmed INSERT leave the queue; the group shows the outcome. */
    method MarkInsert(runtime: GroupRuntime, batch: Batch, answer: Answer, at: int)
      requires runtime.queue.State().Valid()
      modifies runtime, runtime.queue
      ensures Status(runtime.state, runtime.tableReady) == AfterInsert(old(Status(runtime.state, runtime.tableReady)), answer)
      ensures runtime.queue.State() == if answer.Done? then Committed(old(runtime.queue.State()), batch.lastId) else old(runtime.queue.State())
      ensures Marked(runtime, answer, at)
    {
      if answer.Done? {
        runtime.queue.Commit(batch);
        runtime.MarkFlushed(at);
      } else if answer.Scope().Group? {
        runtime.MarkError("", at, tableRecheck);
      }
    }

    /** What the answer of an INSERT leads to. */
    method Settle(runtime: GroupRuntime, batch: Batch, answer: Answer, at: int, ghost one: Sent)
      requires Valid() && runtime in Runtimes()
      requires one.answer == answer && batch.lastId == Some(one.lastId) && MayFollow(beginning, batchSize > 0, log, Inserted(runtime, one))
      modifies this`log, Runtimes(), runtime.queue
      ensures Valid() && log == old(log) + [Inserted(runtime, one)]
      ensures runtime.queue.State() == if one.answer.Done? then Committed(old(runtime.queue.State()), batch.lastId) else old(runtime.queue.State())
      ensures one.answer.Done? ==> runtime.tableReady
      ensures Marked(runtime, answer, at)
    {
      AsNoted();
      StatusIs(runtime);
      MarkInsert(runtime, batch, answer, at);
      ghost var e := Inserted(runtime, one);
      forall r | r in beginning.statuses ensures Status(r.state, r.tableReady) == After(beginning.StatusAfter(log, r), e, r) {}
      forall q | q in beginning.accounts ensures q.State() == Accounted(beginning.AccountAfter(log, q), e, q).queue {}
      Note(e);
    }

    /** The same, with the connection lost if it was. */
    method Conclude(runtime: GroupRuntime, batch: Batch, answer: Answer, at: int, ghost one: Sent)
      requires Valid() && runtime in Runtimes()
      requires one.answer == answer && batch.lastId == Some(one.lastId) && MayFollow(beginning, batchSize > 0, log, Inserted(runtime, one))
      modifies this`log, Runtimes(), runtime.queue
      ensures Valid() && log == old(log) + [Inserted(runtime, one)] + LostBy(answer, Served())
      ensures runtime.queue.State() == if answer.Done? then Committed(old(runtime.queue.State()), batch.lastId) else old(runtime.queue.State())
      ensures answer.Done? ==> runtime.tableReady
      ensures answer != SqlError(Connection) ==> Marked(runtime, answer, at)
      ensures answer == SqlError(Connection) ==> forall r :: r in Served() ==> r.state == Backoff && !r.tableReady
    {
      Settle(runtime, batch, answer, at, one);
      FailConnectionIf(answer);
    }

    /** One INSERT of `flush_group`: the front of the queue, while the other tasks go
        on. */
    method Insert(runtime: GroupRuntime, batch: Batch, reply: Reply)
      requires Valid() && runtime in Runtimes() && runtime.tableReady && FitsOne(reply)
      requires batch == Peeked(runtime.queue.State(), batchSize) && batch.rows != []
      modifies this`groups, this`log, Runtimes(), Queues()
      ensures Valid() && groups == reply.registry
      ensures var one := Sending(old(runtime.queue.State()), batchSize, reply.answer);
              log == old(log) + [Disturbed(reply.during), Inserted(runtime, one)] + LostBy(reply.answer, Served())
      ensures var now := PerformAll(old(runtime.queue.State()), OpsOn(reply.during, runtime.queue));
              runtime.queue.State() == if reply.answer.Done? then Committed(now, batch.lastId) else now
      ensures forall q :: q in Queues() && q != runtime.queue ==> q.State() == PerformAll(old(q.State()), OpsOn(reply.during, q))
      ensures reply.answer.Done? ==> runtime.tableReady
      ensures reply.answer != SqlError(Connection) ==> Marked(runtime, reply.answer, reply.at)
      ensures reply.answer == SqlError(Connection) ==> forall r :: r in Served() ==> r.state == Backoff && !r.tableReady
    {
      ghost var start, one := log, Sending(runtime.queue.State(), batchSize, reply.answer);
      StatusIs(runtime);
      QueueIsValid(runtime.queue);
      SentStays(runtime.queue.State(), batchSize, reply.answer, OpsOn(reply.during, runtime.queue));
      Elsewhere(reply.during, reply.registry);
      MaySend(runtime, one);
      Conclude(runtime, batch, reply.answer, reply.at, one);
      Appended(start, Disturbed(reply.during), Inserted(runtime, one), LostBy(reply.answer, Served()));
    }

    /** A look at the queue after the other tasks went on. */
    method Look(runtime: GroupRuntime, before: Disturbance) returns (batch: Batch)
      requires Valid() && runtime in Runtimes() && runtime.tableReady && before.Keys <= Queues() && Harmless(before)
      modifies this`groups, this`log, Queues()
      ensures Valid() && log == old(log) + [Disturbed(before)] && groups == old(groups)
      ensures forall q :: q in Queues() ==> q.State() == PerformAll(old(q.State()), OpsOn(before, q))
      ensures runtime.queue in Queues() && batch == Peeked(runtime.queue.State(), batchSize)
      ensures batch.rows == [] ==> MayFollow(beginning, batchSize > 0, log, Drained(runtime))
    {
      Elsewhere(before, groups);
      batch := runtime.queue.PeekBatch(batchSize);
      MayDrain(runtime);
    }

    lemma MayDrain(runtime: GroupRuntime)
      requires Valid() && runtime in Runtimes() && runtime.tableReady
      ensures runtime.queue in Queues()
      ensures Peeked(runtime.queue.State(), batchSize).rows == [] ==> MayFollow(beginning, batchSize > 0, log, Drained(runtime))
    {
      StatusIs(runtime);
      QueueIsValid(runtime.queue);
    }

    lemma MaySend(runtime: GroupRuntime, one: Sent)
      requires Valid() && runtime in Runtimes() && runtime.tableReady
      requires one.firstId <= runtime.queue.State().Front() && one.lastId < runtime.queue.State().nextId
      ensures MayFollow(beginning, batchSize > 0, log, Inserted(runtime, one))
    {
      StatusIs(runtime);
      QueueIsValid(runtime.queue);
    }

    /** One look at the queue in the loop of `flush_group`, and the INSERT of what is
        there. */
    method FlushBatch(runtime: GroupRuntime, script: seq<Reply>, ghost p: Progress) returns (end: Option<End>, rest: seq<Reply>, ghost p': Progress)
      requires Valid() && runtime in Runtimes() && runtime.tableReady && Fits(script) && script != []
      requires Going(runtime, batchSize, p, runtime.queue.State(), script, log)
      modifies this`groups, this`log, Runtimes(), Queues()
      ensures Valid() && Fits(rest)
      ensures end.None? ==>
                runtime.tableReady && |rest| < |script| && Going(runtime, batchSize, p', runtime.queue.State(), rest, log)
      ensures end.Some? ==> Over(runtime, p', runtime.queue.State(), end.value, rest, log, Served())
      ensures p'.whole == p.whole && p'.all == p.all && p'.start == p.start
    {
      var reply := script[0];
      end, rest, p' := None, script[1..], p;
      ghost var before, q := log, runtime.queue.State();
      var batch := Look(runtime, reply.before);
      if batch.rows == [] {
        EndsHere(runtime, batchSize, p, q, script, before, Served());
        NoteNothingElse(Drained(runtime));
        end := Some(Emptied);
      } else {
        p' := p.(sent := p.sent + [Sending(runtime.queue.State(), batchSize, reply.answer)]);
        Insert(runtime, batch, reply);
        GoesOn(runtime, batchSize, p, q, script, before, Served());
        if !reply.answer.Done? {
          end := Some(Failed(reply.answer.Scope()));
        }
      }
    }

    /** `flush_group`: batch by batch until the queue is empty or a batch fails. */
    method FlushGroup(runtime: GroupRuntime, script: seq<Reply>) returns (end: End, rest: seq<Reply>, ghost turn: Turn)
      requires Valid() && runtime in Runtimes() && runtime.tableReady && Fits(script)
      modifies this`groups, this`log, Runtimes(), Queues()
      ensures Valid() && Fits(rest)
      ensures turn == FlushTurn(runtime, old(runtime.queue.State()), batchSize, script)
      ensures turn.queue == runtime.queue.State() && turn.end == end && turn.rest == rest
      ensures Logged(old(log), turn.events, end, Served(), log)
    {
      ghost var q := runtime.queue.State();
      turn := FlushTurn(runtime, q, batchSize, script);
      ghost var p := Progress(Flushing(runtime.queue, q, batchSize, script), script, [], log);
      var ended := None;
      rest := script;
      while ended.None? && rest != []
        invariant Valid() && Fits(rest)
        invariant p.whole == Flushing(runtime.queue, q, batchSize, script) && p.all == script && p.start == old(log)
        invariant ended.None? ==> runtime.tableReady && Going(runtime, batchSize, p, runtime.queue.State(), rest, log)
        invariant ended.Some? ==> Over(runtime, p, runtime.queue.State(), ended.value, rest, log, Served())
        decreases ended.None?, |rest|
      {
        ended, rest, p := FlushBatch(runtime, rest, p);
      }
      if ended.None? {
        StopsHere(runtime, batchSize, p, runtime.queue.State(), log, Served());
      }
      end := if ended.Some? then ended.value else Aborted;
    }

    /** A turn that starts with the check. */
    method CheckAndFlush(runtime: GroupRuntime, script: seq<Reply>) returns (end: End, rest: seq<Reply>, ghost turn: Turn)
      requires Valid() && runtime in Runtimes() && !runtime.tableReady && Fits(script) && script != []
      modifies this`groups, this`log, Runtimes(), Queues()
      ensures Valid() && Fits(rest)
      ensures turn == TurnOf(runtime, old(runtime.queue.State()), false, true, batchSize, script)
      ensures turn.queue == runtime.queue.State() && turn.end == end && turn.rest == rest
      ensures Logged(old(log), turn.events, end, Served(), log)
    {
      var reply := script[0];
      ghost var start := log;
      turn := TurnOf(runtime, runtime.queue.State(), false, true, batchSize, script);
      CheckTable(runtime, reply);
      if reply.answer.Done? {
        ghost var flush: Turn;
        end, rest, flush := FlushGroup(runtime, script[1..]);
        CheckThenFlush(start, runtime, reply, flush.events, end, Served(), log);
      } else {
        CheckFails(start, runtime, reply, Served());
        end, rest := Failed(reply.answer.Scope()), script[1..];
      }
    }

    /** One group of a round: the check if one is needed and due, then the flush. */
    method Attend(runtime: GroupRuntime, now: int, script: seq<Reply>) returns (end: End, rest: seq<Reply>, ghost turn: Turn)
      requires Valid() && runtime in Runtimes() && Fits(script)
      modifies this`groups, this`log, Runtimes(), Queues()
      ensures Valid() && Fits(rest)
      ensures turn == TurnOf(runtime, old(runtime.queue.State()), old(runtime.tableReady), old(runtime.MayCheckTable(now)), batchSize, script)
      ensures turn.queue == runtime.queue.State() && turn.end == end && turn.rest == rest
      ensures Logged(old(log), turn.events, end, Served(), log)
      ensures old(!runtime.tableReady && runtime.nextCheckAt.Some? && now < runtime.nextCheckAt.value) <==> Skipped(runtime) in turn.events
    {
      SkippedIffNotDue(runtime, runtime.queue.State(), runtime.tableReady, runtime.MayCheckTable(now), batchSize, script);
      if runtime.tableReady {
        end, rest, turn := FlushGroup(runtime, script);
      } else if !runtime.MayCheckTable(now) {
        StatusIs(runtime);
        turn := Turn(runtime.queue.State(), Emptied, script, [Skipped(runtime)]);
        NoteNothingElse(Skipped(runtime));
        end, rest := Emptied, script;
      } else if script == [] {
        end, rest, turn := Aborted, [], Turn(runtime.queue.State(), Aborted, [], []);
      } else {
        end, rest, turn := CheckAndFlush(runtime, script);
      }
    }

    /** One group in the loop of `round`. */
    method TakeTurn(runtime: GroupRuntime, now: int, script: seq<Reply>, ghost start: seq<Event>, ghost visits: seq<Event>)
      returns (end: End, rest: seq<Reply>, ghost more: seq<Event>)
      requires Valid() && runtime in Runtimes() && Fits(script) && log == start + visits
      modifies this`groups, this`log, Runtimes(), Queues()
      ensures Valid() && Fits(rest)
      ensures Logged(start, more, end, Served(), log)
      ensures OneMoreTurn(visits, more, runtime) && (GoesOnAfter(end) ==> HadItsTurn(more, runtime))
    {
      ghost var q, ready, due := runtime.queue.State(), runtime.tableReady, runtime.MayCheckTable(now);
      ghost var turn: Turn;
      end, rest, turn := Attend(runtime, now, script);
      more := visits + turn.events;
      TurnIsOwn(runtime, q, ready, due, batchSize, script);
      TurnAdds(visits, turn, runtime);
      LoggedAfter(start, visits, turn.events, end, Served(), log);
    }

    /** `round`: the groups of the connection as they are at its start, one after the
        other by ascending id. A group that fails on its own does not stop the round; a
        lost connection does, and then every group of the connection backs off. */
    method Round(now: int, script: seq<Reply>) returns (outcome: RoundOutcome, rest: seq<Reply>, ghost visits: seq<Event>)
      requires Valid() && Fits(script)
      modifies this`groups, this`log, Runtimes(), Queues()
      ensures Valid() && Fits(rest)
      ensures log == old(log) + visits + if outcome.ConnectionFailed? then [ConnectionLost(Served())] else []
      ensures VisitsOnly(visits, old(Served())) && InIdOrder(visits)
      ensures outcome.Idle? ==> forall r :: r in old(Served()) ==> HadItsTurn(visits, r)
    {
      rest, visits := script, [];
      ghost var start, served := log, Served();
      var snapshot := groups;
      var pending := set id | id in snapshot && snapshot[id].config.connectionId == target.id;
      var end := Emptied;
      while pending != {} && GoesOnAfter(end)
        invariant Valid() && Fits(rest) && served <= Runtimes()
        invariant Logged(start, visits, end, Served(), log)
        invariant forall id :: id in pending ==> id in snapshot && snapshot[id] in served
        invariant VisitsOnly(visits, served) && InIdOrder(visits)
        invariant GoesOnAfter(end) ==> AllBelow(visits, pending) && TurnsLeft(visits, served, pending)
        decreases pending
      {
        LeastExists(pending);
        var id :| id in pending && forall k :: k in pending ==> id <= k;
        ghost var before, waiting := visits, pending;
        pending := pending - {id};
        end, rest, visits := TakeTurn(snapshot[id], now, rest, start, visits);
        OneTurnLess(before, visits, served, waiting, snapshot[id]);
      }
      outcome := if end == Failed(Connection) then ConnectionFailed else if end == Aborted then Stopped else Idle;
    }

    /** A group that fails on its own changes no other status, and takes no row from any
        other queue: those are as their pushes and discards left them. */
    lemma AttendIsolates(start: seq<Event>, turn: Turn, end: End, runtime: GroupRuntime)
      requires Valid() && Logged(start, turn.events, end, Served(), log) && OwnTurn(turn, runtime) && GoesOnAfter(end)
      ensures forall r :: r in Runtimes() && r != runtime ==> Status(r.state, r.tableReady) == beginning.StatusAfter(start, r)
      ensures forall q :: q in Queues() && q != runtime.queue ==>
                beginning.AccountAfter(log, q).acked == beginning.AccountAfter(start, q).acked
    {
      assert log == start + turn.events;
      TurnIsolates(beginning, batchSize > 0, start, turn, runtime);
      forall r | r in Runtimes() && r != runtime ensures Status(r.state, r.tableReady) == beginning.StatusAfter(start, r) {
        StatusIs(r);
      }
    }

    /** After a round that lost the connection every group of the connection backs off,
        and has to be checked again. */
    lemma LostRoundBacksOff(before: seq<Event>)
      requires Valid() && log == before + [ConnectionLost(Served())]
      ensures forall r :: r in Served() ==> r.state == Backoff && !r.tableReady
    {
      assert log[..|before|] == before;
      forall r | r in Served() ensures r.state == Backoff && !r.tableReady {
        StatusIs(r);
      }
    }

    /** Whatever failed: a row that left a queue since `from` was in an INSERT that was
        confirmed, or is counted as dropped. */
    lemma RowsAreKept(from: nat, q: RowQueue, id: nat)
      requires Valid() && from <= |log| && q in Queues()
      requires beginning.AccountAfter(log[..from], q).queue.Front() <= id < q.State().Front()
      ensures Gone(beginning, log, from, q, id)
    {
      QueueIsValid(q);
      LeftMeansGone(beginning, batchSize > 0, log, from, q, id);
    }

    /** A round that had the turn of every group: what was queued at its start is gone,
        except for a group that was skipped or failed on its own. */
    lemma RoundServes(start: seq<Event>, visits: seq<Event>, r: GroupRuntime, id: nat)
      requires Valid() && batchSize > 0 && log == start + visits && HadItsTurn(visits, r)
      requires r in Runtimes() && r.queue in Queues()
      requires beginning.AccountAfter(start, r.queue).queue.Front() <= id < beginning.AccountAfter(start, r.queue).queue.nextId
      ensures || (exists i :: 0 <= i < |visits| && (visits[i] == Skipped(r) || Unreadies(visits[i], r)))
              || Gone(beginning, log, |start|, r.queue, id)
    {
      var i :| EndedAt(visits, r, i);
      if visits[i] == Drained(r) {
        assert log[|start| + i] == visits[i] && log[..|start|] == start;
        DrainedMeansGone(beginning, log, |start|, |start| + i, id);
      }
    }
  }

  /** How far a flush is that will be `whole`, from `start` on. */
  datatype Progress = Progress(whole: Flush, all: seq<Reply>, sent: seq<Sent>, start: seq<Event>)

  /** The rest of the flush is the flush of `q`. */
  ghost predicate Going(runtime: GroupRuntime, limit: nat, p: Progress, q: Queue, script: seq<Reply>, log: seq<Event>) {
    && |p.sent| <= |p.all| && script == p.all[|p.sent|..]
    && (var f := Flushing(runtime.queue, q, limit, script); p.whole == f.(sent := p.sent + f.sent))
    && log == p.start + Steps(runtime, p.all, p.sent)
  }

  ghost predicate Over(runtime: GroupRuntime, p: Progress, q: Queue, end: End, rest: seq<Reply>, log: seq<Event>, groups: set<GroupRuntime>) {
    && p.whole == Flush(q, p.sent, end, rest)
    && |p.sent| <= |p.all| && (end.Emptied? ==> |p.sent| < |p.all|)
    && log == p.start + FlushSteps(runtime, p.all, p.sent, end) + LostAt(end, groups)
  }

  lemma EndsHere(runtime: GroupRuntime, limit: nat, p: Progress, q: Queue, script: seq<Reply>, log: seq<Event>, groups: set<GroupRuntime>)
    requires Going(runtime, limit, p, q, script, log)
    requires script != [] && Peeked(Seen(runtime.queue, q, script[0]), limit).rows == []
    ensures Over(runtime, p, Seen(runtime.queue, q, script[0]), Emptied, script[1..], log + [Disturbed(script[0].before)] + [Drained(runtime)], groups)
  {
    assert [Disturbed(script[0].before)] + [Drained(runtime)] == [Disturbed(script[0].before), Drained(runtime)];
  }

  lemma StopsHere(runtime: GroupRuntime, limit: nat, p: Progress, q: Queue, log: seq<Event>, groups: set<GroupRuntime>)
    requires Going(runtime, limit, p, q, [], log)
    ensures Over(runtime, p, q, Aborted, [], log, groups)
  {
  }

  lemma SendsOn(runtime: GroupRuntime, limit: nat, p: Progress, q: Queue, script: seq<Reply>, log: seq<Event>)
    requires Going(runtime, limit, p, q, script, log)
    requires script != [] && Peeked(Seen(runtime.queue, q, script[0]), limit).rows != []
    ensures var seen, answer := Seen(runtime.queue, q, script[0]), script[0].answer;
            var now, more := PerformAll(seen, OpsOn(script[0].during, runtime.queue)), p.sent + [Sending(seen, limit, answer)];
            if answer.Done? then
              var f := Flushing(runtime.queue, Committed(now, Peeked(seen, limit).lastId), limit, script[1..]);
              p.whole == f.(sent := more + f.sent)
            else p.whole == Flush(now, more, Failed(answer.Scope()), script[1..])
  {
    var seen, answer := Seen(runtime.queue, q, script[0]), script[0].answer;
    if answer.Done? {
      var now := PerformAll(seen, OpsOn(script[0].during, runtime.queue));
      var f := Flushing(runtime.queue, Committed(now, Peeked(seen, limit).lastId), limit, script[1..]);
      assert p.sent + ([Sending(seen, limit, answer)] + f.sent) == p.sent + [Sending(seen, limit, answer)] + f.sent;
    }
  }

  lemma OneMoreStep(runtime: GroupRuntime, p: Progress, log: seq<Event>, one: Sent)
    requires |p.sent| < |p.all| && log == p.start + Steps(runtime, p.all, p.sent)
    ensures var reply := p.all[|p.sent|];
            log + [Disturbed(reply.before)] + [Disturbed(reply.during), Inserted(runtime, one)]
            == p.start + Steps(runtime, p.all, p.sent + [one])
  {
    var reply, more := p.all[|p.sent|], p.sent + [one];
    assert more[..|p.sent|] == p.sent;
    assert [Disturbed(reply.before)] + [Disturbed(reply.during), Inserted(runtime, one)] == Step(runtime, reply, one);
  }

  lemma GoesOn(runtime: GroupRuntime, limit: nat, p: Progress, q: Queue, script: seq<Reply>, log: seq<Event>, groups: set<GroupRuntime>)
    requires Going(runtime, limit, p, q, script, log)
    requires script != [] && Peeked(Seen(runtime.queue, q, script[0]), limit).rows != []
    ensures var seen, reply := Seen(runtime.queue, q, script[0]), script[0];
            var now, one := PerformAll(seen, OpsOn(reply.during, runtime.queue)), Sending(seen, limit, reply.answer);
            var later := log + [Disturbed(reply.before)] + [Disturbed(reply.during), Inserted(runtime, one)] + LostBy(reply.answer, groups);
            if reply.answer.Done? then
              Going(runtime, limit, p.(sent := p.sent + [one]), Committed(now, Peeked(seen, limit).lastId), script[1..], later)
            else Over(runtime, p.(sent := p.sent + [one]), now, Failed(reply.answer.Scope()), script[1..], later, groups)
  {
    SendsOn(runtime, limit, p, q, script, log);
    OneMoreStep(runtime, p, log, Sending(Seen(runtime.queue, q, script[0]), limit, script[0].answer));
  }

  lemma Appended(log: seq<Event>, one: Event, two: Event, more: seq<Event>)
    ensures log + [one] + [two] + more == log + [one, two] + more
  {
    assert log + [one] + [two] == log + [one, two];
  }

  /** The rows of a batch are the front of the queue or, by the time of the answer, gone. */
  lemma SentStays(q: Queue, limit: nat, answer: Answer, ops: seq<Op>)
    requires q.Valid() && Peeked(q, limit).rows != []
    ensures var one, now := Sending(q, limit, answer), PerformAll(q, ops);
            && Peeked(q, limit).lastId == Some(one.lastId)
            && one.firstId <= now.Front() && one.lastId < now.nextId
  {
    PerformDescends(q, ops);
  }

  /** The log grew by `events` and, if they ended so, by the loss of the connection. */
  ghost predicate Logged(start: seq<Event>, events: seq<Event>, end: End, groups: set<GroupRuntime>, log: seq<Event>) {
    log == start + events + LostAt(end, groups)
  }

  lemma LoggedAfter(start: seq<Event>, events: seq<Event>, more: seq<Event>, end: End, groups: set<GroupRuntime>, log: seq<Event>)
    requires Logged(start + events, more, end, groups, log)
    ensures Logged(start, events + more, end, groups, log)
  {
    assert start + events + more == start + (events + more);
  }

  function CheckSteps(runtime: GroupRuntime, reply: Reply): seq<Event> { [Disturbed(reply.during), Checked(runtime, reply.answer)] }

  lemma CheckThenFlush(
    start: seq<Event>, runtime: GroupRuntime, reply: Reply, events: seq<Event>, end: End, groups: set<GroupRuntime>, log: seq<Event>)
    requires reply.answer.Done? && Logged(start + CheckSteps(runtime, reply) + LostBy(reply.answer, {}), events, end, groups, log)
    ensures Logged(start, CheckSteps(runtime, reply) + events, end, groups, log)
  {
    assert start + CheckSteps(runtime, reply) + LostBy(reply.answer, {}) == start + CheckSteps(runtime, reply);
    LoggedAfter(start, CheckSteps(runtime, reply), events, end, groups, log);
  }

  lemma CheckFails(start: seq<Event>, runtime: GroupRuntime, reply: Reply, groups: set<GroupRuntime>)
    requires !reply.answer.Done?
    ensures Logged(start, CheckSteps(runtime, reply), Failed(reply.answer.Scope()), groups,
                   start + CheckSteps(runtime, reply) + LostBy(reply.answer, groups))
  {
  }

  predicate GoesOnAfter(end: End) { end != Failed(Connection) && end != Aborted }

  lemma EndedAlone(end: End)
    ensures GoesOnAfter(end) <==> end.Emptied? || end == Failed(Group)
  {
    if end.Failed? {
      match end.scope {
        case Connection =>
        case Group =>
      }
    }
  }

  // --- What a round did ------------------------------------------------------------------

  /** The turn of `r` is over: its queue was found empty at that moment, its check was
      not due, or it failed on its own. */
  ghost predicate HadItsTurn(visits: seq<Event>, r: GroupRuntime) { exists i :: EndedAt(visits, r, i) }

  predicate EndedAt(visits: seq<Event>, r: GroupRuntime, i: int) { 0 <= i < |visits| && EndsTurn(visits[i], r) }

  /** Only the groups in `served` were checked, sent rows, failed or were skipped. */
  ghost predicate VisitsOnly(visits: seq<Event>, served: set<GroupRuntime>) {
    forall i :: 0 <= i < |visits| ==> visits[i].Disturbed? || (OfGroup(visits[i]) && visits[i].runtime in served)
  }

  ghost predicate InIdOrder(visits: seq<Event>) {
    forall i, j :: 0 <= i < j < |visits| && OfGroup(visits[i]) && OfGroup(visits[j]) ==>
                     visits[i].runtime.config.id <= visits[j].runtime.config.id
  }

  ghost predicate AllBelow(visits: seq<Event>, pending: set<int>) {
    forall i, id :: 0 <= i < |visits| && OfGroup(visits[i]) && id in pending ==> visits[i].runtime.config.id < id
  }

  /** Whoever had no turn yet is still pending. */
  ghost predicate TurnsLeft(visits: seq<Event>, served: set<GroupRuntime>, pending: set<int>) {
    forall r :: r in served ==> r.config.id in pending || HadItsTurn(visits, r)
  }

  ghost predicate OneMoreTurn(visits: seq<Event>, more: seq<Event>, runtime: GroupRuntime) {
    && |visits| <= |more| && visits == more[..|visits|]
    && forall i :: |visits| <= i < |more| ==> more[i].Disturbed? || Concerns(more[i], runtime)
  }

  lemma TurnAdds(visits: seq<Event>, turn: Turn, runtime: GroupRuntime)
    requires OwnTurn(turn, runtime)
    ensures OneMoreTurn(visits, visits + turn.events, runtime)
    ensures GoesOnAfter(turn.end) ==> HadItsTurn(visits + turn.events, runtime)
  {
    if GoesOnAfter(turn.end) {
      EndedAlone(turn.end);
      assert EndedAt(visits + turn.events, runtime, |visits + turn.events| - 1);
    }
  }

  lemma TurnsStay(visits: seq<Event>, more: seq<Event>, r: GroupRuntime)
    requires |visits| <= |more| && visits == more[..|visits|] && HadItsTurn(visits, r)
    ensures HadItsTurn(more, r)
  {
    var i :| EndedAt(visits, r, i);
    assert EndedAt(more, r, i);
  }

  lemma OneTurnLess(visits: seq<Event>, more: seq<Event>, served: set<GroupRuntime>, pending: set<int>, runtime: GroupRuntime)
    requires VisitsOnly(visits, served) && InIdOrder(visits) && AllBelow(visits, pending) && TurnsLeft(visits, served, pending)
    requires OneMoreTurn(visits, more, runtime) && runtime in served
    requires runtime.config.id in pending && forall id :: id in pending ==> runtime.config.id <= id
    ensures VisitsOnly(more, served) && InIdOrder(more)
    ensures AllBelow(more, pending - {runtime.config.id})
    ensures HadItsTurn(more, runtime) && (forall r :: r in served && r.config.id == runtime.config.id ==> r == runtime) ==>
              TurnsLeft(more, served, pending - {runtime.config.id})
  {
    forall i | 0 <= i < |visits| ensures more[i] == visits[i] {
    }
    forall r | r in served && HadItsTurn(visits, r) ensures HadItsTurn(more, r) {
      TurnsStay(visits, more, r);
    }
  }

  lemma {:induction false} LeastExists(ids: set<int>)
    requires ids != {}
    ensures exists id :: id in ids && forall k :: k in ids ==> id <= k
  {
    EmptyOrInhabited(ids);
    var some :| some in ids;
    var others := ids - {some};
    if others == {} {
      assert forall k :: k in ids ==> k == some || k in others;
    } else {
      LeastExists(others);
      var least :| least in others && forall k :: k in others ==> least <= k;
      var id := if some <= least then some else least;
      assert forall k :: k in ids ==> k == some || k in others;
      assert id in ids && forall k :: k in ids ==> id <= k;
    }
  }

  ghost function LostBy(answer: Answer, groups: set<GroupRuntime>): seq<Event> {
    if !answer.Done? && answer.Scope().Connection? then [ConnectionLost(groups)] else []
  }

  ghost function LostAt(end: End, groups: set<GroupRuntime>): seq<Event> {
    if end == Failed(Connection) then [ConnectionLost(groups)] else []
  }
}
