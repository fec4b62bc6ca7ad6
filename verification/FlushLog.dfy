/** What happened to the groups of one connection id, flusher after flusher: the
    status of each generation and the account of each queue follow from it
    (apps/banto-hub-sink/src/{flush,group}.rs). */
module FlushLogs {
  import opened Rows
  import opened RowQueues
  import opened Plans
  import opened Groups
  import opened Flushes
  import D = Delivery

  datatype Event =
    | Connected(target: ConnectionConfig)
      // a flusher to this target took over
    | Disturbed(during: Disturbance)
      // the other tasks went on
    | Checked(runtime: GroupRuntime, answer: Answer)
    | Inserted(runtime: GroupRuntime, sent: Sent)
    | ConnectionLost(groups: set<GroupRuntime>)
      // shows a connection-level error of the event before
    | Skipped(runtime: GroupRuntime)
      // its check is not due
    | Drained(runtime: GroupRuntime)
      // a peek found its queue empty

  predicate OfGroup(e: Event) { e.Checked? || e.Inserted? || e.Skipped? || e.Drained? }

  predicate Concerns(e: Event, r: GroupRuntime) { OfGroup(e) && e.runtime == r }

  // --- Status, as a fold over the events ---------------------------------------------

  datatype Status = Status(state: GroupState, tableReady: bool)

  function After(s: Status, e: Event, r: GroupRuntime): Status {
    match e
    case Checked(g, answer) => if g == r then AfterCheck(s, answer) else s
    case Inserted(g, sent) => if g == r then AfterInsert(s, sent.answer) else s
    case ConnectionLost(groups) => if r in groups then Status(Backoff, false) else s
    case _ => s
  }

  function AfterCheck(s: Status, answer: Answer): Status {
    if answer.Done? then Status(Running, true)
    else if answer.Scope().Group? then Status(Error, false)
    else s
  }

  function AfterInsert(s: Status, answer: Answer): Status {
    if answer.Done? then Status(Running, s.tableReady)
    else if answer.Scope().Group? then Status(Error, false)
    else s
  }

  function AfterAll(s: Status, log: seq<Event>, r: GroupRuntime): Status {
    if log == [] then s else After(AfterAll(s, log[..|log| - 1], r), log[|log| - 1], r)
  }

  lemma {:induction false} AfterAllConcat(s: Status, log: seq<Event>, more: seq<Event>, r: GroupRuntime)
    ensures AfterAll(s, log + more, r) == AfterAll(AfterAll(s, log, r), more, r)
  {
    if more == [] {
      assert log + more == log;
    } else {
      AfterAllConcat(s, log, more[..|more| - 1], r);
      assert (log + more)[..|log + more| - 1] == log + more[..|more| - 1];
    }
  }

  /** What takes the readiness of `r` away. */
  predicate Unreadies(e: Event, r: GroupRuntime) {
    match e
    case Checked(g, answer) => g == r && !answer.Done? && answer.Scope().Group?
    case Inserted(g, sent) => g == r && !sent.answer.Done? && sent.answer.Scope().Group?
    case ConnectionLost(groups) => r in groups
    case _ => false
  }

  /** `r` passed its own table check at `i` and nothing failed it since. */
  ghost predicate CheckedAt(log: seq<Event>, r: GroupRuntime, i: int) {
    0 <= i < |log| && log[i] == Checked(r, Done) && forall j :: i < j < |log| ==> !Unreadies(log[j], r)
  }

  lemma {:induction false} ReadyIffChecked(s: Status, log: seq<Event>, r: GroupRuntime)
    requires !s.tableReady
    ensures AfterAll(s, log, r).tableReady <==> exists i :: CheckedAt(log, r, i)
  {
    if log != [] {
      var n := |log| - 1;
      var before := log[..n];
      ReadyIffChecked(s, before, r);
      if AfterAll(s, log, r).tableReady {
        if log[n] == Checked(r, Done) {
          assert CheckedAt(log, r, n);
        } else {
          var i :| CheckedAt(before, r, i);
          assert CheckedAt(log, r, i);
        }
      }
      if exists i :: CheckedAt(log, r, i) {
        var i :| CheckedAt(log, r, i);
        if i < n {
          assert CheckedAt(before, r, i);
        }
      }
    }
  }

  /** A generation nothing happened to keeps its status, whatever failed elsewhere. */
  lemma {:induction false} OthersDoNotMatter(s: Status, log: seq<Event>, r: GroupRuntime)
    requires forall i :: 0 <= i < |log| ==> !Concerns(log[i], r) && !(log[i].ConnectionLost? && r in log[i].groups)
    ensures AfterAll(s, log, r) == s
  {
    if log != [] {
      OthersDoNotMatter(s, log[..|log| - 1], r);
    }
  }

  // --- The account of a queue, as a fold over the events ------------------------------

  function OpAccount(l: D.Ledger, op: Op): D.Ledger {
    match op
    case Push(row) => if l.queue.nextId >= U128_MAX then l else D.LedgerPushed(l, row, l.dest)
    case Discard => D.LedgerDiscarded(l)
    case Commit(_) => l.(queue := Perform(l.queue, op))
  }

  function OpsAccount(l: D.Ledger, ops: seq<Op>): D.Ledger
    decreases |ops|
  {
    if ops == [] then l else OpsAccount(OpAccount(l, ops[0]), ops[1..])
  }

  /** Rows only leave by what the other tasks do and by the confirmed INSERTs of a
      generation on this queue. */
  function Accounted(l: D.Ledger, e: Event, q: RowQueue): D.Ledger {
    match e
    case Disturbed(during) => OpsAccount(l, OpsOn(during, q))
    case Inserted(g, sent) => if g.queue == q && sent.answer.Done? then D.LedgerCommitted(l, sent.lastId) else l
    case _ => l
  }

  function Account(l: D.Ledger, log: seq<Event>, q: RowQueue): D.Ledger {
    if log == [] then l else Accounted(Account(l, log[..|log| - 1], q), log[|log| - 1], q)
  }

  /** Only this flusher commits: the others push and discard. */
  ghost predicate NoCommits(ops: seq<Op>) { forall i :: 0 <= i < |ops| ==> !ops[i].Commit? }

  ghost predicate Harmless(during: Disturbance) { forall q :: q in during ==> NoCommits(during[q]) }

  lemma {:induction false} OpsAccountIs(l: D.Ledger, ops: seq<Op>)
    requires l.Balanced() && NoCommits(ops)
    ensures D.LedgerAdvances(l, OpsAccount(l, ops)) && OpsAccount(l, ops).acked == l.acked
    ensures OpsAccount(l, ops).queue == PerformAll(l.queue, ops)
    decreases |ops|
  {
    if ops != [] {
      var next := OpAccount(l, ops[0]);
      match ops[0] {
        case Push(row) => D.LedgerPushKeepsBalance(l, row);
        case Discard => D.LedgerDiscardKeepsBalance(l);
        case Commit(_) =>
      }
      OpsAccountIs(next, ops[1..]);
      AdvancesTransitive(l, next, OpsAccount(next, ops[1..]));
    }
  }

  lemma AdvancesTransitive(l: D.Ledger, middle: D.Ledger, later: D.Ledger)
    requires D.LedgerAdvances(l, middle) && D.LedgerAdvances(middle, later)
    ensures D.LedgerAdvances(l, later)
  {
  }

  lemma StepAccount(l: D.Ledger, e: Event, q: RowQueue)
    requires l.Balanced() && (e.Disturbed? ==> Harmless(e.during))
    ensures D.LedgerAdvances(l, Accounted(l, e, q))
  {
    if e.Disturbed? {
      OpsAccountIs(l, OpsOn(e.during, q));
    } else if e.Inserted? {
      D.LedgerCommitKeepsBalance(l, e.sent.lastId);
    }
  }

  // --- What every flusher keeps --------------------------------------------------------

  /** The generations and queues of one connection id, also those registered later, as
      they were at first: no generation was checked, and every queue had a balanced
      account. */
  datatype Beginning = Beginning(statuses: map<GroupRuntime, Status>, accounts: map<RowQueue, D.Ledger>) {
    ghost predicate Fresh() {
      && (forall r :: r in statuses ==> !statuses[r].tableReady && r.queue in accounts)
      && (forall q :: q in accounts ==> accounts[q].Balanced())
    }

    ghost function StatusAfter(log: seq<Event>, r: GroupRuntime): Status
      requires r in statuses
    {
      AfterAll(statuses[r], log, r)
    }

    ghost function AccountAfter(log: seq<Event>, q: RowQueue): D.Ledger
      requires q in accounts
    {
      Account(accounts[q], log, q)
    }
  }

  /** What may follow `log`: a check of a generation that is not ready; an INSERT of
      the front of its queue by one that is; a queue is found empty only if it is. */
  ghost predicate MayFollow(b: Beginning, drains: bool, log: seq<Event>, e: Event) {
    match e
    case Disturbed(during) => Harmless(during)
    case Checked(r, _) => r in b.statuses && !b.StatusAfter(log, r).tableReady
    case Skipped(r) => r in b.statuses && !b.StatusAfter(log, r).tableReady
    case Inserted(r, sent) =>
      && r in b.statuses && r.queue in b.accounts && b.StatusAfter(log, r).tableReady
      && sent.firstId <= b.AccountAfter(log, r.queue).queue.Front() && sent.lastId < b.AccountAfter(log, r.queue).queue.nextId
    case Drained(r) =>
      && r in b.statuses && r.queue in b.accounts && b.StatusAfter(log, r).tableReady
      && (drains ==> b.AccountAfter(log, r.queue).queue.rows == [])
    case _ => true
  }

  ghost predicate EventOk(b: Beginning, drains: bool, log: seq<Event>, i: nat) {
    i < |log| ==> MayFollow(b, drains, log[..i], log[i])
  }

  ghost predicate LogOk(b: Beginning, drains: bool, log: seq<Event>) {
    forall i: nat :: EventOk(b, drains, log, i)
  }

  lemma LogOneMore(b: Beginning, drains: bool, log: seq<Event>, e: Event)
    requires LogOk(b, drains, log) && MayFollow(b, drains, log, e)
    ensures LogOk(b, drains, log + [e])
  {
    var more := log + [e];
    forall i: nat ensures EventOk(b, drains, more, i) {
      assert EventOk(b, drains, log, i);
      if i < |log| {
        assert more[..i] == log[..i];
      } else if i == |log| {
        assert more[..i] == log;
      }
    }
  }

  lemma LogPrefix(b: Beginning, drains: bool, log: seq<Event>, n: nat)
    requires LogOk(b, drains, log) && n <= |log|
    ensures LogOk(b, drains, log[..n])
  {
    forall i: nat ensures EventOk(b, drains, log[..n], i) {
      assert EventOk(b, drains, log, i);
      if i < n {
        assert log[..n][..i] == log[..i];
      }
    }
  }

  /** Every account stays balanced: what is gone was acknowledged, overflowed or
      discarded, and the reported count is the total of what was dropped. */
  lemma {:induction false} AccountsAdvance(b: Beginning, drains: bool, log: seq<Event>, q: RowQueue)
    requires b.Fresh() && LogOk(b, drains, log) && q in b.accounts
    ensures D.LedgerAdvances(b.accounts[q], b.AccountAfter(log, q))
  {
    if log != [] {
      var n := |log| - 1;
      LogPrefix(b, drains, log, n);
      AccountsAdvance(b, drains, log[..n], q);
      assert EventOk(b, drains, log, n);
      StepAccount(b.AccountAfter(log[..n], q), log[n], q);
      AdvancesTransitive(b.accounts[q], b.AccountAfter(log[..n], q), b.AccountAfter(log, q));
    }
  }

  lemma {:induction false} AccountsAdvanceFrom(b: Beginning, drains: bool, log: seq<Event>, from: nat, q: RowQueue)
    requires b.Fresh() && LogOk(b, drains, log) && q in b.accounts && from <= |log|
    ensures D.LedgerAdvances(b.AccountAfter(log[..from], q), b.AccountAfter(log, q))
    decreases |log|
  {
    LogPrefix(b, drains, log, from);
    AccountsAdvance(b, drains, log[..from], q);
    if from == |log| {
      assert log[..from] == log;
    } else {
      var n := |log| - 1;
      LogPrefix(b, drains, log, n);
      assert log[..n][..from] == log[..from];
      AccountsAdvanceFrom(b, drains, log[..n], from, q);
      assert EventOk(b, drains, log, n);
      StepAccount(b.AccountAfter(log[..n], q), log[n], q);
      AdvancesTransitive(b.AccountAfter(log[..from], q), b.AccountAfter(log[..n], q), b.AccountAfter(log, q));
    }
  }

  /** An INSERT on queue `q` that was confirmed and held row `id`. */
  predicate ConfirmsAt(log: seq<Event>, q: RowQueue, id: nat, i: int) {
    && 0 <= i < |log| && log[i].Inserted? && log[i].runtime.queue == q
    && log[i].sent.answer.Done? && log[i].sent.firstId <= id <= log[i].sent.lastId
  }

  /** A row leaves a queue by overflow, by a discard, or because an INSERT that held
      it was confirmed meanwhile; failures of any kind take no row from any queue. */
  lemma {:induction false} AckedWasConfirmed(b: Beginning, drains: bool, log: seq<Event>, from: nat, q: RowQueue, id: nat)
    requires b.Fresh() && LogOk(b, drains, log) && q in b.accounts && from <= |log|
    requires id in b.AccountAfter(log, q).acked && id !in b.AccountAfter(log[..from], q).acked
    ensures exists i :: from <= i && ConfirmsAt(log, q, id, i)
    decreases |log|
  {
    assert log[..|log|] == log;
    if from < |log| {
      var n := |log| - 1;
      var before := b.AccountAfter(log[..n], q);
      LogPrefix(b, drains, log, n);
      AccountsAdvance(b, drains, log[..n], q);
      assert EventOk(b, drains, log, n);
      assert log[..n][..from] == log[..from];
      if id in before.acked {
        AckedWasConfirmed(b, drains, log[..n], from, q, id);
        var i :| from <= i && ConfirmsAt(log[..n], q, id, i);
        assert ConfirmsAt(log, q, id, i);
      } else {
        AckedByInsert(before, log[n], q, id);
        assert ConfirmsAt(log, q, id, n);
      }
    }
  }

  lemma AckedByInsert(l: D.Ledger, e: Event, q: RowQueue, id: nat)
    requires l.Balanced() && (e.Disturbed? ==> Harmless(e.during))
    requires id in Accounted(l, e, q).acked && id !in l.acked
    ensures e.Inserted? && e.runtime.queue == q && e.sent.answer.Done? && l.queue.Front() <= id <= e.sent.lastId
  {
    if e.Disturbed? {
      OpsAccountIs(l, OpsOn(e.during, q));
    } else if e.Inserted? {
      CommittedUpTo(l.queue, e.sent.lastId);
    }
  }

  lemma CommittedUpTo(q: Queue, last: nat)
    requires q.Valid()
    ensures Committed(q, Some(last)).Front() <= Max(q.Front(), last + 1)
  {
    var n := CoveredCount(q.rows, last);
    if n > 0 {
      assert q.rows[n - 1].id <= last;
    }
  }

  /** Where nothing was confirmed for a queue, whatever failed, nothing was
      acknowledged: what left it was dropped, and counted. */
  lemma {:induction false} FailuresKeepRows(b: Beginning, drains: bool, log: seq<Event>, from: nat, q: RowQueue)
    requires b.Fresh() && LogOk(b, drains, log) && q in b.accounts && from <= |log|
    requires forall i :: from <= i < |log| && log[i].Inserted? && log[i].runtime.queue == q ==> !log[i].sent.answer.Done?
    ensures b.AccountAfter(log, q).acked == b.AccountAfter(log[..from], q).acked
    ensures (forall i :: from <= i < |log| ==> !log[i].Disturbed?) ==> b.AccountAfter(log, q) == b.AccountAfter(log[..from], q)
    decreases |log|
  {
    if from == |log| {
      assert log[..from] == log;
    } else {
      var n := |log| - 1;
      LogPrefix(b, drains, log, n);
      FailuresKeepRows(b, drains, log[..n], from, q);
      assert log[..n][..from] == log[..from];
      assert EventOk(b, drains, log, n);
      AccountsAdvance(b, drains, log[..n], q);
      if log[n].Disturbed? {
        OpsAccountIs(b.AccountAfter(log[..n], q), OpsOn(log[n].during, q));
      }
    }
  }

  /** `id` was in queue `q` and since then was confirmed, or was dropped and counted. */
  ghost predicate Gone(b: Beginning, log: seq<Event>, from: nat, q: RowQueue, id: nat)
    requires q in b.accounts
  {
    var l := b.AccountAfter(log, q);
    id in l.overflowed || id in l.discarded || exists j :: from <= j && ConfirmsAt(log, q, id, j)
  }

  /** What left a queue since `from`, whatever failed meanwhile. */
  lemma LeftMeansGone(b: Beginning, drains: bool, log: seq<Event>, from: nat, q: RowQueue, id: nat)
    requires b.Fresh() && LogOk(b, drains, log) && q in b.accounts && from <= |log|
    requires b.AccountAfter(log[..from], q).queue.Front() <= id < b.AccountAfter(log, q).queue.Front()
    ensures Gone(b, log, from, q, id)
  {
    AccountsAdvance(b, drains, log, q);
    LogPrefix(b, drains, log, from);
    AccountsAdvance(b, drains, log[..from], q);
    if id in b.AccountAfter(log, q).acked {
      AckedWasConfirmed(b, drains, log, from, q, id);
    }
  }

  /** Once a queue was found empty, every row that was in it at `from` is gone. */
  lemma DrainedMeansGone(b: Beginning, log: seq<Event>, from: nat, i: nat, id: nat)
    requires b.Fresh() && LogOk(b, true, log) && from <= i < |log| && log[i].Drained? && log[i].runtime.queue in b.accounts
    requires var q := b.AccountAfter(log[..from], log[i].runtime.queue).queue; q.Front() <= id < q.nextId
    ensures Gone(b, log, from, log[i].runtime.queue, id)
  {
    var q := log[i].runtime.queue;
    LogPrefix(b, true, log, i);
    assert log[..i][..from] == log[..from];
    AccountsAdvanceFrom(b, true, log[..i], from, q);
    AccountsAdvanceFrom(b, true, log, i, q);
    assert EventOk(b, true, log, i);
    LeftMeansGone(b, true, log, from, q, id);
  }

  // --- One turn of a group ---------------------------------------------------------------

  function Step(runtime: GroupRuntime, reply: Reply, one: Sent): seq<Event> {
    [Disturbed(reply.before), Disturbed(reply.during), Inserted(runtime, one)]
  }

  /** The first steps of a flush and what each of them sent. */
  function Steps(runtime: GroupRuntime, script: seq<Reply>, sent: seq<Sent>): (events: seq<Event>)
    requires |sent| <= |script|
    ensures forall i :: 0 <= i < |events| ==> events[i].Disturbed? || (events[i].Inserted? && events[i].runtime == runtime)
    ensures sent != [] ==> events != [] && events[|events| - 1] == Inserted(runtime, sent[|sent| - 1])
  {
    if sent == [] then []
    else var n := |sent| - 1; Steps(runtime, script, sent[..n]) + Step(runtime, script[n], sent[n])
  }

  /** The events of a whole flush. */
  function FlushSteps(runtime: GroupRuntime, script: seq<Reply>, sent: seq<Sent>, end: End): seq<Event>
    requires |sent| <= |script| && (end.Emptied? ==> |sent| < |script|)
  {
    Steps(runtime, script, sent) + if end.Emptied? then [Disturbed(script[|sent|].before), Drained(runtime)] else []
  }

  /** A turn: what it leaves in the queue, how it ends, and what happened. */
  datatype Turn = Turn(queue: Queue, end: End, rest: seq<Reply>, events: seq<Event>)

  lemma {:induction false} FlushingUses(own: RowQueue, q: Queue, limit: nat, script: seq<Reply>)
    ensures var f := Flushing(own, q, limit, script);
            var used := |f.sent| + if f.end.Emptied? then 1 else 0;
            used <= |script| && f.rest == script[used..]
    decreases |script|
  {
    if script != [] {
      var seen := Seen(own, q, script[0]);
      var batch := Peeked(seen, limit);
      if batch.rows != [] && script[0].answer.Done? {
        FlushingUses(own, Committed(PerformAll(seen, OpsOn(script[0].during, own)), batch.lastId), limit, script[1..]);
      }
    }
  }

  /** The flush of a group that is ready. */
  function FlushTurn(runtime: GroupRuntime, q: Queue, limit: nat, script: seq<Reply>): Turn {
    var f := Flushing(runtime.queue, q, limit, script);
    FlushingUses(runtime.queue, q, limit, script);
    Turn(f.queue, f.end, f.rest, FlushSteps(runtime, script, f.sent, f.end))
  }

  /** A whole turn: a group that is not ready is checked first, if that is due. */
  function TurnOf(runtime: GroupRuntime, q: Queue, ready: bool, due: bool, limit: nat, script: seq<Reply>): Turn {
    if ready then FlushTurn(runtime, q, limit, script)
    else if !due then Turn(q, Emptied, script, [Skipped(runtime)])
    else if script == [] then Turn(q, Aborted, [], [])
    else
      var answer, now := script[0].answer, PerformAll(q, OpsOn(script[0].during, runtime.queue));
      var check := [Disturbed(script[0].during), Checked(runtime, answer)];
      if answer.Done? then
        var flush := FlushTurn(runtime, now, limit, script[1..]);
        flush.(events := check + flush.events)
      else Turn(now, Failed(answer.Scope()), script[1..], check)
  }

  /** What ends the turn of a group: its queue was found empty, its check is not due,
      or it failed on its own. */
  predicate EndsTurn(e: Event, r: GroupRuntime) {
    e == Drained(r) || e == Skipped(r) || (!e.ConnectionLost? && Unreadies(e, r))
  }

  lemma SkippedIffNotDue(runtime: GroupRuntime, q: Queue, ready: bool, due: bool, limit: nat, script: seq<Reply>)
    ensures Skipped(runtime) in TurnOf(runtime, q, ready, due, limit, script).events <==> !ready && !due
  {
    if ready {
      NothingSkipped(runtime, q, limit, script);
    } else if due && script != [] {
      NothingSkipped(runtime, PerformAll(q, OpsOn(script[0].during, runtime.queue)), limit, script[1..]);
    }
  }

  lemma NothingSkipped(runtime: GroupRuntime, q: Queue, limit: nat, script: seq<Reply>)
    ensures forall i :: 0 <= i < |FlushTurn(runtime, q, limit, script).events| ==> !FlushTurn(runtime, q, limit, script).events[i].Skipped?
  {
    FlushingUses(runtime.queue, q, limit, script);
  }

  /** Only one group is concerned, and its turn ended unless the connection was lost
      or the flusher stopped. */
  predicate OwnTurn(t: Turn, runtime: GroupRuntime) {
    && (forall i :: 0 <= i < |t.events| ==> t.events[i].Disturbed? || Concerns(t.events[i], runtime))
    && (t.end.Emptied? || t.end == Failed(Group) ==> t.events != [] && EndsTurn(t.events[|t.events| - 1], runtime))
  }

  lemma FlushTurnIsOwn(runtime: GroupRuntime, q: Queue, limit: nat, script: seq<Reply>)
    ensures OwnTurn(FlushTurn(runtime, q, limit, script), runtime)
  {
    var f := Flushing(runtime.queue, q, limit, script);
    FlushingUses(runtime.queue, q, limit, script);
    OnlyLastFails(runtime.queue, q, limit, script);
    var steps := Steps(runtime, script, f.sent);
    if f.end.Failed? {
      assert FlushSteps(runtime, script, f.sent, f.end) == steps;
    }
  }

  lemma TurnIsOwn(runtime: GroupRuntime, q: Queue, ready: bool, due: bool, limit: nat, script: seq<Reply>)
    ensures OwnTurn(TurnOf(runtime, q, ready, due, limit, script), runtime)
  {
    if ready {
      FlushTurnIsOwn(runtime, q, limit, script);
    } else if due && script != [] {
      FlushTurnIsOwn(runtime, PerformAll(q, OpsOn(script[0].during, runtime.queue)), limit, script[1..]);
    }
  }

  /** A group that fails on its own changes no other status and takes no row from any
      other queue. */
  lemma TurnIsolates(b: Beginning, drains: bool, start: seq<Event>, t: Turn, runtime: GroupRuntime)
    requires b.Fresh() && LogOk(b, drains, start + t.events) && OwnTurn(t, runtime)
    ensures forall r :: r in b.statuses && r != runtime ==> b.StatusAfter(start + t.events, r) == b.StatusAfter(start, r)
    ensures forall q :: q in b.accounts && q != runtime.queue ==>
              b.AccountAfter(start + t.events, q).acked == b.AccountAfter(start, q).acked
  {
    var log := start + t.events;
    forall r | r in b.statuses && r != runtime ensures b.StatusAfter(log, r) == b.StatusAfter(start, r) {
      AfterAllConcat(b.statuses[r], start, t.events, r);
      OthersDoNotMatter(b.StatusAfter(start, r), t.events, r);
    }
    assert log[..|start|] == start;
    forall q | q in b.accounts && q != runtime.queue ensures b.AccountAfter(log, q).acked == b.AccountAfter(start, q).acked {
      assert forall i :: |start| <= i < |log| ==> log[i] == t.events[i - |start|];
      FailuresKeepRows(b, drains, log, |start|, q);
    }
  }

  // --- Checks and targets ------------------------------------------------------------------

  /** Every INSERT went through a generation that had passed its own table check,
      with no failure since; one that shares its queue with a checked generation is
      checked again. */
  lemma InsertNeedsOwnCheck(b: Beginning, drains: bool, log: seq<Event>, i: nat)
    requires b.Fresh() && LogOk(b, drains, log) && i < |log| && log[i].Inserted?
    ensures exists j :: CheckedAt(log[..i], log[i].runtime, j)
  {
    assert EventOk(b, drains, log, i);
    ReadyIffChecked(b.statuses[log[i].runtime], log[..i], log[i].runtime);
  }

  /** The present flusher took over at `k`. */
  ghost predicate TookOver(log: seq<Event>, k: int) {
    0 <= k < |log| && log[k].Connected? && forall j :: k < j < |log| ==> !log[j].Connected?
  }

  /** The target that is written to. */
  function TargetOf(log: seq<Event>): Option<ConnectionConfig> {
    if log == [] then None
    else if log[|log| - 1].Connected? then Some(log[|log| - 1].target)
    else TargetOf(log[..|log| - 1])
  }

  lemma {:induction false} TargetIs(log: seq<Event>, k: nat)
    requires TookOver(log, k)
    ensures TargetOf(log) == Some(log[k].target)
  {
    if k < |log| - 1 {
      assert TookOver(log[..|log| - 1], k);
      TargetIs(log[..|log| - 1], k);
    }
  }

  /** There is never more than one check that still holds. */
  lemma OnlyOneCheckHolds(b: Beginning, drains: bool, log: seq<Event>, r: GroupRuntime, i: nat, j: nat)
    requires b.Fresh() && LogOk(b, drains, log) && CheckedAt(log, r, i) && CheckedAt(log, r, j)
    ensures i == j
  {
    if i < j {
      SecondCheckNeedsFailure(b, drains, log, r, i, j);
    } else if j < i {
      SecondCheckNeedsFailure(b, drains, log, r, j, i);
    }
  }

  lemma SecondCheckNeedsFailure(b: Beginning, drains: bool, log: seq<Event>, r: GroupRuntime, i: nat, j: nat)
    requires b.Fresh() && LogOk(b, drains, log) && i < j < |log| && log[i] == Checked(r, Done) && log[j] == Checked(r, Done)
    ensures exists f :: i < f < j && Unreadies(log[f], r)
  {
    assert EventOk(b, drains, log, j);
    var n := i + 1;
    assert log[..n][..i] == log[..i];
    AfterAllConcat(b.statuses[r], log[..n], log[n..j], r);
    assert log[..n] + log[n..j] == log[..j];
    LostReadiness(b.StatusAfter(log[..n], r), log[n..j], r);
    var f :| 0 <= f < j - n && Unreadies(log[n..j][f], r);
    assert Unreadies(log[n + f], r);
  }

  /** The check that still holds was made against the target an INSERT goes to exactly
      if no flusher to another target took over last since then. */
  lemma {:induction false} WrittenWhereChecked(log: seq<Event>, j: nat)
    requires j < |log| && log[j].Checked?
    ensures TargetOf(log) == TargetOf(log[..j]) <==> forall k :: j < k && TookOver(log, k) ==> Some(log[k].target) == TargetOf(log[..j])
  {
    var n := |log| - 1;
    if log[n].Connected? {
      assert TookOver(log, n);
    } else if j < n {
      var before := log[..n];
      assert before[..j] == log[..j];
      WrittenWhereChecked(before, j);
      assert forall k :: TookOver(before, k) <==> TookOver(log, k);
    }
  }

  /** A generation that loses its readiness was failed in between. */
  lemma {:induction false} LostReadiness(s: Status, log: seq<Event>, r: GroupRuntime)
    requires s.tableReady && !AfterAll(s, log, r).tableReady
    ensures exists j :: 0 <= j < |log| && Unreadies(log[j], r)
  {
    var n := |log| - 1;
    if !Unreadies(log[n], r) {
      LostReadiness(s, log[..n], r);
      var j :| 0 <= j < n && Unreadies(log[..n][j], r);
      assert Unreadies(log[j], r);
    }
  }

  /** A failure at `f` and an INSERT later: there was a check after `f`. */
  lemma CheckedAfterFailure(b: Beginning, drains: bool, log: seq<Event>, f: nat, r: GroupRuntime)
    requires b.Fresh() && LogOk(b, drains, log) && r in b.statuses && f <= |log|
    requires !b.StatusAfter(log[..f], r).tableReady && b.StatusAfter(log, r).tableReady
    ensures exists j :: f <= j && CheckedAt(log, r, j)
  {
    AfterAllConcat(b.statuses[r], log[..f], log[f..], r);
    assert log[..f] + log[f..] == log;
    ReadyIffChecked(b.StatusAfter(log[..f], r), log[f..], r);
    var j :| CheckedAt(log[f..], r, j);
    assert log[f + j] == log[f..][j];
    assert forall i :: f + j < i < |log| ==> log[i] == log[f..][i - f];
    assert CheckedAt(log, r, f + j);
  }

  /** An INSERT goes to a target its generation was checked against by the same
      flusher exactly if the generation was not ready when that flusher took over, or
      failed since. A generation that was ready then, because only the connection was
      edited, is not checked again. */
  lemma CheckedHereIff(b: Beginning, drains: bool, log: seq<Event>, i: nat, k: nat)
    requires b.Fresh() && LogOk(b, drains, log) && i < |log| && log[i].Inserted? && TookOver(log[..i], k)
    ensures log[i].runtime in b.statuses && TargetOf(log[..i]) == Some(log[k].target)
    ensures var r := log[i].runtime;
            (exists j :: k < j && CheckedAt(log[..i], r, j))
            <==> !b.StatusAfter(log[..k], r).tableReady || exists f :: k < f < i && Unreadies(log[f], r)
  {
    var before, r := log[..i], log[i].runtime;
    assert EventOk(b, drains, log, i);
    LogPrefix(b, drains, log, i);
    TargetIs(before, k);
    assert before[..k] == log[..k];
    if !b.StatusAfter(log[..k], r).tableReady {
      CheckedAfterFailure(b, drains, before, k, r);
      var j :| k <= j && CheckedAt(before, r, j);
      assert before[k] == log[k];
    } else if exists f :: k < f < i && Unreadies(log[f], r) {
      var f :| k < f < i && Unreadies(log[f], r);
      assert before[..f + 1][..f] == before[..f] && before[f] == log[f];
      CheckedAfterFailure(b, drains, before, f + 1, r);
    }
    if j :| k < j && CheckedAt(before, r, j) {
      assert EventOk(b, drains, log, j) && log[j] == before[j];
      if b.StatusAfter(log[..k], r).tableReady {
        AfterAllConcat(b.statuses[r], log[..k], log[k..j], r);
        assert log[..k] + log[k..j] == log[..j];
        LostReadiness(b.StatusAfter(log[..k], r), log[k..j], r);
        var f :| 0 <= f < j - k && Unreadies(log[k..j][f], r);
        assert Unreadies(log[k + f], r);
      }
    }
  }
}
