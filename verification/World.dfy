/** What producers and flushers do to the running groups while the engine waits, as a
    function (apps/banto-hub-sink/src/{run,group,flush}.rs). */
module Worlds {
  import opened Rows
  import opened RowQueues
  import opened Plans
  import opened Groups
  import opened GroupTables

  const DRAIN_POLL := 50

  /** What the other tasks do during one await. */
  datatype Event =
    | Produced(id: int, row: Row)
    | Acknowledged(id: int, batch: Batch)
    | StateChanged(id: int, state: GroupState)

  /** The values of all queues and the states of the registered groups. */
  datatype World = World(states: QueueStates, statuses: map<int, GroupState>)

  ghost function Happened(t: Tables, w: World, e: Event): World {
    match e
    case Produced(id, row) =>
      if id in t.producers && t.producers[id].queue in w.states && w.states[t.producers[id].queue].nextId < U128_MAX then
        w.(states := w.states[t.producers[id].queue := Pushed(w.states[t.producers[id].queue], row)])
      else w
    case Acknowledged(id, batch) =>
      if id in t.registry && t.registry[id].queue in w.states then
        w.(states := w.states[t.registry[id].queue := Committed(w.states[t.registry[id].queue], batch.lastId)])
      else w
    case StateChanged(id, state) => if id in t.registry then w.(statuses := w.statuses[id := state]) else w
  }

  ghost function Drifted(t: Tables, w: World, events: seq<Event>): World {
    if events == [] then w else Happened(t, Drifted(t, w, events[..|events| - 1]), events[|events| - 1])
  }

  /** The world after the first `n` awaits; nothing happens once the script is over. */
  ghost function WorldAfter(t: Tables, w: World, script: seq<seq<Event>>, n: nat): World {
    if n == 0 then w
    else Drifted(t, WorldAfter(t, w, script, n - 1), if n <= |script| then script[n - 1] else [])
  }

  /** Rows are left that the flusher of the group can still send. */
  ghost predicate MayFlush(w: World, r: GroupRuntime, flushers: Connections) {
    && r.queue in w.states && w.states[r.queue].rows != []
    && r.config.id in w.statuses && w.statuses[r.config.id] == Running
    && r.config.connectionId in flushers
  }

  ghost predicate AnyMayFlush(w: World, groups: set<GroupRuntime>, flushers: Connections) {
    exists r :: r in groups && MayFlush(w, r, flushers)
  }

  /** A wait for some groups: it began here and took this many polls. */
  datatype Wait = Wait(tables: Tables, begun: World, polls: nat)

  ghost function EndOf(wait: Wait, script: seq<seq<Event>>): World { WorldAfter(wait.tables, wait.begun, script, wait.polls) }

  /** Every poll was needed and allowed. If the wait came to its `end`, no group can be
      flushed any more, or the limit is used up. */
  ghost predicate WaitedFor(wait: Wait, groups: set<GroupRuntime>, flushers: Connections, script: seq<seq<Event>>, limit: nat, end: bool) {
    && wait.polls <= |script|
    && (forall k: nat :: k < wait.polls ==> NeededPoll(wait, groups, flushers, script, limit, k))
    && (if end then DRAIN_POLL * wait.polls >= limit || !AnyMayFlush(EndOf(wait, script), groups, flushers)
        else wait.polls == |script| && NeededPoll(wait, groups, flushers, script, limit, wait.polls))
  }

  ghost predicate NeededPoll(wait: Wait, groups: set<GroupRuntime>, flushers: Connections, script: seq<seq<Event>>, limit: nat, k: nat) {
    DRAIN_POLL * k < limit && AnyMayFlush(WorldAfter(wait.tables, wait.begun, script, k), groups, flushers)
  }

  ghost predicate SomeQueued(t: Tables, w: World) {
    exists id :: id in t.registry && t.registry[id].queue in w.states && w.states[t.registry[id].queue].rows != []
  }

  ghost function MembersOf(groups: seq<GroupRuntime>): set<GroupRuntime> { set r | r in groups }

  /** All polls so far were needed. */
  ghost predicate Underway(wait: Wait, groups: set<GroupRuntime>, flushers: Connections, script: seq<seq<Event>>, limit: nat, rest: seq<seq<Event>>) {
    && wait.polls <= |script| && rest == script[wait.polls..]
    && forall k: nat :: k < wait.polls ==> NeededPoll(wait, groups, flushers, script, limit, k)
  }

  lemma OnePollMore(
    wait: Wait, groups: set<GroupRuntime>, flushers: Connections, script: seq<seq<Event>>, limit: nat, rest: seq<seq<Event>>, more: Wait)
    requires Underway(wait, groups, flushers, script, limit, rest) && NeededPoll(wait, groups, flushers, script, limit, wait.polls)
    requires more == wait.(polls := wait.polls + 1)
    ensures rest == [] ==> WaitedFor(wait, groups, flushers, script, limit, false)
    ensures rest != [] ==> Underway(more, groups, flushers, script, limit, rest[1..])
    ensures rest != [] ==> EndOf(more, script) == Drifted(wait.tables, EndOf(wait, script), rest[0])
  {
    forall k: nat | k < more.polls ensures NeededPoll(more, groups, flushers, script, limit, k) {
      assert NeededPoll(wait, groups, flushers, script, limit, k);
    }
  }

  /** A wait is over at the first poll past its limit, and there is none without flushers. */
  lemma PollsBound(wait: Wait, groups: set<GroupRuntime>, flushers: Connections, script: seq<seq<Event>>, limit: nat, end: bool)
    requires WaitedFor(wait, groups, flushers, script, limit, end)
    ensures DRAIN_POLL * wait.polls < limit + DRAIN_POLL
    ensures !end ==> DRAIN_POLL * |script| < limit && flushers != map[]
  {
    if wait.polls > 0 {
      assert NeededPoll(wait, groups, flushers, script, limit, wait.polls - 1);
    }
  }

  /** The running groups that are stopped and hand nothing on. */
  ghost function RetiredBy(t: Tables, groups: Plans.Groups, connections: Connections, desired: SinkConfig): set<GroupRuntime> {
    set id | id in t.registry && StopsGroup(groups, connections, desired, id) && !Inherits(groups, connections, desired, id) :: t.registry[id]
  }

  /** The wait began with all queues and with the states of these groups as they were
      found; only their producers were stopped before. */
  ghost predicate BeganAs(wait: Wait, w: World, retired: set<GroupRuntime>) {
    && wait.begun.states == w.states
    && forall r :: r in retired ==> BeganAt(wait, w, r)
  }

  ghost predicate BeganAt(wait: Wait, w: World, r: GroupRuntime) {
    && r.config.id in wait.tables.registry && wait.tables.registry[r.config.id] == r && r.config.id !in wait.tables.producers
    && Lookup(wait.begun.statuses, r.config.id) == Lookup(w.statuses, r.config.id)
  }

  /** The queues were flushed, as far as that could be, before anything was discarded. */
  ghost predicate FlushedFirst(
    wait: Wait, flushed: QueueStates, w: World, retired: set<GroupRuntime>, flushers: Connections, script: seq<seq<Event>>, limit: nat, end: bool)
  {
    && flushed == EndOf(wait, script).states && BeganAs(wait, w, retired)
    && (end ==> WaitedFor(wait, retired, flushers, script, limit, true))
  }

  lemma ListedAreRetired(
    before: Tables, homes: Homes, t: Tables, plan: ConfigPlan, groups: Plans.Groups, connections: Connections, desired: SinkConfig,
    carried: map<int, Carried>, toFlush: seq<GroupRuntime>)
    requires Placed(before, homes) && Rooted(before, groups) && IsPlan(plan, groups, connections, desired)
    requires Stopped(before, t, IdSet(plan.groupsToStop), HeirsOf(before, groups, connections, desired), desired.Groups(), carried)
    requires Listed(t, IdSet(plan.groupsToStop), HeirsOf(before, groups, connections, desired), toFlush)
    ensures MembersOf(toFlush) == RetiredBy(before, groups, connections, desired)
    ensures forall r :: r in toFlush ==>
              && r.config.id in before.registry && before.registry[r.config.id] == r
              && r.config.id in t.registry && t.registry[r.config.id] == r && r.config.id !in t.producers
  {
    var stops, heirs := IdSet(plan.groupsToStop), HeirsOf(before, groups, connections, desired);
    StopsOfPlan(plan, groups, connections, desired);
    forall r | r in toFlush
      ensures r in RetiredBy(before, groups, connections, desired)
      ensures r.config.id in before.registry && before.registry[r.config.id] == r
      ensures r.config.id in t.registry && t.registry[r.config.id] == r && r.config.id !in t.producers
    {
      assert StoppedAt(before, t, stops, heirs, desired.Groups(), carried, r.config.id);
    }
    forall r | r in RetiredBy(before, groups, connections, desired) ensures r in toFlush {
      var id :| id in before.registry && StopsGroup(groups, connections, desired, id) && !Inherits(groups, connections, desired, id) && before.registry[id] == r;
      assert RootedAt(before, groups, id);
      assert StoppedAt(before, t, stops, heirs, desired.Groups(), carried, id) && ListedAt(t, stops, heirs, toFlush, id);
    }
  }

  /** A group that is running, has a flusher and still has rows loses them to a discard
      only after the whole limit was waited. */
  lemma SendableRowsAreWaitedFor(
    wait: Wait, flushed: QueueStates, w: World, retired: set<GroupRuntime>, flushers: Connections, script: seq<seq<Event>>, limit: nat, r: GroupRuntime)
    requires FlushedFirst(wait, flushed, w, retired, flushers, script, limit, true) && r in retired
    requires r.queue in flushed && flushed[r.queue].rows != []
    requires r.config.id in EndOf(wait, script).statuses && EndOf(wait, script).statuses[r.config.id] == Running
    requires r.config.connectionId in flushers
    ensures DRAIN_POLL * wait.polls >= limit
  {
    assert MayFlush(EndOf(wait, script), r, flushers);
  }

  /** A wait begins only if one of the groups is running, has a flusher and has rows: a
      group in backoff or in error, or without a flusher, is not waited for. */
  lemma WaitsOnlyForSendableRows(
    wait: Wait, flushed: QueueStates, w: World, retired: set<GroupRuntime>, flushers: Connections, script: seq<seq<Event>>, limit: nat)
    requires FlushedFirst(wait, flushed, w, retired, flushers, script, limit, true) && wait.polls > 0
    ensures limit > 0
    ensures exists r :: r in retired && r.queue in w.states && w.states[r.queue].rows != []
                        && Lookup(w.statuses, r.config.id) == Some(Running) && r.config.connectionId in flushers
  {
    assert NeededPoll(wait, retired, flushers, script, limit, 0);
    var r :| r in retired && MayFlush(WorldAfter(wait.tables, wait.begun, script, 0), r, flushers);
    assert BeganAt(wait, w, r);
  }

  /** The same for every later poll: it is not made once no group can be flushed. */
  lemma NoPollTooMany(
    wait: Wait, flushed: QueueStates, w: World, retired: set<GroupRuntime>, flushers: Connections, script: seq<seq<Event>>, limit: nat, k: nat)
    requires FlushedFirst(wait, flushed, w, retired, flushers, script, limit, true) && k < wait.polls
    ensures DRAIN_POLL * k < limit
    ensures var world := WorldAfter(wait.tables, wait.begun, script, k);
            exists r :: r in retired && r.queue in world.states && world.states[r.queue].rows != []
                        && Lookup(world.statuses, r.config.id) == Some(Running) && r.config.connectionId in flushers
  {
    assert NeededPoll(wait, retired, flushers, script, limit, k);
    var r :| r in retired && MayFlush(WorldAfter(wait.tables, wait.begun, script, k), r, flushers);
  }
}
