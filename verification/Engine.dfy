/** Reconfiguration and shutdown (`Engine`, apps/banto-hub-sink/src/run.rs). At
    every await the producers and flushers go on by themselves, and the whole
    call may be dropped. */
module Engines {
  import opened Rows
  import opened RowQueues
  import opened Plans
  import opened Groups
  import opened GroupTables
  import opened Worlds

  datatype StatusError = Said(text: string) | Found(problem: Problem)

  datatype StatusEntry = StatusEntry(
    id: int, state: GroupState, queued: nat, dropped: nat, lastFlushAt: Option<int>, error: Option<StatusError>)

  const FLUSHER_STOP_TIMEOUT := 2000
  const OS_SUBSCRIPTION_STOP_CAP := 2000
  const OS_STATUS_PUSH_CAP := 5000

  function EntryId(e: StatusEntry): int { e.id }

  /** What happens before and during one `apply_plan`. */
  datatype Round = Round(between: seq<Event>, desired: SinkConfig, script: seq<seq<Event>>)

  datatype StopRequest = Graceful | OsShutdown(deadline: int)

  /** How a flusher behaves when it is stopped: what it still does, and how long
      its task, the aborted task and the pool take to end. `None` is never. */
  datatype FlusherEnd = FlusherEnd(events: seq<Event>, join: Option<nat>, aborted: Option<nat>, close: Option<nat>)

  function Remaining(request: StopRequest, now: int): Option<nat> {
    match request
    case Graceful => None
    case OsShutdown(deadline) => Some(Max(0, deadline - now))
  }

  /** `phase_limit`. */
  function PhaseLimit(remaining: Option<nat>, configured: nat): (limit: nat)
    ensures limit <= configured
    ensures remaining.Some? ==> limit <= remaining.value
    ensures limit == configured || remaining == Some(limit)
  {
    match remaining
    case None => configured
    case Some(left) => Min(configured, left)
  }

  /** `timeout(limit, _)` around something that takes `takes`. */
  predicate InTime(limit: nat, takes: Option<nat>) { takes.Some? && takes.value <= limit }

  function Waited(limit: nat, takes: Option<nat>): nat { if InTime(limit, takes) then takes.value else limit }

  /** An OS shutdown is at most `slack` past its deadline, or past where it already was. */
  predicate InBudget(request: StopRequest, start: int, now: int, slack: nat) {
    request.OsShutdown? ==> now <= Max(start, request.deadline) + slack
  }

  /** Poll number `k` of the wait for the queues is within its time and the deadline. */
  predicate Polling(request: StopRequest, start: int, limit: nat, k: nat) {
    start + DRAIN_POLL * k < start + limit && (request.OsShutdown? ==> start + DRAIN_POLL * k < request.deadline)
  }

  /** It was made, and rows were queued then. */
  ghost predicate PollNeeded(request: StopRequest, start: int, limit: nat, t: Tables, w: World, polls: seq<seq<Event>>, k: nat) {
    Polling(request, start, limit, k) && SomeQueued(t, WorldAfter(t, w, polls, k))
  }

  /** What the rest of the world does during a shutdown: how long the
      subscription (if there is one) and the final push take, what happens while
      the queues drain, how the flushers end, and the configuration that reaches
      the engine if the Hub answers the final push with 422. */
  datatype Surroundings = Surroundings(
    subscription: Option<Option<nat>>, polls: seq<seq<Event>>, ends: map<int, FlusherEnd>,
    push: Option<nat>, refetched: Option<SinkConfig>)

  /** What is left of `cap` before the deadline of an OS shutdown. */
  ghost function Left(request: StopRequest, now: int, cap: nat): nat {
    if request.OsShutdown? then (if request.deadline <= now then 0 else Min(cap, request.deadline - now)) else cap
  }

  /** Task and pool end by themselves within `limit` together. */
  ghost predicate EndsWithin(limit: nat, end: FlusherEnd) {
    && end.join.Some? && end.join.value < limit
    && end.close.Some? && end.join.value + end.close.value <= limit
  }

  ghost function StopTime(limit: nat, end: FlusherEnd): nat { if EndsWithin(limit, end) then end.join.value + end.close.value else limit }

  function EndFor(ends: map<int, FlusherEnd>, c: int): FlusherEnd { if c in ends then ends[c] else FlusherEnd([], None, None, None) }

  /** When the flushers `order` are stopped, one after the other. */
  ghost function FlushersStopBy(request: StopRequest, start: int, order: seq<int>, ends: map<int, FlusherEnd>): int {
    if order == [] then start
    else
      var now := FlushersStopBy(request, start, order[..|order| - 1], ends);
      now + StopTime(Left(request, now, FLUSHER_STOP_TIMEOUT), EndFor(ends, order[|order| - 1]))
  }

  /** Each of them ended by itself in what was left. */
  ghost predicate StopCleanly(request: StopRequest, start: int, order: seq<int>, ends: map<int, FlusherEnd>) {
    order != [] ==>
      && StopCleanly(request, start, order[..|order| - 1], ends)
      && EndsWithin(Left(request, FlushersStopBy(request, start, order[..|order| - 1], ends), FLUSHER_STOP_TIMEOUT), EndFor(ends, order[|order| - 1]))
  }

  /** Each connection once. */
  ghost predicate OrderOf(order: seq<int>, connections: set<int>) {
    && (forall c :: c in connections <==> c in order)
    && (forall i, j :: 0 <= i < j < |order| ==> order[i] != order[j])
  }

  /** Something that takes `takes` is over in time, and how long it is waited for. */
  ghost predicate Over(limit: nat, takes: Option<nat>) { limit > 0 && takes.Some? && takes.value <= limit }

  ghost function WaitedAtMost(limit: nat, takes: Option<nat>): nat { if takes.Some? && takes.value <= limit then takes.value else limit }

  /** Every row was acknowledged or counted, and none is queued. */
  ghost predicate AllAccounted(states: QueueStates, left: QueueStates, later: QueueStates, lost: nat) {
    && LostIs(states, left, later, lost)
    && Emptied(states, later) && AllEmpty(later) && (lost == 0 ==> Shrunk(states, later))
  }

  /** How long the end of the subscription is waited for. */
  ghost function SubscriptionTime(request: StopRequest, start: int, subscription: Option<Option<nat>>): nat
    requires request.Graceful? && subscription.Some? ==> subscription.value.Some?
  {
    if subscription.None? then 0
    else if request.Graceful? then subscription.value.value
    else WaitedAtMost(Left(request, start, OS_SUBSCRIPTION_STOP_CAP), subscription.value)
  }

  /** The wait for the queues takes `n` polls, each of them needed, and ends there. */
  ghost predicate DrainedBy(request: StopRequest, start: int, limit: nat, t: Tables, w: World, polls: seq<seq<Event>>, n: nat) {
    && (forall k: nat :: k < n ==> PollNeeded(request, start, limit, t, w, polls, k))
    && !PollNeeded(request, start, limit, t, w, polls, n)
  }

  lemma DrainsInBudget(request: StopRequest, start: int, limit: nat, t: Tables, w: World, polls: seq<seq<Event>>, n: nat)
    requires forall k: nat :: k < n ==> PollNeeded(request, start, limit, t, w, polls, k)
    ensures start + DRAIN_POLL * n <= start + limit + DRAIN_POLL && InBudget(request, start, start + DRAIN_POLL * n, DRAIN_POLL)
  {
    if n > 0 {
      assert PollNeeded(request, start, limit, t, w, polls, n - 1);
    }
  }

  /** The course of a shutdown: when the subscription ended, how many polls the queues
      took, in which order the flushers were stopped, when that was over, and what was
      left in the queues. */
  datatype Timeline = Timeline(unsubscribed: int, polls: nat, order: seq<int>, stopped: int, left: QueueStates) {
    function Drained(): int { unsubscribed + DRAIN_POLL * polls }
  }

  /** From the end of the subscription on. */
  ghost predicate WoundDown(
    course: Timeline, request: StopRequest, world: Surroundings, limit: nat, t: Tables, w: World, connections: set<int>)
  {
    && DrainedBy(request, course.unsubscribed, limit, t, w, world.polls, course.polls)
    && OrderOf(course.order, connections)
    && course.stopped == FlushersStopBy(request, course.Drained(), course.order, world.ends)
  }

  ghost predicate Went(
    course: Timeline, request: StopRequest, start: int, world: Surroundings, limit: nat, t: Tables, w: World, connections: set<int>)
    requires request.Graceful? && world.subscription.Some? ==> world.subscription.value.Some?
  {
    && course.unsubscribed == start + SubscriptionTime(request, start, world.subscription)
    && WoundDown(course, request, world, limit, t, w, connections)
  }

  /** Rows were left although the deadline had come. */
  ghost predicate RowsLeftLate(request: StopRequest, now: int, t: Tables, w: World) {
    request.OsShutdown? && now >= request.deadline && SomeQueued(t, w)
  }

  /** The queues and the flushers ended in time. */
  ghost predicate WoundDownCleanly(course: Timeline, request: StopRequest, world: Surroundings, t: Tables, w: World) {
    && !RowsLeftLate(request, course.Drained(), t, WorldAfter(t, w, world.polls, course.polls))
    && StopCleanly(request, course.Drained(), course.order, world.ends)
  }

  /** Everything before the final push ended in time. */
  ghost predicate NothingCutShort(course: Timeline, request: StopRequest, start: int, world: Surroundings, t: Tables, w: World) {
    && (world.subscription.None? || Over(Left(request, start, OS_SUBSCRIPTION_STOP_CAP), world.subscription.value))
    && WoundDownCleanly(course, request, world, t, w)
  }

  /** The rows in `left` were not acknowledged; they are counted, and `lost` is their
      number. */
  ghost predicate LostIs(states: QueueStates, left: QueueStates, later: QueueStates, lost: nat) {
    Shrunk(states, left) && DiscardedAll(left, later) && lost == TotalRows(left)
  }

  function Takes(phase: Option<Option<nat>>): nat {
    if phase.Some? && phase.value.Some? then phase.value.value else 0
  }

  /** What `n` flushers may take one after the other. */
  function StopAllowance(n: nat): nat { FLUSHER_STOP_TIMEOUT * n }

  /** `FlusherHandle::stop`: join, abort and close share one deadline. */
  method StopFlusher(start: int, timeout: nat, end: FlusherEnd) returns (now: int, completed: bool)
    ensures completed <==> EndsWithin(timeout, end)
    ensures now == start + StopTime(timeout, end)
  {
    now := start;
    var deadline := start + timeout;
    var joinLimit := Max(0, deadline - now);
    var joined := joinLimit != 0 && InTime(joinLimit, end.join);
    now := now + Waited(joinLimit, end.join);
    if !joined {
      joinLimit := Max(0, deadline - now);
      now := now + Waited(joinLimit, end.aborted);
    }
    var closeLimit := Max(0, deadline - now);
    var closed := closeLimit != 0 && InTime(closeLimit, end.close);
    now := now + Waited(closeLimit, end.close);
    completed := joined && closed;
  }

  /** Every row of `states` was acknowledged, from the front, or else counted as
      dropped, and none is left. */
  ghost predicate Emptied(states: QueueStates, later: QueueStates) {
    forall q {:trigger EmptiedAt(states, later, q)} :: q in states ==> EmptiedAt(states, later, q)
  }

  ghost predicate EmptiedAt(states: QueueStates, later: QueueStates, q: RowQueue) {
    q in states && q in later && exists rest :: OnlyAcked(states[q], rest) && later[q] == Discarded(rest)
  }

  lemma EmptiedBy(states: QueueStates, drained: QueueStates, later: QueueStates, nothing: bool)
    requires Shrunk(states, drained) && (forall q :: q in drained ==> drained[q].dropped <= U64_MAX)
    requires DiscardedAll(drained, later)
    requires nothing ==> forall q :: q in drained ==> drained[q].rows == []
    ensures Emptied(states, later) && AllEmpty(later)
    ensures nothing ==> Shrunk(states, later)
  {
    forall q | q in states ensures EmptiedAt(states, later, q) {
      assert ShrunkAt(states, drained, q);
    }
    if nothing {
      assert later == drained;
    }
  }

  /** A clean stop: every flusher was there and ended within one timeout. */
  lemma {:induction false} CleanMeansEach(request: StopRequest, start: int, order: seq<int>, ends: map<int, FlusherEnd>)
    requires StopCleanly(request, start, order, ends)
    ensures forall c :: c in order ==> c in ends && EndsWithin(FLUSHER_STOP_TIMEOUT, ends[c])
  {
    if order != [] {
      CleanMeansEach(request, start, order[..|order| - 1], ends);
      assert order == order[..|order| - 1] + [order[|order| - 1]];
    }
  }

  lemma StopOneLater(request: StopRequest, start: int, order: seq<int>, ends: map<int, FlusherEnd>, c: int)
    ensures var now, left := FlushersStopBy(request, start, order, ends), Left(request, FlushersStopBy(request, start, order, ends), FLUSHER_STOP_TIMEOUT);
            && FlushersStopBy(request, start, order + [c], ends) == now + StopTime(left, EndFor(ends, c))
            && (StopCleanly(request, start, order + [c], ends) <==> StopCleanly(request, start, order, ends) && EndsWithin(left, EndFor(ends, c)))
  {
    assert (order + [c])[..|order|] == order;
  }

  /** However the flushers end, each takes at most one timeout, and all of them only
      what is left before the deadline. */
  lemma {:induction false} StopsInBudget(request: StopRequest, start: int, order: seq<int>, ends: map<int, FlusherEnd>)
    ensures start <= FlushersStopBy(request, start, order, ends) <= start + StopAllowance(|order|)
    ensures InBudget(request, start, FlushersStopBy(request, start, order, ends), 0)
  {
    if order != [] {
      StopsInBudget(request, start, order[..|order| - 1], ends);
    }
  }

  lemma NoLowerShutDown(
    before: Tables, begun: QueueStates, t: Tables, states: QueueStates, later: Tables, reported: QueueStates, ids: set<int>)
    requires NoLower(before, begun, t, states, ids) && later.registry == t.registry && later.broken == t.broken
    requires Emptied(states, reported) && forall q :: q in states ==> states[q].dropped <= U64_MAX
    ensures NoLower(before, begun, later, reported, ids)
  {
    forall q | q in states ensures q in reported && states[q].dropped <= reported[q].dropped {
      assert EmptiedAt(states, reported, q);
    }
    NoLowerWhileRunning(before, begun, t, states, reported, ids);
    forall id | id in ids ensures Reported(before, begun, id) <= Reported(later, reported, id) {
      assert Reported(before, begun, id) <= Reported(t, reported, id);
    }
  }

  class Engine {
    const shutdownFlush: nat
    const queueMaxRows: nat
    var registry: map<int, GroupRuntime>
    var producers: map<int, GroupRuntime>
    var flushers: Connections
    var broken: map<int, BrokenGroup>
    var appliedGroups: Plans.Groups
    var appliedConnections: Connections

    /** Every queue the engine ever made, with the group and the destination it
        was made for, and every object the engine ever made. */
    ghost var homes: Homes
    ghost var owned: set<object>

    /** `Engine::new`. */
    constructor (shutdownFlush: nat, queueMaxRows: nat)
      ensures Settled() && fresh(owned)
      ensures this.shutdownFlush == shutdownFlush && this.queueMaxRows == queueMaxRows
      ensures Now() == Tables(map[], map[], map[]) && flushers == map[] && homes == map[]
      ensures appliedGroups == map[] && appliedConnections == map[]
    {
      this.shutdownFlush, this.queueMaxRows := shutdownFlush, queueMaxRows;
      registry, producers, flushers, broken := map[], map[], map[], map[];
      appliedGroups, appliedConnections, homes, owned := map[], map[], map[], {};
    }

    ghost function Now(): Tables
      reads this`registry, this`producers, this`broken
    {
      Tables(registry, producers, broken)
    }

    /** The values of all queues. */
    ghost function States(): QueueStates
      reads this`homes, homes.Keys
    {
      map q | q in homes :: q.State()
    }

    ghost function Statuses(): map<int, GroupState>
      reads this`registry, registry.Values
    {
      map id | id in registry :: registry[id].state
    }

    ghost function WorldNow(): World
      reads this`registry, registry.Values, this`homes, homes.Keys
    {
      World(States(), Statuses())
    }

    ghost predicate Owns()
      reads this
    {
      && this !in owned
      && (forall q :: q in homes ==> q in owned && q.maxRows == queueMaxRows)
      && (forall id :: id in registry ==> registry[id] in owned)
    }

    /** Holds at every await, so also wherever a call is dropped. */
    ghost predicate Valid()
      reads this, homes.Keys
    {
      Owns() && Placed(Now(), homes) && Kept(Now(), homes, States())
    }

    /** What the next call of `apply_plan` or `shutdown` needs. */
    ghost predicate Resumable()
      reads this, homes.Keys
    {
      Valid() && Keyed(appliedGroups, appliedConnections) && Rooted(Now(), appliedGroups) && flushers.Keys <= appliedConnections.Keys
    }

    /** Every group and flusher of the applied configuration is there. */
    ghost predicate InStep()
      reads this
    {
      Installed(Now(), appliedGroups, appliedConnections) && Matched(flushers, appliedConnections)
    }

    /** Holds between two configurations. */
    ghost predicate Settled()
      reads this, homes.Keys
    {
      Resumable() && InStep()
    }

    /** The engine owns new objects only. */
    twostate predicate Grown()
      reads this`owned
    {
      old(owned) <= owned && fresh(owned - old(owned))
    }

    // --- The other tasks --------------------------------------------------------

    method Produce(id: int, row: Row)
      requires Valid() && id in producers && producers[id].queue.nextId < U128_MAX
      modifies producers[id].queue
      ensures Valid() && Lapsed(old(States()), States(), false)
      ensures producers[id].queue in homes && producers[id].queue.State() == Pushed(old(producers[id].queue.State()), row)
      ensures States() == old(States())[producers[id].queue := Pushed(old(States())[producers[id].queue], row)]
    {
      ghost var states, q := States(), producers[id].queue;
      assert PlacedAt(Now(), homes, id) && KeptAt(Now(), homes, states, q);
      PushDescends(q.State(), row);
      producers[id].queue.Push(row);
      OneKept(Now(), homes, states, States(), q);
      OneLapsed(states, States(), q, false);
    }

    method Acknowledge(id: int, batch: Batch)
      requires Valid() && id in registry
      modifies registry[id].queue
      ensures Valid() && Shrunk(old(States()), States())
      ensures registry[id].queue in old(States())
      ensures States() == old(States())[registry[id].queue := Committed(old(States())[registry[id].queue], batch.lastId)]
    {
      ghost var states, q := States(), registry[id].queue;
      assert PlacedAt(Now(), homes, id) && KeptAt(Now(), homes, states, q);
      registry[id].queue.Commit(batch);
      OneKept(Now(), homes, states, States(), q);
      forall k | k in states ensures ShrunkAt(states, States(), k) {}
    }

    method SetState(id: int, state: GroupState)
      requires Valid() && id in registry
      modifies registry[id]
      ensures Valid() && States() == old(States()) && Statuses() == old(Statuses())[id := state]
    {
      ghost var before := Statuses();
      RegisteredOnce(Now(), homes);
      assert forall k :: k in registry && k != id ==> registry[k] != registry[id];
      registry[id].state := state;
      assert Statuses() == before[id := state];
    }

    /** One step of a producer or a flusher. */
    method Happen(e: Event)
      requires Valid()
      modifies owned
      ensures Valid() && Lapsed(old(States()), States(), producers == map[])
      ensures producers == map[] ==> Shrunk(old(States()), States())
      ensures WorldNow() == Happened(Now(), old(WorldNow()), e)
    {
      ghost var states := States();
      NothingShrunk(states);
      match e {
        case Produced(id, row) =>
          if id in producers && producers[id].queue.nextId < U128_MAX {
            assert PlacedAt(Now(), homes, id);
            Produce(id, row);
            assert id in producers && producers != map[];
            return;
          }
        case Acknowledged(id, batch) =>
          if id in registry {
            assert PlacedAt(Now(), homes, id);
            Acknowledge(id, batch);
          }
        case StateChanged(id, state) =>
          if id in registry {
            SetState(id, state);
          }
      }
      ShrunkLapsed(states, States());
      LapsedLoud(states, States());
    }

    /** What the other tasks do while this one waits. */
    method Drift(events: seq<Event>)
      requires Valid()
      modifies owned
      ensures Valid() && Lapsed(old(States()), States(), producers == map[])
      ensures producers == map[] ==> Shrunk(old(States()), States())
      ensures WorldNow() == Drifted(Now(), old(WorldNow()), events)
    {
      ghost var start, world := States(), WorldNow();
      NothingShrunk(start);
      NothingLapsed(start, producers == map[]);
      for i := 0 to |events|
        invariant Valid() && Lapsed(start, States(), producers == map[])
        invariant producers == map[] ==> Shrunk(start, States())
        invariant WorldNow() == Drifted(Now(), world, events[..i])
      {
        ghost var states := States();
        assert events[..i + 1][..i] == events[..i];
        Happen(events[i]);
        LapsedTransitive(start, states, States(), producers == map[]);
        if producers == map[] {
          ShrunkTransitive(start, states, States());
        }
      }
      assert events[..|events|] == events;
    }

    /** One await. An exhausted script means that the call is dropped here. */
    method Await(script: seq<seq<Event>>) returns (alive: bool, rest: seq<seq<Event>>)
      requires Valid()
      modifies owned
      ensures Valid() && Lapsed(old(States()), States(), producers == map[])
      ensures alive == (script != []) && rest == if alive then script[1..] else []
      ensures WorldNow() == if alive then Drifted(Now(), old(WorldNow()), script[0]) else old(WorldNow())
    {
      alive, rest := script != [], [];
      NothingLapsed(States(), producers == map[]);
      if alive {
        rest := script[1..];
        Drift(script[0]);
      }
    }

    // --- Stopping groups ----------------------------------------------------------

    /** The next generation of a group, on the same queue. */
    method Succeed(id: int, next: GroupConfig) returns (successor: GroupRuntime)
      requires Owns() && id in registry && SetupProblem(next).None?
      modifies this`registry, this`owned
      ensures Owns() && Grown() && States() == old(States())
      ensures registry == old(registry)[id := successor]
      ensures successor.config == next && successor.queue == old(registry)[id].queue
    {
      successor := new GroupRuntime.WithQueue(next, registry[id].queue);
      registry := registry[id := successor];
      owned := owned + {successor};
    }

    /** Stops one group. A group whose destination stays gets its next
        generation at once, on the same queue; otherwise it is to be flushed. */
    method StopGroup(id: int, next: Option<GroupConfig>, carries: bool) returns (left: Option<Carried>, toFlush: Option<GroupRuntime>)
      requires Valid()
      requires carries && id in registry ==>
                 next.Some? && SetupProblem(next.value).None? && next.value.id == id
                 && Destination(next.value) == Destination(registry[id].config)
      modifies this`registry, this`producers, this`broken, this`owned
      ensures Valid() && Grown() && States() == old(States())
      ensures StopsOne(old(Now()), Now(), id, next, carries, left, toFlush)
    {
      ghost var t := Now();
      left, toFlush := None, None;
      assert PlacedAt(t, homes, id);
      producers := producers - {id};
      if id in registry {
        if carries {
          var successor := Succeed(id, next.value);
          left := Some(Runtime(successor));
        } else {
          toFlush := Some(registry[id]);
        }
      }
      if id in broken {
        left := Some(Dropped(broken[id].dropped));
      }
      broken := broken - {id};
      StopKeepsPlaces(t, Now(), homes, States(), id, next, carries, left, toFlush);
    }

    /** The test of `apply_plan` for handing the queue of a stopped group on. */
    predicate CarriesOver(plan: ConfigPlan, groups: Plans.Groups, id: int)
      reads this`appliedGroups
    {
      && id in appliedGroups
      && QueueCarriesOver(appliedGroups[id], Lookup(groups, id), plan.connectionsToStop)
      && SetupProblem(groups[id]).None?
    }

    /** `heirs` names the stopped groups whose queue is handed on. */
    ghost predicate Decided(running: map<int, GroupRuntime>, plan: ConfigPlan, groups: Plans.Groups, heirs: set<int>)
      reads this`appliedGroups
    {
      forall id :: id in running && id in plan.groupsToStop ==>
                     && id in appliedGroups && Destination(running[id].config) == Destination(appliedGroups[id])
                     && (id in heirs <==> CarriesOver(plan, groups, id))
    }

    /** One round of the loop over `groups_to_stop`. */
    method StopNext(
      id: int, plan: ConfigPlan, groups: Plans.Groups, carried: map<int, Carried>, toFlush: seq<GroupRuntime>,
      ghost before: Tables, ghost done: set<int>, ghost heirs: set<int>)
      returns (more: map<int, Carried>, moreToFlush: seq<GroupRuntime>)
      requires Valid() && Keyed(groups, map[]) && Placed(before, homes)
      requires Stopped(before, Now(), done, heirs, groups, carried) && Listed(Now(), done, heirs, toFlush)
      requires id !in done && Decided(before.registry, plan, groups, heirs) && id in plan.groupsToStop
      modifies this`registry, this`producers, this`broken, this`owned
      ensures Valid() && Grown() && States() == old(States())
      ensures Stopped(before, Now(), done + {id}, heirs, groups, more) && Listed(Now(), done + {id}, heirs, moreToFlush)
    {
      ghost var t := Now();
      assert StoppedAt(before, t, done, heirs, groups, carried, id);
      var carries := CarriesOver(plan, groups, id);
      var left, flush := StopGroup(id, Lookup(groups, id), carries);
      more := if left.Some? then carried[id := left.value] else carried;
      moreToFlush := if flush.Some? then toFlush + [flush.value] else toFlush;
      StopOneMore(before, t, Now(), homes, done, heirs, groups, carried, id, carries, left, flush);
      ListOneMore(before, t, Now(), homes, done, heirs, groups, toFlush, id, carries, left, flush);
    }

    /** Step 1 of `apply_plan`: stops the groups of the plan. */
    method StopGroups(plan: ConfigPlan, groups: Plans.Groups, ghost heirs: set<int>) returns (carried: map<int, Carried>, toFlush: seq<GroupRuntime>)
      requires Valid() && UniqueKeys(plan.groupsToStop, Self) && Keyed(groups, map[])
      requires Decided(registry, plan, groups, heirs)
      modifies this`registry, this`producers, this`broken, this`owned
      ensures Valid() && Grown() && States() == old(States())
      ensures Stopped(old(Now()), Now(), IdSet(plan.groupsToStop), heirs, groups, carried)
      ensures Listed(Now(), IdSet(plan.groupsToStop), heirs, toFlush)
    {
      ghost var before, states, done := Now(), States(), {};
      carried, toFlush := map[], [];
      for i := 0 to |plan.groupsToStop|
        invariant Valid() && Grown() && States() == states
        invariant done == IdSet(plan.groupsToStop[..i])
        invariant Stopped(before, Now(), done, heirs, groups, carried) && Listed(Now(), done, heirs, toFlush)
      {
        NextId(plan.groupsToStop, i);
        carried, toFlush := StopNext(plan.groupsToStop[i], plan, groups, carried, toFlush, before, done, heirs);
        done := done + {plan.groupsToStop[i]};
      }
      assert plan.groupsToStop[..|plan.groupsToStop|] == plan.groupsToStop;
    }

    /** `queue_carries_over` and `with_queue` together decide what `Inherits` says. */
    lemma CarriesIffHeir(plan: ConfigPlan, desired: SinkConfig, id: int)
      requires IsPlan(plan, appliedGroups, appliedConnections, desired) && desired.WellFormed()
      requires Keyed(appliedGroups, appliedConnections) && id in plan.groupsToStop
      ensures id in appliedGroups
      ensures CarriesOver(plan, desired.Groups(), id) <==> Inherits(appliedGroups, appliedConnections, desired, id)
    {
      assert StopsGroup(appliedGroups, appliedConnections, desired, id);
      assert appliedGroups[id].connectionId in plan.connectionsToStop
             <==> StopsConnection(appliedConnections, desired, appliedGroups[id].connectionId);
    }

    lemma DecidedByPlan(plan: ConfigPlan, desired: SinkConfig)
      requires Keyed(appliedGroups, appliedConnections) && Rooted(Now(), appliedGroups)
      requires desired.WellFormed() && IsPlan(plan, appliedGroups, appliedConnections, desired)
      ensures Decided(registry, plan, desired.Groups(), Heirs(desired))
    {
      forall id | id in registry && id in plan.groupsToStop
        ensures id in appliedGroups && Destination(registry[id].config) == Destination(appliedGroups[id])
        ensures id in Heirs(desired) <==> CarriesOver(plan, desired.Groups(), id)
      {
        assert RootedAt(Now(), appliedGroups, id);
        CarriesIffHeir(plan, desired, id);
      }
    }

    /** The registered groups whose queue the plan hands on. */
    ghost function Heirs(desired: SinkConfig): set<int>
      reads this
    {
      HeirsOf(Now(), appliedGroups, appliedConnections, desired)
    }

    /** The registered groups whose queue is flushed and discarded. */
    ghost function Retired(desired: SinkConfig): set<GroupRuntime>
      reads this
    {
      RetiredBy(Now(), appliedGroups, appliedConnections, desired)
    }

    /** Step 1. From here on every await leaves the engine resumable. */
    method Withdraw(plan: ConfigPlan, desired: SinkConfig) returns (carried: map<int, Carried>, toFlush: seq<GroupRuntime>)
      requires Valid() && Keyed(appliedGroups, appliedConnections) && Rooted(Now(), appliedGroups)
      requires desired.WellFormed() && IsPlan(plan, appliedGroups, appliedConnections, desired)
      modifies this`registry, this`producers, this`broken, this`owned
      ensures Valid() && Grown() && Rooted(Now(), appliedGroups) && States() == old(States())
      ensures Stopped(old(Now()), Now(), IdSet(plan.groupsToStop), old(Heirs(desired)), desired.Groups(), carried)
      ensures Listed(Now(), IdSet(plan.groupsToStop), old(Heirs(desired)), toFlush)
    {
      ghost var before, heirs := Now(), Heirs(desired);
      DecidedByPlan(plan, desired);
      AscendingUnique(plan.groupsToStop, Self);
      var groups := desired.Groups();
      carried, toFlush := StopGroups(plan, groups, heirs);
      HeirsStay(before, Now(), IdSet(plan.groupsToStop), heirs, appliedGroups, groups, carried);
    }

    // --- Discarding what is not handed on -------------------------------------------

    /** Rows are left, the group is `running` and its flusher is there. */
    predicate WorthWaiting(r: GroupRuntime)
      reads this`flushers, r, r.queue
    {
      r.queue.rows != [] && r.state == Running && r.config.connectionId in flushers
    }

    method AnyWorthWaiting(groups: seq<GroupRuntime>) returns (any: bool)
      ensures any <==> exists r :: r in groups && WorthWaiting(r)
    {
      any := false;
      for i := 0 to |groups|
        invariant any <==> exists r :: r in groups[..i] && WorthWaiting(r)
      {
        if WorthWaiting(groups[i]) {
          any := true;
        }
      }
      assert groups[..|groups|] == groups;
    }

    /** What `AnyWorthWaiting` asks of the registered groups, with the fields written out. */
    lemma WorthIsMayFlush(groups: seq<GroupRuntime>)
      requires Valid() && forall r :: r in groups ==> r.config.id in registry && registry[r.config.id] == r
      ensures (exists r :: r in groups && WorthWaiting(r)) <==> AnyMayFlush(WorldNow(), MembersOf(groups), flushers)
    {
      forall r | r in groups ensures WorthWaiting(r) <==> MayFlush(WorldNow(), r, flushers) {
        assert PlacedAt(Now(), homes, r.config.id);
      }
      assert forall r :: r in MembersOf(groups) <==> r in groups;
    }

    /** Step 1.5: waits while the flusher of one of these groups may still send its
        rows, at most `shutdownFlush` for all groups together: no poll longer than that
        and none shorter. */
    method FlushBeforeDiscard(groups: seq<GroupRuntime>, script: seq<seq<Event>>)
      returns (alive: bool, rest: seq<seq<Event>>, ghost wait: Wait)
      requires Valid() && forall r :: r in groups ==> r.config.id in registry && registry[r.config.id] == r
      modifies owned
      ensures Valid() && Lapsed(old(States()), States(), producers == map[])
      ensures wait.tables == Now() && wait.begun == old(WorldNow()) && WorldNow() == EndOf(wait, script)
      ensures WaitedFor(wait, MembersOf(groups), flushers, script, shutdownFlush, alive)
      ensures |rest| <= |script| && (alive ==> |script| - |rest| == wait.polls && rest == script[wait.polls..])
    {
      ghost var start := States();
      NothingLapsed(start, producers == map[]);
      alive, rest := true, script;
      wait := Wait(Now(), WorldNow(), 0);
      WorthIsMayFlush(groups);
      var any := AnyWorthWaiting(groups);
      var waited := 0;
      while waited < shutdownFlush && any
        invariant Valid() && Lapsed(start, States(), producers == map[])
        invariant Underway(wait, MembersOf(groups), flushers, script, shutdownFlush, rest) && waited == DRAIN_POLL * wait.polls
        invariant wait.tables == Now() && wait.begun == old(WorldNow()) && WorldNow() == EndOf(wait, script)
        invariant any <==> AnyMayFlush(EndOf(wait, script), MembersOf(groups), flushers)
        decreases |rest|
      {
        ghost var states := States();
        alive, rest, any, wait := WaitOnce(groups, script, rest, wait);
        LapsedTransitive(start, states, States(), producers == map[]);
        if !alive {
          return;
        }
        waited := waited + DRAIN_POLL;
      }
    }

    method WaitOnce(groups: seq<GroupRuntime>, ghost script: seq<seq<Event>>, rest: seq<seq<Event>>, ghost wait: Wait)
      returns (alive: bool, left: seq<seq<Event>>, any: bool, ghost more: Wait)
      requires Valid() && forall r :: r in groups ==> r.config.id in registry && registry[r.config.id] == r
      requires wait.tables == Now() && WorldNow() == EndOf(wait, script)
      requires Underway(wait, MembersOf(groups), flushers, script, shutdownFlush, rest)
      requires NeededPoll(wait, MembersOf(groups), flushers, script, shutdownFlush, wait.polls)
      modifies owned
      ensures Valid() && Lapsed(old(States()), States(), producers == map[])
      ensures more == (if alive then wait.(polls := wait.polls + 1) else wait) && WorldNow() == EndOf(more, script)
      ensures alive ==> Underway(more, MembersOf(groups), flushers, script, shutdownFlush, left) && |left| < |rest|
      ensures alive ==> (any <==> AnyMayFlush(EndOf(more, script), MembersOf(groups), flushers))
      ensures !alive ==> left == [] && WaitedFor(more, MembersOf(groups), flushers, script, shutdownFlush, false)
    {
      any, more := true, wait;
      OnePollMore(wait, MembersOf(groups), flushers, script, shutdownFlush, rest, wait.(polls := wait.polls + 1));
      alive, left := Await(rest);
      if alive {
        more := wait.(polls := wait.polls + 1);
        WorthIsMayFlush(groups);
        any := AnyWorthWaiting(groups);
      }
    }

    /** Takes a group whose queue is not handed on out of the registry and counts
        the rows that are left. */
    method Retire(runtime: GroupRuntime) returns (dropped: nat)
      requires Valid() && runtime.config.id in registry && registry[runtime.config.id] == runtime && runtime.config.id !in producers
      modifies this`registry, runtime.queue
      ensures Valid()
      ensures registry == old(registry) - {runtime.config.id}
      ensures runtime.queue in old(States())
      ensures States() == old(States())[runtime.queue := Discarded(old(States())[runtime.queue])]
      ensures dropped == Discarded(old(States())[runtime.queue]).dropped
    {
      ghost var t, states := Now(), States();
      assert PlacedAt(t, homes, runtime.config.id) && KeptAt(t, homes, states, runtime.queue);
      registry := registry - {runtime.config.id};
      var _ := runtime.queue.DiscardAll();
      dropped := runtime.queue.dropped;
      assert States() == states[runtime.queue := Discarded(states[runtime.queue])];
      RetireKeepsPlaces(t, Now(), homes, states, runtime.config.id);
    }

    /** Queues of groups that are still registered are as they were. */
    ghost predicate Untouched(states: QueueStates)
      reads this, homes.Keys
    {
      forall id :: id in registry ==> registry[id].queue in homes && registry[id].queue in states && registry[id].queue.State() == states[registry[id].queue]
    }

    /** The groups of `toFlush` leave the registry; what each dropped so far is
        carried to its next generation. */
    method DiscardRetired(toFlush: seq<GroupRuntime>) returns (counts: map<int, nat>)
      requires Valid() && DistinctGroups(toFlush)
      requires forall r :: r in toFlush ==> r.config.id in registry && registry[r.config.id] == r && r.config.id !in producers
      modifies this`registry, owned
      ensures Valid() && Lapsed(old(States()), States(), true)
      ensures Cleared(old(registry), registry, old(States()), toFlush, counts)
    {
      ghost var before, states := registry, States();
      counts := map[];
      NothingLapsed(states, true);
      RegisteredOnce(Now(), homes);
      for i := 0 to |toFlush|
        invariant Valid() && Lapsed(states, States(), true) && Untouched(states)
        invariant forall k :: i <= k < |toFlush| ==> toFlush[k].config.id in registry && registry[toFlush[k].config.id] == toFlush[k]
        invariant Cleared(before, registry, states, toFlush[..i], counts)
      {
        ghost var now, running := States(), registry;
        RegisteredOnce(Now(), homes);
        assert KeptAt(Now(), homes, now, toFlush[i].queue);
        var dropped := Retire(toFlush[i]);
        RetireLapses(states, now, States(), toFlush[i].queue);
        ClearOneMore(before, running, registry, states, toFlush, i, counts, dropped);
        counts := counts[toFlush[i].config.id := dropped];
      }
      assert toFlush[..|toFlush|] == toFlush;
    }

    /** Step 1.5. A call that is dropped here leaves every row where it was. */
    method Vacate(
      toFlush: seq<GroupRuntime>, left: map<int, Carried>, script: seq<seq<Event>>,
      ghost before: Tables, ghost stops: set<int>, ghost heirs: set<int>, ghost groups: Plans.Groups)
      returns (alive: bool, rest: seq<seq<Event>>, carried: map<int, Carried>, ghost flushed: QueueStates, ghost wait: Wait)
      requires Valid() && Rooted(Now(), appliedGroups) && Placed(before, homes)
      requires Stopped(before, Now(), stops, heirs, groups, left) && Listed(Now(), stops, heirs, toFlush)
      modifies this`registry, owned
      ensures Valid() && Rooted(Now(), appliedGroups) && |rest| <= |script|
      ensures Lapsed(old(States()), flushed, producers == map[]) && Lapsed(flushed, States(), true)
      ensures forall q :: q in flushed ==> flushed[q].dropped <= U64_MAX
      ensures broken == old(broken) && producers == old(producers)
      ensures wait.tables == old(Now()) && wait.begun == old(WorldNow()) && flushed == EndOf(wait, script).states
      ensures WaitedFor(wait, MembersOf(toFlush), flushers, script, shutdownFlush, alive)
      ensures !alive ==> DRAIN_POLL * |script| < shutdownFlush && flushers != map[]
      ensures alive ==> DRAIN_POLL * (|script| - |rest|) < shutdownFlush + DRAIN_POLL
      ensures alive ==> Vacated(before, flushed, Now(), stops, heirs, groups, carried)
    {
      ghost var stopped := Now();
      carried := left;
      alive, rest, wait := FlushBeforeDiscard(toFlush, script);
      PollsBound(wait, MembersOf(toFlush), flushers, script, shutdownFlush, alive);
      flushed := States();
      NothingLapsed(flushed, true);
      CountsInRange(Now(), homes, flushed);
      if alive {
        ListedHaveNoProducer(before, stopped, homes, stops, heirs, groups, left, toFlush);
        var counts := DiscardRetired(toFlush);
        carried := WithCounts(left, counts);
        CountsCarryOn(before, homes, stopped, Now(), flushed, stops, heirs, groups, left, toFlush, counts);
        ClearedStay(stopped, Now(), appliedGroups, flushed, toFlush, counts);
      }
    }

    // --- Connections ------------------------------------------------------------------

    /** Step 2: stops the flushers of changed and vanished connections. */
    method StopConnections(ids: seq<int>, script: seq<seq<Event>>) returns (alive: bool, rest: seq<seq<Event>>)
      requires Valid()
      modifies this`flushers, owned
      ensures Valid() && Lapsed(old(States()), States(), producers == map[])
      ensures flushers.Keys <= old(flushers).Keys
      ensures !alive ==> |script| < |ids| && old(flushers) != map[]
      ensures alive ==> StoppedFlushers(old(flushers), flushers, ids)
    {
      ghost var start, before := States(), flushers;
      NothingLapsed(start, producers == map[]);
      alive, rest := true, script;
      for i := 0 to |ids|
        invariant Valid() && Lapsed(start, States(), producers == map[])
        invariant |script| - |rest| <= i && |rest| <= |script|
        invariant flushers.Keys <= before.Keys && StoppedFlushers(before, flushers, ids[..i])
      {
        ghost var states, running := States(), flushers;
        alive, rest := StopConnection(ids[i], rest);
        LapsedTransitive(start, states, States(), producers == map[]);
        StopOneFlusherMore(before, running, flushers, ids, i);
        if !alive {
          return;
        }
      }
      assert ids[..|ids|] == ids;
    }

    /** Stops the flusher of one connection, if there is one. */
    method StopConnection(id: int, script: seq<seq<Event>>) returns (alive: bool, rest: seq<seq<Event>>)
      requires Valid()
      modifies this`flushers, owned
      ensures Valid() && Lapsed(old(States()), States(), producers == map[])
      ensures flushers == old(flushers) - {id}
      ensures |script| - 1 <= |rest| <= |script| && (!alive ==> script == [] && id in old(flushers))
    {
      alive, rest := true, script;
      NothingLapsed(States(), producers == map[]);
      if id in flushers {
        flushers := flushers - {id};
        alive, rest := Await(rest);
      }
    }

    /** Step 3: builds the new and changed connections. */
    method StartConnections(starts: seq<ConnectionConfig>)
      requires Valid() && UniqueKeys(starts, ConnectionId)
      modifies this`flushers
      ensures Valid() && Built(old(flushers), flushers, starts)
    {
      ghost var before := flushers;
      for i := 0 to |starts|
        invariant Valid() && Built(before, flushers, starts[..i])
      {
        ghost var now := flushers;
        if Buildable(starts[i]) {
          flushers := flushers[starts[i].id := starts[i]];
        }
        BuildOneMore(before, now, flushers, starts, i);
      }
      assert starts[..|starts|] == starts;
    }

    /** Steps 2 and 3. */
    method Reconnect(plan: ConfigPlan, desired: SinkConfig, script: seq<seq<Event>>) returns (alive: bool)
      requires Valid() && desired.WellFormed() && IsPlan(plan, appliedGroups, appliedConnections, desired)
      modifies this`flushers, owned
      ensures Valid() && Lapsed(old(States()), States(), producers == map[])
      ensures !alive ==> flushers.Keys <= old(flushers).Keys
      ensures !alive ==> |script| < |appliedConnections| && old(flushers) != map[]
      ensures alive ==> Reconnected(old(flushers), appliedConnections, desired, flushers)
    {
      var rest;
      ghost var before := flushers;
      AscendingUnique(plan.connectionsToStop, Self);
      NoMoreThan(plan.connectionsToStop, appliedConnections);
      alive, rest := StopConnections(plan.connectionsToStop, script);
      if alive {
        ghost var left := flushers;
        AscendingUnique(plan.connectionsToStart, ConnectionId);
        StartConnections(plan.connectionsToStart);
        ReconnectedBy(plan, appliedConnections, appliedGroups, desired, before, left, flushers);
      }
    }

    // --- Starting groups --------------------------------------------------------------

    /** Why `start_group` refuses before it looks at the configuration. */
    function Refusal(g: GroupConfig, desired: SinkConfig): Option<Problem>
      reads this`flushers
    {
      if exists u :: u in desired.unavailable && u.id == g.connectionId then Some(ConnectionUnavailable)
      else if g.connectionId !in desired.Connections() then Some(MissingConnection)
      else if g.connectionId !in flushers then Some(MissingConnection)
      else None
    }

    /** The failing branch of `start_group`: an inherited queue is given up and
        counted. */
    method FailToStart(id: int, problem: Problem, carried: Carried) returns (dropped: nat)
      requires Valid() && id !in producers
      requires match carried
               case Dropped(count) => id !in registry && count <= U64_MAX
               case Runtime(runtime) => id in registry && registry[id] == runtime && runtime.config.id == id
      modifies this`broken, this`registry, owned
      ensures Owns() && id in broken && broken[id].problem == problem
      ensures registry == old(registry) - {id} && broken == old(broken)[id := BrokenGroup(problem, dropped)]
      ensures carried.Runtime? ==> carried.runtime.queue in old(States())
      ensures States() == match carried
                          case Dropped(_) => old(States())
                          case Runtime(runtime) => old(States())[runtime.queue := Discarded(old(States())[runtime.queue])]
      ensures dropped == CountIfFailed(carried, old(States())) <= U64_MAX
    {
      match carried {
        case Dropped(count) => dropped := count;
        case Runtime(runtime) =>
          assert PlacedAt(Now(), homes, id);
          dropped := Retire(runtime);
      }
      broken := broken[id := BrokenGroup(problem, dropped)];
    }

    /** `GroupRuntime::new`: a generation with a queue of its own that continues
        the count of dropped rows. */
    method NewRuntime(g: GroupConfig, count: nat) returns (runtime: GroupRuntime)
      requires Owns() && SetupProblem(g).None? && count <= U64_MAX
      modifies this`homes, this`owned
      ensures Owns() && Grown() && runtime in owned
      ensures runtime.config == g && runtime.queue !in old(homes) && homes == old(homes)[runtime.queue := Home(g.id, Destination(g))]
      ensures States() == old(States())[runtime.queue := Queue([], 0, queueMaxRows, count)]
    {
      var queue := new RowQueue.WithDropped(queueMaxRows, count);
      runtime := new GroupRuntime.WithQueue(g, queue);
      homes := homes[queue := Home(g.id, Destination(g))];
      owned := owned + {runtime, queue};
    }

    /** The starting branch of `start_group`: the inherited generation, or one with a
        queue of its own. */
    method Launch(g: GroupConfig, carried: Carried)
      requires Valid() && Fits(Now(), g, carried) && SetupProblem(g).None?
      modifies this`registry, this`producers, this`broken, this`homes, this`owned
      ensures Owns() && Grown() && HomesKept(old(homes), homes)
      ensures StartDone(old(Now()), Now(), old(States()), States(), g, carried, true, queueMaxRows)
      ensures g.id in registry && HasHome(registry[g.id], homes, g.id)
    {
      assert PlacedAt(Now(), homes, g.id);
      if carried.Runtime? {
        Enlist(carried.runtime);
      } else {
        var runtime := NewRuntime(g, carried.count);
        Enlist(runtime);
      }
    }

    method Enlist(runtime: GroupRuntime)
      requires Owns() && runtime in owned
      modifies this`registry, this`producers, this`broken
      ensures Owns() && States() == old(States())
      ensures Now() == Tables(old(registry)[runtime.config.id := runtime], old(producers)[runtime.config.id := runtime],
                              old(broken) - {runtime.config.id})
    {
      broken := broken - {runtime.config.id};
      producers := producers[runtime.config.id := runtime];
      registry := registry[runtime.config.id := runtime];
    }

    /** `start_group`. It starts the group exactly if the connection has a flusher
        and the configuration can be set up. */
    method StartGroup(g: GroupConfig, desired: SinkConfig, carried: Carried)
      requires Valid() && Fits(Now(), g, carried) && Served(flushers, desired)
      modifies this`registry, this`producers, this`broken, this`homes, this`owned, owned
      ensures Valid() && Grown() && HomesKept(old(homes), homes)
      ensures StartDone(old(Now()), Now(), old(States()), States(), g, carried, CanStart(g, flushers), queueMaxRows)
      ensures g.id in broken ==>
                var problem := broken[g.id].problem;
                && (problem == ConnectionUnavailable <==> exists u :: u in desired.unavailable && u.id == g.connectionId)
                && (problem.Setup? <==> g.connectionId in flushers)
                && (problem.Setup? ==> Some(problem.error) == SetupProblem(g))
    {
      ghost var t, before, states := Now(), homes, States();
      assert PlacedAt(t, homes, g.id) && ServedAt(flushers, desired, g.connectionId);
      var refusal := Refusal(g, desired);
      var problem := SetupProblem(g);
      if refusal.Some? {
        var _ := FailToStart(g.id, refusal.value, carried);
      } else if problem.Some? {
        var _ := FailToStart(g.id, Setup(problem.value), carried);
      } else {
        Launch(g, carried);
      }
      StartKeepsPlaces(t, Now(), before, homes, states, States(), g, carried, CanStart(g, flushers), queueMaxRows);
    }

    /** What the loop over `groups_to_start` keeps, once the groups `done` are started. */
    ghost predicate Starting(
      before: Tables, made: Homes, states: QueueStates, done: set<int>, groups: Plans.Groups, carried: map<int, Carried>)
      reads this, homes.Keys
    {
      && Valid() && HomesKept(made, homes) && Lapsed(states, States(), true)
      && Started(before, Now(), done, groups, flushers, carried)
      && Counted(states, Now(), States(), done, carried)
    }

    /** One round of the loop over `groups_to_start`. */
    method StartNext(
      g: GroupConfig, desired: SinkConfig, carried: map<int, Carried>, ghost groups: Plans.Groups, ghost before: Tables,
      ghost made: Homes, ghost states: QueueStates, ghost done: set<int>)
      requires Starting(before, made, states, done, groups, carried)
      requires Served(flushers, desired) && g.id !in done && FollowsAt(before, groups, carried, g)
      modifies this`registry, this`producers, this`broken, this`homes, this`owned, owned
      ensures Starting(before, made, states, done + {g.id}, groups, carried) && Grown()
    {
      ghost var t, now, places := Now(), States(), homes;
      assert StartedAt(before, t, done, groups, flushers, carried, g.id);
      RegisteredOnce(t, places);
      NeverBoth(t, places);
      CountsInRange(t, places, now);
      LapsedLoud(states, now);
      StartGroup(g, desired, CarriedFor(carried, g.id));
      StartOneMore(before, t, Now(), done, groups, flushers, carried, g);
      CountOneMore(states, t, now, Now(), States(), places, done, carried, g, CanStart(g, flushers), queueMaxRows);
      StartLapses(t, Now(), now, States(), g, CarriedFor(carried, g.id), CanStart(g, flushers), queueMaxRows, true);
      LapsedTransitive(states, now, States(), true);
    }

    /** Step 4 of `apply_plan`. */
    method StartGroups(starts: seq<GroupConfig>, desired: SinkConfig, carried: map<int, Carried>, ghost groups: Plans.Groups)
      requires Valid() && Served(flushers, desired) && UniqueKeys(starts, GroupId)
      requires forall g :: g in starts ==> FollowsAt(Now(), groups, carried, g)
      modifies this`registry, this`producers, this`broken, this`homes, this`owned, owned
      ensures Starting(old(Now()), old(homes), old(States()), GroupIds(starts), groups, carried) && Grown()
    {
      ghost var before, made, states, done := Now(), homes, States(), {};
      NothingLapsed(states, true);
      NothingStarted(before, groups, flushers, carried, states);
      for i := 0 to |starts|
        invariant Grown() && done == GroupIds(starts[..i])
        invariant Starting(before, made, states, done, groups, carried)
      {
        NextGroup(starts, i);
        StartNext(starts[i], desired, carried, groups, before, made, states, done);
        done := done + {starts[i].id};
      }
      assert starts[..|starts|] == starts;
    }

    // --- `apply_plan` ---------------------------------------------------------------

    /** Steps 1 and 1.5. */
    method Evacuate(plan: ConfigPlan, desired: SinkConfig, script: seq<seq<Event>>)
      returns (alive: bool, rest: seq<seq<Event>>, carried: map<int, Carried>, ghost flushed: QueueStates, ghost wait: Wait)
      requires Resumable() && desired.WellFormed() && IsPlan(plan, appliedGroups, appliedConnections, desired)
      modifies this`registry, this`producers, this`broken, this`owned, owned
      ensures Valid() && Grown() && Rooted(Now(), appliedGroups) && |rest| <= |script|
      ensures old(producers) == map[] ==> producers == map[]
      ensures Lapsed(old(States()), flushed, old(producers) == map[]) && Lapsed(flushed, States(), old(producers) == map[])
      ensures forall q :: q in flushed ==> flushed[q].dropped <= U64_MAX
      ensures FlushedFirst(wait, flushed, old(WorldNow()), old(Retired(desired)), flushers, script, shutdownFlush, alive)
      ensures !alive ==> flushers != map[] && DRAIN_POLL * |script| < shutdownFlush
      ensures alive ==> DRAIN_POLL * (|script| - |rest|) < shutdownFlush + DRAIN_POLL
      ensures Forgotten(old(broken), broken, IdSet(plan.groupsToStop))
      ensures alive ==> Vacated(old(Now()), flushed, Now(), IdSet(plan.groupsToStop), old(Heirs(desired)), desired.Groups(), carried)
    {
      ghost var before, states, stops, heirs, groups := Now(), States(), IdSet(plan.groupsToStop), Heirs(desired), desired.Groups();
      ghost var world, retired := WorldNow(), Retired(desired);
      var left, toFlush := Withdraw(plan, desired);
      ListedAreRetired(before, homes, Now(), plan, appliedGroups, appliedConnections, desired, left, toFlush);
      assert forall r :: r in toFlush ==> Lookup(Statuses(), r.config.id) == Lookup(world.statuses, r.config.id);
      StoppedStaysQuiet(before, Now(), stops, heirs, groups, left);
      StoppedForgets(before, Now(), stops, heirs, groups, left);
      ghost var loud := producers == map[];
      alive, rest, carried, flushed, wait := Vacate(toFlush, left, script, before, stops, heirs, groups);
      assert forall r :: r in retired ==> BeganAt(wait, world, r);
      LapsedWeaken(states, flushed, loud, before.producers == map[]);
      LapsedWeaken(flushed, States(), true, before.producers == map[]);
    }

    /** Steps 1 to 3, with all the awaits. */
    method Prepare(plan: ConfigPlan, desired: SinkConfig, script: seq<seq<Event>>)
      returns (alive: bool, carried: map<int, Carried>, ghost flushed: QueueStates, ghost wait: Wait)
      requires Resumable() && desired.WellFormed() && IsPlan(plan, appliedGroups, appliedConnections, desired)
      modifies this`registry, this`producers, this`broken, this`flushers, this`owned, owned
      ensures Valid() && Grown() && Rooted(Now(), appliedGroups)
      ensures Lapsed(old(States()), flushed, old(producers) == map[]) && Lapsed(flushed, States(), old(producers) == map[])
      ensures forall q :: q in flushed ==> flushed[q].dropped <= U64_MAX
      ensures FlushedFirst(wait, flushed, old(WorldNow()), old(Retired(desired)), old(flushers), script, shutdownFlush, alive)
      ensures !alive ==> flushers.Keys <= old(flushers).Keys
      ensures !alive ==> old(flushers) != map[] && DRAIN_POLL * |script| < shutdownFlush + DRAIN_POLL * (|appliedConnections| + 1)
      ensures Forgotten(old(broken), broken, IdSet(plan.groupsToStop))
      ensures alive ==> Reconnected(old(flushers), appliedConnections, desired, flushers)
      ensures alive ==> Vacated(old(Now()), flushed, Now(), IdSet(plan.groupsToStop), old(Heirs(desired)), desired.Groups(), carried)
    {
      ghost var quiet := producers == map[];
      var rest;
      alive, rest, carried, flushed, wait := Evacuate(plan, desired, script);
      if alive {
        ghost var states, loud := States(), producers == map[];
        alive := Reconnect(plan, desired, rest);
        LapsedWeaken(states, States(), loud, quiet);
        LapsedTransitive(flushed, states, States(), quiet);
      }
    }

    /** Step 4 and the last lines of `apply_plan`, seen from the tables the plan found. */
    method Install(
      plan: ConfigPlan, desired: SinkConfig, carried: map<int, Carried>, ghost before: Tables, ghost states: QueueStates, ghost flushed: QueueStates)
      requires Valid() && Served(flushers, desired) && desired.WellFormed() && IsPlan(plan, appliedGroups, appliedConnections, desired)
      requires Rooted(before, appliedGroups) && Placed(before, homes) && homes.Keys == states.Keys
      requires Lapsed(states, flushed, false) && Lapsed(flushed, States(), false) && forall q :: q in flushed ==> flushed[q].dropped <= U64_MAX
      requires Vacated(before, flushed, Now(), IdSet(plan.groupsToStop), HeirsOf(before, appliedGroups, appliedConnections, desired), desired.Groups(), carried)
      modifies this`registry, this`producers, this`broken, this`homes, this`owned, owned
      ensures Valid() && Grown() && HomesKept(old(homes), homes) && Lapsed(old(States()), States(), true)
      ensures Reconfigured(before, Now(), appliedGroups, appliedConnections, desired, flushers)
      ensures CarriesCounts(before, states, flushed, Now(), States(), appliedGroups, appliedConnections, desired)
    {
      ghost var vacated, ready, places, groups := Now(), States(), homes, desired.Groups();
      ghost var heirs := HeirsOf(before, appliedGroups, appliedConnections, desired);
      FollowersReady(before, places, flushed, vacated, plan, appliedGroups, appliedConnections, desired, heirs, carried);
      AscendingUnique(plan.groupsToStart, GroupId);
      StartGroups(plan.groupsToStart, desired, carried, groups);
      PlanDone(before, places, flushed, vacated, Now(), plan, appliedGroups, appliedConnections, desired, heirs, carried, flushers);
      LapsedTransitive(states, flushed, ready, false);
      LapsedLoud(ready, States());
      LapsedTransitive(states, ready, States(), false);
      CountsDone(before, places, states, flushed, vacated, ready, Now(), States(), plan, appliedGroups, appliedConnections, desired, heirs, carried, flushers);
    }

    /** `apply_plan`. Dropped at any await it leaves every row in a registered
        group, ready for `Shutdown`; it forgets the broken groups it was to restart.
        Completed, every desired group runs or is broken, with the counts of before,
        and the flushers are exactly those left and those built. */
    method ApplyPlan(desired: SinkConfig, script: seq<seq<Event>>) returns (completed: bool, ghost flushed: QueueStates, ghost wait: Wait)
      requires Resumable() && desired.WellFormed()
      modifies this, owned
      ensures Resumable() && Grown() && HomesKept(old(homes), homes)
      ensures Lapsed(old(States()), flushed, old(producers) == map[]) && Lapsed(flushed, States(), old(producers) == map[])
      ensures FlushedFirst(wait, flushed, old(WorldNow()), old(Retired(desired)), old(flushers), script, shutdownFlush, completed)
      ensures !completed ==>
                && old(flushers) != map[] && DRAIN_POLL * |script| < shutdownFlush + DRAIN_POLL * (|old(appliedConnections)| + 1)
                && appliedGroups == old(appliedGroups) && appliedConnections == old(appliedConnections)
                && Forgotten(old(broken), broken, set id | id in old(appliedGroups) && StopsGroup(old(appliedGroups), old(appliedConnections), desired, id))
      ensures completed ==>
                && appliedGroups == desired.Groups() && appliedConnections == desired.Connections()
                && Applied(old(Now()), old(States()), old(flushers), flushed, Now(), States(), flushers, old(appliedGroups), old(appliedConnections), desired)
                && (old(InStep()) ==> InStep())
    {
      ghost var before, states, quiet, connected := Now(), States(), producers == map[], flushers;
      var plan := PlanChanges(appliedGroups, appliedConnections, desired);
      StopsOfPlan(plan, appliedGroups, appliedConnections, desired);
      var carried;
      completed, carried, flushed, wait := Prepare(plan, desired, script);
      if completed {
        Conclude(plan, desired, carried, before, states, flushed, connected, quiet);
      }
    }

    method Conclude(
      plan: ConfigPlan, desired: SinkConfig, carried: map<int, Carried>, ghost before: Tables, ghost states: QueueStates, ghost flushed: QueueStates,
      ghost connected: Connections, ghost quiet: bool)
      requires Valid() && desired.WellFormed() && IsPlan(plan, appliedGroups, appliedConnections, desired) && Keyed(appliedGroups, appliedConnections)
      requires connected.Keys <= appliedConnections.Keys && Reconnected(connected, appliedConnections, desired, flushers)
      requires Rooted(before, appliedGroups) && Placed(before, homes) && homes.Keys == states.Keys
      requires Lapsed(states, flushed, quiet) && Lapsed(flushed, States(), quiet) && forall q :: q in flushed ==> flushed[q].dropped <= U64_MAX
      requires Vacated(before, flushed, Now(), IdSet(plan.groupsToStop), HeirsOf(before, appliedGroups, appliedConnections, desired), desired.Groups(), carried)
      modifies this`registry, this`producers, this`broken, this`homes, this`owned, this`appliedGroups, this`appliedConnections, owned
      ensures Resumable() && Grown() && HomesKept(old(homes), homes) && Lapsed(flushed, States(), quiet)
      ensures appliedGroups == desired.Groups() && appliedConnections == desired.Connections()
      ensures Applied(before, states, connected, flushed, Now(), States(), flushers, old(appliedGroups), old(appliedConnections), desired)
      ensures Installed(before, old(appliedGroups), old(appliedConnections)) && Matched(connected, old(appliedConnections)) ==> InStep()
    {
      ghost var ready := States();
      LapsedWeaken(states, flushed, quiet, false);
      LapsedWeaken(flushed, ready, quiet, false);
      Complete(plan, desired, carried, before, states, flushed, connected);
      LapsedWeaken(ready, States(), true, quiet);
      LapsedTransitive(flushed, ready, States(), quiet);
    }

    method Complete(
      plan: ConfigPlan, desired: SinkConfig, carried: map<int, Carried>, ghost before: Tables, ghost states: QueueStates, ghost flushed: QueueStates,
      ghost connected: Connections)
      requires Valid() && desired.WellFormed() && IsPlan(plan, appliedGroups, appliedConnections, desired) && Keyed(appliedGroups, appliedConnections)
      requires connected.Keys <= appliedConnections.Keys && Reconnected(connected, appliedConnections, desired, flushers)
      requires Rooted(before, appliedGroups) && Placed(before, homes) && homes.Keys == states.Keys
      requires Lapsed(states, flushed, false) && Lapsed(flushed, States(), false) && forall q :: q in flushed ==> flushed[q].dropped <= U64_MAX
      requires Vacated(before, flushed, Now(), IdSet(plan.groupsToStop), HeirsOf(before, appliedGroups, appliedConnections, desired), desired.Groups(), carried)
      modifies this`registry, this`producers, this`broken, this`homes, this`owned, this`appliedGroups, this`appliedConnections, owned
      ensures Resumable() && Grown() && HomesKept(old(homes), homes) && Lapsed(old(States()), States(), true)
      ensures appliedGroups == desired.Groups() && appliedConnections == desired.Connections()
      ensures Reconfigured(before, Now(), old(appliedGroups), old(appliedConnections), desired, flushers)
      ensures CarriesCounts(before, states, flushed, Now(), States(), old(appliedGroups), old(appliedConnections), desired)
      ensures Installed(before, old(appliedGroups), old(appliedConnections)) && Matched(connected, old(appliedConnections)) ==> InStep()
    {
      ServedAgain(connected, appliedConnections, desired, flushers);
      Install(plan, desired, carried, before, states, flushed);
      StaysInStep(before, Now(), appliedGroups, appliedConnections, desired, connected, flushers);
      Adopt(desired.Groups(), desired.Connections());
    }

    /** The last lines of `apply_plan`. */
    method Adopt(groups: Plans.Groups, connections: Connections)
      requires Valid() && Keyed(groups, connections) && Rooted(Now(), groups) && flushers.Keys <= connections.Keys
      modifies this`appliedGroups, this`appliedConnections
      ensures Resumable() && appliedGroups == groups && appliedConnections == connections
    {
      appliedGroups, appliedConnections := groups, connections;
    }

    // --- Status -----------------------------------------------------------------

    /** What a status push says about group `id`. */
    function EntryOf(id: int): StatusEntry
      requires id in registry || id in broken
      reads this, if id in registry then {registry[id], registry[id].queue} else {}
    {
      if id in registry then
        var r := registry[id];
        StatusEntry(id, r.state, |r.queue.rows|, r.queue.dropped, r.lastFlushAt, if r.lastError.Some? then Some(Said(r.lastError.value)) else None)
      else StatusEntry(id, Error, 0, broken[id].dropped, None, Some(Found(broken[id].problem)))
    }

    /** The entry tells of a running group what its status and its queue are, of a broken
        one why, and of both the count that is kept for them. */
    ghost predicate Tells(e: StatusEntry)
      reads this, homes.Keys, registry.Values, set id | id in registry :: registry[id].queue
    {
      && e.dropped == Reported(Now(), States(), e.id)
      && (e.id in registry ==>
            var r := registry[e.id];
            && e.state == r.state && e.queued == |r.queue.rows| && e.dropped == r.queue.dropped && e.lastFlushAt == r.lastFlushAt
            && e.error == if r.lastError.Some? then Some(Said(r.lastError.value)) else None)
      && (e.id in broken ==>
            && e.state == Error && e.queued == 0 && e.dropped == broken[e.id].dropped && e.lastFlushAt == None
            && e.error == Some(Found(broken[e.id].problem)))
    }

    lemma EntryTells(id: int)
      requires Valid() && (id in registry || id in broken)
      ensures Tells(EntryOf(id))
    {
      assert PlacedAt(Now(), homes, id);
    }

    /** `status_body`: each group once, in the order of the ids, with the length and the
        count of its own queue; a broken group has no rows, and the count it left. */
    method StatusBody() returns (entries: seq<StatusEntry>)
      requires Valid()
      ensures Ascending(entries, EntryId)
      ensures (set e | e in entries :: e.id) == registry.Keys + broken.Keys
      ensures forall e :: e in entries ==> Tells(e)
      ensures forall id :: id in registry || id in broken ==> EntryOf(id) in entries
      ensures forall e :: e in entries ==> (e.id in registry || e.id in broken) && e == EntryOf(e.id)
    {
      NeverBoth(Now(), homes);
      var running := EntriesFor(registry.Keys);
      var failed := EntriesFor(broken.Keys);
      ConcatUnique(running, failed, EntryId);
      entries := SortByKey(running + failed, EntryId);
      forall e | e in entries ensures Tells(e) {
        EntryTells(e.id);
      }
      forall id | id in registry || id in broken ensures id in set e | e in entries :: e.id {
        assert EntryOf(id) in entries && EntryOf(id).id == id;
      }
    }

    method EntriesFor(ids: set<int>) returns (entries: seq<StatusEntry>)
      requires ids <= registry.Keys + broken.Keys
      ensures UniqueKeys(entries, EntryId)
      ensures forall id :: id in ids ==> EntryOf(id) in entries
      ensures forall e :: e in entries ==> e.id in ids && e == EntryOf(e.id)
    {
      entries := [];
      var pending := ids;
      while pending != {}
        invariant pending <= ids && UniqueKeys(entries, EntryId)
        invariant forall id :: id in ids && id !in pending ==> EntryOf(id) in entries
        invariant forall e :: e in entries ==> e.id in ids && e.id !in pending && e == EntryOf(e.id)
      {
        EmptyOrInhabited(pending);
        var id :| id in pending;
        AppendUnique(entries, EntryOf(id), EntryId);
        entries := entries + [EntryOf(id)];
        pending := pending - {id};
      }
    }

    // --- Shutdown ---------------------------------------------------------------

    /** The wait for the rows that are left: at most `shutdownFlush`, and not past
        the deadline; no poll is made once every queue is empty. */
    method Drain(request: StopRequest, start: int, polls: seq<seq<Event>>) returns (now: int, ghost polled: nat)
      requires Valid() && producers == map[]
      modifies owned
      ensures Valid() && Shrunk(old(States()), States())
      ensures now == start + DRAIN_POLL * polled && WorldNow() == WorldAfter(Now(), old(WorldNow()), polls, polled)
      ensures DrainedBy(request, start, shutdownFlush, Now(), old(WorldNow()), polls, polled)
      ensures start <= now <= start + shutdownFlush + DRAIN_POLL
      ensures InBudget(request, start, now, DRAIN_POLL)
      ensures now < start + shutdownFlush && !(request.OsShutdown? && now >= request.deadline) ==>
                forall id :: id in registry ==> registry[id].queue.rows == []
    {
      ghost var begun, world := States(), WorldNow();
      NothingShrunk(begun);
      now, polled := start, 0;
      var flushEnd := match request case Graceful => start + shutdownFlush case OsShutdown(deadline) => Min(start + shutdownFlush, deadline);
      var count := 0;
      var queued := AnyQueued();
      while now < flushEnd && queued
        invariant Valid() && Shrunk(begun, States())
        invariant count == polled && now == start + DRAIN_POLL * polled && WorldNow() == WorldAfter(Now(), world, polls, polled)
        invariant queued <==> SomeQueued(Now(), WorldNow())
        invariant forall k: nat :: k < polled ==> PollNeeded(request, start, shutdownFlush, Now(), world, polls, k)
        decreases flushEnd - now
      {
        assert PollNeeded(request, start, shutdownFlush, Now(), world, polls, polled);
        queued := PollOnce(polls, count, begun, world);
        polled, count := polled + 1, count + 1;
        now := now + DRAIN_POLL;
      }
      DrainsInBudget(request, start, shutdownFlush, Now(), world, polls, polled);
      RegisteredOnce(Now(), homes);
    }

    method PollOnce(polls: seq<seq<Event>>, k: nat, ghost begun: QueueStates, ghost world: World) returns (queued: bool)
      requires Valid() && producers == map[] && Shrunk(begun, States()) && WorldNow() == WorldAfter(Now(), world, polls, k)
      modifies owned
      ensures Valid() && Shrunk(begun, States()) && WorldNow() == WorldAfter(Now(), world, polls, k + 1)
      ensures queued <==> SomeQueued(Now(), WorldNow())
    {
      ghost var states := States();
      Drift(if k < |polls| then polls[k] else []);
      ShrunkTransitive(begun, states, States());
      queued := AnyQueued();
    }

    method AnyQueued() returns (any: bool)
      requires Valid()
      ensures any <==> exists id :: id in registry && registry[id].queue.rows != []
      ensures any <==> SomeQueued(Now(), WorldNow())
    {
      RegisteredOnce(Now(), homes);
      any := false;
      var pending := registry.Keys;
      while pending != {}
        invariant pending <= registry.Keys
        invariant any <==> exists id :: id in registry && id !in pending && registry[id].queue.rows != []
      {
        EmptyOrInhabited(pending);
        var id :| id in pending;
        pending := pending - {id};
        any := any || registry[id].queue.rows != [];
      }
    }

    method StopOneFlusher(request: StopRequest, start: int, end: FlusherEnd) returns (now: int, stopped: bool)
      requires Valid() && producers == map[]
      modifies owned
      ensures Valid() && Shrunk(old(States()), States())
      ensures now == start + StopTime(Left(request, start, FLUSHER_STOP_TIMEOUT), end)
      ensures stopped <==> EndsWithin(Left(request, start, FLUSHER_STOP_TIMEOUT), end)
    {
      Drift(end.events);
      now, stopped := StopFlusher(start, PhaseLimit(Remaining(request, start), FLUSHER_STOP_TIMEOUT), end);
    }

    /** Stops every flusher, in no particular order. An OS shutdown notes whether one
        was cut short. */
    method StopFlushers(request: StopRequest, start: int, ends: map<int, FlusherEnd>) returns (now: int, clean: bool, ghost order: seq<int>)
      requires Valid() && producers == map[]
      modifies this`flushers, owned
      ensures Valid() && flushers == map[] && Shrunk(old(States()), States())
      ensures OrderOf(order, old(flushers).Keys) && |order| == |old(flushers)|
      ensures now == FlushersStopBy(request, start, order, ends)
      ensures clean <==> request.Graceful? || StopCleanly(request, start, order, ends)
    {
      ghost var begun, all := States(), flushers.Keys;
      NothingShrunk(begun);
      var pending := flushers.Keys;
      flushers, now, clean, order := map[], start, true, [];
      while pending != {}
        invariant Valid() && flushers == map[] && Shrunk(begun, States())
        invariant pending <= all && OrderOf(order, all - pending) && |order| + |pending| == |all|
        invariant now == FlushersStopBy(request, start, order, ends)
        invariant clean <==> request.Graceful? || StopCleanly(request, start, order, ends)
      {
        EmptyOrInhabited(pending);
        var c :| c in pending;
        pending := pending - {c};
        ghost var states := States();
        var done;
        now, done := StopOneFlusher(request, now, EndFor(ends, c));
        ShrunkTransitive(begun, states, States());
        StopOneLater(request, start, order, ends, c);
        order := order + [c];
        clean := clean && (done || request.Graceful?);
      }
    }

    /** `discard_queue`. */
    method DiscardQueue(id: int) returns (count: nat)
      requires Valid() && id in registry
      modifies registry[id].queue
      ensures Valid() && count == old(|registry[id].queue.rows|) && registry[id].queue in old(States())
      ensures States() == old(States())[registry[id].queue := Discarded(old(States())[registry[id].queue])]
    {
      ghost var states, q := States(), registry[id].queue;
      assert PlacedAt(Now(), homes, id) && KeptAt(Now(), homes, states, q);
      DiscardDescends(states[q]);
      count := registry[id].queue.DiscardAll();
      OneKept(Now(), homes, states, States(), q);
    }

    /** Counts what could not be sent. */
    method DiscardEverything() returns (lost: nat)
      requires Valid()
      modifies owned
      ensures Valid()
      ensures DiscardedAll(old(States()), States())
      ensures lost == TotalRows(old(States()))
    {
      lost := 0;
      ghost var begun := States();
      var pending := registry.Keys;
      NothingDiscarded(Now(), homes, begun);
      while pending != {}
        invariant Valid() && pending <= registry.Keys
        invariant DiscardedSoFar(begun, States(), homes, pending)
        invariant lost + TotalRows(States()) == TotalRows(begun)
      {
        EmptyOrInhabited(pending);
        var id :| id in pending;
        ghost var states, left := States(), pending;
        assert PlacedAt(Now(), homes, id);
        var count := DiscardQueue(id);
        lost := lost + count;
        pending := pending - {id};
        DiscardOneMore(Now(), begun, states, States(), homes, left, id);
      }
      TotalIsZero(States());
    }

    /** Whether the last status push is sent, and what follows a 422 then. */
    method FinalPush(request: StopRequest, start: int, world: Surroundings) returns (now: int, delivered: bool, sent: bool)
      requires Resumable() && flushers == map[] && producers == map[]
      requires world.refetched.Some? ==> world.refetched.value.WellFormed()
      requires request.Graceful? ==> world.push.Some?
      modifies this, owned
      ensures Resumable() && Grown() && HomesKept(old(homes), homes) && Lapsed(old(States()), States(), true)
      ensures sent <==> request.Graceful? || start < request.deadline
      ensures world.refetched.None? || !sent ==> Now() == old(Now()) && flushers == map[] && homes == old(homes) && States() == old(States())
      ensures world.refetched.Some? && sent ==> RunsAfter(old(appliedGroups), old(appliedConnections), world.refetched.value, producers)
      ensures delivered <==> request.Graceful? || Over(Left(request, start, OS_STATUS_PUSH_CAP), world.push)
      ensures now == start + if request.Graceful? then world.push.value else WaitedAtMost(Left(request, start, OS_STATUS_PUSH_CAP), world.push)
    {
      var limit := match request case Graceful => world.push.value
                                 case OsShutdown(_) => PhaseLimit(Remaining(request, start), OS_STATUS_PUSH_CAP);
      sent := request.Graceful? || limit != 0;
      delivered := request.Graceful? || (limit != 0 && InTime(limit, world.push));
      now := start + Waited(limit, world.push);
      NothingLapsed(States(), true);
      if world.refetched.Some? && sent {
        Refetch(world.refetched.value);
      }
    }

    /** The configuration is applied once more, without flushers and producers: no
        step of it waits. */
    method Refetch(desired: SinkConfig)
      requires Resumable() && flushers == map[] && producers == map[] && desired.WellFormed()
      modifies this, owned
      ensures Resumable() && Grown() && HomesKept(old(homes), homes) && Lapsed(old(States()), States(), true)
      ensures RunsAfter(old(appliedGroups), old(appliedConnections), desired, producers)
    {
      ghost var before, states, groups, connections := Now(), States(), appliedGroups, appliedConnections;
      var completed;
      ghost var flushed;
      ghost var wait;
      completed, flushed, wait := ApplyPlan(desired, []);
      LapsedTransitive(states, flushed, States(), true);
      RefetchRuns(before, Now(), groups, connections, desired, flushers);
    }

    /** Step 2: an OS shutdown waits for the subscription only as long as it may. */
    method StopSubscription(request: StopRequest, start: int, subscription: Option<Option<nat>>) returns (now: int, ended: bool)
      requires request.Graceful? && subscription.Some? ==> subscription.value.Some?
      ensures now == start + SubscriptionTime(request, start, subscription)
      ensures ended <==> request.Graceful? || subscription.None? || Over(Left(request, start, OS_SUBSCRIPTION_STOP_CAP), subscription.value)
    {
      now, ended := start, true;
      if subscription.Some? {
        var limit := match request case Graceful => subscription.value.value
                                   case OsShutdown(_) => PhaseLimit(Remaining(request, now), OS_SUBSCRIPTION_STOP_CAP);
        ended := request.Graceful? || (limit != 0 && InTime(limit, subscription.value));
        now := now + Waited(limit, subscription.value);
      }
    }

    /** Steps 3 and 4: the queues drain, then the flushers are stopped. */
    method WindDown(request: StopRequest, start: int, world: Surroundings) returns (now: int, clean: bool, ghost course: Timeline)
      requires Valid() && producers == map[]
      modifies this`flushers, owned
      ensures Valid() && flushers == map[] && Shrunk(old(States()), States())
      ensures course.unsubscribed == start && course.left == States() && now == course.stopped
      ensures WoundDown(course, request, world, shutdownFlush, Now(), old(WorldNow()), old(flushers).Keys)
      ensures clean <==> request.Graceful? || WoundDownCleanly(course, request, world, Now(), old(WorldNow()))
      ensures start <= now <= start + shutdownFlush + DRAIN_POLL + StopAllowance(|old(flushers)|)
      ensures InBudget(request, start, now, DRAIN_POLL)
    {
      ghost var states := States();
      ghost var polls, order;
      var drained;
      drained, polls := Drain(request, start, world.polls);
      var queued := AnyQueued();
      var late := request.OsShutdown? && drained >= request.deadline && queued;
      ghost var middle := States();
      now, clean, order := StopFlushers(request, drained, world.ends);
      StopsInBudget(request, drained, order, world.ends);
      clean := clean && !late;
      ShrunkTransitive(states, middle, States());
      course := Timeline(start, polls, order, now, States());
    }

    /** Steps 3 to 5: afterwards every row was acknowledged or counted. */
    method EmptyQueues(request: StopRequest, start: int, world: Surroundings)
      returns (now: int, clean: bool, lost: nat, ghost course: Timeline)
      requires Resumable() && producers == map[]
      modifies this`flushers, owned
      ensures Resumable() && flushers == map[] && AllAccounted(old(States()), course.left, States(), lost)
      ensures course.unsubscribed == start && now == course.stopped
      ensures WoundDown(course, request, world, shutdownFlush, Now(), old(WorldNow()), old(flushers).Keys)
      ensures clean <==> request.Graceful? || WoundDownCleanly(course, request, world, Now(), old(WorldNow()))
      ensures start <= now <= start + shutdownFlush + DRAIN_POLL + StopAllowance(|old(flushers)|)
      ensures InBudget(request, start, now, DRAIN_POLL)
    {
      ghost var states := States();
      now, clean, course := WindDown(request, start, world);
      CountsInRange(Now(), homes, course.left);
      TotalIsZero(course.left);
      lost := DiscardEverything();
      EmptiedBy(states, course.left, States(), lost == 0);
    }

    method StopProducers()
      requires Resumable()
      modifies this`producers
      ensures Resumable() && Now() == old(Now()).(producers := map[])
      ensures States() == old(States()) && WorldNow() == old(WorldNow())
    {
      ghost var t := Now();
      producers := map[];
      QuietKeepsPlaces(t, Now(), homes, States(), appliedGroups);
    }

    /** Everything before the final push. */
    method WorkOff(request: StopRequest, start: int, world: Surroundings)
      returns (now: int, clean: bool, lost: nat, ghost course: Timeline)
      requires Resumable()
      requires request.Graceful? && world.subscription.Some? ==> world.subscription.value.Some?
      modifies this`producers, this`flushers, owned
      ensures Resumable() && Now() == old(Now()).(producers := map[]) && flushers == map[]
      ensures AllAccounted(old(States()), course.left, States(), lost)
      ensures Went(course, request, start, world, shutdownFlush, Now(), old(WorldNow()), old(flushers).Keys) && now == course.stopped
      ensures clean <==> request.Graceful? || NothingCutShort(course, request, start, world, Now(), old(WorldNow()))
      ensures start <= now && InBudget(request, start, now, DRAIN_POLL)
      ensures request.Graceful? ==>
                now <= start + Takes(world.subscription) + shutdownFlush + DRAIN_POLL + StopAllowance(|old(flushers)|)
    {
      StopProducers();
      now, clean, lost, course := WorkOffQuietly(request, start, world);
    }

    /** Steps 2 to 5. */
    method WorkOffQuietly(request: StopRequest, start: int, world: Surroundings)
      returns (now: int, clean: bool, lost: nat, ghost course: Timeline)
      requires Resumable() && producers == map[]
      requires request.Graceful? && world.subscription.Some? ==> world.subscription.value.Some?
      modifies this`flushers, owned
      ensures Resumable() && flushers == map[]
      ensures AllAccounted(old(States()), course.left, States(), lost)
      ensures Went(course, request, start, world, shutdownFlush, Now(), old(WorldNow()), old(flushers).Keys) && now == course.stopped
      ensures clean <==> request.Graceful? || NothingCutShort(course, request, start, world, Now(), old(WorldNow()))
      ensures start <= now && InBudget(request, start, now, DRAIN_POLL)
      ensures request.Graceful? ==>
                now <= start + Takes(world.subscription) + shutdownFlush + DRAIN_POLL + StopAllowance(|old(flushers)|)
    {
      var ended;
      now, ended := StopSubscription(request, start, world.subscription);
      now, clean, lost, course := EmptyQueues(request, now, world);
      clean := clean && ended;
    }

    /** `shutdown`. `completed` is what the log line of an OS shutdown says; `reported`
        are the queues as the final push finds them: every row was acknowledged or
        counted, and `lost` of them were counted. A producer runs afterwards exactly if
        the Hub answered that push with a configuration that restarts its group. */
    method Shutdown(request: StopRequest, start: int, world: Surroundings)
      returns (now: int, completed: bool, lost: nat, sent: bool, ghost reported: QueueStates, ghost course: Timeline)
      requires Resumable()
      requires world.refetched.Some? ==> world.refetched.value.WellFormed()
      requires request.Graceful? ==> world.push.Some? && (world.subscription.Some? ==> world.subscription.value.Some?)
      modifies this, owned
      ensures Resumable() && Grown() && HomesKept(old(homes), homes)
      ensures InBudget(request, start, now, DRAIN_POLL)
      ensures Went(course, request, start, world, shutdownFlush, old(Now()).(producers := map[]), old(WorldNow()), old(flushers).Keys)
      ensures completed <==>
                || request.Graceful?
                || (NothingCutShort(course, request, start, world, old(Now()).(producers := map[]), old(WorldNow()))
                    && Over(Left(request, course.stopped, OS_STATUS_PUSH_CAP), world.push))
      ensures completed && request.OsShutdown? ==>
                now <= request.deadline && forall c :: c in old(flushers) ==> c in world.ends && EndsWithin(FLUSHER_STOP_TIMEOUT, world.ends[c])
      ensures request.Graceful? ==>
                sent && now <= start + Takes(world.subscription) + shutdownFlush + DRAIN_POLL + StopAllowance(|old(flushers)|) + world.push.value
      ensures AllAccounted(old(States()), course.left, reported, lost)
      ensures AllEmpty(States()) && (forall q :: q in reported ==> q in States() && reported[q].dropped <= States()[q].dropped)
      ensures world.refetched.None? || !sent ==>
                && producers == map[] && flushers == map[] && homes == old(homes) && States() == reported
                && registry == old(registry) && broken == old(broken)
      ensures world.refetched.Some? && sent ==> RunsAfter(old(appliedGroups), old(appliedConnections), world.refetched.value, producers)
    {
      var clean, delivered;
      ghost var t, states := Now().(producers := map[]), WorldNow();
      now, clean, lost, course := WorkOff(request, start, world);
      reported := States();
      assert Now() == t;
      if StopCleanly(request, course.Drained(), course.order, world.ends) {
        CleanMeansEach(request, course.Drained(), course.order, world.ends);
      }
      now, delivered, sent := FinalPush(request, now, world);
      StillEmpty(reported, States());
      completed := clean && delivered;
    }

    /** One configuration after the other, until a call is dropped. The groups `ids`
        are in each of them. */
    method Reconfigure(rounds: seq<Round>, ghost ids: set<int>) returns (completed: bool)
      requires Settled()
      requires forall k :: 0 <= k < |rounds| ==> rounds[k].desired.WellFormed() && ids <= rounds[k].desired.Groups().Keys
      modifies this, owned
      ensures Resumable() && Grown() && HomesKept(old(homes), homes)
      ensures completed ==> Settled() && NoLower(old(Now()), old(States()), Now(), States(), ids)
      ensures completed && rounds != [] ==>
                var last := rounds[|rounds| - 1].desired; appliedGroups == last.Groups() && appliedConnections == last.Connections()
    {
      completed := true;
      ghost var before, states := Now(), States();
      for k := 0 to |rounds|
        invariant completed && Settled() && Grown() && HomesKept(old(homes), homes)
        invariant NoLower(before, states, Now(), States(), ids)
        invariant k > 0 ==> var last := rounds[k - 1].desired; appliedGroups == last.Groups() && appliedConnections == last.Connections()
      {
        ghost var begun, quiet := States(), producers == map[];
        Drift(rounds[k].between);
        NoLowerLapsed(before, states, Now(), begun, States(), quiet, ids);
        ghost var t, now, groups, connections := Now(), States(), appliedGroups, appliedConnections;
        ghost var flushed;
        ghost var wait;
        completed, flushed, wait := ApplyPlan(rounds[k].desired, rounds[k].script);
        if !completed {
          return;
        }
        NoLowerAfterPlan(before, states, t, now, flushed, Now(), States(), groups, connections, rounds[k].desired, ids);
      }
    }

    /** A whole run: configurations come in, the last one perhaps cut short by the
        stop request, and then the engine shuts down. Every queue ever made is empty,
        and a group that is in every configuration never reports a lower count. */
    method Run(rounds: seq<Round>, request: StopRequest, start: int, world: Surroundings, ghost ids: set<int>)
      returns (now: int, sent: bool, ghost completed: bool)
      requires Settled()
      requires forall k :: 0 <= k < |rounds| ==> rounds[k].desired.WellFormed() && ids <= rounds[k].desired.Groups().Keys
      requires world.refetched.Some? ==> world.refetched.value.WellFormed()
      requires request.Graceful? ==> world.push.Some? && (world.subscription.Some? ==> world.subscription.value.Some?)
      modifies this, owned
      ensures InBudget(request, start, now, DRAIN_POLL)
      ensures HomesKept(old(homes), homes) && AllEmpty(States())
      ensures world.refetched.None? || !sent ==>
                && producers == map[] && flushers == map[]
                && (completed ==> NoLower(old(Now()), old(States()), Now(), States(), ids))
    {
      var done := Reconfigure(rounds, ids);
      completed := done;
      ghost var t, states := Now(), States();
      CountsInRange(t, homes, states);
      var finished, lost;
      ghost var reported, course;
      now, finished, lost, sent, reported, course := Shutdown(request, start, world);
      if completed && (world.refetched.None? || !sent) {
        NoLowerShutDown(old(Now()), old(States()), t, states, Now(), reported, ids);
      }
    }

    // --- Which groups are served ------------------------------------------------------

    /** Between two configurations a running group has a flusher exactly if the
        connection it is configured with can be built, and then to that target. */
    lemma ServedIffBuildable(id: int)
      requires Settled() && id in registry
      ensures var c := registry[id].config.connectionId;
              && c in appliedConnections
              && (c in flushers <==> Buildable(appliedConnections[c]))
              && (c in flushers ==> flushers[c] == appliedConnections[c])
    {
      assert InstalledAt(Now(), appliedGroups, appliedConnections, id);
      assert MatchedAt(flushers, appliedConnections, registry[id].config.connectionId);
    }

    /** After a configuration was applied, from wherever the engine was, a group that
        was started by it has a flusher. */
    twostate lemma StartedAreServed(desired: SinkConfig, g: GroupConfig)
      requires Reconfigured(old(Now()), Now(), old(appliedGroups), old(appliedConnections), desired, flushers)
      requires desired.WellFormed() && g in desired.groups && StartsGroup(old(appliedGroups), old(appliedConnections), desired, g)
      ensures g.id in registry <==> g.connectionId in flushers && SetupProblem(g).None?
      ensures g.id in registry <==> g.id in producers
    {
      assert ReconfiguredAt(old(Now()), Now(), old(appliedGroups), old(appliedConnections), desired, flushers, g.id);
      assert desired.Groups()[GroupId(g)] == g;
    }
  }
}
