/** The tables of running and broken groups that `apply_plan` changes group by
    group, the queues behind them, and what each of its steps does to both
    (apps/banto-hub-sink/src/run.rs). */
module GroupTables {
  import opened Rows
  import opened RowQueues
  import opened Plans
  import opened Groups

  // --- Values ----------------------------------------------------------------

  datatype BrokenGroup = BrokenGroup(problem: Problem, dropped: nat)

  datatype Problem = ConnectionUnavailable | MissingConnection | Setup(error: SetupError)

  /** What the previous generation leaves to the next one. */
  datatype Carried = Dropped(count: nat) | Runtime(runtime: GroupRuntime)

  /** A queue is made for one group and one destination and keeps both. */
  datatype Home = Home(group: int, dest: Dest)

  type Homes = map<RowQueue, Home>

  type QueueStates = map<RowQueue, Queue>

  /** The three tables `apply_plan` changes group by group. */
  datatype Tables = Tables(registry: map<int, GroupRuntime>, producers: map<int, GroupRuntime>, broken: map<int, BrokenGroup>)

  function Lookup<T>(m: map<int, T>, id: int): Option<T> {
    if id in m then Some(m[id]) else None
  }

  ghost function IdSet(ids: seq<int>): set<int> { set id | id in ids }

  ghost function GroupIds(groups: seq<GroupConfig>): set<int> { set g | g in groups :: g.id }

  lemma NextId(ids: seq<int>, i: nat)
    requires UniqueKeys(ids, Self) && i < |ids|
    ensures ids[i] !in IdSet(ids[..i]) && IdSet(ids[..i + 1]) == IdSet(ids[..i]) + {ids[i]}
  {
    EarlierKeysDiffer(ids, i, Self);
  }

  lemma NextGroup(starts: seq<GroupConfig>, i: nat)
    requires UniqueKeys(starts, GroupId) && i < |starts|
    ensures starts[i].id !in GroupIds(starts[..i])
    ensures GroupIds(starts[..i + 1]) == GroupIds(starts[..i]) + {starts[i].id}
  {
    EarlierKeysDiffer(starts, i, GroupId);
  }

  // --- What holds at every await ---------------------------------------------

  /** A registered group has a queue of its own, made for its destination; only a
      registered group has a producer, and none is broken as well. */
  ghost predicate PlacedAt(t: Tables, homes: Homes, id: int) {
    && (id in t.registry ==> id !in t.broken && HasHome(t.registry[id], homes, id))
    && (id in t.producers ==> id in t.registry && t.producers[id] == t.registry[id])
    && (id in t.broken ==> t.broken[id].dropped <= U64_MAX)
  }

  ghost predicate HasHome(r: GroupRuntime, homes: Homes, id: int) {
    r.config.id == id && r.queue in homes && homes[r.queue] == Home(id, Destination(r.config))
  }

  ghost predicate Placed(t: Tables, homes: Homes) { forall id :: PlacedAt(t, homes, id) }

  ghost predicate Registered(t: Tables, homes: Homes, q: RowQueue) {
    q in homes && homes[q].group in t.registry && t.registry[homes[q].group].queue == q
  }

  /** A queue with rows in it belongs to a registered group. */
  ghost predicate KeptAt(t: Tables, homes: Homes, states: QueueStates, q: RowQueue) {
    q in states ==> states[q].Valid() && (states[q].rows != [] ==> Registered(t, homes, q))
  }

  ghost predicate Kept(t: Tables, homes: Homes, states: QueueStates) {
    forall q {:trigger KeptAt(t, homes, states, q)} :: q in states ==> KeptAt(t, homes, states, q)
  }

  /** Nobody lowers a count, and if all is `quiet` no queue gains a row. */
  ghost predicate LapsedAt(states: QueueStates, later: QueueStates, quiet: bool, q: RowQueue) {
    && (q in states ==> q in later && states[q].dropped <= later[q].dropped && (quiet && states[q].rows == [] ==> later[q].rows == []))
    && (quiet && q in later && q !in states ==> later[q].rows == [])
  }

  ghost predicate Lapsed(states: QueueStates, later: QueueStates, quiet: bool) {
    && states.Keys <= later.Keys
    && forall q {:trigger LapsedAt(states, later, quiet, q)} :: q in later ==> LapsedAt(states, later, quiet, q)
  }

  lemma LapsedTransitive(states: QueueStates, middle: QueueStates, later: QueueStates, quiet: bool)
    requires Lapsed(states, middle, quiet) && Lapsed(middle, later, quiet)
    ensures Lapsed(states, later, quiet)
  {
    forall q | q in later ensures LapsedAt(states, later, quiet, q) {
      assert LapsedAt(middle, later, quiet, q) && (q in middle ==> LapsedAt(states, middle, quiet, q));
    }
  }

  lemma NothingLapsed(states: QueueStates, quiet: bool)
    ensures Lapsed(states, states, quiet)
  {
    forall q | q in states ensures LapsedAt(states, states, quiet, q) {}
  }

  lemma OneLapsed(states: QueueStates, later: QueueStates, q: RowQueue, quiet: bool)
    requires q in states && later.Keys == states.Keys
    requires forall k :: k in states && k != q ==> later[k] == states[k]
    requires LapsedAt(states, later, quiet, q)
    ensures Lapsed(states, later, quiet)
  {
    forall k | k in later ensures LapsedAt(states, later, quiet, k) {}
  }

  /** One registered queue changed. */
  lemma OneKept(t: Tables, homes: Homes, states: QueueStates, later: QueueStates, q: RowQueue)
    requires Kept(t, homes, states) && q in states && later.Keys == states.Keys
    requires forall k :: k in states && k != q ==> later[k] == states[k]
    requires later[q].Valid() && (later[q].rows != [] ==> Registered(t, homes, q))
    ensures Kept(t, homes, later)
  {
    forall k | k in later ensures KeptAt(t, homes, later, k) {
      assert KeptAt(t, homes, states, k);
    }
  }

  lemma LapsedWeaken(states: QueueStates, later: QueueStates, quiet: bool, quieter: bool)
    requires Lapsed(states, later, quiet) && (quieter ==> quiet)
    ensures Lapsed(states, later, quieter)
  {
    forall q | q in later ensures LapsedAt(states, later, quieter, q) {
      assert LapsedAt(states, later, quiet, q);
    }
  }

  lemma LapsedLoud(states: QueueStates, later: QueueStates)
    requires Lapsed(states, later, true)
    ensures Lapsed(states, later, false)
  {
    forall q | q in later ensures LapsedAt(states, later, false, q) {
      assert LapsedAt(states, later, true, q);
    }
  }

  /** With the producers gone a queue only loses acknowledged rows from the front. */
  ghost predicate OnlyAcked(q: Queue, later: Queue) {
    && |later.rows| <= |q.rows|
    && later == q.(rows := q.rows[|q.rows| - |later.rows|..])
  }

  ghost predicate ShrunkAt(states: QueueStates, later: QueueStates, q: RowQueue) {
    q in states && q in later && OnlyAcked(states[q], later[q])
  }

  ghost predicate Shrunk(states: QueueStates, later: QueueStates) {
    && states.Keys == later.Keys
    && forall q {:trigger ShrunkAt(states, later, q)} :: q in states ==> ShrunkAt(states, later, q)
  }

  lemma OnlyAckedTransitive(q: Queue, middle: Queue, later: Queue)
    requires OnlyAcked(q, middle) && OnlyAcked(middle, later)
    ensures OnlyAcked(q, later)
  {
  }

  lemma ShrunkTransitive(states: QueueStates, middle: QueueStates, later: QueueStates)
    requires Shrunk(states, middle) && Shrunk(middle, later)
    ensures Shrunk(states, later)
  {
    forall q | q in states ensures ShrunkAt(states, later, q) {
      assert ShrunkAt(states, middle, q) && ShrunkAt(middle, later, q);
      OnlyAckedTransitive(states[q], middle[q], later[q]);
    }
  }

  lemma NothingShrunk(states: QueueStates)
    ensures Shrunk(states, states)
  {
    forall q | q in states ensures ShrunkAt(states, states, q) {}
  }

  lemma ShrunkLapsed(states: QueueStates, later: QueueStates)
    requires Shrunk(states, later)
    ensures Lapsed(states, later, true)
  {
    forall q | q in later ensures LapsedAt(states, later, true, q) {
      assert ShrunkAt(states, later, q);
    }
  }

  ghost predicate HomesKept(homes: Homes, later: Homes) {
    forall q :: q in homes ==> q in later && homes[q] == later[q]
  }

  // --- How many rows each group lost -----------------------------------------

  ghost function CountOf(q: RowQueue, states: QueueStates): nat { if q in states then states[q].dropped else 0 }

  /** The `dropped` a status push reports for a group. */
  ghost function Reported(t: Tables, states: QueueStates, id: int): nat {
    if id in t.registry then CountOf(t.registry[id].queue, states)
    else if id in t.broken then t.broken[id].dropped
    else 0
  }

  /** What was counted as dropped by the previous generation. */
  ghost function LeftBy(carried: Carried, states: QueueStates): nat {
    match carried
    case Dropped(count) => count
    case Runtime(runtime) => CountOf(runtime.queue, states)
  }

  // --- Stopping groups -------------------------------------------------------

  /** `start_group`'s precondition for handing a queue on, seen from the plan. */
  predicate Inherits(groups: Plans.Groups, connections: Connections, desired: SinkConfig, id: int) {
    && StopsGroup(groups, connections, desired, id)
    && id in desired.Groups()
    && Destination(desired.Groups()[id]) == Destination(groups[id])
    && SetupProblem(desired.Groups()[id]).None?
    && !StopsConnection(connections, desired, groups[id].connectionId)
  }

  ghost function HeirsOf(t: Tables, groups: Plans.Groups, connections: Connections, desired: SinkConfig): set<int> {
    set id | id in t.registry && Inherits(groups, connections, desired, id)
  }

  /** One group was stopped: its generation was succeeded on the same queue, is to
      be flushed, or had left a count. */
  ghost predicate StopsOne(
    t: Tables, later: Tables, id: int, next: Option<GroupConfig>, carries: bool, left: Option<Carried>, toFlush: Option<GroupRuntime>)
  {
    && later.producers == t.producers - {id}
    && later.broken == t.broken - {id}
    && (if id in t.registry && carries then
          && id in later.registry && later.registry == t.registry[id := later.registry[id]]
          && later.registry[id].queue == t.registry[id].queue && next == Some(later.registry[id].config)
          && left == Some(Runtime(later.registry[id])) && toFlush == None
        else if id in t.registry then
          later.registry == t.registry && left == None && toFlush == Some(t.registry[id])
        else
          && later.registry == t.registry && toFlush == None
          && left == if id in t.broken then Some(Dropped(t.broken[id].dropped)) else None)
  }

  lemma StopKeepsPlaces(
    t: Tables, later: Tables, homes: Homes, states: QueueStates, id: int, next: Option<GroupConfig>, carries: bool,
    left: Option<Carried>, toFlush: Option<GroupRuntime>)
    requires Placed(t, homes) && Kept(t, homes, states) && StopsOne(t, later, id, next, carries, left, toFlush)
    requires carries && id in t.registry ==> next.Some? && next.value.id == id && Destination(next.value) == Destination(t.registry[id].config)
    ensures Placed(later, homes) && Kept(later, homes, states)
  {
    forall k ensures PlacedAt(later, homes, k) {
      assert PlacedAt(t, homes, k);
    }
    forall q | q in states ensures KeptAt(later, homes, states, q) {
      assert KeptAt(t, homes, states, q);
    }
  }

  /** Group `id` once the groups `done` have been stopped. */
  ghost predicate StoppedAt(
    before: Tables, t: Tables, done: set<int>, heirs: set<int>, groups: Plans.Groups, carried: map<int, Carried>, id: int)
  {
    && Lookup(t.producers, id) == (if id in done then None else Lookup(before.producers, id))
    && Lookup(t.broken, id) == (if id in done then None else Lookup(before.broken, id))
    && (if id in done && id in heirs && id in before.registry then
          && id in t.registry && t.registry[id].queue == before.registry[id].queue
          && id in groups && t.registry[id].config == groups[id]
          && Lookup(carried, id) == Some(Runtime(t.registry[id]))
        else
          && Lookup(t.registry, id) == Lookup(before.registry, id)
          && Lookup(carried, id) == if id in done && id !in before.registry && id in before.broken then Some(Dropped(before.broken[id].dropped)) else None)
  }

  ghost predicate Stopped(
    before: Tables, t: Tables, done: set<int>, heirs: set<int>, groups: Plans.Groups, carried: map<int, Carried>)
  {
    forall id :: StoppedAt(before, t, done, heirs, groups, carried, id)
  }

  /** `toFlush` are the stopped groups that hand nothing on. */
  ghost predicate ListedAt(t: Tables, done: set<int>, heirs: set<int>, toFlush: seq<GroupRuntime>, id: int) {
    id in t.registry && id in done && id !in heirs ==> t.registry[id] in toFlush
  }

  ghost predicate Listed(t: Tables, done: set<int>, heirs: set<int>, toFlush: seq<GroupRuntime>) {
    && (forall r :: r in toFlush ==>
                      r.config.id in done && r.config.id !in heirs && r.config.id in t.registry && t.registry[r.config.id] == r)
    && (forall id :: ListedAt(t, done, heirs, toFlush, id))
    && DistinctGroups(toFlush)
  }

  ghost predicate DistinctGroups(runtimes: seq<GroupRuntime>) {
    forall i, j :: 0 <= i < j < |runtimes| ==> runtimes[i].config.id != runtimes[j].config.id
  }

  /** The broken groups that were stopped are no longer reported. */
  ghost predicate Forgotten(broken: map<int, BrokenGroup>, later: map<int, BrokenGroup>, stops: set<int>) {
    forall id :: Lookup(later, id) == if id in stops then None else Lookup(broken, id)
  }

  lemma StoppedForgets(
    before: Tables, t: Tables, done: set<int>, heirs: set<int>, groups: Plans.Groups, carried: map<int, Carried>)
    requires Stopped(before, t, done, heirs, groups, carried)
    ensures Forgotten(before.broken, t.broken, done)
  {
    forall id ensures Lookup(t.broken, id) == if id in done then None else Lookup(before.broken, id) {
      assert StoppedAt(before, t, done, heirs, groups, carried, id);
    }
  }

  lemma StopsOfPlan(plan: ConfigPlan, groups: Plans.Groups, connections: Connections, desired: SinkConfig)
    requires IsPlan(plan, groups, connections, desired)
    ensures IdSet(plan.groupsToStop) == set id | id in groups && StopsGroup(groups, connections, desired, id)
  {
    var stops := set id | id in groups && StopsGroup(groups, connections, desired, id);
    assert forall id :: id in IdSet(plan.groupsToStop) <==> id in stops;
  }

  lemma StoppedStaysQuiet(
    before: Tables, t: Tables, done: set<int>, heirs: set<int>, groups: Plans.Groups, carried: map<int, Carried>)
    requires Stopped(before, t, done, heirs, groups, carried)
    ensures before.producers == map[] ==> t.producers == map[]
  {
    forall id ensures before.producers == map[] ==> id !in t.producers {
      assert StoppedAt(before, t, done, heirs, groups, carried, id);
    }
  }

  lemma StopOneMore(
    before: Tables, t: Tables, later: Tables, homes: Homes, done: set<int>, heirs: set<int>, groups: Plans.Groups, carried: map<int, Carried>,
    id: int, carries: bool, left: Option<Carried>, flush: Option<GroupRuntime>)
    requires Stopped(before, t, done, heirs, groups, carried) && Placed(before, homes) && id !in done
    requires StopsOne(t, later, id, Lookup(groups, id), carries, left, flush)
    requires id in before.registry ==> (carries <==> id in heirs)
    ensures Stopped(before, later, done + {id}, heirs, groups, if left.Some? then carried[id := left.value] else carried)
  {
    var more := if left.Some? then carried[id := left.value] else carried;
    forall k ensures StoppedAt(before, later, done + {id}, heirs, groups, more, k) {
      assert StoppedAt(before, t, done, heirs, groups, carried, k) && PlacedAt(before, homes, k);
    }
  }

  lemma ListOneMore(
    before: Tables, t: Tables, later: Tables, homes: Homes, done: set<int>, heirs: set<int>, groups: Plans.Groups, toFlush: seq<GroupRuntime>,
    id: int, carries: bool, left: Option<Carried>, flush: Option<GroupRuntime>)
    requires Placed(t, homes) && Listed(t, done, heirs, toFlush) && id !in done
    requires Lookup(t.registry, id) == Lookup(before.registry, id)
    requires StopsOne(t, later, id, Lookup(groups, id), carries, left, flush)
    requires id in before.registry ==> (carries <==> id in heirs)
    ensures Listed(later, done + {id}, heirs, if flush.Some? then toFlush + [flush.value] else toFlush)
  {
    var more := if flush.Some? then toFlush + [flush.value] else toFlush;
    assert PlacedAt(t, homes, id);
    forall k ensures ListedAt(later, done + {id}, heirs, more, k) {
      assert ListedAt(t, done, heirs, toFlush, k);
    }
  }

  // --- Discarding what is not handed on ----------------------------------------

  /** Exactly the first `n` groups of `toFlush` left the registry, each with the
      count its queue had then plus the rows that were left. */
  ghost predicate ClearedAt(
    registry: map<int, GroupRuntime>, later: map<int, GroupRuntime>, states: QueueStates, toFlush: seq<GroupRuntime>, counts: map<int, nat>, id: int)
  {
    if id in registry && registry[id] in toFlush then
      id !in later && registry[id].queue in states && Lookup(counts, id) == Some(RowQueues.Discarded(states[registry[id].queue]).dropped)
    else
      Lookup(later, id) == Lookup(registry, id) && id !in counts
  }

  ghost predicate Cleared(
    registry: map<int, GroupRuntime>, later: map<int, GroupRuntime>, states: QueueStates, toFlush: seq<GroupRuntime>, counts: map<int, nat>)
  {
    forall id :: ClearedAt(registry, later, states, toFlush, counts, id)
  }

  /** A group leaves the registry and its queue is emptied. */
  lemma RetireKeepsPlaces(t: Tables, later: Tables, homes: Homes, states: QueueStates, id: int)
    requires Placed(t, homes) && Kept(t, homes, states) && id in t.registry && id !in t.producers
    requires t.registry[id].queue in states
    requires later == t.(registry := t.registry - {id})
    ensures Placed(later, homes)
    ensures Kept(later, homes, states[t.registry[id].queue := RowQueues.Discarded(states[t.registry[id].queue])])
  {
    var q := t.registry[id].queue;
    assert PlacedAt(t, homes, id) && KeptAt(t, homes, states, q);
    DiscardDescends(states[q]);
    forall k ensures PlacedAt(later, homes, k) {
      assert PlacedAt(t, homes, k);
    }
    forall k | k in states ensures KeptAt(later, homes, states[q := RowQueues.Discarded(states[q])], k) {
      assert KeptAt(t, homes, states, k);
    }
  }

  lemma RetireLapses(states: QueueStates, now: QueueStates, later: QueueStates, q: RowQueue)
    requires Lapsed(states, now, true) && q in now && now[q].dropped <= U64_MAX
    requires later == now[q := RowQueues.Discarded(now[q])]
    ensures Lapsed(states, later, true)
  {
    OneLapsed(now, later, q, true);
    LapsedTransitive(states, now, later, true);
  }

  /** No queue is registered twice. */
  lemma RegisteredOnce(t: Tables, homes: Homes)
    requires Placed(t, homes)
    ensures forall id :: id in t.registry ==> t.registry[id].config.id == id && t.registry[id].queue in homes
    ensures forall id, other :: id in t.registry && other in t.registry && id != other ==> t.registry[id].queue != t.registry[other].queue
  {
    forall id | id in t.registry
      ensures t.registry[id].config.id == id && t.registry[id].queue in homes && homes[t.registry[id].queue].group == id
    {
      assert PlacedAt(t, homes, id);
    }
  }

  lemma ClearOneMore(
    registry: map<int, GroupRuntime>, now: map<int, GroupRuntime>, later: map<int, GroupRuntime>, states: QueueStates,
    toFlush: seq<GroupRuntime>, i: nat, counts: map<int, nat>, dropped: nat)
    requires i < |toFlush| && DistinctGroups(toFlush) && Cleared(registry, now, states, toFlush[..i], counts)
    requires forall id :: id in registry ==> registry[id].config.id == id
    requires var id := toFlush[i].config.id;
             && id in registry && registry[id] == toFlush[i] && later == now - {id}
             && toFlush[i].queue in states && dropped == RowQueues.Discarded(states[toFlush[i].queue]).dropped
    ensures Cleared(registry, later, states, toFlush[..i + 1], counts[toFlush[i].config.id := dropped])
  {
    var done, more := toFlush[..i + 1], counts[toFlush[i].config.id := dropped];
    assert done == toFlush[..i] + [toFlush[i]];
    forall k ensures ClearedAt(registry, later, states, done, more, k) {
      assert ClearedAt(registry, now, states, toFlush[..i], counts, k);
    }
  }

  /** Group `id` once the stopped groups have left the tables, with what each of
      those passes on: its next generation, or the exact number of rows lost. */
  ghost predicate VacatedAt(
    before: Tables, flushed: QueueStates, t: Tables, stops: set<int>, heirs: set<int>, groups: Plans.Groups, carried: map<int, Carried>, id: int)
  {
    && Lookup(t.producers, id) == (if id in stops then None else Lookup(before.producers, id))
    && Lookup(t.broken, id) == (if id in stops then None else Lookup(before.broken, id))
    && if id in stops && id in before.registry then
         if id in heirs then
           && id in t.registry && t.registry[id].queue == before.registry[id].queue && id in groups && t.registry[id].config == groups[id]
           && Lookup(carried, id) == Some(Runtime(t.registry[id]))
         else
           && id !in t.registry && before.registry[id].queue in flushed
           && Lookup(carried, id) == Some(Dropped(RowQueues.Discarded(flushed[before.registry[id].queue]).dropped))
       else
         && Lookup(t.registry, id) == Lookup(before.registry, id)
         && Lookup(carried, id) == if id in stops && id in before.broken then Some(Dropped(before.broken[id].dropped)) else None
  }

  ghost predicate Vacated(
    before: Tables, flushed: QueueStates, t: Tables, stops: set<int>, heirs: set<int>, groups: Plans.Groups, carried: map<int, Carried>)
  {
    forall id :: VacatedAt(before, flushed, t, stops, heirs, groups, carried, id)
  }

  lemma ListedHaveNoProducer(
    before: Tables, t: Tables, homes: Homes, stops: set<int>, heirs: set<int>, groups: Plans.Groups, carried: map<int, Carried>, toFlush: seq<GroupRuntime>)
    requires Stopped(before, t, stops, heirs, groups, carried) && Listed(t, stops, heirs, toFlush)
    ensures forall r :: r in toFlush ==> r.config.id !in t.producers
  {
    forall r | r in toFlush ensures r.config.id !in t.producers {
      assert StoppedAt(before, t, stops, heirs, groups, carried, r.config.id);
    }
  }

  lemma CountsInRange(t: Tables, homes: Homes, states: QueueStates)
    requires Kept(t, homes, states)
    ensures forall q :: q in states ==> states[q].dropped <= U64_MAX
  {
    forall q | q in states ensures states[q].dropped <= U64_MAX {
      assert KeptAt(t, homes, states, q);
    }
  }

  function WithCounts(left: map<int, Carried>, counts: map<int, nat>): map<int, Carried> {
    left + map id | id in counts :: Dropped(counts[id])
  }

  lemma CountsCarryOn(
    before: Tables, homes: Homes, stopped: Tables, t: Tables, flushed: QueueStates, stops: set<int>, heirs: set<int>,
    groups: Plans.Groups, left: map<int, Carried>, toFlush: seq<GroupRuntime>, counts: map<int, nat>)
    requires Placed(before, homes) && Placed(stopped, homes)
    requires Stopped(before, stopped, stops, heirs, groups, left) && Listed(stopped, stops, heirs, toFlush)
    requires t == stopped.(registry := t.registry) && Cleared(stopped.registry, t.registry, flushed, toFlush, counts)
    ensures Vacated(before, flushed, t, stops, heirs, groups, WithCounts(left, counts))
  {
    forall id ensures VacatedAt(before, flushed, t, stops, heirs, groups, WithCounts(left, counts), id) {
      assert PlacedAt(before, homes, id) && PlacedAt(stopped, homes, id);
      assert StoppedAt(before, stopped, stops, heirs, groups, left, id) && ListedAt(stopped, stops, heirs, toFlush, id);
      assert ClearedAt(stopped.registry, t.registry, flushed, toFlush, counts, id);
    }
  }

  // --- Where a call is dropped ---------------------------------------------------

  /** Every group is one of the applied configuration and still writes to the
      destination it has there. */
  ghost predicate RootedAt(t: Tables, groups: Plans.Groups, id: int) {
    && (id in t.registry ==> id in groups && Destination(t.registry[id].config) == Destination(groups[id]))
    && (id in t.broken ==> id in groups)
  }

  ghost predicate Rooted(t: Tables, groups: Plans.Groups) { forall id :: RootedAt(t, groups, id) }

  lemma HeirsStay(
    before: Tables, t: Tables, stops: set<int>, heirs: set<int>, applied: Plans.Groups, groups: Plans.Groups, carried: map<int, Carried>)
    requires Stopped(before, t, stops, heirs, groups, carried) && Rooted(before, applied)
    requires forall id :: id in heirs && id in groups ==> id in applied && Destination(groups[id]) == Destination(applied[id])
    ensures Rooted(t, applied)
  {
    forall id ensures RootedAt(t, applied, id) {
      assert StoppedAt(before, t, stops, heirs, groups, carried, id) && RootedAt(before, applied, id);
    }
  }

  lemma ClearedStay(t: Tables, later: Tables, applied: Plans.Groups, states: QueueStates, toFlush: seq<GroupRuntime>, counts: map<int, nat>)
    requires Rooted(t, applied) && later == t.(registry := later.registry) && Cleared(t.registry, later.registry, states, toFlush, counts)
    ensures Rooted(later, applied)
  {
    forall id ensures RootedAt(later, applied, id) {
      assert RootedAt(t, applied, id) && ClearedAt(t.registry, later.registry, states, toFlush, counts, id);
    }
  }

  // --- Connections -----------------------------------------------------------

  /** `build_pool` accepts exactly the ports of a `u16` except 0. */
  predicate Buildable(c: ConnectionConfig): (b: bool)
    ensures b <==> 0 < c.port < 0x1_0000
  {
    1 <= c.port <= 65535
  }

  /** The flusher of connection `c` after the flushers of changed and vanished
      connections were stopped and those of new and changed ones built. */
  function FlusherAfter(flushers: Connections, connections: Connections, desired: SinkConfig, c: int): Option<ConnectionConfig> {
    if c in desired.Connections() && StartsConnection(connections, desired, desired.Connections()[c]) && Buildable(desired.Connections()[c]) then
      Some(desired.Connections()[c])
    else if StopsConnection(connections, desired, c) then None
    else Lookup(flushers, c)
  }

  ghost predicate ReconnectedAt(flushers: Connections, connections: Connections, desired: SinkConfig, later: Connections, c: int) {
    Lookup(later, c) == FlusherAfter(flushers, connections, desired, c)
  }

  ghost predicate Reconnected(flushers: Connections, connections: Connections, desired: SinkConfig, later: Connections) {
    forall c :: ReconnectedAt(flushers, connections, desired, later, c)
  }

  /** Every flusher serves a connection of the new configuration. */
  ghost predicate ServedAt(flushers: Connections, desired: SinkConfig, c: int) {
    c in flushers ==> c in desired.Connections() && forall u :: u in desired.unavailable ==> u.id != c
  }

  ghost predicate Served(flushers: Connections, desired: SinkConfig) { forall c :: ServedAt(flushers, desired, c) }

  /** Exactly the connections that can be built have a flusher, to the right target. */
  ghost predicate MatchedAt(flushers: Connections, connections: Connections, c: int) {
    Lookup(flushers, c) == if c in connections && Buildable(connections[c]) then Some(connections[c]) else None
  }

  ghost predicate Matched(flushers: Connections, connections: Connections) { forall c :: MatchedAt(flushers, connections, c) }

  ghost predicate StoppedFlusherAt(flushers: Connections, later: Connections, ids: seq<int>, c: int) {
    Lookup(later, c) == if c in ids then None else Lookup(flushers, c)
  }

  ghost predicate BuiltAt(flushers: Connections, later: Connections, starts: seq<ConnectionConfig>, c: int) {
    if exists k :: k in starts && k.id == c && Buildable(k) then c in later && later[c] in starts && later[c].id == c
    else Lookup(later, c) == Lookup(flushers, c)
  }

  ghost predicate Built(flushers: Connections, later: Connections, starts: seq<ConnectionConfig>) {
    forall c :: BuiltAt(flushers, later, starts, c)
  }

  ghost predicate StoppedFlushers(flushers: Connections, later: Connections, ids: seq<int>) {
    forall c :: StoppedFlusherAt(flushers, later, ids, c)
  }

  lemma StopOneFlusherMore(flushers: Connections, now: Connections, later: Connections, ids: seq<int>, i: nat)
    requires i < |ids| && StoppedFlushers(flushers, now, ids[..i]) && later == now - {ids[i]}
    ensures StoppedFlushers(flushers, later, ids[..i + 1])
  {
    var more := ids[..i + 1];
    assert more == ids[..i] + [ids[i]];
    forall c ensures StoppedFlusherAt(flushers, later, more, c) {
      assert StoppedFlusherAt(flushers, now, ids[..i], c);
    }
  }

  /** A list without duplicates is no longer than what it is taken from. */
  lemma {:induction false} NoMoreThan(ids: seq<int>, connections: Connections)
    requires UniqueKeys(ids, Self) && forall id :: id in ids ==> id in connections
    ensures |ids| <= |connections|
  {
    if ids != [] {
      var n := |ids| - 1;
      EarlierKeysDiffer(ids, n, Self);
      forall id | id in ids[..n] ensures id in connections - {ids[n]} {
        assert id in ids;
      }
      NoMoreThan(ids[..n], connections - {ids[n]});
      assert (connections - {ids[n]}).Keys == connections.Keys - {ids[n]};
    }
  }

  lemma BuildOneMore(flushers: Connections, now: Connections, later: Connections, starts: seq<ConnectionConfig>, i: nat)
    requires i < |starts| && UniqueKeys(starts, ConnectionId)
    requires Built(flushers, now, starts[..i])
    requires later == if Buildable(starts[i]) then now[starts[i].id := starts[i]] else now
    ensures Built(flushers, later, starts[..i + 1])
  {
    EarlierKeysDiffer(starts, i, ConnectionId);
    var more := starts[..i + 1];
    assert more == starts[..i] + [starts[i]];
    forall c ensures BuiltAt(flushers, later, more, c) {
      assert BuiltAt(flushers, now, starts[..i], c);
      if c == starts[i].id && Buildable(starts[i]) {
        assert starts[i] in more;
      }
    }
  }

  lemma ReconnectedBy(
    plan: ConfigPlan, connections: Connections, groups: Plans.Groups, desired: SinkConfig, flushers: Connections, left: Connections, later: Connections)
    requires desired.WellFormed() && IsPlan(plan, groups, connections, desired)
    requires StoppedFlushers(flushers, left, plan.connectionsToStop) && Built(left, later, plan.connectionsToStart)
    ensures Reconnected(flushers, connections, desired, later)
  {
    var wanted := desired.Connections();
    AscendingUnique(plan.connectionsToStart, ConnectionId);
    forall c ensures ReconnectedAt(flushers, connections, desired, later, c) {
      assert StoppedFlusherAt(flushers, left, plan.connectionsToStop, c) && BuiltAt(left, later, plan.connectionsToStart, c);
      assert c in plan.connectionsToStop <==> StopsConnection(connections, desired, c);
      if c in wanted && StartsConnection(connections, desired, wanted[c]) {
        assert ConnectionId(wanted[c]) == c && wanted[c] in plan.connectionsToStart;
      }
      if k :| k in plan.connectionsToStart && k.id == c && Buildable(k) {
        assert wanted[ConnectionId(k)] == k;
      }
    }
  }

  lemma ServedAgain(flushers: Connections, connections: Connections, desired: SinkConfig, later: Connections)
    requires desired.WellFormed() && Reconnected(flushers, connections, desired, later) && flushers.Keys <= connections.Keys
    ensures Served(later, desired)
  {
    forall c ensures ServedAt(later, desired, c) {
      assert ReconnectedAt(flushers, connections, desired, later, c);
      if c in desired.Connections() {
        assert desired.Connections()[c] in desired.connections && ConnectionId(desired.Connections()[c]) == c;
      }
    }
  }

  lemma ServedKeys(flushers: Connections, desired: SinkConfig)
    requires Served(flushers, desired)
    ensures flushers.Keys <= desired.Connections().Keys
  {
    forall c | c in flushers ensures c in desired.Connections() {
      assert ServedAt(flushers, desired, c);
    }
  }

  lemma MatchedAgain(flushers: Connections, connections: Connections, desired: SinkConfig, later: Connections)
    requires desired.WellFormed() && Reconnected(flushers, connections, desired, later) && Matched(flushers, connections)
    requires forall c :: c in connections ==> connections[c].id == c
    ensures Matched(later, desired.Connections())
  {
    forall c ensures MatchedAt(later, desired.Connections(), c) {
      assert ReconnectedAt(flushers, connections, desired, later, c) && MatchedAt(flushers, connections, c);
      if c in desired.Connections() {
        assert desired.Connections()[c] in desired.connections && ConnectionId(desired.Connections()[c]) == c;
      }
    }
  }

  // --- Starting groups -------------------------------------------------------

  function CarriedFor(carried: map<int, Carried>, id: int): Carried {
    if id in carried then carried[id] else Dropped(0)
  }

  /** What the previous generation left belongs to the group to start. */
  ghost predicate Fits(t: Tables, g: GroupConfig, carried: Carried) {
    && g.id !in t.producers
    && match carried
       case Dropped(count) => g.id !in t.registry && count <= U64_MAX
       case Runtime(runtime) => g.id in t.registry && t.registry[g.id] == runtime && runtime.config == g && SetupProblem(g).None?
  }

  predicate CanStart(g: GroupConfig, flushers: Connections) {
    g.connectionId in flushers && SetupProblem(g).None?
  }

  /** One group was started, or was found broken. */
  ghost predicate StartsOne(t: Tables, later: Tables, g: GroupConfig, carried: Carried, starts: bool) {
    if starts then
      && g.id in later.registry && later.registry == t.registry[g.id := later.registry[g.id]]
      && later.producers == t.producers[g.id := later.registry[g.id]]
      && later.broken == t.broken - {g.id}
      && later.registry[g.id].config == g
      && (carried.Runtime? ==> later.registry[g.id] == carried.runtime)
    else
      && later.registry == t.registry - {g.id}
      && later.producers == t.producers
      && g.id in later.broken && later.broken == t.broken[g.id := later.broken[g.id]]
  }

  /** The queues after one group was started or found broken: a new queue continues
      the count, an inherited one is kept, or given up and counted. */
  function StatesAfter(states: QueueStates, later: Tables, g: GroupConfig, carried: Carried, starts: bool, maxRows: nat): QueueStates
    requires starts ==> g.id in later.registry
    requires !starts && carried.Runtime? ==> carried.runtime.queue in states
  {
    match carried
    case Dropped(count) => if starts then states[later.registry[g.id].queue := Queue([], 0, maxRows, count)] else states
    case Runtime(runtime) => if starts then states else states[runtime.queue := RowQueues.Discarded(states[runtime.queue])]
  }

  /** What a group that cannot be started reports. */
  ghost function CountIfFailed(carried: Carried, states: QueueStates): nat {
    match carried
    case Dropped(count) => count
    case Runtime(runtime) => if runtime.queue in states then RowQueues.Discarded(states[runtime.queue]).dropped else 0
  }

  /** One group was started, or found broken, with its queue. */
  ghost predicate StartDone(
    t: Tables, later: Tables, states: QueueStates, laterStates: QueueStates, g: GroupConfig, carried: Carried, starts: bool, maxRows: nat)
  {
    && StartsOne(t, later, g, carried, starts)
    && (carried.Runtime? ==> carried.runtime.queue in states)
    && (carried.Dropped? && starts ==> later.registry[g.id].queue !in states)
    && laterStates == StatesAfter(states, later, g, carried, starts, maxRows)
    && (!starts ==> later.broken[g.id].dropped == CountIfFailed(carried, states))
  }

  lemma StartKeepsPlaces(
    t: Tables, later: Tables, homes: Homes, laterHomes: Homes, states: QueueStates, laterStates: QueueStates, g: GroupConfig,
    carried: Carried, starts: bool, maxRows: nat)
    requires Placed(t, homes) && Kept(t, homes, states) && homes.Keys == states.Keys
    requires Fits(t, g, carried) && StartDone(t, later, states, laterStates, g, carried, starts, maxRows)
    requires HomesKept(homes, laterHomes) && (starts ==> HasHome(later.registry[g.id], laterHomes, g.id))
    requires carried.Dropped? ==> carried.count <= U64_MAX
    ensures Placed(later, laterHomes) && Kept(later, laterHomes, laterStates)
  {
    assert PlacedAt(t, homes, g.id);
    if carried.Runtime? {
      assert KeptAt(t, homes, states, carried.runtime.queue);
      DiscardDescends(states[carried.runtime.queue]);
    }
    forall id ensures PlacedAt(later, laterHomes, id) {
      assert PlacedAt(t, homes, id);
    }
    forall q | q in laterStates ensures KeptAt(later, laterHomes, laterStates, q) {
      assert KeptAt(t, homes, states, q);
    }
  }

  lemma StartLapses(
    t: Tables, later: Tables, states: QueueStates, laterStates: QueueStates, g: GroupConfig, carried: Carried, starts: bool, maxRows: nat, quiet: bool)
    requires StartDone(t, later, states, laterStates, g, carried, starts, maxRows)
    requires forall q :: q in states ==> states[q].dropped <= U64_MAX
    ensures Lapsed(states, laterStates, quiet)
  {
    forall q | q in laterStates ensures LapsedAt(states, laterStates, quiet, q) {}
  }

  ghost predicate SameAt(before: Tables, t: Tables, id: int) {
    && Lookup(t.registry, id) == Lookup(before.registry, id)
    && Lookup(t.producers, id) == Lookup(before.producers, id)
    && Lookup(t.broken, id) == Lookup(before.broken, id)
  }

  /** The group runs `g` with a producer, or is broken. */
  ghost predicate RunsAt(t: Tables, g: GroupConfig, starts: bool) {
    if starts then
      && g.id in t.registry && t.registry[g.id].config == g && Lookup(t.producers, g.id) == Some(t.registry[g.id]) && g.id !in t.broken
    else
      g.id !in t.registry && g.id !in t.producers && g.id in t.broken
  }

  /** Group `id` once the groups `done` have been started. */
  ghost predicate StartedAt(
    before: Tables, t: Tables, done: set<int>, groups: Plans.Groups, flushers: Connections, carried: map<int, Carried>, id: int)
  {
    if id in done then
      && id in groups && groups[id].id == id && RunsAt(t, groups[id], CanStart(groups[id], flushers))
      && (id in t.registry && CarriedFor(carried, id).Runtime? ==> t.registry[id] == CarriedFor(carried, id).runtime)
    else
      SameAt(before, t, id)
  }

  ghost predicate Started(
    before: Tables, t: Tables, done: set<int>, groups: Plans.Groups, flushers: Connections, carried: map<int, Carried>)
  {
    forall id :: StartedAt(before, t, done, groups, flushers, carried, id)
  }

  /** A started group reports exactly the count that was passed on to it, and at
      least what an inherited queue had counted. */
  ghost predicate CountedAt(
    states: QueueStates, t: Tables, later: QueueStates, done: set<int>, carried: map<int, Carried>, id: int)
  {
    id in done ==>
      && LeftBy(CarriedFor(carried, id), states) <= Reported(t, later, id)
      && (CarriedFor(carried, id).Dropped? ==> Reported(t, later, id) == CarriedFor(carried, id).count)
  }

  ghost predicate Counted(states: QueueStates, t: Tables, later: QueueStates, done: set<int>, carried: map<int, Carried>) {
    forall id :: CountedAt(states, t, later, done, carried, id)
  }

  lemma NothingStarted(t: Tables, groups: Plans.Groups, flushers: Connections, carried: map<int, Carried>, states: QueueStates)
    ensures Started(t, t, {}, groups, flushers, carried) && Counted(states, t, states, {}, carried)
  {
    forall id ensures StartedAt(t, t, {}, groups, flushers, carried, id) && CountedAt(states, t, states, {}, carried, id) {}
  }

  lemma NeverBoth(t: Tables, homes: Homes)
    requires Placed(t, homes)
    ensures t.registry.Keys !! t.broken.Keys
  {
    forall id | id in t.registry ensures id !in t.broken {
      assert PlacedAt(t, homes, id);
    }
  }

  lemma StartOneMore(
    before: Tables, t: Tables, later: Tables, done: set<int>, groups: Plans.Groups, flushers: Connections, carried: map<int, Carried>, g: GroupConfig)
    requires Started(before, t, done, groups, flushers, carried)
    requires g.id !in done && g.id in groups && groups[g.id] == g && Fits(t, g, CarriedFor(carried, g.id))
    requires t.registry.Keys !! t.broken.Keys
    requires StartsOne(t, later, g, CarriedFor(carried, g.id), CanStart(g, flushers))
    ensures Started(before, later, done + {g.id}, groups, flushers, carried)
  {
    forall id ensures StartedAt(before, later, done + {g.id}, groups, flushers, carried, id) {
      assert StartedAt(before, t, done, groups, flushers, carried, id);
    }
  }

  lemma CountOneMore(
    states: QueueStates, t: Tables, now: QueueStates, later: Tables, laterStates: QueueStates, homes: Homes, done: set<int>,
    carried: map<int, Carried>, g: GroupConfig, starts: bool, maxRows: nat)
    requires Counted(states, t, now, done, carried) && Placed(t, homes) && homes.Keys == now.Keys && g.id !in done
    requires Lapsed(states, now, false) && forall q :: q in now ==> now[q].dropped <= U64_MAX
    requires Fits(t, g, CarriedFor(carried, g.id))
    requires StartDone(t, later, now, laterStates, g, CarriedFor(carried, g.id), starts, maxRows)
    ensures Counted(states, later, laterStates, done + {g.id}, carried)
  {
    forall id ensures CountedAt(states, later, laterStates, done + {g.id}, carried, id) {
      assert CountedAt(states, t, now, done, carried, id) && PlacedAt(t, homes, id) && PlacedAt(t, homes, g.id);
      if id == g.id && CarriedFor(carried, id).Runtime? {
        assert LapsedAt(states, now, false, CarriedFor(carried, id).runtime.queue);
      }
    }
  }

  // --- The whole plan --------------------------------------------------------

  /** Group `id` after a completed `apply_plan`: gone if it is not desired, left
      alone if it is untouched; otherwise it runs exactly if it can, and on the
      same queue if it inherits. */
  ghost predicate ReconfiguredAt(
    before: Tables, t: Tables, groups: Plans.Groups, connections: Connections, desired: SinkConfig, flushers: Connections, id: int)
  {
    if id !in desired.Groups() then id !in t.registry && id !in t.producers && id !in t.broken
    else
      var g := desired.Groups()[id];
      if StartsGroup(groups, connections, desired, g) then
        && RunsAt(t, g, CanStart(g, flushers))
        && (id in t.registry && id in before.registry && Inherits(groups, connections, desired, id) ==>
              t.registry[id].queue == before.registry[id].queue)
      else SameAt(before, t, id)
  }

  ghost predicate Reconfigured(
    before: Tables, t: Tables, groups: Plans.Groups, connections: Connections, desired: SinkConfig, flushers: Connections)
  {
    forall id :: ReconfiguredAt(before, t, groups, connections, desired, flushers, id)
  }

  /** What a desired group reports afterwards: an untouched or inheriting group no
      less than before, a rebuilt one exactly what it had counted plus what was
      left in its queue when that was discarded, and a broken one its old count. */
  ghost predicate CarriesCountAt(
    before: Tables, states: QueueStates, flushed: QueueStates, t: Tables, later: QueueStates,
    groups: Plans.Groups, connections: Connections, desired: SinkConfig, id: int)
  {
    id in desired.Groups() ==>
      && Reported(before, states, id) <= Reported(t, later, id)
      && (StartsGroup(groups, connections, desired, desired.Groups()[id]) ==>
            if id in before.registry then
              !Inherits(groups, connections, desired, id) ==>
                before.registry[id].queue in flushed
                && Reported(t, later, id) == RowQueues.Discarded(flushed[before.registry[id].queue]).dropped
            else
              Reported(t, later, id) == if id in before.broken then before.broken[id].dropped else 0)
  }

  ghost predicate CarriesCounts(
    before: Tables, states: QueueStates, flushed: QueueStates, t: Tables, later: QueueStates,
    groups: Plans.Groups, connections: Connections, desired: SinkConfig)
  {
    forall id :: CarriesCountAt(before, states, flushed, t, later, groups, connections, desired, id)
  }

  /** What a completed `apply_plan` did: the flushers are exactly those left and those
      built, every desired group runs or is broken, and the counts are carried. */
  ghost predicate Applied(
    before: Tables, states: QueueStates, flushers: Connections, flushed: QueueStates, t: Tables, later: QueueStates, laterFlushers: Connections,
    groups: Plans.Groups, connections: Connections, desired: SinkConfig)
  {
    && Reconnected(flushers, connections, desired, laterFlushers)
    && Reconfigured(before, t, groups, connections, desired, laterFlushers)
    && CarriesCounts(before, states, flushed, t, later, groups, connections, desired)
  }

  ghost predicate FollowsAt(t: Tables, groups: Plans.Groups, carried: map<int, Carried>, g: GroupConfig) {
    g.id in groups && groups[g.id] == g && Fits(t, g, CarriedFor(carried, g.id))
  }

  /** Every group to start is free of its old producer and fits what was carried
      for it. */
  lemma FollowersReady(
    before: Tables, homes: Homes, flushed: QueueStates, t: Tables, plan: ConfigPlan, groups: Plans.Groups, connections: Connections,
    desired: SinkConfig, heirs: set<int>, carried: map<int, Carried>)
    requires IsPlan(plan, groups, connections, desired) && desired.WellFormed()
    requires Vacated(before, flushed, t, IdSet(plan.groupsToStop), heirs, desired.Groups(), carried)
    requires Placed(before, homes) && Rooted(before, groups) && heirs == HeirsOf(before, groups, connections, desired)
    requires forall q :: q in flushed ==> RowQueues.Discarded(flushed[q]).dropped <= U64_MAX
    ensures forall g :: g in plan.groupsToStart ==> FollowsAt(t, desired.Groups(), carried, g)
  {
    forall g | g in plan.groupsToStart ensures FollowsAt(t, desired.Groups(), carried, g) {
      assert VacatedAt(before, flushed, t, IdSet(plan.groupsToStop), heirs, desired.Groups(), carried, g.id);
      assert PlacedAt(before, homes, g.id) && RootedAt(before, groups, g.id);
      assert StartsGroup(groups, connections, desired, g) && desired.Groups()[GroupId(g)] == g;
      assert g.id in groups ==> StopsGroup(groups, connections, desired, g.id);
    }
  }

  lemma StartedIds(plan: ConfigPlan, groups: Plans.Groups, connections: Connections, desired: SinkConfig, id: int)
    requires IsPlan(plan, groups, connections, desired) && desired.WellFormed()
    ensures id in GroupIds(plan.groupsToStart)
            <==> id in desired.Groups() && StartsGroup(groups, connections, desired, desired.Groups()[id])
    ensures id in IdSet(plan.groupsToStop) <==> StopsGroup(groups, connections, desired, id)
  {
    if id in desired.Groups() {
      assert GroupId(desired.Groups()[id]) == id;
      assert desired.Groups()[id] in plan.groupsToStart <==> StartsGroup(groups, connections, desired, desired.Groups()[id]);
    }
    if g :| g in plan.groupsToStart && g.id == id {
      assert desired.Groups()[GroupId(g)] == g;
    }
  }

  lemma PlanDone(
    before: Tables, homes: Homes, flushed: QueueStates, vacated: Tables, t: Tables, plan: ConfigPlan, groups: Plans.Groups,
    connections: Connections, desired: SinkConfig, heirs: set<int>, carried: map<int, Carried>, flushers: Connections)
    requires IsPlan(plan, groups, connections, desired) && desired.WellFormed()
    requires Placed(before, homes) && Rooted(before, groups) && heirs == HeirsOf(before, groups, connections, desired)
    requires Vacated(before, flushed, vacated, IdSet(plan.groupsToStop), heirs, desired.Groups(), carried)
    requires Started(vacated, t, GroupIds(plan.groupsToStart), desired.Groups(), flushers, carried)
    ensures Reconfigured(before, t, groups, connections, desired, flushers)
  {
    forall id ensures ReconfiguredAt(before, t, groups, connections, desired, flushers, id) {
      StartedIds(plan, groups, connections, desired, id);
      assert PlacedAt(before, homes, id) && RootedAt(before, groups, id);
      assert VacatedAt(before, flushed, vacated, IdSet(plan.groupsToStop), heirs, desired.Groups(), carried, id);
      assert StartedAt(vacated, t, GroupIds(plan.groupsToStart), desired.Groups(), flushers, carried, id);
    }
  }

  lemma CountDone(
    before: Tables, homes: Homes, states: QueueStates, flushed: QueueStates, vacated: Tables, ready: QueueStates, t: Tables, later: QueueStates,
    groups: Plans.Groups, connections: Connections, desired: SinkConfig, stops: set<int>, heirs: set<int>, started: set<int>,
    carried: map<int, Carried>, flushers: Connections, id: int)
    requires PlacedAt(before, homes, id) && RootedAt(before, groups, id) && homes.Keys == states.Keys
    requires id in heirs <==> id in before.registry && Inherits(groups, connections, desired, id)
    requires id in stops <==> StopsGroup(groups, connections, desired, id)
    requires id in started <==> id in desired.Groups() && StartsGroup(groups, connections, desired, desired.Groups()[id])
    requires id in desired.Groups() ==> desired.Groups()[id].id == id && desired.Groups()[id] in desired.groups
    requires VacatedAt(before, flushed, vacated, stops, heirs, desired.Groups(), carried, id)
    requires StartedAt(vacated, t, started, desired.Groups(), flushers, carried, id) && CountedAt(ready, t, later, started, carried, id)
    requires id in before.registry ==> var q := before.registry[id].queue;
               LapsedAt(states, flushed, false, q) && LapsedAt(states, ready, false, q) && LapsedAt(states, later, false, q)
               && (q in flushed ==> flushed[q].dropped <= U64_MAX)
    ensures CarriesCountAt(before, states, flushed, t, later, groups, connections, desired, id)
  {
  }

  lemma CountsDone(
    before: Tables, homes: Homes, states: QueueStates, flushed: QueueStates, vacated: Tables, ready: QueueStates, t: Tables, later: QueueStates,
    plan: ConfigPlan, groups: Plans.Groups, connections: Connections, desired: SinkConfig, heirs: set<int>, carried: map<int, Carried>, flushers: Connections)
    requires IsPlan(plan, groups, connections, desired) && desired.WellFormed()
    requires Placed(before, homes) && Rooted(before, groups) && heirs == HeirsOf(before, groups, connections, desired)
    requires homes.Keys == states.Keys
    requires Vacated(before, flushed, vacated, IdSet(plan.groupsToStop), heirs, desired.Groups(), carried)
    requires Started(vacated, t, GroupIds(plan.groupsToStart), desired.Groups(), flushers, carried)
    requires Counted(ready, t, later, GroupIds(plan.groupsToStart), carried)
    requires Lapsed(states, flushed, false) && Lapsed(states, ready, false) && Lapsed(states, later, false)
    requires forall q :: q in flushed ==> flushed[q].dropped <= U64_MAX
    ensures CarriesCounts(before, states, flushed, t, later, groups, connections, desired)
  {
    var stops, started := IdSet(plan.groupsToStop), GroupIds(plan.groupsToStart);
    forall id ensures CarriesCountAt(before, states, flushed, t, later, groups, connections, desired, id) {
      StartedIds(plan, groups, connections, desired, id);
      assert PlacedAt(before, homes, id) && RootedAt(before, groups, id);
      assert VacatedAt(before, flushed, vacated, stops, heirs, desired.Groups(), carried, id);
      assert StartedAt(vacated, t, started, desired.Groups(), flushers, carried, id);
      assert CountedAt(ready, t, later, started, carried, id);
      assert id in desired.Groups() ==> GroupId(desired.Groups()[id]) == id;
      if id in before.registry {
        var q := before.registry[id].queue;
        assert LapsedAt(states, flushed, false, q) && LapsedAt(states, ready, false, q) && LapsedAt(states, later, false, q);
      }
      CountDone(
        before, homes, states, flushed, vacated, ready, t, later, groups, connections, desired, stops, heirs, started, carried, flushers, id);
    }
  }

  /** Every configured group is either running, with a producer, or broken. */
  ghost predicate InstalledAt(t: Tables, groups: Plans.Groups, connections: Connections, id: int) {
    && (id in groups <==> id in t.registry || id in t.broken)
    && (id in t.registry <==> id in t.producers)
    && (id in t.registry ==> t.registry[id].config == groups[id] && groups[id].connectionId in connections)
  }

  ghost predicate Installed(t: Tables, groups: Plans.Groups, connections: Connections) {
    forall id :: InstalledAt(t, groups, connections, id)
  }

  lemma RootedAfter(
    before: Tables, t: Tables, groups: Plans.Groups, connections: Connections, desired: SinkConfig, flushers: Connections)
    requires Rooted(before, groups) && Reconfigured(before, t, groups, connections, desired, flushers)
    ensures Rooted(t, desired.Groups())
  {
    forall id ensures RootedAt(t, desired.Groups(), id) {
      assert RootedAt(before, groups, id) && ReconfiguredAt(before, t, groups, connections, desired, flushers, id);
      assert id in desired.Groups() ==> GroupId(desired.Groups()[id]) == id && desired.Groups()[id] in desired.groups;
    }
  }

  lemma InstalledAfter(
    before: Tables, t: Tables, groups: Plans.Groups, connections: Connections, desired: SinkConfig, flushers: Connections)
    requires Installed(before, groups, connections) && Reconfigured(before, t, groups, connections, desired, flushers)
    requires Served(flushers, desired)
    ensures Installed(t, desired.Groups(), desired.Connections())
  {
    forall id ensures InstalledAt(t, desired.Groups(), desired.Connections(), id) {
      assert InstalledAt(before, groups, connections, id) && ReconfiguredAt(before, t, groups, connections, desired, flushers, id);
      if id in desired.Groups() {
        var g := desired.Groups()[id];
        assert GroupId(g) == id && g in desired.groups && ServedAt(flushers, desired, g.connectionId);
      }
    }
  }

  lemma StaysInStep(
    before: Tables, t: Tables, groups: Plans.Groups, connections: Connections, desired: SinkConfig, flushers: Connections, later: Connections)
    requires desired.WellFormed() && Keyed(groups, connections) && Rooted(before, groups) && flushers.Keys <= connections.Keys
    requires Reconnected(flushers, connections, desired, later) && Reconfigured(before, t, groups, connections, desired, later)
    ensures Rooted(t, desired.Groups()) && later.Keys <= desired.Connections().Keys
    ensures Installed(before, groups, connections) && Matched(flushers, connections) ==>
              Installed(t, desired.Groups(), desired.Connections()) && Matched(later, desired.Connections())
  {
    ServedAgain(flushers, connections, desired, later);
    ServedKeys(later, desired);
    RootedAfter(before, t, groups, connections, desired, later);
    if Installed(before, groups, connections) && Matched(flushers, connections) {
      InstalledAfter(before, t, groups, connections, desired, later);
      MatchedAgain(flushers, connections, desired, later);
    }
  }

  // --- Counts over several configurations -------------------------------------------

  /** None of these groups reports fewer dropped rows than it did. */
  ghost predicate NoLower(before: Tables, states: QueueStates, t: Tables, later: QueueStates, ids: set<int>) {
    forall id :: id in ids ==> Reported(before, states, id) <= Reported(t, later, id)
  }

  lemma NoLowerWhileRunning(before: Tables, states: QueueStates, t: Tables, middle: QueueStates, later: QueueStates, ids: set<int>)
    requires NoLower(before, states, t, middle, ids)
    requires forall q :: q in middle ==> q in later && middle[q].dropped <= later[q].dropped
    ensures NoLower(before, states, t, later, ids)
  {
    forall id | id in ids ensures Reported(before, states, id) <= Reported(t, later, id) {
      assert Reported(before, states, id) <= Reported(t, middle, id) <= Reported(t, later, id);
    }
  }

  lemma NoLowerLapsed(before: Tables, states: QueueStates, t: Tables, middle: QueueStates, later: QueueStates, quiet: bool, ids: set<int>)
    requires NoLower(before, states, t, middle, ids) && Lapsed(middle, later, quiet)
    ensures NoLower(before, states, t, later, ids)
  {
    forall q | q in middle ensures q in later && middle[q].dropped <= later[q].dropped {
      assert LapsedAt(middle, later, quiet, q);
    }
    NoLowerWhileRunning(before, states, t, middle, later, ids);
  }

  lemma NoLowerAfterPlan(
    before: Tables, states: QueueStates, t: Tables, middle: QueueStates, flushed: QueueStates, later: Tables, laterStates: QueueStates,
    groups: Plans.Groups, connections: Connections, desired: SinkConfig, ids: set<int>)
    requires NoLower(before, states, t, middle, ids) && ids <= desired.Groups().Keys
    requires CarriesCounts(t, middle, flushed, later, laterStates, groups, connections, desired)
    ensures NoLower(before, states, later, laterStates, ids)
  {
    forall id | id in ids ensures Reported(before, states, id) <= Reported(later, laterStates, id) {
      assert CarriesCountAt(t, middle, flushed, later, laterStates, groups, connections, desired, id);
    }
  }

  // --- Shutdown ---------------------------------------------------------------------

  lemma QuietKeepsPlaces(t: Tables, later: Tables, homes: Homes, states: QueueStates, groups: Plans.Groups)
    requires Placed(t, homes) && Kept(t, homes, states) && Rooted(t, groups) && later == t.(producers := map[])
    ensures Placed(later, homes) && Kept(later, homes, states) && Rooted(later, groups)
  {
    forall id ensures PlacedAt(later, homes, id) && RootedAt(later, groups, id) {
      assert PlacedAt(t, homes, id) && RootedAt(t, groups, id);
    }
    forall q | q in states ensures KeptAt(later, homes, states, q) {
      assert KeptAt(t, homes, states, q);
    }
  }

  ghost predicate AllEmpty(states: QueueStates) { forall q :: q in states ==> states[q].rows == [] }

  ghost predicate DiscardedAll(begun: QueueStates, now: QueueStates) {
    now.Keys == begun.Keys && forall q :: q in now ==> now[q] == RowQueues.Discarded(begun[q])
  }

  /** The queues of the groups that are not `pending` were discarded. */
  ghost predicate DiscardedSoFar(begun: QueueStates, now: QueueStates, homes: Homes, pending: set<int>) {
    && now.Keys == begun.Keys == homes.Keys
    && forall q :: q in now ==> now[q] == if homes[q].group in pending then begun[q] else RowQueues.Discarded(begun[q])
  }

  lemma NothingDiscarded(t: Tables, homes: Homes, begun: QueueStates)
    requires Kept(t, homes, begun) && begun.Keys == homes.Keys
    ensures DiscardedSoFar(begun, begun, homes, t.registry.Keys)
  {
    forall q | q in begun && homes[q].group !in t.registry ensures begun[q].rows == [] && begun[q] == RowQueues.Discarded(begun[q]) {
      assert KeptAt(t, homes, begun, q);
    }
  }

  lemma DiscardOneMore(t: Tables, begun: QueueStates, now: QueueStates, later: QueueStates, homes: Homes, pending: set<int>, id: int)
    requires Placed(t, homes) && Kept(t, homes, now) && DiscardedSoFar(begun, now, homes, pending)
    requires id in pending && id in t.registry && t.registry[id].queue in now
    requires later == now[t.registry[id].queue := RowQueues.Discarded(now[t.registry[id].queue])]
    ensures DiscardedSoFar(begun, later, homes, pending - {id})
    ensures TotalRows(later) + |now[t.registry[id].queue].rows| == TotalRows(now)
  {
    var mine := t.registry[id].queue;
    TotalUpdate(now, mine, RowQueues.Discarded(now[mine]));
    assert PlacedAt(t, homes, id);
    forall q | q in begun && q != mine && homes[q].group == id ensures begun[q].rows == [] && begun[q] == RowQueues.Discarded(begun[q]) {
      assert KeptAt(t, homes, now, q);
    }
  }

  /** How many rows are queued in all. */
  ghost function TotalRows(states: QueueStates): nat
    decreases |states|
  {
    if states == map[] then 0
    else
      QueueToPick(states);
      var q :| q in states;
      |states[q].rows| + TotalRows(states - {q})
  }

  lemma QueueToPick(states: QueueStates)
    ensures states == map[] || exists q :: q in states
  {
    if forall q: RowQueue :: q !in states {
      assert states == map[];
    }
  }

  lemma {:induction false} TotalSplit(states: QueueStates, q: RowQueue)
    requires q in states
    ensures TotalRows(states) == |states[q].rows| + TotalRows(states - {q})
    decreases |states|
  {
    var first :| first in states && TotalRows(states) == |states[first].rows| + TotalRows(states - {first});
    if first != q {
      TotalSplit(states - {first}, q);
      TotalSplit(states - {q}, first);
      assert states - {first} - {q} == states - {q} - {first};
    }
  }

  lemma TotalUpdate(states: QueueStates, q: RowQueue, now: Queue)
    requires q in states
    ensures TotalRows(states[q := now]) + |states[q].rows| == TotalRows(states) + |now.rows|
  {
    TotalSplit(states, q);
    TotalSplit(states[q := now], q);
    assert states[q := now] - {q} == states - {q};
  }

  lemma {:induction false} TotalIsZero(states: QueueStates)
    ensures TotalRows(states) == 0 <==> AllEmpty(states)
    decreases |states|
  {
    if q :| q in states {
      TotalSplit(states, q);
      TotalIsZero(states - {q});
      assert forall k :: k in states ==> k == q || k in states - {q};
    }
  }

  /** The group is started again although its flusher and producer were gone: its
      connection is new or changed and can be built. */
  predicate StartsAnew(groups: Plans.Groups, connections: Connections, desired: SinkConfig, g: GroupConfig) {
    && StartsGroup(groups, connections, desired, g) && SetupProblem(g).None?
    && g.connectionId in desired.Connections()
    && StartsConnection(connections, desired, desired.Connections()[g.connectionId]) && Buildable(desired.Connections()[g.connectionId])
  }

  /** Exactly these groups have a producer. */
  ghost predicate RunsAfter(groups: Plans.Groups, connections: Connections, desired: SinkConfig, producers: map<int, GroupRuntime>) {
    forall id :: RunsAfterAt(groups, connections, desired, producers, id)
  }

  ghost predicate RunsAfterAt(groups: Plans.Groups, connections: Connections, desired: SinkConfig, producers: map<int, GroupRuntime>, id: int) {
    id in producers <==> id in desired.Groups() && StartsAnew(groups, connections, desired, desired.Groups()[id])
  }

  /** Applying a configuration without flushers and producers starts exactly the
      groups whose connection is itself started and can be built. */
  lemma RefetchRuns(
    before: Tables, t: Tables, groups: Plans.Groups, connections: Connections, desired: SinkConfig, flushers: Connections)
    requires before.producers == map[]
    requires Reconnected(map[], connections, desired, flushers)
    requires Reconfigured(before, t, groups, connections, desired, flushers)
    ensures RunsAfter(groups, connections, desired, t.producers)
  {
    forall id ensures RunsAfterAt(groups, connections, desired, t.producers, id) {
      assert ReconfiguredAt(before, t, groups, connections, desired, flushers, id);
      if id in desired.Groups() {
        var g := desired.Groups()[id];
        assert GroupId(g) == id && ReconnectedAt(map[], connections, desired, flushers, g.connectionId);
      }
    }
  }

  lemma StillEmpty(states: QueueStates, later: QueueStates)
    requires AllEmpty(states) && Lapsed(states, later, true)
    ensures AllEmpty(later) && forall q :: q in states ==> q in later && states[q].dropped <= later[q].dropped
  {
    forall q | q in later ensures later[q].rows == [] && (q in states ==> states[q].dropped <= later[q].dropped) {
      assert LapsedAt(states, later, true, q);
    }
  }

  // --- Which inherited queues are given up ----------------------------------------------

  /** Connection `c` is served after the plan: its flusher stays, or it is built. */
  predicate ServesAfter(flushers: Connections, connections: Connections, desired: SinkConfig, c: int) {
    FlusherAfter(flushers, connections, desired, c).Some?
  }

  /** A group that is to inherit its queue goes on with it exactly if its connection
      has a flusher that stays, or is started and can be built. The branch of
      `start_group` that gives an inherited queue up is reached exactly otherwise. */
  lemma InheritsIffServed(
    before: Tables, t: Tables, groups: Plans.Groups, connections: Connections, desired: SinkConfig, flushers: Connections, later: Connections, id: int)
    requires desired.WellFormed() && Reconnected(flushers, connections, desired, later)
    requires Reconfigured(before, t, groups, connections, desired, later)
    requires id in before.registry && Inherits(groups, connections, desired, id)
    ensures var c := groups[id].connectionId;
            var served := || c in flushers
                          || (c in desired.Connections() && StartsConnection(connections, desired, desired.Connections()[c]) && Buildable(desired.Connections()[c]));
            && (id in t.registry && t.registry[id].queue == before.registry[id].queue <==> served)
            && (id in t.broken && id !in t.registry <==> !served)
  {
    assert ReconfiguredAt(before, t, groups, connections, desired, later, id);
    assert ReconnectedAt(flushers, connections, desired, later, groups[id].connectionId);
    assert GroupId(desired.Groups()[id]) == id && desired.Groups()[id] in desired.groups;
  }

  /** Between two configurations that is a question of the port alone. */
  lemma InheritsIffBuildable(
    before: Tables, t: Tables, groups: Plans.Groups, connections: Connections, desired: SinkConfig, flushers: Connections, later: Connections, id: int)
    requires desired.WellFormed() && Keyed(groups, connections)
    requires Installed(before, groups, connections) && Matched(flushers, connections)
    requires Reconnected(flushers, connections, desired, later) && Reconfigured(before, t, groups, connections, desired, later)
    requires id in before.registry && Inherits(groups, connections, desired, id)
    ensures groups[id].connectionId in connections
    ensures id in t.registry && t.registry[id].queue == before.registry[id].queue <==> Buildable(connections[groups[id].connectionId])
    ensures id in t.broken && id !in t.registry <==> !Buildable(connections[groups[id].connectionId])
  {
    var c := groups[id].connectionId;
    assert InstalledAt(before, groups, connections, id) && MatchedAt(flushers, connections, c);
    assert c in desired.Connections() ==> ConnectionId(desired.Connections()[c]) == c && desired.Connections()[c] in desired.connections;
    InheritsIffServed(before, t, groups, connections, desired, flushers, later, id);
  }

  /** An unchanged group stays as it is whatever happens to the port of its
      connection: it runs on without a flusher after the port went bad, and it
      stays broken after the port was corrected. */
  lemma PortChangeTouchesNoGroup(
    before: Tables, t: Tables, groups: Plans.Groups, connections: Connections, desired: SinkConfig, flushers: Connections, later: Connections, g: GroupConfig)
    requires desired.WellFormed() && Keyed(groups, connections) && Matched(flushers, connections)
    requires Reconnected(flushers, connections, desired, later) && Reconfigured(before, t, groups, connections, desired, later)
    requires g in desired.groups && g.id in groups && groups[g.id] == g
    requires g.connectionId in connections && g.connectionId in desired.Connections()
    ensures SameAt(before, t, g.id)
    ensures g.connectionId in later <==> Buildable(desired.Connections()[g.connectionId])
  {
    assert ReconfiguredAt(before, t, groups, connections, desired, later, g.id);
    assert desired.Groups()[GroupId(g)] == g;
    MatchedAgain(flushers, connections, desired, later);
    assert MatchedAt(later, desired.Connections(), g.connectionId);
  }
}
