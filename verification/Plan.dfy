/** The difference between the applied configuration and the one the Hub
    returned (`plan_changes` and `queue_carries_over`,
    apps/banto-hub-sink/src/run.rs). */
module Plans {
  import opened Rows

  datatype TagConfig = TagConfig(connectionId: int, groupId: int, tagId: int, externalName: string)

  datatype GroupConfig = GroupConfig(
    id: int, name: string, connectionId: int, mode: string, intervalMs: int,
    tableName: string, storeBad: bool, tags: seq<TagConfig>)

  datatype ConnectionConfig = ConnectionConfig(
    id: int, name: string, host: string, port: int,
    database: Option<string>, username: Option<string>, password: Option<string>)

  datatype UnavailableConnection = UnavailableConnection(id: int, name: string, reason: string)

  datatype SinkConfig = SinkConfig(
    groups: seq<GroupConfig>, connections: seq<ConnectionConfig>, unavailable: seq<UnavailableConnection>)
  {
    /** What the sink relies on in a Hub answer: ids are unique, and a connection
        is either usable or unavailable. */
    ghost predicate WellFormed() {
      && UniqueKeys(groups, GroupId)
      && UniqueKeys(connections, ConnectionId)
      && forall c, u :: c in connections && u in unavailable ==> c.id != u.id
    }

    function Groups(): map<int, GroupConfig> { ById(groups, GroupId) }

    function Connections(): map<int, ConnectionConfig> { ById(connections, ConnectionId) }
  }

  datatype ConfigPlan = ConfigPlan(
    groupsToStop: seq<int>, connectionsToStop: seq<int>,
    connectionsToStart: seq<ConnectionConfig>, groupsToStart: seq<GroupConfig>)
  {
    predicate IsEmpty() {
      groupsToStop == [] && connectionsToStop == [] && connectionsToStart == [] && groupsToStart == []
    }
  }

  function GroupId(g: GroupConfig): int { g.id }

  function ConnectionId(c: ConnectionConfig): int { c.id }

  function Self(id: int): int { id }

  function Destination(g: GroupConfig): Dest { Dest(g.connectionId, g.tableName) }

  ghost predicate UniqueKeys<T(!new)>(items: seq<T>, key: T -> int) {
    forall i, j :: 0 <= i < j < |items| ==> key(items[i]) != key(items[j])
  }

  predicate Ascending<T>(items: seq<T>, key: T -> int) {
    |items| > 1 ==> key(items[0]) < key(items[1]) && Ascending(items[1..], key)
  }

  /** The last item with the key `k`. */
  function Latest<T(!new, ==)>(items: seq<T>, key: T -> int, k: int): (x: T)
    requires exists y :: y in items && key(y) == k
    ensures x in items && key(x) == k
  {
    if key(items[|items| - 1]) == k then items[|items| - 1] else
      assert forall y :: y in items && y != items[|items| - 1] ==> y in items[..|items| - 1];
      Latest(items[..|items| - 1], key, k)
  }

  /** Collecting into a `HashMap`: a later item replaces an earlier one. */
  function ById<T(!new, ==)>(items: seq<T>, key: T -> int): (m: map<int, T>)
    ensures forall k :: k in m ==> m[k] in items && key(m[k]) == k
    ensures forall x :: x in items ==> key(x) in m
    ensures UniqueKeys(items, key) ==> forall x :: x in items ==> m[key(x)] == x
  {
    map k | k in (set x | x in items :: key(x)) :: Latest(items, key, k)
  }

  function InsertByKey<T(!new)>(sorted: seq<T>, x: T, key: T -> int): (r: seq<T>)
    requires Ascending(sorted, key)
    requires forall y :: y in sorted ==> key(y) != key(x)
    ensures Ascending(r, key)
    ensures r != [] && (r[0] == x || (sorted != [] && r[0] == sorted[0] && key(r[0]) < key(x)))
    ensures forall y :: y in r <==> y == x || y in sorted
  {
    if sorted == [] || key(x) < key(sorted[0]) then [x] + sorted
    else
      assert sorted == [sorted[0]] + sorted[1..];
      var rest := InsertByKey(sorted[1..], x, key);
      assert ([sorted[0]] + rest)[1..] == rest;
      [sorted[0]] + rest
  }

  /** `sort_by_key` on items whose keys differ. */
  function SortByKey<T(!new)>(items: seq<T>, key: T -> int): (sorted: seq<T>)
    requires UniqueKeys(items, key)
    ensures Ascending(sorted, key)
    ensures forall x :: x in sorted <==> x in items
  {
    if items == [] then []
    else
      assert items == [items[0]] + items[1..];
      InsertByKey(SortByKey(items[1..], key), items[0], key)
  }

  /** An ascending list names no key twice. */
  lemma {:induction false} AscendingUnique<T(!new)>(items: seq<T>, key: T -> int)
    requires Ascending(items, key)
    ensures UniqueKeys(items, key)
    ensures forall x :: x in items ==> key(items[0]) <= key(x)
  {
    if |items| > 1 {
      var rest := items[1..];
      AscendingUnique(rest, key);
      forall i, j | 0 <= i < j < |items| ensures key(items[i]) != key(items[j]) {
        assert items[j] == rest[j - 1] && rest[j - 1] in rest;
        if i > 0 {
          assert items[i] == rest[i - 1];
        }
      }
    }
  }

  lemma EarlierKeysDiffer<T(!new)>(items: seq<T>, i: nat, key: T -> int)
    requires UniqueKeys(items, key) && i < |items|
    ensures forall x :: x in items[..i] ==> key(x) != key(items[i])
    ensures forall x :: x in items[..i + 1] <==> x in items[..i] || x == items[i]
  {
    assert items[..i + 1] == items[..i] + [items[i]];
  }

  lemma NoMembersNoItems<T>(items: seq<T>)
    ensures (forall x :: x !in items) ==> items == []
  {
    if items != [] {
      assert items[0] in items;
    }
  }

  // --- What a plan must contain ---------------------------------------------

  type Groups = map<int, GroupConfig>
  type Connections = map<int, ConnectionConfig>

  ghost predicate Keyed(groups: Groups, connections: Connections) {
    && (forall id :: id in groups ==> groups[id].id == id)
    && (forall id :: id in connections ==> connections[id].id == id)
  }

  /** The connection id is configured on exactly one of the two sides. */
  predicate AppearedOrVanished(applied: Connections, desired: SinkConfig, id: int) {
    (id in applied) != (id in desired.Connections())
  }

  predicate StopsGroup(groups: Groups, connections: Connections, desired: SinkConfig, id: int) {
    && id in groups
    && (|| id !in desired.Groups()
        || desired.Groups()[id] != groups[id]
        || AppearedOrVanished(connections, desired, groups[id].connectionId))
  }

  predicate StartsGroup(groups: Groups, connections: Connections, desired: SinkConfig, g: GroupConfig) {
    && g in desired.groups
    && (|| g.id !in groups
        || groups[g.id] != g
        || AppearedOrVanished(connections, desired, g.connectionId))
  }

  predicate StopsConnection(connections: Connections, desired: SinkConfig, id: int) {
    && id in connections
    && (id !in desired.Connections() || desired.Connections()[id] != connections[id])
  }

  predicate StartsConnection(connections: Connections, desired: SinkConfig, c: ConnectionConfig) {
    && c in desired.connections
    && (c.id !in connections || connections[c.id] != c)
  }

  ghost predicate IsPlan(plan: ConfigPlan, groups: Groups, connections: Connections, desired: SinkConfig) {
    && Ascending(plan.groupsToStop, Self)
    && Ascending(plan.connectionsToStop, Self)
    && Ascending(plan.connectionsToStart, ConnectionId)
    && Ascending(plan.groupsToStart, GroupId)
    && (forall id :: id in plan.groupsToStop <==> StopsGroup(groups, connections, desired, id))
    && (forall id :: id in plan.connectionsToStop <==> StopsConnection(connections, desired, id))
    && (forall c :: c in plan.connectionsToStart <==> StartsConnection(connections, desired, c))
    && (forall g :: g in plan.groupsToStart <==> StartsGroup(groups, connections, desired, g))
  }

  ghost predicate Distinct(ids: seq<int>) {
    forall i, j :: 0 <= i < j < |ids| ==> ids[i] != ids[j]
  }

  lemma DistinctIds(ids: seq<int>)
    requires Distinct(ids)
    ensures UniqueKeys(ids, Self)
  {
  }

  /** The applied ids that are gone or differ. */
  method StopsOf<T(==)>(applied: map<int, T>, desired: map<int, T>) returns (stops: seq<int>)
    ensures Distinct(stops)
    ensures forall id :: id in stops <==> id in applied && !(id in desired && desired[id] == applied[id])
  {
    stops := [];
    var pending := applied.Keys;
    while pending != {}
      invariant pending <= applied.Keys && Distinct(stops)
      invariant forall id :: id in stops <==> id in applied && id !in pending && !(id in desired && desired[id] == applied[id])
    {
      EmptyOrInhabited(pending);
      var id :| id in pending;
      pending := pending - {id};
      if !(id in desired && desired[id] == applied[id]) {
        stops := stops + [id];
      }
    }
  }

  /** The desired items that are new or differ. */
  method StartsOf<T(!new, ==)>(applied: map<int, T>, desired: seq<T>, key: T -> int) returns (starts: seq<T>)
    requires UniqueKeys(desired, key)
    ensures UniqueKeys(starts, key)
    ensures forall x :: x in starts <==> x in desired && !(key(x) in applied && applied[key(x)] == x)
  {
    starts := [];
    for i := 0 to |desired|
      invariant UniqueKeys(starts, key)
      invariant forall x :: x in starts <==> x in desired[..i] && !(key(x) in applied && applied[key(x)] == x)
    {
      EarlierKeysDiffer(desired, i, key);
      var x := desired[i];
      if !(key(x) in applied && applied[key(x)] == x) {
        AppendUnique(starts, x, key);
        starts := starts + [x];
      }
    }
    assert desired[..|desired|] == desired;
  }

  lemma AppendUnique<T(!new)>(items: seq<T>, x: T, key: T -> int)
    requires UniqueKeys(items, key) && forall y :: y in items ==> key(y) != key(x)
    ensures UniqueKeys(items + [x], key)
  {
    forall i, j | 0 <= i < j < |items + [x]| ensures key((items + [x])[i]) != key((items + [x])[j]) {
      assert items[i] in items;
    }
  }

  /** The unchanged groups whose connection appeared or vanished. */
  method Restarts(groups: Groups, connections: Connections, desired: SinkConfig) returns (restarts: seq<GroupConfig>)
    requires desired.WellFormed()
    ensures UniqueKeys(restarts, GroupId)
    ensures forall g :: g in restarts <==> g in desired.groups && g.id in groups && groups[g.id] == g
                                           && AppearedOrVanished(connections, desired, g.connectionId)
  {
    var appeared := set c | c in desired.connections && c.id !in connections :: c.id;
    var vanished := set id | id in connections && id !in desired.Connections();
    restarts := [];
    for i := 0 to |desired.groups|
      invariant UniqueKeys(restarts, GroupId)
      invariant forall g :: g in restarts <==> g in desired.groups[..i] && g.id in groups && groups[g.id] == g
                                               && AppearedOrVanished(connections, desired, g.connectionId)
    {
      EarlierKeysDiffer(desired.groups, i, GroupId);
      var g := desired.groups[i];
      assert g.connectionId in appeared || g.connectionId in vanished
             <==> AppearedOrVanished(connections, desired, g.connectionId);
      if g.id in groups && groups[g.id] == g && (g.connectionId in appeared || g.connectionId in vanished) {
        AppendUnique(restarts, g, GroupId);
        restarts := restarts + [g];
      }
    }
    assert desired.groups[..|desired.groups|] == desired.groups;
  }

  lemma ConcatUnique<T(!new)>(a: seq<T>, b: seq<T>, key: T -> int)
    requires UniqueKeys(a, key) && UniqueKeys(b, key)
    requires forall x, y :: x in a && y in b ==> key(x) != key(y)
    ensures UniqueKeys(a + b, key)
  {
    forall i, j | 0 <= i < j < |a + b| ensures key((a + b)[i]) != key((a + b)[j]) {
      if i < |a| <= j {
        assert a[i] in a && b[j - |a|] in b;
      }
    }
  }

  function IdsOf(groups: seq<GroupConfig>): (ids: seq<int>)
    ensures |ids| == |groups| && forall i :: 0 <= i < |ids| ==> ids[i] == groups[i].id
    ensures UniqueKeys(groups, GroupId) ==> UniqueKeys(ids, Self)
    ensures forall g :: g in groups ==> g.id in ids
  {
    var ids := seq(|groups|, i requires 0 <= i < |groups| => groups[i].id);
    assert forall g :: g in groups ==> exists i :: 0 <= i < |groups| && groups[i] == g && ids[i] == g.id;
    ids
  }

  method GroupLists(groups: Groups, connections: Connections, desired: SinkConfig)
    returns (toStop: seq<int>, toStart: seq<GroupConfig>)
    requires desired.WellFormed() && Keyed(groups, connections)
    ensures Ascending(toStop, Self) && Ascending(toStart, GroupId)
    ensures forall id :: id in toStop <==> StopsGroup(groups, connections, desired, id)
    ensures forall g :: g in toStart <==> StartsGroup(groups, connections, desired, g)
  {
    var stops := StopsOf(groups, desired.Groups());
    var starts := StartsOf(groups, desired.groups, GroupId);
    var restarts := Restarts(groups, connections, desired);
    GroupStopsComplete(groups, connections, desired, stops, restarts);
    toStop := SortByKey(stops + IdsOf(restarts), Self);
    ConcatUnique(starts, restarts, GroupId);
    toStart := SortByKey(starts + restarts, GroupId);
  }

  method ConnectionLists(connections: Connections, desired: SinkConfig)
    returns (toStop: seq<int>, toStart: seq<ConnectionConfig>)
    requires desired.WellFormed()
    ensures Ascending(toStop, Self) && Ascending(toStart, ConnectionId)
    ensures forall id :: id in toStop <==> StopsConnection(connections, desired, id)
    ensures forall c :: c in toStart <==> StartsConnection(connections, desired, c)
  {
    var stops := StopsOf(connections, desired.Connections());
    DistinctIds(stops);
    toStop := SortByKey(stops, Self);
    var starts := StartsOf(connections, desired.connections, ConnectionId);
    toStart := SortByKey(starts, ConnectionId);
  }

  /** `plan_changes`. */
  method PlanChanges(groups: Groups, connections: Connections, desired: SinkConfig) returns (plan: ConfigPlan)
    requires desired.WellFormed() && Keyed(groups, connections)
    ensures IsPlan(plan, groups, connections, desired)
  {
    var groupsToStop, groupsToStart := GroupLists(groups, connections, desired);
    var connectionsToStop, connectionsToStart := ConnectionLists(connections, desired);
    plan := ConfigPlan(groupsToStop, connectionsToStop, connectionsToStart, groupsToStart);
  }

  lemma GroupStopsComplete(groups: Groups, connections: Connections, desired: SinkConfig, stops: seq<int>, restarts: seq<GroupConfig>)
    requires desired.WellFormed() && Keyed(groups, connections)
    requires Distinct(stops) && UniqueKeys(restarts, GroupId)
    requires forall id :: id in stops <==> id in groups && !(id in desired.Groups() && desired.Groups()[id] == groups[id])
    requires forall g :: g in restarts <==> g in desired.groups && g.id in groups && groups[g.id] == g
                                            && AppearedOrVanished(connections, desired, g.connectionId)
    ensures UniqueKeys(stops + IdsOf(restarts), Self)
    ensures forall id :: id in stops + IdsOf(restarts) <==> StopsGroup(groups, connections, desired, id)
  {
    var ids := IdsOf(restarts);
    forall id | id in ids ensures id in groups && groups[id] in restarts && id !in stops {
      var i :| 0 <= i < |ids| && ids[i] == id;
      assert restarts[i] in restarts;
    }
    DistinctIds(stops);
    ConcatUnique(stops, ids, Self);
    forall id ensures id in stops + ids <==> StopsGroup(groups, connections, desired, id) {
      if id in groups && groups[id] in restarts {
        assert id in ids;
      }
    }
  }

  // --- What a plan achieves ---------------------------------------------------

  function AfterPlan<T(!new, ==)>(applied: map<int, T>, stops: seq<int>, starts: seq<T>, key: T -> int): map<int, T> {
    (applied - (set id | id in stops)) + ById(starts, key)
  }

  lemma Rebuilt<T(!new)>(applied: map<int, T>, stops: seq<int>, starts: seq<T>, key: T -> int, desired: map<int, T>)
    requires UniqueKeys(starts, key)
    requires forall x :: x in starts ==> key(x) in desired && desired[key(x)] == x
    requires forall id :: id in applied && id !in stops ==> id in desired
    requires forall id :: id in desired && desired[id] !in starts ==> id in applied && id !in stops && applied[id] == desired[id]
    requires forall id :: id in desired ==> key(desired[id]) == id
    ensures AfterPlan(applied, stops, starts, key) == desired
  {
    var started := ById(starts, key);
    forall id | id in desired
      ensures id in AfterPlan(applied, stops, starts, key) && AfterPlan(applied, stops, starts, key)[id] == desired[id]
    {
      if desired[id] in starts {
        assert started[key(desired[id])] == desired[id];
      }
    }
    assert forall id :: id in started ==> started[id] in starts;
    forall id | id in AfterPlan(applied, stops, starts, key) ensures id in desired {
      if id !in started {
        assert id in applied && id !in stops;
      }
    }
  }

  /** Removing the stops and adding the starts gives exactly the desired maps. */
  lemma PlanConverges(plan: ConfigPlan, groups: Groups, connections: Connections, desired: SinkConfig)
    requires desired.WellFormed() && Keyed(groups, connections)
    requires IsPlan(plan, groups, connections, desired)
    ensures AfterPlan(groups, plan.groupsToStop, plan.groupsToStart, GroupId) == desired.Groups()
    ensures AfterPlan(connections, plan.connectionsToStop, plan.connectionsToStart, ConnectionId) == desired.Connections()
  {
    AscendingUnique(plan.groupsToStart, GroupId);
    AscendingUnique(plan.connectionsToStart, ConnectionId);
    Rebuilt(groups, plan.groupsToStop, plan.groupsToStart, GroupId, desired.Groups());
    Rebuilt(connections, plan.connectionsToStop, plan.connectionsToStart, ConnectionId, desired.Connections());
  }

  lemma NothingToDo(plan: ConfigPlan, groups: Groups, connections: Connections, desired: SinkConfig)
    requires desired.WellFormed() && Keyed(groups, connections)
    requires IsPlan(plan, groups, connections, desired)
    requires groups == desired.Groups() && connections == desired.Connections()
    ensures plan.IsEmpty()
  {
    forall id ensures id !in plan.groupsToStop && id !in plan.connectionsToStop {}
    forall g ensures g !in plan.groupsToStart { assert g in desired.groups ==> desired.Groups()[g.id] == g; }
    forall c ensures c !in plan.connectionsToStart { assert c in desired.connections ==> desired.Connections()[c.id] == c; }
    NoMembersNoItems(plan.groupsToStop);
    NoMembersNoItems(plan.connectionsToStop);
    NoMembersNoItems(plan.groupsToStart);
    NoMembersNoItems(plan.connectionsToStart);
  }

  /** Nothing is touched exactly when nothing differs. */
  lemma PlanEmptyIffApplied(plan: ConfigPlan, groups: Groups, connections: Connections, desired: SinkConfig)
    requires desired.WellFormed() && Keyed(groups, connections)
    requires IsPlan(plan, groups, connections, desired)
    ensures plan.IsEmpty() <==> groups == desired.Groups() && connections == desired.Connections()
  {
    if plan.IsEmpty() {
      PlanConverges(plan, groups, connections, desired);
      assert (set id | id in plan.groupsToStop) == {} && (set id | id in plan.connectionsToStop) == {};
    } else if groups == desired.Groups() && connections == desired.Connections() {
      NothingToDo(plan, groups, connections, desired);
    }
  }

  /** The plan touches a group exactly when it is new, removed, changed, or its
      connection id appeared or vanished; a group that stays is stopped exactly
      when it is started again. */
  lemma TouchedIff(plan: ConfigPlan, groups: Groups, connections: Connections, desired: SinkConfig, id: int)
    requires desired.WellFormed() && Keyed(groups, connections)
    requires IsPlan(plan, groups, connections, desired)
    ensures var before, after := id in groups, id in desired.Groups();
            var stopped := id in plan.groupsToStop;
            var started := exists g :: g in plan.groupsToStart && g.id == id;
            && (stopped || started <==>
                || before != after
                || (before && after &&
                    (|| groups[id] != desired.Groups()[id]
                     || AppearedOrVanished(connections, desired, groups[id].connectionId))))
            && (before && after ==> (stopped <==> started))
            && (!before ==> !stopped) && (!after ==> !started)
  {
    if id in desired.Groups() {
      var g := desired.Groups()[id];
      assert StartsGroup(groups, connections, desired, g) <==> g in plan.groupsToStart;
    }
  }

  // --- The queue hand-off rule ------------------------------------------------

  /** `queue_carries_over`: same group, same connection and table, tags left, and
      the connection's flusher is not being stopped. */
  predicate QueueCarriesOver(applied: GroupConfig, desired: Option<GroupConfig>, connectionsToStop: seq<int>): (carries: bool)
    ensures carries ==> desired.Some? && Destination(desired.value) == Destination(applied) && |desired.value.tags| > 0
    ensures carries ==> applied.connectionId !in connectionsToStop
  {
    match desired
    case None => false
    case Some(next) =>
      && next.id == applied.id
      && next.connectionId == applied.connectionId
      && next.tableName == applied.tableName
      && next.tags != []
      && next.connectionId !in connectionsToStop
  }
}
