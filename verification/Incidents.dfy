/** Concrete runs of the engine in which something is lost or left behind. */
module Incidents {
  import opened Rows
  import opened RowQueues
  import opened Plans
  import opened Groups
  import opened GroupTables
  import opened Engines
  import opened Flushes
  import opened FlushLogs
  import opened Flushers
  import D = Delivery

  const GroupKey := 7
  const ConnectionKey := 1

  function Group(tag: string): GroupConfig {
    GroupConfig(GroupKey, "group", ConnectionKey, "interval", 1000, "t", false, [TagConfig(ConnectionKey, GroupKey, 1, tag)])
  }

  function Connection(port: int): ConnectionConfig {
    ConnectionConfig(ConnectionKey, "db", "host", port, None, None, None)
  }

  /** One group on one connection. */
  function Config(port: int, tag: string): SinkConfig { SinkConfig([Group(tag)], [Connection(port)], []) }

  lemma ConfigIs(port: int, tag: string)
    ensures Config(port, tag).WellFormed()
    ensures Config(port, tag).Groups() == map[GroupKey := Group(tag)]
    ensures Config(port, tag).Connections() == map[ConnectionKey := Connection(port)]
    ensures SetupProblem(Group(tag)).None?
  {
    var config := Config(port, tag);
    assert Group(tag) in config.groups && Connection(port) in config.connections;
    assert forall id :: id in config.Groups() ==> config.Groups()[id] in config.groups;
    assert forall c :: c in config.Connections() ==> config.Connections()[c] in config.connections;
    assert config.Groups()[GroupId(Group(tag))] == Group(tag);
    assert config.Connections()[ConnectionId(Connection(port))] == Connection(port);
    TableNameIff("t");
    assert IsSegment("t");
  }

  /** The first configuration starts the group. */
  method Begin(port: int, tag: string) returns (e: Engine)
    requires Buildable(Connection(port))
    ensures fresh(e) && fresh(e.owned) && e.Settled() && e.shutdownFlush == 0
    ensures e.appliedGroups == map[GroupKey := Group(tag)] && e.appliedConnections == map[ConnectionKey := Connection(port)]
    ensures GroupKey in e.registry && GroupKey in e.producers
  {
    ConfigIs(port, tag);
    e := new Engine(0, 10);
    ghost var before, states, groups, connections := e.Now(), e.States(), e.appliedGroups, e.appliedConnections;
    var config := Config(port, tag);
    var completed;
    ghost var flushed, wait;
    completed, flushed, wait := e.ApplyPlan(config, []);
    assert ReconfiguredAt(before, e.Now(), groups, connections, config, e.flushers, GroupKey);
    assert MatchedAt(e.flushers, e.appliedConnections, ConnectionKey);
  }

  /** The port goes bad: the unchanged group runs on without a flusher. */
  method WithoutFlusher() returns (e: Engine)
    ensures fresh(e) && fresh(e.owned) && e.Settled() && e.shutdownFlush == 0
    ensures e.appliedGroups == map[GroupKey := Group("a")] && e.appliedConnections == map[ConnectionKey := Connection(0)]
    ensures GroupKey in e.registry && GroupKey in e.producers && ConnectionKey !in e.flushers
  {
    ConfigIs(5432, "a");
    ConfigIs(0, "a");
    e := Begin(5432, "a");
    var completed;
    ghost var wait;
    ghost var flushed, t, flushers := map[], e.Now(), e.flushers;
    completed, flushed, wait := e.ApplyPlan(Config(0, "a"), [[], []]);
    PortChangeTouchesNoGroup(t, e.Now(), map[GroupKey := Group("a")], map[ConnectionKey := Connection(5432)], Config(0, "a"), flushers, e.flushers, Group("a"));
  }

  /** Then the tags change: the inherited queue is given up. After the port was
      corrected the group is still broken, although its connection has a flusher. */
  method BadPort() returns (e: Engine, ghost givenUp: Tables)
    ensures GroupKey in givenUp.broken && GroupKey !in givenUp.registry
    ensures e.Settled() && ConnectionKey in e.flushers && GroupKey in e.broken && GroupKey !in e.registry
  {
    ConfigIs(0, "b");
    ConfigIs(5432, "b");
    e := WithoutFlusher();
    var completed;
    ghost var wait;
    ghost var flushed, t, flushers := map[], e.Now(), e.flushers;

    completed, flushed, wait := e.ApplyPlan(Config(0, "b"), [[], []]);
    InheritsIffBuildable(t, e.Now(), map[GroupKey := Group("a")], map[ConnectionKey := Connection(0)], Config(0, "b"), flushers, e.flushers, GroupKey);
    givenUp, t, flushers := e.Now(), e.Now(), e.flushers;

    completed, flushed, wait := e.ApplyPlan(Config(5432, "b"), [[], []]);
    PortChangeTouchesNoGroup(t, e.Now(), map[GroupKey := Group("b")], map[ConnectionKey := Connection(0)], Config(5432, "b"), flushers, e.flushers, Group("b"));
  }

  /** The queues are emptied and the flushers stopped for a shutdown. */
  method WoundDown() returns (e: Engine)
    ensures fresh(e) && fresh(e.owned) && e.Resumable() && e.flushers == map[]
    ensures e.appliedGroups == map[GroupKey := Group("a")] && e.appliedConnections == map[ConnectionKey := Connection(5432)]
    ensures GroupKey in e.registry
  {
    e := Begin(5432, "a");
    e.StopProducers();
    ghost var course;
    var now, clean, lost;
    now, clean, lost, course := e.EmptyQueues(Graceful, 0, Surroundings(None, [], map[], Some(0), None));
  }

  /** The Hub then answers the last push with other tags. The port is good, and still
      the inherited queue is given up. */
  method GivenUpInShutdown() returns (e: Engine)
    ensures Buildable(Connection(5432)) && e.Resumable() && GroupKey in e.broken && GroupKey !in e.registry
  {
    ConfigIs(5432, "a");
    ConfigIs(5432, "b");
    e := WoundDown();
    assert RootedAt(e.Now(), e.appliedGroups, GroupKey);
    ghost var t, flushers := e.Now(), e.flushers;
    var completed;
    ghost var flushed, wait;
    completed, flushed, wait := e.ApplyPlan(Config(5432, "b"), []);
    InheritsIffServed(t, e.Now(), map[GroupKey := Group("a")], map[ConnectionKey := Connection(5432)], Config(5432, "b"), flushers, e.flushers, GroupKey);
  }

  /** The Hub answers the last push with a group on a new connection. */
  method RestartedByShutdown() returns (e: Engine)
    ensures fresh(e) && fresh(e.owned) && e.Resumable() && e.queueMaxRows == 10
    ensures GroupKey in e.producers && AllEmpty(e.States())
  {
    ConfigIs(5432, "a");
    e := new Engine(0, 10);
    var config := Config(5432, "a");
    var now, completed, lost, sent;
    ghost var reported, course;
    now, completed, lost, sent, reported, course := e.Shutdown(Graceful, 0, Surroundings(None, [], map[], Some(0), Some(config)));
    assert RunsAfterAt(map[], map[], config, e.producers, GroupKey);
  }

  /** Its producer outlives the shutdown, and what it pushes (unless the ids have run
      out) is never sent and never counted. */
  method RowsAfterShutdown(row: Row) returns (e: Engine, ghost dropped: nat)
    ensures e.Resumable() && e.flushers.Keys <= e.appliedConnections.Keys && GroupKey in e.producers
    ensures var q := e.producers[GroupKey].queue;
            q.nextId >= U128_MAX || (|q.rows| == 1 && q.rows[0].row == row && q.dropped == dropped)
  {
    e := RestartedByShutdown();
    assert PlacedAt(e.Now(), e.homes, GroupKey);
    var q := e.producers[GroupKey].queue;
    assert e.States()[q].rows == [] && q.maxRows == 10;
    dropped := q.dropped;
    if q.nextId < U128_MAX {
      assert KeptAt(e.Now(), e.homes, e.States(), q);
      ghost var pushed := Pushed(q.State(), row);
      assert pushed.rows == [Entry(q.nextId, row)] && pushed.dropped == Min(dropped, U64_MAX);
      e.Produce(GroupKey, row);
    }
  }

  /** The one group of the connection, with an empty queue and a flusher. */
  method Unchecked(port: int) returns (first: Flusher, runtime: GroupRuntime)
    ensures fresh(first) && fresh(runtime) && fresh(runtime.queue) && first.Valid() && !runtime.tableReady
    ensures first.Runtimes() == {runtime} && first.Queues() == {runtime.queue} && first.groups == map[GroupKey := runtime]
    ensures first.batchSize == 1 && first.target == Connection(port) && runtime.config == Group("a")
    ensures runtime.queue.State() == Queue([], 0, 10, 0) && first.log == [Connected(Connection(port))]
  {
    ConfigIs(port, "a");
    var queue := new RowQueue.WithDropped(10, 0);
    runtime := new GroupRuntime.WithQueue(Group("a"), queue);
    ghost var ledger := D.Ledger(queue.State(), Dest(ConnectionKey, "t"), [], 0, 0, {}, {}, {}, 0);
    assert ledger.Balanced();
    var groups := map[GroupKey := runtime];
    assert OfConnection(groups, ConnectionKey) <= {runtime};
    first := new Flusher.First(Connection(port), 1, 60, groups, {runtime}, map[queue := ledger]);
  }

  /** Nothing happened meanwhile. */
  function Quiet(runtime: GroupRuntime): Reply { Reply(map[], Done, 0, map[], map[GroupKey := runtime]) }

  lemma QuietFits(f: Flusher, runtime: GroupRuntime)
    requires runtime in f.Runtimes() && runtime.config == Group("a")
    ensures f.FitsOne(Quiet(runtime))
  {
  }

  /** Its table is checked. */
  method CheckedOnce(port: int) returns (first: Flusher, runtime: GroupRuntime)
    ensures fresh(first) && fresh(runtime) && fresh(runtime.queue) && first.Valid() && runtime.tableReady
    ensures first.Runtimes() == {runtime} && first.Queues() == {runtime.queue} && first.groups == map[GroupKey := runtime]
    ensures first.batchSize == 1 && first.target == Connection(port) && runtime.config == Group("a")
    ensures runtime.queue.State() == Queue([], 0, 10, 0)
    ensures first.log == [Connected(Connection(port)), Disturbed(map[]), Checked(runtime, Done)]
  {
    first, runtime := Unchecked(port);
    QuietFits(first, runtime);
    ghost var start := first.log;
    first.CheckTable(runtime, Quiet(runtime));
    assert LostBy(Done, first.Served()) == [] && OpsOn(map[], runtime.queue) == [];
  }

  /** The connection is edited; the new flusher finds one row in the queue. */
  method TakenOver(row: Row, port: int, edited: int) returns (second: Flusher, runtime: GroupRuntime)
    ensures fresh(second) && fresh(runtime) && fresh(runtime.queue) && second.Valid() && runtime.tableReady
    ensures second.Runtimes() == {runtime} && second.Queues() == {runtime.queue} && runtime.config == Group("a")
    ensures second.batchSize == 1 && second.target == Connection(edited)
    ensures runtime.queue.State() == Queue([Entry(0, row)], 1, 10, 0)
    ensures second.log == [Connected(Connection(port)), Disturbed(map[]), Checked(runtime, Done), Connected(Connection(edited)),
                           Disturbed(map[runtime.queue := [Push(row)]])]
  {
    var first;
    first, runtime := CheckedOnce(port);
    second := new Flusher.Successor(first, Connection(edited));
    second.Elsewhere(map[runtime.queue := [Push(row)]], second.groups);
    assert Pushed(Queue([], 0, 10, 0), row) == Queue([Entry(0, row)], 1, 10, 0);
    assert PerformAll(Queue([], 0, 10, 0), [Push(row)]) == PerformAll(Queue([Entry(0, row)], 1, 10, 0), []);
  }

  /** It writes the row to the new target, and the only check was made against the
      old one. */
  method UncheckedTarget(row: Row, port: int, edited: int) returns (second: Flusher, runtime: GroupRuntime)
    requires port != edited
    ensures second.Valid() && second.target == Connection(edited)
    ensures |second.log| == 7 && second.log[6] == Inserted(runtime, Sent([row], 0, 0, Done))
    ensures CheckedAt(second.log[..6], runtime, 2) && TookOver(second.log[..6], 3)
    ensures TargetOf(second.log[..6]) == Some(Connection(edited)) && TargetOf(second.log[..2]) == Some(Connection(port))
  {
    second, runtime := TakenOver(row, port, edited);
    ghost var start := second.log;
    var batch := runtime.queue.PeekBatch(1);
    assert batch.rows == [row];
    QuietFits(second, runtime);
    second.Insert(runtime, batch, Quiet(runtime));
    OneTakeover(start, second.log, runtime, port, edited);
  }

  lemma OneTakeover(start: seq<FlushLogs.Event>, log: seq<FlushLogs.Event>, runtime: GroupRuntime, port: int, edited: int)
    requires |start| == 5 && |log| == 7 && start == log[..5] && log[5].Disturbed?
    requires start[0] == Connected(Connection(port)) && start[1].Disturbed? && start[2] == Checked(runtime, Done)
    requires start[3] == Connected(Connection(edited)) && start[4].Disturbed?
    ensures CheckedAt(log[..6], runtime, 2) && TookOver(log[..6], 3)
    ensures TargetOf(log[..6]) == Some(Connection(edited)) && TargetOf(log[..2]) == Some(Connection(port))
  {
    assert TookOver(log[..2], 0);
    TargetIs(log[..2], 0);
    TargetIs(log[..6], 3);
  }
}
