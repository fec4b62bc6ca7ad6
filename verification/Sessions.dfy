/** Which session a collector reads through: the simulator registry that remembers
    the last dial target of each connection, the directory that reuses sessions
    by id alone, and the synchronisation that keeps the two in step
    (crates/banto-collect/src/{sessions,broker_sim}.rs, crates/banto-broker/src/lib.rs). */
module Sessions {
  import opened Rows

  datatype Setting = Setting(key: string, value: string)

  datatype SecretRef = Ref(id: string) | Malformed

  /** `settings` are the ones without secret references, `secrets` the references. */
  datatype PlcConnection = PlcConnection(
    id: int, protocol: string, settings: seq<Setting>, secrets: map<string, SecretRef>, simulation: bool)

  /** A session or frame driver: its secret keys and the settings it accepts. */
  datatype Driver = Driver(secretKeys: set<string>, accepts: seq<Setting> -> bool)

  type DriverRegistry = map<string, Driver>

  /** What the hash of the source is taken of. */
  datatype Fingerprint = Fingerprint(
    protocol: string, settings: multiset<Setting>, secrets: map<string, SecretRef>, simulated: Option<nat>)

  datatype SimEntry = SimEntry(protocol: string, device: nat)

  datatype BrokerError = UnsupportedProtocol | InvalidSettings

  datatype Ensured = Up(session: Session) | Failed(error: BrokerError)

  function SecretKeys(drivers: DriverRegistry, protocol: string): set<string> {
    if protocol in drivers then drivers[protocol].secretKeys else {}
  }

  function Public(settings: seq<Setting>, secretKeys: set<string>): multiset<Setting> {
    if settings == [] then multiset{}
    else (if settings[0].key in secretKeys then multiset{} else multiset{settings[0]}) + Public(settings[1..], secretKeys)
  }

  /** `of_connection_marked`. */
  function FingerprintOf(drivers: DriverRegistry, conn: PlcConnection, simulated: Option<nat>): Fingerprint {
    var keys := SecretKeys(drivers, conn.protocol);
    Fingerprint(conn.protocol, Public(conn.settings, keys), SecretsOf(conn, keys), simulated)
  }

  // --- When two connections have the same target -------------------------------------------

  function Occurrences(settings: seq<Setting>, s: Setting): nat {
    if settings == [] then 0 else (if settings[0] == s then 1 else 0) + Occurrences(settings[1..], s)
  }

  predicate IsSecret(drivers: DriverRegistry, protocol: string, key: string) {
    protocol in drivers && key in drivers[protocol].secretKeys
  }

  predicate SameReference(c: PlcConnection, d: PlcConnection, key: string) {
    (key in c.secrets <==> key in d.secrets) && (key in c.secrets ==> c.secrets[key] == d.secrets[key])
  }

  /** The same protocol and simulator table, each public setting equally often in both,
      and the same secret references. Neither the id, the order of the settings nor the
      values of secrets matter. */
  ghost predicate SameTarget(drivers: DriverRegistry, c: PlcConnection, simulated: Option<nat>, d: PlcConnection, other: Option<nat>) {
    && c.protocol == d.protocol && simulated == other
    && (forall s: Setting :: !IsSecret(drivers, c.protocol, s.key) ==> Occurrences(c.settings, s) == Occurrences(d.settings, s))
    && (forall key: string :: IsSecret(drivers, c.protocol, key) ==> SameReference(c, d, key))
  }

  lemma {:induction false} PublicCounts(settings: seq<Setting>, keys: set<string>, s: Setting)
    ensures Public(settings, keys)[s] == if s.key in keys then 0 else Occurrences(settings, s)
  {
    if settings != [] {
      PublicCounts(settings[1..], keys, s);
    }
  }

  lemma PublicsAgree(settings: seq<Setting>, others: seq<Setting>, keys: set<string>)
    ensures Public(settings, keys) == Public(others, keys)
            <==> forall s: Setting :: s.key !in keys ==> Occurrences(settings, s) == Occurrences(others, s)
  {
    forall s: Setting
      ensures Public(settings, keys)[s] == if s.key in keys then 0 else Occurrences(settings, s)
      ensures Public(others, keys)[s] == if s.key in keys then 0 else Occurrences(others, s)
    {
      PublicCounts(settings, keys, s);
      PublicCounts(others, keys, s);
    }
  }

  function SecretsOf(c: PlcConnection, keys: set<string>): map<string, SecretRef> { map k | k in c.secrets && k in keys :: c.secrets[k] }

  lemma SecretsAgree(c: PlcConnection, d: PlcConnection, keys: set<string>)
    ensures SecretsOf(c, keys) == SecretsOf(d, keys) <==> forall key :: key in keys ==> SameReference(c, d, key)
  {
    var mine, others := SecretsOf(c, keys), SecretsOf(d, keys);
    forall key | key in keys ensures SameReference(c, d, key) <==> (key in mine <==> key in others) && (key in mine ==> mine[key] == others[key]) {}
    if mine == others {
      forall key | key in keys ensures SameReference(c, d, key) {
        assert key in mine <==> key in others;
      }
    }
  }

  /** Two fingerprints are equal exactly if the connections have the same target. */
  lemma FingerprintsAgree(drivers: DriverRegistry, c: PlcConnection, simulated: Option<nat>, d: PlcConnection, other: Option<nat>)
    ensures FingerprintOf(drivers, c, simulated) == FingerprintOf(drivers, d, other) <==> SameTarget(drivers, c, simulated, d, other)
  {
    var keys := SecretKeys(drivers, c.protocol);
    assert forall key :: key in keys <==> IsSecret(drivers, c.protocol, key);
    PublicsAgree(c.settings, d.settings, keys);
    SecretsAgree(c, d, keys);
  }

  /** Why `ensure_with` refuses a connection before it looks at the sessions. */
  function Refusal(drivers: DriverRegistry, conn: PlcConnection): Option<BrokerError> {
    if conn.protocol !in drivers then Some(UnsupportedProtocol)
    else if !drivers[conn.protocol].accepts(conn.settings) then Some(InvalidSettings)
    else None
  }

  // --- The simulator registry -----------------------------------------------------------

  class BrokerSimRegistry {
    var devices: map<int, SimEntry>
    var lastTarget: map<int, Fingerprint>
    var nextDevice: nat

    /** No two connections share a table, and table numbers are not used again. */
    ghost predicate Valid()
      reads this
    {
      && (forall id :: id in devices ==> devices[id].device < nextDevice)
      && (forall id, other :: id in devices && other in devices && id != other ==> devices[id].device != devices[other].device)
    }

    constructor ()
      ensures Valid() && devices == map[] && lastTarget == map[]
    {
      devices, lastTarget, nextDevice := map[], map[], 0;
    }

    /** `resolve`: the table a simulated connection reads (reused only by the same
        protocol), and whether the dial target is another one than last time. */
    method Resolve(conn: PlcConnection, drivers: DriverRegistry) returns (simulated: Option<nat>, changed: bool)
      requires Valid()
      modifies this
      ensures Valid() && old(nextDevice) <= nextDevice
      ensures simulated.Some? <==> conn.simulation
      ensures conn.simulation ==> conn.id in devices && devices[conn.id] == SimEntry(conn.protocol, simulated.value)
      ensures conn.simulation && conn.id in old(devices) && old(devices)[conn.id].protocol == conn.protocol ==> devices == old(devices)
      ensures conn.simulation && !(conn.id in old(devices) && old(devices)[conn.id].protocol == conn.protocol) ==>
                simulated.value >= old(nextDevice)
      ensures !conn.simulation ==> conn.id !in devices
      ensures devices - {conn.id} == old(devices) - {conn.id}
      ensures lastTarget == old(lastTarget)[conn.id := FingerprintOf(drivers, conn, simulated)]
      ensures changed <==> !(conn.id in old(lastTarget) && old(lastTarget)[conn.id] == FingerprintOf(drivers, conn, simulated))
    {
      if conn.simulation {
        if !(conn.id in devices && devices[conn.id].protocol == conn.protocol) {
          devices := devices[conn.id := SimEntry(conn.protocol, nextDevice)];
          nextDevice := nextDevice + 1;
        }
        simulated := Some(devices[conn.id].device);
      } else {
        devices := devices - {conn.id};
        simulated := None;
      }
      var fingerprint := FingerprintOf(drivers, conn, simulated);
      changed := !(conn.id in lastTarget && lastTarget[conn.id] == fingerprint);
      lastTarget := lastTarget[conn.id := fingerprint];
    }

    method Remove(id: int)
      requires Valid()
      modifies this
      ensures Valid() && nextDevice == old(nextDevice)
      ensures devices == old(devices) - {id} && lastTarget == old(lastTarget) - {id}
    {
      devices := devices - {id};
      lastTarget := lastTarget - {id};
    }
  }

  // --- The session directory --------------------------------------------------------------

  /** One broker task, dialing a connection or the simulator table that stands for it. */
  class Session {
    const id: int
    const dialed: PlcConnection
    const simulated: Option<nat>
    const fingerprint: Fingerprint
    var running: bool

    constructor (dialed: PlcConnection, simulated: Option<nat>, fingerprint: Fingerprint)
      ensures id == dialed.id && this.dialed == dialed && this.simulated == simulated
      ensures this.fingerprint == fingerprint && running
    {
      id, this.dialed, this.simulated := dialed.id, dialed, simulated;
      this.fingerprint, running := fingerprint, true;
    }

    predicate Marked(drivers: DriverRegistry) { fingerprint == FingerprintOf(drivers, dialed, simulated) }

    /** The session dials what connection `c` with this simulator table asks for. */
    ghost predicate Dials(drivers: DriverRegistry, c: PlcConnection, device: Option<nat>) {
      SameTarget(drivers, dialed, simulated, c, device)
    }
  }

  class SessionDirectory {
    const drivers: DriverRegistry
    var handles: map<int, Session>
    var tasks: map<int, Session>

    /** Every session ever started. */
    ghost var spawned: set<Session>

    /** The running sessions are exactly the tracked ones. */
    ghost predicate Valid()
      reads this, spawned
    {
      && handles == tasks
      && (forall id :: id in handles ==> handles[id] in spawned && handles[id].id == id)
      && (forall s :: s in spawned ==> s.Marked(drivers))
      && (forall s :: s in spawned ==> (s.running <==> s.id in handles && handles[s.id] == s))
    }

    constructor (drivers: DriverRegistry)
      ensures Valid() && this.drivers == drivers && handles == map[] && spawned == {}
    {
      this.drivers := drivers;
      handles, tasks, spawned := map[], map[], {};
    }

    /** Two running sessions of one id are the same session. */
    lemma NeverTwoRunning(s: Session, other: Session)
      requires Valid() && s in spawned && other in spawned && s.id == other.id && s.running && other.running
      ensures s == other
    {
    }

    /** `stop_and_join`: the old task has ended when this returns. */
    method StopAndJoin(id: int) returns (tracked: bool)
      requires Valid()
      modifies this`handles, this`tasks, spawned
      ensures Valid()
      ensures handles == old(handles) - {id} && tracked == (id in old(handles))
    {
      var entry := if id in tasks then Some(tasks[id]) else None;
      tasks := tasks - {id};
      tracked := id in handles || entry.Some?;
      handles := handles - {id};
      if entry.Some? {
        entry.value.running := false;
      }
    }

    /** `ensure_with`: a tracked session is reused whatever it dials; otherwise a
        new one dials the given settings. */
    method EnsureWith(conn: PlcConnection, simulated: Option<nat>) returns (r: Ensured)
      requires Valid()
      modifies this`handles, this`tasks, this`spawned
      ensures Valid() && old(spawned) <= spawned && fresh(spawned - old(spawned))
      ensures r.Failed? <==> Refusal(drivers, conn).Some?
      ensures r.Failed? ==> r.error == Refusal(drivers, conn).value && handles == old(handles)
      ensures r == Failed(UnsupportedProtocol) <==> conn.protocol !in drivers
      ensures r == Failed(InvalidSettings) <==> conn.protocol in drivers && !drivers[conn.protocol].accepts(conn.settings)
      ensures r.Up? ==> handles == old(handles)[conn.id := r.session]
      ensures r.Up? && conn.id in old(handles) ==> r.session == old(handles)[conn.id]
      ensures r.Up? && conn.id !in old(handles) ==>
                fresh(r.session) && r.session.fingerprint == FingerprintOf(drivers, conn, simulated)
                && r.session.dialed == conn && r.session.simulated == simulated
    {
      if conn.protocol !in drivers {
        return Failed(UnsupportedProtocol);
      }
      if !drivers[conn.protocol].accepts(conn.settings) {
        return Failed(InvalidSettings);
      }
      if conn.id in handles {
        return Up(handles[conn.id]);
      }
      var session := new Session(conn, simulated, FingerprintOf(drivers, conn, simulated));
      handles, tasks := handles[conn.id := session], tasks[conn.id := session];
      spawned := spawned + {session};
      r := Up(session);
    }
  }

  // --- Synchronisation ----------------------------------------------------------------------

  lemma OthersKept<T>(m: map<int, T>, later: map<int, T>, id: int)
    requires m - {id} == later - {id}
    ensures forall k :: k != id ==> (k in m <==> k in later) && (k in m ==> m[k] == later[k])
  {
    forall k | k != id ensures (k in m <==> k in later) && (k in m ==> m[k] == later[k]) {
      assert k in m - {id} <==> k in later - {id};
      assert k in m ==> (m - {id})[k] == m[k] && (later - {id})[k] == later[k];
    }
  }

  /** The tables of the directory and of the simulator registry. */
  datatype Book = Book(drivers: DriverRegistry, handles: map<int, Session>, devices: map<int, SimEntry>, lastTarget: map<int, Fingerprint>) {
    /** The fingerprint a connection resolves to as things stand. */
    function TargetOf(conn: PlcConnection): Fingerprint {
      FingerprintOf(drivers, conn, DeviceOf(conn))
    }

    /** The simulator table a connection resolves to. */
    function DeviceOf(conn: PlcConnection): Option<nat> {
      if conn.simulation && conn.id in devices then Some(devices[conn.id].device) else None
    }

    predicate Current(id: int, fingerprint: Fingerprint) {
      && id in lastTarget && lastTarget[id] == fingerprint
      && (fingerprint.simulated.Some? ==>
            id in devices && devices[id] == SimEntry(fingerprint.protocol, fingerprint.simulated.value))
    }
  }

  /** What `sync` promises for one planned connection: its stamp is what it
      resolves to now, and it has a handle - to the tracked session of that very
      fingerprint, the one of before exactly if that fits - or a failure. */
  ghost predicate Synced(
    book: Book, c: PlcConnection, before: map<int, Session>, handles: map<int, Session>, stamps: map<int, Fingerprint>, failures: map<int, BrokerError>)
  {
    && c.id in stamps && stamps[c.id] == book.TargetOf(c) && book.Current(c.id, stamps[c.id])
    && (c.id in failures <==> Refusal(book.drivers, c).Some?)
    && (c.id in failures ==> failures[c.id] == Refusal(book.drivers, c).value)
    && (c.id in handles <==> Refusal(book.drivers, c).None?)
    && (c.id in handles ==>
          && c.id in book.handles && book.handles[c.id] == handles[c.id] && handles[c.id].fingerprint == stamps[c.id]
          && (c.id in before && before[c.id].fingerprint == stamps[c.id] <==> c.id in before && handles[c.id] == before[c.id]))
  }

  /** What ensuring one connection that had no entry yet adds. */
  ghost predicate EnsuredNow(book: Book, c: PlcConnection, before: map<int, Session>, ensured: Ensured, stamp: Fingerprint) {
    && stamp == book.TargetOf(c) && book.Current(c.id, stamp)
    && (ensured.Failed? <==> Refusal(book.drivers, c).Some?)
    && (ensured.Failed? ==> ensured.error == Refusal(book.drivers, c).value)
    && (ensured.Up? ==>
          && c.id in book.handles && book.handles[c.id] == ensured.session && ensured.session.fingerprint == stamp
          && (c.id in before && before[c.id].fingerprint == stamp <==> c.id in before && ensured.session == before[c.id]))
  }

  function WithHandle(handles: map<int, Session>, id: int, ensured: Ensured): map<int, Session> {
    if ensured.Up? then handles[id := ensured.session] else handles
  }

  function WithFailure(failures: map<int, BrokerError>, id: int, ensured: Ensured): map<int, BrokerError> {
    if ensured.Failed? then failures[id := ensured.error] else failures
  }

  lemma SyncedNow(
    book: Book, c: PlcConnection, before: map<int, Session>, handles: map<int, Session>, stamps: map<int, Fingerprint>,
    failures: map<int, BrokerError>, ensured: Ensured, stamp: Fingerprint)
    requires EnsuredNow(book, c, before, ensured, stamp) && c.id !in handles && c.id !in failures
    ensures Synced(book, c, before, WithHandle(handles, c.id, ensured), stamps[c.id := stamp], WithFailure(failures, c.id, ensured))
    ensures WithHandle(handles, c.id, ensured) - {c.id} == handles - {c.id}
    ensures stamps[c.id := stamp] - {c.id} == stamps - {c.id}
    ensures WithFailure(failures, c.id, ensured) - {c.id} == failures - {c.id}
  {
  }

  /** A connection that was synced stays so while another one is. */
  lemma StaysSynced(
    book: Book, later: Book, c: PlcConnection, id: int, before: map<int, Session>, handles: map<int, Session>, stamps: map<int, Fingerprint>,
    failures: map<int, BrokerError>, moreHandles: map<int, Session>, moreStamps: map<int, Fingerprint>, moreFailures: map<int, BrokerError>)
    requires c.id != id && Synced(book, c, before, handles, stamps, failures)
    requires later.drivers == book.drivers && later.handles - {id} == book.handles - {id}
    requires later.devices - {id} == book.devices - {id} && later.lastTarget - {id} == book.lastTarget - {id}
    requires moreHandles - {id} == handles - {id} && moreStamps - {id} == stamps - {id} && moreFailures - {id} == failures - {id}
    ensures Synced(later, c, before, moreHandles, moreStamps, moreFailures)
  {
    OthersKept(book.handles, later.handles, id);
    OthersKept(book.devices, later.devices, id);
    OthersKept(book.lastTarget, later.lastTarget, id);
    OthersKept(handles, moreHandles, id);
    OthersKept(stamps, moreStamps, id);
    OthersKept(failures, moreFailures, id);
  }

  /** Whether the session of a synced connection is the one of before depends on the
      target alone. */
  lemma KeptIffSameTarget(
    book: Book, c: PlcConnection, before: map<int, Session>, handles: map<int, Session>, stamps: map<int, Fingerprint>, failures: map<int, BrokerError>)
    requires Synced(book, c, before, handles, stamps, failures) && c.id in handles
    requires handles[c.id].Marked(book.drivers) && (c.id in before ==> before[c.id].Marked(book.drivers))
    ensures handles[c.id].Dials(book.drivers, c, book.DeviceOf(c))
    ensures c.id in before ==> (handles[c.id] == before[c.id] <==> before[c.id].Dials(book.drivers, c, book.DeviceOf(c)))
  {
    var now := handles[c.id];
    FingerprintsAgree(book.drivers, now.dialed, now.simulated, c, book.DeviceOf(c));
    if c.id in before {
      var was := before[c.id];
      FingerprintsAgree(book.drivers, was.dialed, was.simulated, c, book.DeviceOf(c));
    }
  }

  ghost predicate UniqueIds(connections: seq<PlcConnection>) {
    forall i, j :: 0 <= i < j < |connections| ==> connections[i].id != connections[j].id
  }

  /** The first `i` connections are synced, and the sessions of all others are the
      ones of before. */
  ghost predicate SyncedUpTo(
    book: Book, snapshot: seq<PlcConnection>, i: nat, planned: set<int>, before: map<int, Session>, handles: map<int, Session>,
    stamps: map<int, Fingerprint>, failures: map<int, BrokerError>)
    requires i <= |snapshot|
  {
    && stamps.Keys == Wanted(snapshot[..i], planned)
    && (forall id :: id in handles || id in failures ==> id in stamps)
    && (forall k :: 0 <= k < i && snapshot[k].id in planned ==> Synced(book, snapshot[k], before, handles, stamps, failures))
    && (forall id :: id in handles ==> id in book.handles && book.handles[id] == handles[id])
    && (forall id :: id !in stamps ==> (id in before <==> id in book.handles) && (id in before ==> before[id] == book.handles[id]))
  }

  lemma SyncedAt(
    book: Book, snapshot: seq<PlcConnection>, planned: set<int>, before: map<int, Session>, handles: map<int, Session>,
    stamps: map<int, Fingerprint>, failures: map<int, BrokerError>, c: PlcConnection)
    requires SyncedUpTo(book, snapshot, |snapshot|, planned, before, handles, stamps, failures) && c in snapshot && c.id in planned
    ensures Synced(book, c, before, handles, stamps, failures)
  {
    var k :| 0 <= k < |snapshot| && snapshot[k] == c;
    assert Synced(book, snapshot[k], before, handles, stamps, failures);
  }

  lemma SyncedOneMore(
    book: Book, later: Book, snapshot: seq<PlcConnection>, i: nat, planned: set<int>, before: map<int, Session>, handles: map<int, Session>,
    stamps: map<int, Fingerprint>, failures: map<int, BrokerError>,
    moreHandles: map<int, Session>, moreStamps: map<int, Fingerprint>, moreFailures: map<int, BrokerError>)
    requires UniqueIds(snapshot) && i < |snapshot| && snapshot[i].id in planned
    requires SyncedUpTo(book, snapshot, i, planned, before, handles, stamps, failures)
    requires var id := snapshot[i].id;
             && later.drivers == book.drivers && later.handles - {id} == book.handles - {id}
             && later.devices - {id} == book.devices - {id} && later.lastTarget - {id} == book.lastTarget - {id}
             && moreHandles - {id} == handles - {id} && moreStamps - {id} == stamps - {id} && moreFailures - {id} == failures - {id}
    requires Synced(later, snapshot[i], before, moreHandles, moreStamps, moreFailures)
    ensures SyncedUpTo(later, snapshot, i + 1, planned, before, moreHandles, moreStamps, moreFailures)
  {
    var id := snapshot[i].id;
    WantedNext(snapshot, i, planned);
    OthersKept(stamps, moreStamps, id);
    assert forall k :: k in moreStamps <==> k in stamps || k == id;
    assert moreStamps.Keys == stamps.Keys + {id};
    OthersKept(book.handles, later.handles, id);
    OthersKept(handles, moreHandles, id);
    OthersKept(failures, moreFailures, id);
    forall k | 0 <= k < i && snapshot[k].id in planned
      ensures Synced(later, snapshot[k], before, moreHandles, moreStamps, moreFailures)
    {
      StaysSynced(book, later, snapshot[k], id, before, handles, stamps, failures, moreHandles, moreStamps, moreFailures);
    }
  }

  ghost function Wanted(connections: seq<PlcConnection>, planned: set<int>): set<int> {
    set c | c in connections && c.id in planned :: c.id
  }

  lemma WantedNext(connections: seq<PlcConnection>, i: nat, planned: set<int>)
    requires UniqueIds(connections) && i < |connections|
    ensures connections[i].id !in Wanted(connections[..i], planned)
    ensures Wanted(connections[..i + 1], planned)
            == Wanted(connections[..i], planned) + if connections[i].id in planned then {connections[i].id} else {}
  {
    assert connections[..i + 1] == connections[..i] + [connections[i]];
  }

  ghost function Without(handles: map<int, Session>, ids: seq<int>): map<int, Session> {
    map id | id in handles && id !in ids :: handles[id]
  }

  lemma WithoutOneMore(handles: map<int, Session>, ids: seq<int>, i: nat)
    requires i < |ids|
    ensures Without(handles, ids[..i + 1]) == Without(handles, ids[..i]) - {ids[i]}
  {
    assert ids[..i + 1] == ids[..i] + [ids[i]];
  }

  /** Whatever one connection resolves to now, the others resolve to what they did. */
  lemma OthersStayCurrent(book: Book, later: Book, id: int)
    requires book.devices - {id} == later.devices - {id} && book.lastTarget - {id} == later.lastTarget - {id}
    ensures forall k, f :: k != id && book.Current(k, f) ==> later.Current(k, f)
  {
    OthersKept(book.devices, later.devices, id);
    OthersKept(book.lastTarget, later.lastTarget, id);
  }

  class BrokerSessions {
    const directory: SessionDirectory
    const sims: BrokerSimRegistry

    /** Every tracked session dials exactly what its connection last resolved to,
        a simulated one through the table its connection holds now. */
    ghost predicate Coherent()
      reads directory, sims, directory.spawned
    {
      && directory.Valid() && sims.Valid()
      && forall id :: id in directory.handles ==> Now().Current(id, directory.handles[id].fingerprint)
    }

    constructor (drivers: DriverRegistry)
      ensures Coherent() && fresh(directory) && fresh(sims) && directory.spawned == {} && directory.drivers == drivers
    {
      directory := new SessionDirectory(drivers);
      sims := new BrokerSimRegistry();
    }

    /** Only the tracked session of this connection may now dial something else. */
    method ResolveOne(conn: PlcConnection) returns (simulated: Option<nat>, stamp: Fingerprint, changed: bool)
      requires Coherent()
      modifies sims
      ensures sims.Valid()
      ensures stamp == Now().TargetOf(conn) && Now().Current(conn.id, stamp)
      ensures stamp == FingerprintOf(directory.drivers, conn, simulated) && (conn.simulation ==> stamp.simulated.Some?)
      ensures forall id :: id in directory.handles && id != conn.id ==> Now().Current(id, directory.handles[id].fingerprint)
      ensures conn.id in directory.handles ==> (changed <==> directory.handles[conn.id].fingerprint != stamp)
      ensures sims.devices - {conn.id} == old(sims.devices) - {conn.id}
      ensures sims.lastTarget - {conn.id} == old(sims.lastTarget) - {conn.id}
    {
      ghost var book := Now();
      simulated, changed := sims.Resolve(conn, directory.drivers);
      stamp := sims.lastTarget[conn.id];
      assert sims.lastTarget - {conn.id} == book.lastTarget - {conn.id};
      OthersStayCurrent(book, Now(), conn.id);
    }

    /** Resolves one connection and stops its session if that dials something else. */
    method StopOutdated(conn: PlcConnection) returns (simulated: Option<nat>, stamp: Fingerprint)
      requires Coherent()
      modifies directory, sims, directory.spawned
      ensures Coherent() && directory.spawned == old(directory.spawned)
      ensures stamp == Now().TargetOf(conn) && Now().Current(conn.id, stamp)
      ensures stamp == FingerprintOf(directory.drivers, conn, simulated) && (conn.simulation ==> stamp.simulated.Some?)
      ensures directory.handles == if conn.id in old(directory.handles) && old(directory.handles)[conn.id].fingerprint != stamp
                                   then old(directory.handles) - {conn.id} else old(directory.handles)
      ensures sims.devices - {conn.id} == old(sims.devices) - {conn.id}
      ensures sims.lastTarget - {conn.id} == old(sims.lastTarget) - {conn.id}
    {
      var changed;
      simulated, stamp, changed := ResolveOne(conn);
      ghost var book := Now();
      if changed {
        var _ := directory.StopAndJoin(conn.id);
      }
      assert Now() == book.(handles := directory.handles);
    }

    /** One connection of `sync`. The session of before is kept exactly if it dials
        what the connection resolves to now. */
    method SyncOne(conn: PlcConnection) returns (ensured: Ensured, stamp: Fingerprint)
      requires Coherent()
      modifies directory, sims, directory.spawned
      ensures Coherent() && old(directory.spawned) <= directory.spawned && fresh(directory.spawned - old(directory.spawned))
      ensures stamp == Now().TargetOf(conn) && Now().Current(conn.id, stamp)
      ensures conn.simulation ==> stamp.simulated.Some?
      ensures directory.handles - {conn.id} == old(directory.handles) - {conn.id}
      ensures sims.devices - {conn.id} == old(sims.devices) - {conn.id}
      ensures sims.lastTarget - {conn.id} == old(sims.lastTarget) - {conn.id}
      ensures ensured.Failed? <==> Refusal(directory.drivers, conn).Some?
      ensures ensured.Failed? ==> ensured.error == Refusal(directory.drivers, conn).value
      ensures ensured.Up? ==>
                && conn.id in directory.handles && directory.handles[conn.id] == ensured.session
                && ensured.session.running && ensured.session.fingerprint == stamp
                && (conn.id in old(directory.handles) && old(directory.handles)[conn.id].fingerprint == stamp
                    <==> conn.id in old(directory.handles) && ensured.session == old(directory.handles)[conn.id])
    {
      var simulated;
      simulated, stamp := StopOutdated(conn);
      ensured := directory.EnsureWith(conn, simulated);
    }

    ghost function Now(): Book
      reads directory, sims
    {
      Book(directory.drivers, directory.handles, sims.devices, sims.lastTarget)
    }

    /** One round of the loop of `sync`. */
    method SyncNext(
      snapshot: seq<PlcConnection>, i: nat, planned: set<int>, ghost before: map<int, Session>, handles: map<int, Session>,
      stamps: map<int, Fingerprint>, failures: map<int, BrokerError>)
      returns (moreHandles: map<int, Session>, moreStamps: map<int, Fingerprint>, moreFailures: map<int, BrokerError>)
      requires Coherent() && UniqueIds(snapshot) && i < |snapshot| && snapshot[i].id in planned
      requires SyncedUpTo(Now(), snapshot, i, planned, before, handles, stamps, failures)
      modifies directory, sims, directory.spawned
      ensures Coherent() && old(directory.spawned) <= directory.spawned && fresh(directory.spawned - old(directory.spawned))
      ensures SyncedUpTo(Now(), snapshot, i + 1, planned, before, moreHandles, moreStamps, moreFailures)
    {
      var conn := snapshot[i];
      ghost var book := Now();
      WantedNext(snapshot, i, planned);
      assert conn.id !in stamps && conn.id !in handles && conn.id !in failures;
      var ensured, stamp := SyncOne(conn);
      moreHandles, moreStamps, moreFailures := handles, stamps[conn.id := stamp], failures;
      if ensured.Up? {
        moreHandles := handles[conn.id := ensured.session];
      } else {
        moreFailures := failures[conn.id := ensured.error];
      }
      assert EnsuredNow(Now(), conn, before, ensured, stamp);
      SyncedNow(Now(), conn, before, handles, stamps, failures, ensured, stamp);
      SyncedOneMore(book, Now(), snapshot, i, planned, before, handles, stamps, failures, moreHandles, moreStamps, moreFailures);
    }

    /** `sync`: a session, a stamp and a handle for every planned connection. The
        ids that are tracked but not wanted any more are `stale`. */
    method Sync(snapshot: seq<PlcConnection>, planned: set<int>)
      returns (handles: map<int, Session>, stamps: map<int, Fingerprint>, failures: map<int, BrokerError>, stale: set<int>)
      requires Coherent() && UniqueIds(snapshot)
      modifies directory, sims, directory.spawned
      ensures Coherent() && old(directory.spawned) <= directory.spawned && fresh(directory.spawned - old(directory.spawned))
      ensures SyncedUpTo(Now(), snapshot, |snapshot|, planned, old(directory.handles), handles, stamps, failures)
      ensures forall id :: id in handles ==> handles[id].running
      ensures forall c :: c in snapshot && c.id in planned ==> (c.id in handles <==> Refusal(directory.drivers, c).None?)
      ensures forall c :: c in snapshot && c.id in handles && c.id in planned ==>
                && handles[c.id].Dials(directory.drivers, c, Now().DeviceOf(c))
                && (c.id in old(directory.handles) ==>
                      (handles[c.id] == old(directory.handles)[c.id] <==> old(directory.handles)[c.id].Dials(directory.drivers, c, Now().DeviceOf(c))))
      ensures stale == directory.handles.Keys - Wanted(snapshot, planned)
    {
      handles, stamps, failures := map[], map[], map[];
      ghost var before := directory.handles;
      for i := 0 to |snapshot|
        invariant Coherent()
        invariant old(directory.spawned) <= directory.spawned && fresh(directory.spawned - old(directory.spawned))
        invariant SyncedUpTo(Now(), snapshot, i, planned, before, handles, stamps, failures)
      {
        if snapshot[i].id in planned {
          handles, stamps, failures := SyncNext(snapshot, i, planned, before, handles, stamps, failures);
        } else {
          WantedNext(snapshot, i, planned);
        }
      }
      assert snapshot[..|snapshot|] == snapshot;
      stale := directory.handles.Keys - stamps.Keys;
      forall c | c in snapshot && c.id in planned
        ensures c.id in handles <==> Refusal(directory.drivers, c).None?
        ensures c.id in handles ==> handles[c.id].Dials(directory.drivers, c, Now().DeviceOf(c))
        ensures c.id in handles && c.id in before ==> (handles[c.id] == before[c.id] <==> before[c.id].Dials(directory.drivers, c, Now().DeviceOf(c)))
      {
        SyncedAt(Now(), snapshot, planned, before, handles, stamps, failures, c);
        if c.id in handles {
          KeptIffSameTarget(Now(), c, before, handles, stamps, failures);
        }
      }
    }

    /** `remove`: stops the sessions, then forgets their simulators. */
    method Remove(ids: seq<int>)
      requires Coherent()
      modifies directory, sims, directory.spawned
      ensures Coherent() && directory.spawned == old(directory.spawned)
      ensures forall id :: id in directory.handles <==> id in old(directory.handles) && id !in ids
      ensures forall id :: id in directory.handles ==> directory.handles[id] == old(directory.handles)[id]
      ensures forall s :: s in directory.spawned && s.id in ids ==> !s.running
      ensures forall id :: id in sims.devices <==> id in old(sims.devices) && id !in ids
      ensures forall id :: id in sims.lastTarget <==> id in old(sims.lastTarget) && id !in ids
    {
      for i := 0 to |ids|
        invariant Coherent() && directory.spawned == old(directory.spawned)
        invariant directory.handles == Without(old(directory.handles), ids[..i])
        invariant forall id :: id in sims.devices <==> id in old(sims.devices) && id !in ids[..i]
        invariant forall id :: id in sims.lastTarget <==> id in old(sims.lastTarget) && id !in ids[..i]
      {
        WithoutOneMore(old(directory.handles), ids, i);
        RemoveOne(ids[i]);
      }
      assert ids[..|ids|] == ids;
    }

    method RemoveOne(id: int)
      requires Coherent()
      modifies directory, sims, directory.spawned
      ensures Coherent() && directory.spawned == old(directory.spawned)
      ensures directory.handles == old(directory.handles) - {id}
      ensures sims.devices == old(sims.devices) - {id} && sims.lastTarget == old(sims.lastTarget) - {id}
    {
      var _ := directory.StopAndJoin(id);
      OthersKept(sims.devices, sims.devices - {id}, id);
      OthersKept(sims.lastTarget, sims.lastTarget - {id}, id);
      sims.Remove(id);
    }

    /** `stop_all`: afterwards nothing is connected. */
    method StopAll()
      requires Coherent()
      modifies directory, sims, directory.spawned
      ensures Coherent() && directory.spawned == old(directory.spawned)
      ensures directory.handles == map[] && forall s :: s in directory.spawned ==> !s.running
    {
      var pending := directory.handles.Keys;
      while pending != {}
        invariant Coherent() && directory.spawned == old(directory.spawned) && pending == directory.handles.Keys
      {
        EmptyOrInhabited(pending);
        var id :| id in pending;
        pending := pending - {id};
        RemoveOne(id);
      }
    }
  }
}
