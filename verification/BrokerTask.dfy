/** The task that owns one PLC session: connect and back off, serve one job at a
    time, and keep the tentative result of a diagnostic with its owner
    (crates/banto-broker/src/lib.rs). */
module BrokerTasks {
  import opened Rows

  datatype Result<+T, +E> = Ok(value: T) | Err(error: E)

  /** Why a session is lost: its driver says so, it did not answer within the limit
      of the job, or it gave another number of results than it was asked for. */
  datatype Fault = Reported(reason: string) | TimedOut | Protocol(expected: nat, got: nat)

  datatype BrokerError = Disconnected | ConnectionFailed(fault: Fault)

  datatype Item = Done | ItemError

  /** What the driver makes of one call; `Never` runs into the job limit. */
  datatype Outcome<+T> = Finished(value: T) | Fatal(reason: string) | Never

  /** A handle captured the session with this attempt number and status version;
      `session` is the session it saw. */
  datatype Epoch = Epoch(attempt: nat, version: nat, session: nat)

  /** A job and how the world reacts to it. An epoch is named by its position among
      the captured ones; `closed` and `gone`: the requester has stopped waiting
      before the job, or during it. */
  datatype Job =
    | RefreshDiagnostic(closed: bool, refreshed: Outcome<Option<Item>>)
    | Diagnose(report: Outcome<Option<Item>>)
    | AcceptDiagnostic(accepted: nat, closed: bool, gone: bool)
    | DiscardDiagnostic(discarded: nat)
    | FinalizeDiagnostic(finalized: nat)
    | Read(specs: nat, values: Outcome<seq<Item>>)
    | Write(items: nat, written: Outcome<seq<Item>>)
    | SetClock(time: int, stored: Outcome<Option<Item>>)
    | ReadClock(clock: Outcome<Option<Item>>)

  datatype Reply =
    | Items(items: Result<seq<Item>, BrokerError>)
    | One(one: Result<Option<Item>, BrokerError>)
    | Clock(one: Result<Option<Item>, BrokerError>, time: Option<int>)
    | Flag(flag: bool)

  datatype Entry =
    | Called(session: nat, id: nat, fatal: bool)
    | Installed(session: nat, attempt: nat)
    | Withdrawn(session: nat)
    | Closed(session: nat)
    | Answered(id: nat, job: Job, reply: Reply)
    | Skipped(id: nat)

  datatype ConnState = Backoff(at: int) | Connecting | Connected(session: nat)

  datatype Status = Reconnecting(attempt: nat) | Up | Stopped

  /** `version` counts the sends on the status watch, `counter` the captured
      epochs; `tentative` is what the live session suppresses tentatively. */
  datatype Task = Task(
    state: ConnState, attempt: nat, pending: Option<nat>, status: Status, version: nat, stopped: bool,
    sessions: nat, tentative: set<nat>, epochs: seq<Epoch>, jobs: nat, log: seq<Entry>)

  datatype Event =
    | Due(now: int)
    | Connect(ok: bool, now: int, delay: nat)
    | Capture
    | Arrive(job: Job, now: int)
    | Stop

  // --- One job ----------------------------------------------------------------------

  /** Under the outer limit of the job. */
  function Bounded<T>(outcome: Outcome<T>): (r: Result<T, Fault>)
    ensures r.Ok? <==> outcome.Finished?
    ensures r.Ok? ==> r.value == outcome.value
    ensures r == Err(TimedOut) <==> outcome.Never?
    ensures outcome.Fatal? ==> r == Err(Reported(outcome.reason))
  {
    match outcome
    case Finished(value) => Ok(value)
    case Fatal(reason) => Err(Reported(reason))
    case Never => Err(TimedOut)
  }

  /** `bounded_job`: one result per request, or the session is at fault. */
  function BoundedJob(expected: nat, outcome: Outcome<seq<Item>>): (r: Result<seq<Item>, Fault>)
    ensures r.Ok? <==> outcome.Finished? && |outcome.value| == expected
    ensures r.Ok? ==> r.value == outcome.value
    ensures outcome.Finished? && |outcome.value| != expected ==> r == Err(Protocol(expected, |outcome.value|))
    ensures !outcome.Finished? ==> r == Bounded(outcome)
  {
    var results := Bounded(outcome);
    if results.Ok? && |results.value| != expected then Err(Protocol(expected, |results.value|)) else results
  }

  /** `settle`: what the caller is told, and whether the session is lost. */
  function Settle<T>(outcome: Option<Result<T, Fault>>): (r: (Result<T, BrokerError>, bool))
    ensures r.1 <==> outcome.Some? && outcome.value.Err?
    ensures r.0.Ok? <==> outcome.Some? && outcome.value.Ok?
    ensures r.0.Ok? ==> r.0.value == outcome.value.value
    ensures r.1 ==> r.0 == Err(ConnectionFailed(outcome.value.error))
    ensures r.0 == Err(Disconnected) <==> outcome.None?
  {
    match outcome
    case None => (Err(Disconnected), false)
    case Some(Ok(value)) => (Ok(value), false)
    case Some(Err(fault)) => (Err(ConnectionFailed(fault)), true)
  }

  /** What a job does before the task looks at `fatal`. */
  datatype Served = Served(log: seq<Entry>, fatal: bool, pending: Option<nat>, tentative: set<nat>)

  function Ask<T>(t: Task, outcome: Result<T, Fault>): (Result<T, BrokerError>, bool) {
    Settle(if t.state.Connected? then Some(outcome) else None)
  }

  function CallEntry(t: Task, fatal: bool): seq<Entry> {
    if t.state.Connected? then [Called(t.state.session, t.jobs, fatal)] else []
  }

  function Io(t: Task, job: Job, reply: Reply, fatal: bool): Served {
    Served(CallEntry(t, fatal) + [Answered(t.jobs, job, reply)], fatal, t.pending, t.tentative)
  }

  function ServeOne(t: Task, job: Job, outcome: Outcome<Option<Item>>): Served {
    var (reply, fatal) := Ask(t, Bounded(outcome));
    Io(t, job, One(reply), fatal)
  }

  function ServeItems(t: Task, job: Job, expected: nat, outcome: Outcome<seq<Item>>): Served {
    var (reply, fatal) := Ask(t, BoundedJob(expected, outcome));
    Io(t, job, Items(reply), fatal)
  }

  function ServeClock(t: Task, job: Job, time: int, outcome: Outcome<Option<Item>>): Served {
    var (reply, fatal) := Ask(t, Bounded(outcome));
    Io(t, job, Clock(reply, if t.state.Connected? && reply != Ok(None) then Some(time) else None), fatal)
  }

  /** The epoch is the latest attempt and nothing was sent on the status watch since. */
  predicate MayAccept(t: Task, e: Epoch) {
    e.attempt == |t.epochs| && e.version == t.version && t.pending.None? && t.state.Connected?
  }

  function ServeAccept(t: Task, job: Job, e: Epoch, closed: bool, gone: bool): Served {
    if MayAccept(t, e) && !closed then
      var session := t.state.session;
      var log := [Installed(session, e.attempt), Answered(t.jobs, job, Flag(true))];
      if gone then Served(log + [Withdrawn(session)], false, None, {})
      else Served(log, false, Some(e.attempt), t.tentative + {e.attempt})
    else Served([Answered(t.jobs, job, Flag(false))], false, t.pending, t.tentative)
  }

  predicate Owns(t: Task, e: Epoch) { t.pending == Some(e.attempt) && e.version == t.version }

  function ServeDiscard(t: Task, job: Job, e: Epoch): Served {
    if Owns(t, e) && t.state.Connected? then
      Served([Withdrawn(t.state.session), Answered(t.jobs, job, Flag(true))], false, None, {})
    else Served([Answered(t.jobs, job, Flag(false))], false, t.pending, t.tentative)
  }

  function ServeFinalize(t: Task, job: Job, e: Epoch): Served {
    if Owns(t, e) then Served([Answered(t.jobs, job, Flag(true))], false, None, t.tentative - {e.attempt})
    else Served([Answered(t.jobs, job, Flag(false))], false, t.pending, t.tentative)
  }

  /** A job names a captured epoch, if any. */
  predicate Known(t: Task, job: Job) {
    match job
    case AcceptDiagnostic(e, _, _) => e < |t.epochs|
    case DiscardDiagnostic(e) => e < |t.epochs|
    case FinalizeDiagnostic(e) => e < |t.epochs|
    case _ => true
  }

  function Serve(t: Task, job: Job): Served
    requires Known(t, job)
  {
    match job
    case RefreshDiagnostic(closed, outcome) =>
      if closed then Served([Skipped(t.jobs)], false, t.pending, t.tentative) else ServeOne(t, job, outcome)
    case Diagnose(outcome) => ServeOne(t, job, outcome)
    case AcceptDiagnostic(e, closed, gone) => ServeAccept(t, job, t.epochs[e], closed, gone)
    case DiscardDiagnostic(e) => ServeDiscard(t, job, t.epochs[e])
    case FinalizeDiagnostic(e) => ServeFinalize(t, job, t.epochs[e])
    case Read(specs, outcome) => ServeItems(t, job, specs, outcome)
    case Write(items, outcome) => ServeItems(t, job, items, outcome)
    case SetClock(time, outcome) => ServeClock(t, job, time, outcome)
    case ReadClock(outcome) => ServeOne(t, job, outcome)
  }

  // --- The loop, as a state machine ---------------------------------------------------

  const Start := Task(Backoff(0), 0, None, Reconnecting(1), 0, false, 0, {}, [], 0, [])

  predicate Enabled(t: Task, e: Event) {
    && !t.stopped
    && match e
       case Due(now) => t.state.Backoff? && now >= t.state.at
       case Connect(_, _, _) => t.state.Connecting?
       case Capture => t.status.Up? && |t.epochs| < U64_MAX
       case Arrive(job, _) => Known(t, job)
       case Stop => true
  }

  function Sent(t: Task, status: Status): Task { t.(status := status, version := t.version + 1) }

  /** The session is lost: everything tentative went with it. */
  function Lost(t: Task, now: int): Task {
    Sent(t.(state := Backoff(now), pending := None, tentative := {}, attempt := 0), Reconnecting(1))
  }

  function Next(t: Task, e: Event): Task
    requires Enabled(t, e)
  {
    match e
    case Due(_) => Sent(t.(attempt := t.attempt + 1, state := Connecting), Reconnecting(t.attempt + 1))
    case Connect(ok, now, delay) =>
      if ok then
        Sent(t.(attempt := 0, pending := None, tentative := {}, state := Connected(t.sessions), sessions := t.sessions + 1), Up)
      else Sent(t.(state := Backoff(now + delay)), Reconnecting(t.attempt + 1))
    case Capture => t.(epochs := t.epochs + [Epoch(|t.epochs| + 1, t.version, if t.state.Connected? then t.state.session else t.sessions)])
    case Arrive(job, now) =>
      var served := Serve(t, job);
      var after := t.(log := t.log + served.log, jobs := t.jobs + 1, pending := served.pending, tentative := served.tentative);
      if served.fatal then Lost(after, now) else after
    case Stop =>
      var closed := if t.state.Connected? then [Closed(t.state.session)] else [];
      Sent(t.(stopped := true, log := t.log + closed, tentative := {}, pending := None), Stopped)
  }

  /** Every order of wake-ups, jobs and captures; what cannot happen is passed over. */
  function Exec(events: seq<Event>): Task {
    if events == [] then Start
    else
      var before := Exec(events[..|events| - 1]);
      var e := events[|events| - 1];
      if Enabled(before, e) then Next(before, e) else before
  }

  // --- The task as the source keeps it ------------------------------------------------

  class BrokerTask {
    var state: ConnState
    var attempt: nat
    var pendingDiagnostic: Option<nat>
    var status: Status
    var version: nat
    var stopped: bool

    /** The world around the task: the sessions opened so far, what the live one
        suppresses tentatively, the captured epochs, and all that was done. */
    var sessions: nat
    ghost var tentative: set<nat>
    var epochs: seq<Epoch>
    var jobs: nat
    ghost var log: seq<Entry>

    ghost function State(): Task
      reads this
    {
      Task(state, attempt, pendingDiagnostic, status, version, stopped, sessions, tentative, epochs, jobs, log)
    }

    constructor ()
      ensures State() == Start
    {
      state, attempt, pendingDiagnostic := Backoff(0), 0, None;
      status, version, stopped := Reconnecting(1), 0, false;
      sessions, tentative, epochs, jobs, log := 0, {}, [], 0, [];
    }

    method Send(next: Status)
      modifies this`status, this`version
      ensures State() == Sent(old(State()), next)
    {
      status, version := next, version + 1;
    }

    /** Notes what was done and answered. */
    ghost method Note(entries: seq<Entry>)
      modifies this`log
      ensures State() == old(State()).(log := old(log) + entries)
    {
      log := log + entries;
    }

    method AnswerOne(job: Job, outcome: Outcome<Option<Item>>) returns (fatal: bool)
      modifies this`log
      ensures var served := ServeOne(old(State()), job, outcome);
              State() == old(State()).(log := old(log) + served.log) && fatal == served.fatal
    {
      var asked: Option<Result<Option<Item>, Fault>> := None;
      if state.Connected? {
        asked := Some(Bounded(outcome));
      }
      var settled := Settle(asked);
      fatal := settled.1;
      Note(CallEntry(State(), fatal) + [Answered(jobs, job, One(settled.0))]);
    }

    method AnswerItems(job: Job, expected: nat, outcome: Outcome<seq<Item>>) returns (fatal: bool)
      modifies this`log
      ensures var served := ServeItems(old(State()), job, expected, outcome);
              State() == old(State()).(log := old(log) + served.log) && fatal == served.fatal
    {
      var asked: Option<Result<seq<Item>, Fault>> := None;
      if state.Connected? {
        asked := Some(BoundedJob(expected, outcome));
      }
      var settled := Settle(asked);
      fatal := settled.1;
      Note(CallEntry(State(), fatal) + [Answered(jobs, job, Items(settled.0))]);
    }

    method AnswerClock(job: Job, time: int, outcome: Outcome<Option<Item>>) returns (fatal: bool)
      modifies this`log
      ensures var served := ServeClock(old(State()), job, time, outcome);
              State() == old(State()).(log := old(log) + served.log) && fatal == served.fatal
    {
      var asked: Option<Result<Option<Item>, Fault>>, built: Option<int> := None, None;
      if state.Connected? {
        asked, built := Some(Bounded(outcome)), Some(time);
      }
      var settled := Settle(asked);
      fatal := settled.1;
      var answered := if settled.0 == Ok(None) then None else built;
      Note(CallEntry(State(), fatal) + [Answered(jobs, job, Clock(settled.0, answered))]);
    }

    method Accept(job: Job, e: Epoch, closed: bool, gone: bool)
      modifies this`pendingDiagnostic, this`tentative, this`log
      ensures var served := ServeAccept(old(State()), job, e, closed, gone);
              State() == old(State()).(log := old(log) + served.log, pending := served.pending, tentative := served.tentative)
    {
      var accepted := false;
      if e.attempt == |epochs| && e.version == version && !closed && pendingDiagnostic.None? && state.Connected? {
        Note([Installed(state.session, e.attempt)]);
        pendingDiagnostic, tentative, accepted := Some(e.attempt), tentative + {e.attempt}, true;
      }
      Note([Answered(jobs, job, Flag(accepted))]);
      if gone && accepted {
        Note([Withdrawn(state.session)]);
        pendingDiagnostic, tentative := None, {};
      }
    }

    method Discard(job: Job, e: Epoch)
      modifies this`pendingDiagnostic, this`tentative, this`log
      ensures var served := ServeDiscard(old(State()), job, e);
              State() == old(State()).(log := old(log) + served.log, pending := served.pending, tentative := served.tentative)
    {
      var discarded := false;
      if pendingDiagnostic == Some(e.attempt) && e.version == version && state.Connected? {
        Note([Withdrawn(state.session)]);
        pendingDiagnostic, tentative, discarded := None, {}, true;
      }
      Note([Answered(jobs, job, Flag(discarded))]);
    }

    method Finalize(job: Job, e: Epoch)
      modifies this`pendingDiagnostic, this`tentative, this`log
      ensures var served := ServeFinalize(old(State()), job, e);
              State() == old(State()).(log := old(log) + served.log, pending := served.pending, tentative := served.tentative)
    {
      var current := pendingDiagnostic == Some(e.attempt) && e.version == version;
      if current {
        pendingDiagnostic, tentative := None, tentative - {e.attempt};
      }
      Note([Answered(jobs, job, Flag(current))]);
    }

    /** The `match` over the job. */
    method ServeJob(job: Job) returns (fatal: bool)
      requires Known(State(), job)
      modifies this
      ensures var served := Serve(old(State()), job);
              && fatal == served.fatal
              && State() == old(State()).(log := old(log) + served.log, pending := served.pending, tentative := served.tentative)
    {
      fatal := false;
      match job {
        case RefreshDiagnostic(closed, outcome) =>
          if closed {
            Note([Skipped(jobs)]);
          } else {
            fatal := AnswerOne(job, outcome);
          }
        case Diagnose(outcome) => fatal := AnswerOne(job, outcome);
        case AcceptDiagnostic(e, closed, gone) => Accept(job, epochs[e], closed, gone);
        case DiscardDiagnostic(e) => Discard(job, epochs[e]);
        case FinalizeDiagnostic(e) => Finalize(job, epochs[e]);
        case Read(specs, outcome) => fatal := AnswerItems(job, specs, outcome);
        case Write(items, outcome) => fatal := AnswerItems(job, items, outcome);
        case SetClock(time, outcome) => fatal := AnswerClock(job, time, outcome);
        case ReadClock(outcome) => fatal := AnswerOne(job, outcome);
      }
    }

    method HandleJob(job: Job, now: int)
      requires Known(State(), job)
      modifies this
      ensures !old(stopped) ==> State() == Next(old(State()), Arrive(job, now))
    {
      var fatal := ServeJob(job);
      jobs := jobs + 1;
      if fatal {
        state, pendingDiagnostic, attempt, tentative := Backoff(now), None, 0, {};
        Send(Reconnecting(1));
      }
    }

    method HandleConnect(ok: bool, now: int, delay: nat)
      requires Enabled(State(), Connect(ok, now, delay))
      modifies this
      ensures State() == Next(old(State()), Connect(ok, now, delay))
    {
      if ok {
        attempt, pendingDiagnostic, tentative := 0, None, {};
        state, sessions := Connected(sessions), sessions + 1;
        Send(Up);
      } else {
        state := Backoff(now + delay);
        Send(Reconnecting(attempt + 1));
      }
    }

    /** `session_epoch` of a handle. */
    method CaptureEpoch() returns (epoch: Option<Epoch>)
      modifies this`epochs
      ensures epoch.Some? <==> status.Up? && old(|epochs|) < U64_MAX
      ensures epoch.Some? && !stopped ==> State() == Next(old(State()), Capture) && epochs == old(epochs) + [epoch.value]
      ensures epoch.None? ==> State() == old(State())
    {
      epoch := None;
      if status.Up? && |epochs| < U64_MAX {
        var next := Epoch(|epochs| + 1, version, if state.Connected? then state.session else sessions);
        epochs, epoch := epochs + [next], Some(next);
      }
    }

    /** The last wake-up: a live session is closed. */
    method HandleStop()
      requires !stopped
      modifies this
      ensures State() == Next(old(State()), Stop)
    {
      if state.Connected? {
        Note([Closed(state.session)]);
      }
      tentative, pendingDiagnostic, stopped := {}, None, true;
      Send(Stopped);
    }

    method CanHandle(e: Event) returns (possible: bool)
      ensures possible == Enabled(State(), e)
    {
      if stopped {
        return false;
      }
      match e {
        case Due(now) => possible := state.Backoff? && now >= state.at;
        case Connect(_, _, _) => possible := state.Connecting?;
        case Capture => possible := status.Up? && |epochs| < U64_MAX;
        case Arrive(AcceptDiagnostic(k, _, _), _) => possible := k < |epochs|;
        case Arrive(DiscardDiagnostic(k), _) => possible := k < |epochs|;
        case Arrive(FinalizeDiagnostic(k), _) => possible := k < |epochs|;
        case _ => possible := true;
      }
    }

    method Handle(e: Event)
      requires Enabled(State(), e)
      modifies this
      ensures State() == Next(old(State()), e)
    {
      match e {
        case Due(now) =>
          attempt := attempt + 1;
          Send(Reconnecting(attempt));
          state := Connecting;
        case Connect(ok, now, delay) => HandleConnect(ok, now, delay);
        case Capture => var _ := CaptureEpoch();
        case Arrive(job, now) => HandleJob(job, now);
        case Stop => HandleStop();
      }
    }
  }

  /** `run_broker_task`. */
  method RunBrokerTask(events: seq<Event>) returns (task: BrokerTask)
    ensures fresh(task) && task.State() == Exec(events)
  {
    task := new BrokerTask();
    for i := 0 to |events|
      invariant fresh(task) && task.State() == Exec(events[..i])
    {
      assert events[..i + 1][..i] == events[..i];
      var possible := task.CanHandle(events[i]);
      if possible {
        task.Handle(events[i]);
      }
    }
    assert events[..|events|] == events;
  }

  // --- Status and diagnostics, in every run ---------------------------------------------

  /** The published status says where the task is and which attempt counts. */
  ghost predicate StatusMatches(t: Task) {
    if t.stopped then t.status == Stopped
    else match t.state
      case Backoff(_) => t.status == Reconnecting(t.attempt + 1)
      case Connecting => t.status == Reconnecting(t.attempt) && t.attempt > 0
      case Connected(s) => t.status == Up && t.attempt == 0 && s + 1 == t.sessions
  }

  /** What the live session suppresses tentatively belongs to the one pending attempt. */
  ghost predicate TentativeMatches(t: Task) {
    && t.tentative == (if t.pending.Some? then {t.pending.value} else {})
    && (t.pending.Some? ==> t.state.Connected? && !t.stopped)
  }

  /** Attempts are numbered in the order of capture, and an epoch is of the current
      version only while the session it saw is the live one. */
  ghost predicate EpochsMatch(t: Task) {
    forall k :: 0 <= k < |t.epochs| ==>
                  && t.epochs[k].attempt == k + 1
                  && t.epochs[k].version <= t.version
                  && (t.epochs[k].version == t.version ==> t.state == Connected(t.epochs[k].session) && !t.stopped)
  }

  /** The owner is a captured attempt of the live session. */
  ghost predicate OwnerMatches(t: Task) {
    t.pending.Some? ==> 0 < t.pending.value <= |t.epochs| && t.epochs[t.pending.value - 1].version == t.version
  }

  ghost predicate Inv(t: Task) {
    StatusMatches(t) && TentativeMatches(t) && EpochsMatch(t) && OwnerMatches(t)
  }

  lemma StepKeepsInv(t: Task, e: Event)
    requires Inv(t) && Enabled(t, e)
    ensures Inv(Next(t, e))
  {
  }

  lemma {:induction false} EveryRunKeepsInv(events: seq<Event>)
    ensures Inv(Exec(events))
  {
    if events != [] {
      var before := Exec(events[..|events| - 1]);
      var e := events[|events| - 1];
      EveryRunKeepsInv(events[..|events| - 1]);
      if Enabled(before, e) {
        StepKeepsInv(before, e);
      }
    }
  }

  /** Attempt numbers and the version never go back. */
  lemma StepMovesOn(t: Task, e: Event)
    requires Enabled(t, e)
    ensures t.epochs <= Next(t, e).epochs && t.version <= Next(t, e).version && t.log <= Next(t, e).log
    ensures t.sessions <= Next(t, e).sessions && t.jobs <= Next(t, e).jobs
  {
  }

  /** The answer `true` to a diagnostic job. */
  predicate Granted(t: Task, job: Job)
    requires Known(t, job)
  {
    exists i :: 0 <= i < |Serve(t, job).log| && Serve(t, job).log[i] == Answered(t.jobs, job, Flag(true))
  }

  /** An attempt that was superseded by a later capture is never accepted again, nor
      is any while another one is pending. */
  lemma SupersededNeverAccepted(events: seq<Event>, more: seq<Event>, k: nat, closed: bool, gone: bool)
    requires k + 1 < |Exec(events).epochs|
    ensures var t := Exec(events + more);
            && k < |t.epochs|
            && !Granted(t, AcceptDiagnostic(k, closed, gone))
            && Serve(t, AcceptDiagnostic(k, closed, gone)).tentative == t.tentative
            && Serve(t, AcceptDiagnostic(k, closed, gone)).pending == t.pending
  {
    RunMovesOn(events, more);
    EveryRunKeepsInv(events + more);
  }

  lemma {:induction false} RunMovesOn(events: seq<Event>, more: seq<Event>)
    ensures Exec(events).epochs <= Exec(events + more).epochs && Exec(events).version <= Exec(events + more).version
  {
    if more == [] {
      assert events + more == events;
    } else {
      var less := more[..|more| - 1];
      RunMovesOn(events, less);
      assert (events + more)[..|events + more| - 1] == events + less;
      var before := Exec(events + less);
      if Enabled(before, more[|more| - 1]) {
        StepMovesOn(before, more[|more| - 1]);
      }
    }
  }

  /** Only the epoch of the pending attempt, captured on the session that is still
      live, can discard or finalize; whatever comes from before a reconnect changes
      nothing, even if the task is connected again. */
  lemma OnlyCurrentOwnerActs(events: seq<Event>, k: nat, job: Job)
    requires var t := Exec(events); k < |t.epochs| && (job == DiscardDiagnostic(k) || job == FinalizeDiagnostic(k))
    ensures var t := Exec(events);
            && (Granted(t, job) <==> t.pending == Some(k + 1) && t.epochs[k].version == t.version)
            && (Granted(t, job) ==> t.state == Connected(t.epochs[k].session) && Serve(t, job).pending == None && Serve(t, job).tentative == {})
            && (!Granted(t, job) ==> Serve(t, job).pending == t.pending && Serve(t, job).tentative == t.tentative)
  {
    EveryRunKeepsInv(events);
    var t := Exec(events);
    var log := Serve(t, job).log;
    assert log[|log| - 1].Answered?;
  }

  /** An accept is granted exactly to the latest attempt, on the session it was
      captured on, while nothing is pending and the requester listens; if the
      requester is gone by the time of the answer, nothing tentative remains. */
  lemma AcceptIff(events: seq<Event>, k: nat, closed: bool, gone: bool)
    requires k < |Exec(events).epochs|
    ensures var t := Exec(events);
            var job := AcceptDiagnostic(k, closed, gone);
            && (Granted(t, job) <==>
                !closed && t.pending.None? && k + 1 == |t.epochs| && t.epochs[k].version == t.version)
            && (Granted(t, job) ==> t.state == Connected(t.epochs[k].session))
            && (Granted(t, job) && !gone ==> Serve(t, job).tentative == {k + 1} && Serve(t, job).pending == Some(k + 1))
            && (Granted(t, job) && gone ==> Serve(t, job).tentative == {} && Serve(t, job).pending == None)
  {
    EveryRunKeepsInv(events);
    var t := Exec(events);
    var job := AcceptDiagnostic(k, closed, gone);
    var log := Serve(t, job).log;
    if MayAccept(t, t.epochs[k]) && !closed {
      assert log[1] == Answered(t.jobs, job, Flag(true));
    } else {
      assert log == [Answered(t.jobs, job, Flag(false))];
    }
  }

  // --- Jobs, in every run -----------------------------------------------------------------

  /** Nothing is called, suppressed or closed but a session; its number. */
  function SessionOf(e: Entry): Option<nat> {
    match e
    case Called(s, _, _) => Some(s)
    case Installed(s, _) => Some(s)
    case Withdrawn(s) => Some(s)
    case Closed(s) => Some(s)
    case _ => None
  }

  /** An answer that fits its job: an Ok read or write has one result per request. */
  predicate Fits(job: Job, reply: Reply) {
    match job
    case Read(specs, values) => reply.Items? && (reply.items.Ok? ==> |reply.items.value| == specs)
    case Write(items, written) => reply.Items? && (reply.items.Ok? ==> |reply.items.value| == items)
    case SetClock(time, _) => reply.Clock? && (reply.time.Some? ==> reply.time == Some(time) && reply.one != Ok(None))
    case RefreshDiagnostic(closed, _) => reply.One? && !closed
    case Diagnose(_) => reply.One?
    case ReadClock(_) => reply.One?
    case _ => reply.Flag?
  }

  /** The answer of a session that is not up. */
  predicate SaysDisconnected(reply: Reply) {
    match reply
    case Items(items) => items == Err(Disconnected)
    case One(one) => one == Err(Disconnected)
    case Clock(one, time) => one == Err(Disconnected) && time == None
    case Flag(flag) => !flag
  }

  /** No job is served twice: each has at most one call and at most one ending. */
  ghost predicate JobsOk(log: seq<Entry>, jobs: nat) {
    && (forall i :: 0 <= i < |log| && log[i].Called? ==> log[i].id < jobs)
    && (forall i :: 0 <= i < |log| && (log[i].Answered? || log[i].Skipped?) ==> log[i].id < jobs)
    && (forall i, j :: 0 <= i < j < |log| && log[i].Called? && log[j].Called? ==> log[i].id != log[j].id)
    && (forall i, j :: 0 <= i < j < |log| && (log[i].Answered? || log[i].Skipped?) && (log[j].Answered? || log[j].Skipped?) ==>
                         log[i].id != log[j].id)
  }

  /** Every job ended, by an answer or because nobody waited for it any more. */
  ghost predicate AllEnded(log: seq<Entry>, jobs: nat) {
    forall id: nat :: id < jobs ==> Ended(log, id)
  }

  ghost predicate Ended(log: seq<Entry>, id: nat) { exists i :: EndsAt(log, id, i) }

  ghost predicate EndsAt(log: seq<Entry>, id: nat, i: int) {
    0 <= i < |log| && (log[i] == Skipped(id) || (log[i].Answered? && log[i].id == id && Fits(log[i].job, log[i].reply)))
  }

  /** A session that failed a call, or was closed, is never used again. */
  ghost predicate NoUseAfterLoss(log: seq<Entry>) {
    forall i, j :: 0 <= i < j < |log| && Loses(log[i]) ==> SessionOf(log[j]) != SessionOf(log[i])
  }

  predicate Loses(e: Entry) { e.Closed? || (e.Called? && e.fatal) }

  /** The live session is none of the lost ones. */
  ghost predicate LiveIsFresh(t: Task) {
    forall i :: 0 <= i < |t.log| && SessionOf(t.log[i]).Some? ==>
                  && SessionOf(t.log[i]).value < t.sessions
                  && (Loses(t.log[i]) ==> t.stopped || t.state != Connected(SessionOf(t.log[i]).value))
  }

  ghost predicate LogInv(t: Task) {
    JobsOk(t.log, t.jobs) && AllEnded(t.log, t.jobs) && NoUseAfterLoss(t.log) && LiveIsFresh(t)
  }

  predicate IsEnd(e: Entry) { e.Answered? || e.Skipped? }

  /** What one job adds to the log: one ending, at most one call, and nothing but
      the live session is touched. */
  ghost predicate OneJob(t: Task, served: Served) {
    && served.log != []
    && var end := if IsEnd(served.log[0]) then 0 else 1;
    && EndsAt(served.log, t.jobs, end)
    && (forall i :: 0 <= i < |served.log| && i != end ==>
                      !IsEnd(served.log[i]) && t.state.Connected? && SessionOf(served.log[i]) == Some(t.state.session))
    && (forall i :: 0 <= i < |served.log| && served.log[i].Called? ==>
                      i == 0 && |served.log| == 2 && served.log[i].id == t.jobs && served.log[i].fatal == served.fatal)
    && (forall i :: 0 <= i < |served.log| && Loses(served.log[i]) ==> served.log[i].Called?)
  }

  lemma ServeIsOneJob(t: Task, job: Job)
    requires Known(t, job)
    ensures OneJob(t, Serve(t, job))
  {
  }

  lemma JobsAppend(t: Task, served: Served)
    requires JobsOk(t.log, t.jobs) && OneJob(t, served)
    ensures JobsOk(t.log + served.log, t.jobs + 1)
  {
  }

  lemma EndedAppend(t: Task, served: Served)
    requires AllEnded(t.log, t.jobs) && OneJob(t, served)
    ensures AllEnded(t.log + served.log, t.jobs + 1)
  {
    var log := t.log + served.log;
    forall id: nat | id < t.jobs + 1 ensures Ended(log, id) {
      if id < t.jobs {
        assert Ended(t.log, id);
        var i :| EndsAt(t.log, id, i);
        assert EndsAt(log, id, i);
      } else {
        var end := if IsEnd(served.log[0]) then 0 else 1;
        assert EndsAt(log, id, |t.log| + end);
      }
    }
  }

  lemma LossAppend(t: Task, more: seq<Entry>)
    requires NoUseAfterLoss(t.log) && LiveIsFresh(t) && !t.stopped
    requires forall i :: 0 <= i < |more| && SessionOf(more[i]).Some? ==> t.state == Connected(SessionOf(more[i]).value)
    requires forall i, j :: 0 <= i < j < |more| && Loses(more[i]) ==> SessionOf(more[j]).None?
    ensures NoUseAfterLoss(t.log + more)
  {
    var log := t.log + more;
    forall i, j | 0 <= i < j < |log| && Loses(log[i]) ensures SessionOf(log[j]) != SessionOf(log[i]) {
      if i < |t.log| {
        assert SessionOf(t.log[i]).Some?;
      } else {
        assert Loses(more[i - |t.log|]) && SessionOf(more[j - |t.log|]).None?;
      }
    }
  }

  lemma JobKeepsLog(t: Task, job: Job, now: int)
    requires Inv(t) && LogInv(t) && Enabled(t, Arrive(job, now))
    ensures LogInv(Next(t, Arrive(job, now)))
  {
    var served := Serve(t, job);
    ServeIsOneJob(t, job);
    JobsAppend(t, served);
    EndedAppend(t, served);
    LossAppend(t, served.log);
  }

  lemma StopKeepsLog(t: Task)
    requires Inv(t) && LogInv(t) && Enabled(t, Stop)
    ensures LogInv(Next(t, Stop))
  {
    var more := if t.state.Connected? then [Closed(t.state.session)] else [];
    LossAppend(t, more);
    forall id: nat | id < t.jobs ensures Ended(t.log + more, id) {
      assert Ended(t.log, id);
      var i :| EndsAt(t.log, id, i);
      assert EndsAt(t.log + more, id, i);
    }
  }

  /** In every run each job is served once: it reaches a session at most once,
      whatever fails or times out later, and ends exactly once with an answer that
      fits; a session that failed or was closed is never used again. */
  lemma {:induction false} EveryRunKeepsLog(events: seq<Event>)
    ensures LogInv(Exec(events))
  {
    if events != [] {
      var before := Exec(events[..|events| - 1]);
      var e := events[|events| - 1];
      EveryRunKeepsLog(events[..|events| - 1]);
      EveryRunKeepsInv(events[..|events| - 1]);
      if Enabled(before, e) {
        if e.Arrive? {
          JobKeepsLog(before, e.job, e.now);
        } else if e.Stop? {
          StopKeepsLog(before);
        }
      }
    }
  }

  /** A job answers `Disconnected` (or refuses) without touching a session exactly
      when the task is not connected; a connected task never says so to a read,
      write, clock or diagnose job. */
  lemma NotConnectedTouchesNothing(events: seq<Event>, job: Job)
    requires Known(Exec(events), job) && !(job.RefreshDiagnostic? && job.closed)
    ensures var t := Exec(events);
            var served := Serve(t, job);
            if !t.state.Connected? then
              && |served.log| == 1 && served.log[0].Answered? && SaysDisconnected(served.log[0].reply)
              && served.tentative == t.tentative && served.pending == t.pending && !served.fatal
            else if job.AcceptDiagnostic? || job.DiscardDiagnostic? || job.FinalizeDiagnostic? then
              forall i :: 0 <= i < |served.log| ==> !served.log[i].Called?
            else
              && served.log[0] == Called(t.state.session, t.jobs, served.fatal)
              && |served.log| == 2 && served.log[1].Answered? && !SaysDisconnected(served.log[1].reply)
  {
    EveryRunKeepsInv(events);
  }

  // --- What is answered, in every run ------------------------------------------------------

  /** What is told about one call: the session's own value exactly if the task was
      connected and the call finished; otherwise why not. */
  predicate Told<T(==)>(connected: bool, outcome: Outcome<T>, told: Result<T, BrokerError>) {
    && (told.Ok? <==> connected && outcome.Finished?)
    && (told.Ok? ==> told.value == outcome.value)
    && (told == Err(Disconnected) <==> !connected)
    && (told == Err(ConnectionFailed(TimedOut)) <==> connected && outcome.Never?)
    && (connected && outcome.Fatal? ==> told == Err(ConnectionFailed(Reported(outcome.reason))))
  }

  /** The same for a batch, which must have one result per request. */
  predicate ToldItems(connected: bool, expected: nat, outcome: Outcome<seq<Item>>, told: Result<seq<Item>, BrokerError>) {
    if connected && outcome.Finished? && |outcome.value| != expected then
      told == Err(ConnectionFailed(Protocol(expected, |outcome.value|)))
    else Told(connected, outcome, told)
  }

  /** The reply to a job that was called exactly if the task was `connected`. */
  predicate ReplyTrue(connected: bool, job: Job, reply: Reply) {
    match job
    case RefreshDiagnostic(_, outcome) => reply.One? && Told(connected, outcome, reply.one)
    case Diagnose(outcome) => reply.One? && Told(connected, outcome, reply.one)
    case Read(specs, outcome) => reply.Items? && ToldItems(connected, specs, outcome, reply.items)
    case Write(items, outcome) => reply.Items? && ToldItems(connected, items, outcome, reply.items)
    case SetClock(time, outcome) =>
      reply.Clock? && Told(connected, outcome, reply.one) && reply.time == if connected && outcome != Finished(None) then Some(time) else None
    case ReadClock(outcome) => reply.One? && Told(connected, outcome, reply.one)
    case _ => reply.Flag?
  }

  predicate CallsSession(job: Job) { !job.AcceptDiagnostic? && !job.DiscardDiagnostic? && !job.FinalizeDiagnostic? }

  /** The call failed the session. */
  predicate FailsSession(job: Job) {
    match job
    case RefreshDiagnostic(_, outcome) => !outcome.Finished?
    case Diagnose(outcome) => !outcome.Finished?
    case Read(specs, outcome) => !(outcome.Finished? && |outcome.value| == specs)
    case Write(items, outcome) => !(outcome.Finished? && |outcome.value| == items)
    case SetClock(_, outcome) => !outcome.Finished?
    case ReadClock(outcome) => !outcome.Finished?
    case _ => false
  }

  /** Entry `i` answers a job truly; it was called just before, if at all. */
  ghost predicate AnswerTrue(log: seq<Entry>, i: nat)
    requires i < |log| && log[i].Answered?
  {
    var called := i > 0 && log[i - 1].Called? && log[i - 1].id == log[i].id;
    && (CallsSession(log[i].job) ==> ReplyTrue(called, log[i].job, log[i].reply))
    && (called ==> log[i - 1].fatal == FailsSession(log[i].job))
  }

  ghost predicate AnswersTrue(log: seq<Entry>) { forall i: nat :: i < |log| && log[i].Answered? ==> AnswerTrue(log, i) }

  /** One job: called exactly if the task is connected, answered with what came of it,
      and the session is dropped exactly if it failed. */
  lemma JobIsAnswered(t: Task, job: Job)
    requires Known(t, job) && CallsSession(job) && !(job.RefreshDiagnostic? && job.closed)
    ensures var served := Serve(t, job);
            && served.log != [] && served.log[|served.log| - 1].Answered?
            && ReplyTrue(t.state.Connected?, job, served.log[|served.log| - 1].reply)
            && served.fatal == (t.state.Connected? && FailsSession(job))
            && served.log == (if t.state.Connected? then [Called(t.state.session, t.jobs, FailsSession(job))] else [])
                             + [Answered(t.jobs, job, served.log[|served.log| - 1].reply)]
  {
  }

  lemma JobKeepsAnswers(t: Task, job: Job)
    requires Known(t, job) && AnswersTrue(t.log) && JobsOk(t.log, t.jobs)
    ensures AnswersTrue(t.log + Serve(t, job).log)
  {
    var served, log := Serve(t, job).log, t.log + Serve(t, job).log;
    if CallsSession(job) && !(job.RefreshDiagnostic? && job.closed) {
      JobIsAnswered(t, job);
    }
    forall i: nat | i < |log| && log[i].Answered? ensures AnswerTrue(log, i) {
      if i < |t.log| {
        assert AnswerTrue(t.log, i);
      } else {
        assert log[i] == served[i - |t.log|];
        assert i > |t.log| ==> log[i - 1] == served[i - |t.log| - 1];
        assert i == |t.log| && i > 0 ==> log[i - 1] == t.log[i - 1];
      }
    }
  }

  /** In every run every answer is true: a call that finished with the expected number
      of results is answered with them, and everything else with why not. */
  lemma {:induction false} EveryAnswerIsTrue(events: seq<Event>)
    ensures AnswersTrue(Exec(events).log)
  {
    if events != [] {
      var before := Exec(events[..|events| - 1]);
      var e := events[|events| - 1];
      EveryAnswerIsTrue(events[..|events| - 1]);
      EveryRunKeepsLog(events[..|events| - 1]);
      if Enabled(before, e) {
        if e.Arrive? {
          JobKeepsAnswers(before, e.job);
        } else if e.Stop? && before.state.Connected? {
          assert forall i: nat :: i < |before.log| && before.log[i].Answered? ==> AnswerTrue(before.log, i);
          assert Next(before, e).log[..|before.log|] == before.log;
        }
      }
    }
  }

  /** A job that arrives while the task is connected is called and answered at once,
      and the session stays up exactly if it did not fail. */
  lemma ConnectedJobIsServed(events: seq<Event>, job: Job, now: int)
    requires var t := Exec(events); t.state.Connected? && !t.stopped && CallsSession(job) && !(job.RefreshDiagnostic? && job.closed)
    ensures var t, later := Exec(events), Exec(events + [Arrive(job, now)]);
            && |later.log| == |t.log| + 2 && t.log <= later.log
            && later.log[|t.log|] == Called(t.state.session, t.jobs, FailsSession(job))
            && later.log[|t.log| + 1].Answered? && later.log[|t.log| + 1].job == job
            && ReplyTrue(true, job, later.log[|t.log| + 1].reply)
            && (if FailsSession(job) then later.state == Backoff(now) else later.state == t.state)
  {
    var t := Exec(events);
    assert (events + [Arrive(job, now)])[..|events|] == events;
    assert Known(t, job);
    JobIsAnswered(t, job);
  }

  lemma OneMore(events: seq<Event>, e: Event)
    ensures Exec(events + [e]) == if Enabled(Exec(events), e) then Next(Exec(events), e) else Exec(events)
  {
    assert (events + [e])[..|events|] == events;
  }

  /** After a failed attempt the task tries again exactly once the delay is over, and
      the published attempt number is one higher; a lost session is tried again at
      once, from the first attempt. */
  lemma RetriesWhenDue(events: seq<Event>, now: int, delay: nat, later: int)
    requires Exec(events).state.Connecting? && !Exec(events).stopped
    ensures var t, again := Exec(events), Exec(events + [Connect(false, now, delay)] + [Due(later)]);
            && (again.state.Connecting? <==> now + delay <= later)
            && (again.state.Connecting? ==> again.status == Reconnecting(t.attempt + 1))
  {
    OneMore(events, Connect(false, now, delay));
    OneMore(events + [Connect(false, now, delay)], Due(later));
  }

  lemma LostSessionIsRetried(events: seq<Event>, job: Job, now: int, later: int)
    requires Exec(events).state.Connected? && !Exec(events).stopped && CallsSession(job) && FailsSession(job)
    requires !(job.RefreshDiagnostic? && job.closed)
    ensures var again := Exec(events + [Arrive(job, now)] + [Due(later)]);
            && (again.state.Connecting? <==> now <= later)
            && again.status == Reconnecting(1)
  {
    JobIsAnswered(Exec(events), job);
    OneMore(events, Arrive(job, now));
    OneMore(events + [Arrive(job, now)], Due(later));
  }

  // --- What the live session suppresses ------------------------------------------------------

  /** What session `s` was told to suppress and was neither told to withdraw nor made
      permanent. */
  function TentativeOf(log: seq<Entry>, s: nat): set<nat> {
    if log == [] then {}
    else TentativeAfter(TentativeOf(log[..|log| - 1], s), log[|log| - 1], s)
  }

  function TentativeAfter(before: set<nat>, e: Entry, s: nat): set<nat> {
    match e
    case Installed(session, attempt) => if session == s then before + {attempt} else before
    case Withdrawn(session) => if session == s then {} else before
    case Answered(_, job, reply) => if job.FinalizeDiagnostic? && reply == Flag(true) then {} else before
    case _ => before
  }

  lemma {:induction false} UnusedSuppressesNothing(log: seq<Entry>, s: nat)
    requires forall i :: 0 <= i < |log| ==> SessionOf(log[i]) != Some(s)
    ensures TentativeOf(log, s) == {}
  {
    if log != [] {
      UnusedSuppressesNothing(log[..|log| - 1], s);
    }
  }

  /** The task remembers exactly what its session suppresses tentatively. */
  ghost predicate TentativeTrue(t: Task) { t.state.Connected? && !t.stopped ==> t.tentative == TentativeOf(t.log, t.state.session) }

  lemma OneEntry(log: seq<Entry>, e: Entry, s: nat)
    ensures TentativeOf(log + [e], s) == TentativeAfter(TentativeOf(log, s), e, s)
  {
    assert (log + [e])[..|log|] == log;
  }

  predicate Quiet(e: Entry) {
    !e.Installed? && !e.Withdrawn? && !(e.Answered? && e.job.FinalizeDiagnostic? && e.reply == Flag(true))
  }

  lemma {:induction false} QuietEntries(log: seq<Entry>, more: seq<Entry>, s: nat)
    requires forall i :: 0 <= i < |more| ==> Quiet(more[i])
    ensures TentativeOf(log + more, s) == TentativeOf(log, s)
  {
    if more == [] {
      assert log + more == log;
    } else {
      var less, e := more[..|more| - 1], more[|more| - 1];
      QuietEntries(log, less, s);
      OneEntry(log + less, e, s);
      assert log + less + [e] == log + more;
    }
  }

  /** One entry that counts, and quiet ones after it. */
  lemma OneLoudEntry(log: seq<Entry>, e: Entry, more: seq<Entry>, s: nat)
    requires forall i :: 0 <= i < |more| ==> Quiet(more[i])
    ensures TentativeOf(log + ([e] + more), s) == TentativeAfter(TentativeOf(log, s), e, s)
  {
    OneEntry(log, e, s);
    QuietEntries(log + [e], more, s);
    EntriesAssociate(log, [e], more);
  }

  lemma EntriesAssociate(a: seq<Entry>, b: seq<Entry>, c: seq<Entry>)
    ensures a + b + c == a + (b + c)
  {
  }

  lemma CallsAreQuiet(t: Task, job: Job, i: nat)
    requires Known(t, job) && CallsSession(job) && i < |Serve(t, job).log|
    ensures Quiet(Serve(t, job).log[i]) && Serve(t, job).tentative == t.tentative
  {
  }

  lemma AcceptedTentative(t: Task, job: Job)
    requires TentativeTrue(t) && t.state.Connected? && !t.stopped && Known(t, job) && job.AcceptDiagnostic?
    ensures TentativeOf(t.log + Serve(t, job).log, t.state.session) == Serve(t, job).tentative
  {
    var served, s := Serve(t, job).log, t.state.session;
    if served[0].Installed? {
      var first := served[..2];
      assert first == [served[0]] + [served[1]];
      OneLoudEntry(t.log, served[0], [served[1]], s);
      if job.gone {
        OneEntry(t.log + first, served[2], s);
        assert t.log + first + [served[2]] == t.log + served;
      } else {
        assert served == first;
      }
    } else {
      QuietEntries(t.log, served, s);
    }
  }

  lemma DiscardedTentative(t: Task, job: Job)
    requires TentativeTrue(t) && t.state.Connected? && !t.stopped && Known(t, job) && job.DiscardDiagnostic?
    ensures TentativeOf(t.log + Serve(t, job).log, t.state.session) == Serve(t, job).tentative
  {
    var served, s := Serve(t, job).log, t.state.session;
    if served[0].Withdrawn? {
      OneLoudEntry(t.log, served[0], [served[1]], s);
      assert served == [served[0]] + [served[1]];
    } else {
      QuietEntries(t.log, served, s);
    }
  }

  lemma FinalizedTentative(t: Task, job: Job)
    requires TentativeMatches(t) && TentativeTrue(t) && t.state.Connected? && !t.stopped && Known(t, job) && job.FinalizeDiagnostic?
    ensures TentativeOf(t.log + Serve(t, job).log, t.state.session) == Serve(t, job).tentative
  {
    var served := Serve(t, job).log;
    OneEntry(t.log, served[0], t.state.session);
    assert served == [served[0]];
  }

  lemma CalledTentative(t: Task, job: Job)
    requires TentativeTrue(t) && t.state.Connected? && !t.stopped && Known(t, job) && CallsSession(job)
    ensures TentativeOf(t.log + Serve(t, job).log, t.state.session) == Serve(t, job).tentative
  {
    var served := Serve(t, job).log;
    forall i: nat | i < |served| ensures Quiet(served[i]) { CallsAreQuiet(t, job, i); }
    CallsAreQuiet(t, job, 0);
    QuietEntries(t.log, served, t.state.session);
  }

  lemma ServedTentative(t: Task, job: Job)
    requires Inv(t) && TentativeTrue(t) && t.state.Connected? && !t.stopped && Known(t, job)
    ensures TentativeOf(t.log + Serve(t, job).log, t.state.session) == Serve(t, job).tentative
  {
    if job.AcceptDiagnostic? {
      AcceptedTentative(t, job);
    } else if job.DiscardDiagnostic? {
      DiscardedTentative(t, job);
    } else if job.FinalizeDiagnostic? {
      FinalizedTentative(t, job);
    } else {
      CalledTentative(t, job);
    }
  }

  lemma {:induction false} EveryRunKeepsTentative(events: seq<Event>)
    ensures TentativeTrue(Exec(events))
  {
    if events != [] {
      var before := Exec(events[..|events| - 1]);
      var e := events[|events| - 1];
      EveryRunKeepsTentative(events[..|events| - 1]);
      EveryRunKeepsInv(events[..|events| - 1]);
      EveryRunKeepsLog(events[..|events| - 1]);
      if Enabled(before, e) {
        if e.Arrive? && before.state.Connected? {
          ServedTentative(before, e.job);
        } else if e.Connect? && e.ok {
          UnusedSuppressesNothing(before.log, before.sessions);
        }
      }
    }
  }

  /** A stop closes the session that is up, once, and says so. */
  lemma StopCloses(events: seq<Event>)
    requires !Exec(events).stopped
    ensures var t, later := Exec(events), Exec(events + [Stop]);
            && later.stopped && later.status == Stopped && later.pending == None && later.tentative == {}
            && later.log == t.log + if t.state.Connected? then [Closed(t.state.session)] else []
  {
    OneMore(events, Stop);
  }
}
