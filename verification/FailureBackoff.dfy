// The memory of recent connection failures: when and why a server last failed,
// a timer that forgets it, and the gate a lazy connect passes.
module FailureBackoff {

  type Name = string

  datatype Option<T> = None | Some(value: T)

  datatype Status = Connected | NeedsAuth | Closed

  // A timer that may still fire: what it was started for, and when it is due.
  datatype Timer = Timer(name: Name, failedAt: int, due: int)

  const FAILURE_BACKOFF_MS := 60_000
  const MAX_FAILURE_MESSAGE_CHARS := 8_192

  datatype State = State(
    now: int,
    active: bool,                   // the owner
    tracker: map<Name, int>,        // failureTracker
    messages: map<Name, string>,    // failureMessages
    timers: map<Name, nat>,         // failureExpiryTimers
    live: map<nat, Timer>,
    nextTimer: nat,
    connections: map<Name, Status>,
    enabled: set<Name>              // servers defined and not disabled
  )

  // The clock reads positive milliseconds, as Date.now does.
  function Initial(now: int, enabled: set<Name>): State {
    State(now, true, map[], map[], map[], map[], 0, map[], enabled)
  }

  function FailureAgeSeconds(s: State, name: Name): Option<int> {
    if name !in s.tracker || s.tracker[name] == 0 then None
    else
      var age := s.now - s.tracker[name];
      if age > FAILURE_BACKOFF_MS then None else Some((age + 500) / 1000)
  }

  function FailureMessage(s: State, name: Name): Option<string> {
    if FailureAgeSeconds(s, name).None? || name !in s.messages then None else Some(s.messages[name])
  }

  predicate InActiveBackoff(s: State, name: Name) {
    var status := if name in s.connections then s.connections[name] else Closed;
    status.Closed? && FailureAgeSeconds(s, name).Some?
  }

  function Truncated(message: string): string {
    if |message| > MAX_FAILURE_MESSAGE_CHARS then message[..MAX_FAILURE_MESSAGE_CHARS] else message
  }

  function ClearFailure(s: State, name: Name): State {
    s.(tracker := s.tracker - {name}, messages := s.messages - {name}, timers := s.timers - {name},
       live := if name in s.timers then s.live - {s.timers[name]} else s.live)
  }

  function RecordFailure(s: State, name: Name, message: string): State {
    var b := ClearFailure(s, name);
    b.(tracker := b.tracker[name := s.now], messages := b.messages[name := Truncated(message)],
       timers := b.timers[name := s.nextTimer],
       live := b.live[s.nextTimer := Timer(name, s.now, s.now + FAILURE_BACKOFF_MS)],
       nextTimer := s.nextTimer + 1)
  }

  // A due timer. A stopped owner's memory is left as it is.
  function FireTimer(s: State, timer: nat): State {
    if timer !in s.live || s.now < s.live[timer].due then s
    else
      var t := s.live[timer];
      var b := s.(live := s.live - {timer}, timers := s.timers - {t.name});
      if s.active && t.name in s.tracker && s.tracker[t.name] == t.failedAt
      then b.(tracker := b.tracker - {t.name}, messages := b.messages - {t.name})
      else b
  }

  datatype Gate = StopsForAuth | UsesConnection | BacksOff | Unknown | Connects

  // How far a lazy connect gets before its first await.
  function LazyConnect(s: State, name: Name): Gate {
    var status := if name in s.connections then s.connections[name] else Closed;
    if status.NeedsAuth? then StopsForAuth
    else if status.Connected? then UsesConnection
    else if FailureAgeSeconds(s, name).Some? then BacksOff
    else if name !in s.enabled then Unknown
    else Connects
  }

  datatype Event =
    | Tick(ms: nat)
    | Fail(name: Name, message: string)
    | Clear(name: Name)
    | Fire(timer: nat)
    | StopOwner
    | SetConnection(name: Name, status: Status)

  function Step(s: State, e: Event): State {
    match e
    case Tick(ms) => s.(now := s.now + ms)
    case Fail(name, message) => RecordFailure(s, name, message)
    case Clear(name) => ClearFailure(s, name)
    case Fire(timer) => FireTimer(s, timer)
    case StopOwner => s.(active := false)
    case SetConnection(name, status) => s.(connections := s.connections[name := status])
  }

  function Run(s: State, events: seq<Event>): State
    decreases |events|
  {
    if events == [] then s else Run(Step(s, events[0]), events[1..])
  }

  // A run is its steps one after the other.
  lemma {:induction false} RunAppends(s: State, before: seq<Event>, later: seq<Event>)
    ensures Run(s, before + later) == Run(Run(s, before), later)
    ensures forall e :: Run(s, [e]) == Step(s, e)
    decreases |before|
  {
    if before == [] {
      assert before + later == later;
    } else {
      assert (before + later)[1..] == before[1..] + later;
      RunAppends(Step(s, before[0]), before[1..], later);
    }
    forall e ensures Run(s, [e]) == Step(s, e) {
      assert [e][1..] == [] && Run(Step(s, e), []) == Step(s, e);
    }
  }

  // --- Invariant -----------------------------------------------------------

  // A live timer is its server's only one and carries that server's latest failure.
  ghost predicate LiveTimersAreLatest(s: State) {
    forall t <- s.live ::
      && t < s.nextTimer
      && s.live[t].name in s.timers && s.timers[s.live[t].name] == t
      && s.live[t].name in s.tracker && s.tracker[s.live[t].name] == s.live[t].failedAt
      && s.live[t].due == s.live[t].failedAt + FAILURE_BACKOFF_MS
  }

  ghost predicate MapsAgree(s: State) {
    && s.tracker.Keys == s.messages.Keys
    && (s.active ==> s.timers.Keys == s.tracker.Keys)
    && (forall name <- s.timers :: s.timers[name] in s.live && s.live[s.timers[name]].name == name)
  }

  ghost predicate Inv(s: State) {
    LiveTimersAreLatest(s) && MapsAgree(s) && forall name <- s.tracker :: 0 < s.tracker[name] <= s.now
  }

  lemma ClearKeeps(s: State, name: Name)
    requires Inv(s)
    ensures Inv(ClearFailure(s, name))
  {
  }

  lemma RecordKeeps(s: State, name: Name, message: string)
    requires Inv(s) && s.now > 0
    ensures Inv(RecordFailure(s, name, message))
  {
    ClearKeeps(s, name);
    var b := ClearFailure(s, name);
    assert forall t <- b.live :: b.live[t].name != name;
  }

  lemma FireKeeps(s: State, timer: nat)
    requires Inv(s)
    ensures Inv(FireTimer(s, timer))
  {
  }

  lemma StepKeeps(s: State, e: Event)
    requires Inv(s) && s.now > 0
    ensures Inv(Step(s, e)) && Step(s, e).now > 0
  {
    match e
    case Fail(name, message) => RecordKeeps(s, name, message);
    case Clear(name) => ClearKeeps(s, name);
    case Fire(timer) => FireKeeps(s, timer);
    case _ =>
  }

  lemma {:induction false} RunKeeps(s: State, events: seq<Event>)
    requires Inv(s) && s.now > 0
    ensures Inv(Run(s, events)) && Run(s, events).now > 0
    decreases |events|
  {
    if events != [] {
      StepKeeps(s, events[0]);
      RunKeeps(Step(s, events[0]), events[1..]);
    }
  }

  // While the owner is active the tracker, message and timer maps have the same
  // keys, with one live timer for each failed server and no other timers; and a
  // timer that fires always belongs to the latest failure.
  lemma EveryRunAgrees(now: int, enabled: set<Name>, events: seq<Event>)
    requires now > 0
    ensures
      var s := Run(Initial(now, enabled), events);
      && (s.active ==> s.tracker.Keys == s.messages.Keys == s.timers.Keys)
      && (forall t <- s.live :: s.live[t].name in s.timers && s.timers[s.live[t].name] == t)
      && (forall name <- s.timers :: s.timers[name] in s.live && s.live[s.timers[name]].name == name)
      && (forall t <- s.live :: s.live[t].name in s.tracker && s.tracker[s.live[t].name] == s.live[t].failedAt)
  {
    RunKeeps(Initial(now, enabled), events);
  }

  // --- The gate ------------------------------------------------------------

  ghost predicate NeverClears(events: seq<Event>, name: Name) {
    forall i :: 0 <= i < |events| ==> events[i] != Clear(name)
  }

  // A failure at time at is remembered, or its backoff is over.
  predicate Remembers(s: State, name: Name, at: int) {
    s.now >= at + FAILURE_BACKOFF_MS || (name in s.tracker && s.tracker[name] >= at)
  }

  lemma StepRemembers(s: State, e: Event, name: Name, at: int)
    requires Inv(s) && s.now >= at && Remembers(s, name, at) && e != Clear(name)
    ensures Remembers(Step(s, e), name, at) && Step(s, e).now >= at
  {
  }

  lemma {:induction false} RunRemembers(s: State, events: seq<Event>, name: Name, at: int)
    requires Inv(s) && s.now > 0 && s.now >= at && Remembers(s, name, at) && NeverClears(events, name)
    ensures Remembers(Run(s, events), name, at)
    decreases |events|
  {
    if events != [] {
      assert events[0] != Clear(name);
      StepKeeps(s, events[0]);
      StepRemembers(s, events[0], name, at);
      assert forall i :: 0 <= i < |events[1..]| ==> events[1..][i] == events[i + 1];
      RunRemembers(Step(s, events[0]), events[1..], name, at);
    }
  }

  // In every run: once a failure has been recorded, a lazy connect does not get
  // as far as connecting until 60 s have passed, unless the failure is cleared.
  lemma NoConnectDuringBackoff(
    now: int, enabled: set<Name>, before: seq<Event>, name: Name, message: string, after: seq<Event>)
    requires now > 0 && NeverClears(after, name)
    ensures
      var failed := RecordFailure(Run(Initial(now, enabled), before), name, message);
      var s := Run(failed, after);
      s.now < failed.now + FAILURE_BACKOFF_MS ==> LazyConnect(s, name) != Connects
  {
    RunKeeps(Initial(now, enabled), before);
    var s := Run(Initial(now, enabled), before);
    var failed := RecordFailure(s, name, message);
    RecordKeeps(s, name, message);
    RunRemembers(failed, after, name, failed.now);
    RunKeeps(failed, after);
  }

  // In any state a lazy connect backs off exactly when the server is in active
  // failure backoff, and the reason it then gives is there.
  lemma BacksOffExactly(s: State, name: Name)
    requires Inv(s)
    ensures LazyConnect(s, name) == BacksOff <==> InActiveBackoff(s, name)
    ensures InActiveBackoff(s, name) <==>
      && (name !in s.connections || s.connections[name].Closed?)
      && name in s.tracker && s.now - s.tracker[name] <= FAILURE_BACKOFF_MS
    ensures InActiveBackoff(s, name) ==> FailureMessage(s, name).Some?
    ensures InActiveBackoff(s, name) ==>
      var age, seconds := s.now - s.tracker[name], FailureAgeSeconds(s, name).value;
      0 <= seconds <= 60 && 1000 * seconds - 500 <= age < 1000 * seconds + 500
  {
  }

  // What a lazy connect does, by the connection, the latest failure and the
  // configuration.
  lemma GateExactly(s: State, name: Name)
    requires Inv(s)
    ensures
      var status := if name in s.connections then s.connections[name] else Closed;
      var recent := name in s.tracker && s.now - s.tracker[name] <= 60_000;
      && (LazyConnect(s, name) == StopsForAuth <==> status == NeedsAuth)
      && (LazyConnect(s, name) == UsesConnection <==> status == Connected)
      && (LazyConnect(s, name) == BacksOff <==> status == Closed && recent)
      && (LazyConnect(s, name) == Unknown <==> status == Closed && !recent && name !in s.enabled)
      && (LazyConnect(s, name) == Connects <==> status == Closed && !recent && name in s.enabled)
  {
  }

  // The latest failure of a server was recorded then, with this message, if at all.
  predicate LatestIs(s: State, name: Name, at: int, message: string) {
    && (name in s.tracker ==> s.tracker[name] == at)
    && (name in s.messages ==> s.messages[name] == Truncated(message))
  }

  // Steps that neither record a failure of this server nor connect it.
  predicate LeavesFailure(e: Event, name: Name) {
    match e
    case Fail(n, _) => n != name
    case SetConnection(n, _) => n != name
    case _ => true
  }

  lemma StepKeepsLatest(s: State, e: Event, name: Name, at: int, message: string)
    requires LatestIs(s, name, at, message) && LeavesFailure(e, name)
    ensures LatestIs(Step(s, e), name, at, message)
    ensures Step(s, e).enabled == s.enabled
    ensures name in Step(s, e).connections <==> name in s.connections
    ensures name in s.connections ==> Step(s, e).connections[name] == s.connections[name]
  {
  }

  lemma {:induction false} RunKeepsLatest(s: State, events: seq<Event>, name: Name, at: int, message: string)
    requires LatestIs(s, name, at, message) && forall i :: 0 <= i < |events| ==> LeavesFailure(events[i], name)
    ensures LatestIs(Run(s, events), name, at, message)
    ensures Run(s, events).enabled == s.enabled
    ensures name in Run(s, events).connections <==> name in s.connections
    ensures name in s.connections ==> Run(s, events).connections[name] == s.connections[name]
    decreases |events|
  {
    if events != [] {
      StepKeepsLatest(s, events[0], name, at, message);
      RunKeepsLatest(Step(s, events[0]), events[1..], name, at, message);
    }
  }

  // Over every run: after a failure of an enabled server that is not connected,
  // and no other failure or connection of it since, a lazy connect connects again
  // once more than 60 s have passed; and while it backs off it gives that
  // failure's message, cut after 8192 characters.
  lemma ConnectsAfterBackoff(
    now: int, enabled: set<Name>, before: seq<Event>, name: Name, message: string, after: seq<Event>)
    requires now > 0 && forall i :: 0 <= i < |after| ==> LeavesFailure(after[i], name)
    requires
      var s := Run(Initial(now, enabled), before);
      name in s.enabled && (name in s.connections ==> s.connections[name] == Closed)
    ensures
      var failed := Step(Run(Initial(now, enabled), before), Fail(name, message));
      var s := Run(failed, after);
      && (s.now > failed.now + 60_000 ==> LazyConnect(s, name) == Connects)
      && (LazyConnect(s, name) == BacksOff ==>
            FailureMessage(s, name) == Some(if |message| <= 8_192 then message else message[..8_192]))
      && (LazyConnect(s, name) == Connects || LazyConnect(s, name) == BacksOff)
  {
    var r := Run(Initial(now, enabled), before);
    RunKeeps(Initial(now, enabled), before);
    var failed := Step(r, Fail(name, message));
    StepKeeps(r, Fail(name, message));
    RunKeepsLatest(failed, after, name, failed.now, message);
    RunKeeps(failed, after);
    GateExactly(Run(failed, after), name);
  }

  // Clearing a failure opens the gate at once.
  lemma ClearOpensGate(s: State, name: Name)
    requires Inv(s) && name in s.enabled && (name in s.connections ==> s.connections[name] == Closed)
    ensures LazyConnect(Step(s, Clear(name)), name) == Connects
  {
  }

  // While the owner is active, the timer of a failed server fires once 60 s have
  // passed and then nothing of the failure is left.
  lemma TimerForgets(s: State, name: Name)
    requires Inv(s) && s.active && name in s.tracker
    ensures name in s.timers && s.timers[name] in s.live
    ensures
      var after := Step(s, Fire(s.timers[name]));
      if s.now < s.tracker[name] + 60_000 then after == s
      else
        && name !in after.tracker && name !in after.messages && name !in after.timers
        && s.timers[name] !in after.live
        && forall other :: other != name && other in s.tracker ==>
             other in after.tracker && after.tracker[other] == s.tracker[other]
  {
  }

  // A timer that fires after the owner was stopped leaves the failure as it is.
  lemma StoppedTimerKeeps(s: State, timer: nat, name: Name)
    requires !s.active
    ensures
      var after := Step(s, Fire(timer));
      (name in after.tracker <==> name in s.tracker) && (name in after.messages <==> name in s.messages)
  {
  }

  // The steps of the world around: the clock, the owner, the connections.
  lemma WorldExactly(s: State, e: Event, name: Name)
    ensures
      var after := Step(s, e);
      && after.now == s.now + (if e.Tick? then e.ms else 0)
      && (after.active <==> s.active && !e.StopOwner?)
      && (name in after.connections <==> name in s.connections || (e.SetConnection? && e.name == name))
      && (name in after.connections ==>
            after.connections[name] == if e.SetConnection? && e.name == name then e.status else s.connections[name])
  {
  }

  // --- The state's maps and the functions that change them -----------------

  class FailureMemory {
    var failureTracker: map<Name, int>
    var failureMessages: map<Name, string>
    var failureExpiryTimers: map<Name, nat>
    // The clock, the owner, the timers, the connections, the configuration.
    var clock: int
    var ownerActive: bool
    var live: map<nat, Timer>
    var nextTimer: nat
    var connections: map<Name, Status>
    var enabled: set<Name>

    ghost function Now(): State
      reads this
    {
      State(clock, ownerActive, failureTracker, failureMessages, failureExpiryTimers, live, nextTimer,
            connections, enabled)
    }

    constructor (clock: int, enabled: set<Name>)
      ensures Now() == Initial(clock, enabled)
    {
      failureTracker, failureMessages, failureExpiryTimers := map[], map[], map[];
      this.clock, ownerActive, live, nextTimer, connections := clock, true, map[], 0, map[];
      this.enabled := enabled;
    }

    method Clear(name: Name) returns (wasActive: bool)
      modifies this
      ensures Now() == ClearFailure(old(Now()), name)
      ensures wasActive == FailureAgeSeconds(old(Now()), name).Some?
    {
      wasActive := name in failureTracker && failureTracker[name] != 0
        && clock - failureTracker[name] <= FAILURE_BACKOFF_MS;
      failureTracker := failureTracker - {name};
      failureMessages := failureMessages - {name};
      if name in failureExpiryTimers {
        live := live - {failureExpiryTimers[name]};
      }
      failureExpiryTimers := failureExpiryTimers - {name};
    }

    method Record(name: Name, message: string)
      modifies this
      ensures Now() == RecordFailure(old(Now()), name, message)
    {
      var _ := Clear(name);
      var failedAt := clock;
      failureTracker := failureTracker[name := failedAt];
      failureMessages := failureMessages[name := Truncated(message)];
      var timer := nextTimer;
      nextTimer := nextTimer + 1;
      live := live[timer := Timer(name, failedAt, clock + FAILURE_BACKOFF_MS)];
      failureExpiryTimers := failureExpiryTimers[name := timer];
    }

    // The timer's callback.
    method OnTimer(timer: nat)
      requires Inv(Now()) && timer in live && clock >= live[timer].due
      modifies this
      ensures Now() == FireTimer(old(Now()), timer) && Inv(Now())
    {
      FireKeeps(Now(), timer);
      var t := live[timer];
      live := live - {timer};
      if !ownerActive {
        failureExpiryTimers := failureExpiryTimers - {t.name};
        return;
      }
      if t.name in failureTracker && failureTracker[t.name] == t.failedAt {
        failureTracker := failureTracker - {t.name};
        failureMessages := failureMessages - {t.name};
      }
      failureExpiryTimers := failureExpiryTimers - {t.name};
    }
  }
}
