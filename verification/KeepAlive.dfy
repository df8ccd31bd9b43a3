// The keep-alive manager: convergence passes that await connects, refreshes and
// callbacks, and resume into a world where the server may have been unregistered
// or registered anew. Every function below is one stretch of code between awaits.
module KeepAlive {

  type Name = string

  // A definition object; two registrations never share an identity.
  datatype Definition = Definition(identity: nat, disabled: bool, hasUrl: bool)

  datatype Status = Connected | NeedsAuth | Closed

  datatype Option<T> = None | Some(value: T)

  // failures records when each failure of the streak was reported; no step reads it.
  datatype Retry = Retry(
    attempts: nat, nextAttemptAt: int, connection: Option<nat>, status: Option<Status>, failures: seq<int>)

  datatype Action = Connect | Reconnect | Reconnected | Failed | HealthRestored | AuthRequired | Close

  // Something a pass for definition started: a connect, a reconnect, a callback, or the
  // closing of the connection it held.
  datatype Effect = Effect(action: Action, name: Name, definition: Definition, connection: Option<nat>)

  datatype Manager = Manager(
    now: int,
    keepAlive: map<Name, Definition>,
    retries: map<Name, Retry>,
    pending: set<Name>,              // pendingMetadataPublications
    stopped: bool,
    aborted: bool,
    current: map<Name, nat>,         // the connection manager's current connections
    status: map<nat, Status>,
    effects: seq<Effect>
  )

  const RETRY_BASE_MS := 30_000
  const RETRY_MAX_MS := 300_000

  function Pow2(n: nat): (r: nat)
    ensures r >= 1
  {
    if n == 0 then 1 else 2 * Pow2(n - 1)
  }

  function Min(x: int, y: int): int {
    if x <= y then x else y
  }

  // The wait after the n-th failure of a streak.
  function Delay(n: nat): int
    requires n >= 1
  {
    Min(RETRY_BASE_MS * Pow2(Min(n - 1, 10)), RETRY_MAX_MS)
  }

  // --- Small operations ----------------------------------------------------

  function Current(m: Manager, name: Name): Option<nat> {
    if name in m.current then Some(m.current[name]) else None
  }

  function StatusOf(m: Manager, connection: Option<nat>): Option<Status> {
    if connection.None? then None
    else if connection.value in m.status then Some(m.status[connection.value])
    else Some(Closed)
  }

  predicate Halted(m: Manager) {
    m.stopped || m.aborted
  }

  // The fence every pass checks: its own definition object is still registered.
  predicate Registered(m: Manager, name: Name, d: Definition) {
    name in m.keepAlive && m.keepAlive[name] == d
  }

  function ForgetRetry(m: Manager, name: Name): Manager {
    m.(retries := m.retries - {name})
  }

  function Emit(m: Manager, action: Action, name: Name, d: Definition, c: Option<nat>): Manager {
    m.(effects := m.effects + [Effect(action, name, d, c)])
  }

  function MarkKeepAlive(m: Manager, name: Name, d: Definition): Manager {
    if d.disabled then m else m.(keepAlive := m.keepAlive[name := d])
  }

  function Unregister(m: Manager, name: Name): Manager {
    ForgetRetry(m, name).(keepAlive := m.keepAlive - {name}, pending := m.pending - {name})
  }

  function Previous(m: Manager, name: Name): Option<Retry> {
    if name in m.retries then Some(m.retries[name]) else None
  }

  function NextRetry(previous: Option<Retry>, now: int, c: Option<nat>, status: Option<Status>): Retry {
    var attempts := (if previous.Some? then previous.value.attempts else 0) + 1;
    var failures := if previous.Some? then previous.value.failures else [];
    Retry(attempts, now + Delay(attempts), c, status, failures + [now])
  }

  function RecordRetry(m: Manager, name: Name, d: Definition, c: Option<nat>): Manager {
    if !Registered(m, name, d) then m
    else m.(retries := m.retries[name := NextRetry(Previous(m, name), m.now, c, StatusOf(m, c))])
  }

  function ReportFailure(m: Manager, name: Name, d: Definition, c: Option<nat>): Manager {
    if !Registered(m, name, d) then m
    else Emit(RecordRetry(m, name, d, c), Failed, name, d, c)
  }

  // A retry remembered for another connection or status is dropped.
  function DropStaleRetry(m: Manager, name: Name): Manager {
    var c := Current(m, name);
    if name in m.retries && (m.retries[name].connection != c || m.retries[name].status != StatusOf(m, c))
    then ForgetRetry(m, name)
    else m
  }

  predicate MayAttempt(m: Manager, name: Name) {
    name in m.retries ==> m.now >= m.retries[name].nextAttemptAt
  }

  // --- One pass ------------------------------------------------------------

  // Where a pass is suspended.
  datatype Point =
    | Ready
    | Connecting
    | Refreshing(connection: nat)
    | Reconnecting
    | Publishing(connection: nat)
    | Notified          // awaiting an auth or health callback, or a close
    | Done

  datatype Outcome =
    | Returns(connection: nat)
    | Rejects(reconnectable: bool)
    | Superseded
    | TimedOut
    | Succeeds

  function Publish(m: Manager, name: Name, d: Definition, c: nat): (Manager, Point) {
    if !Registered(m, name, d) then CloseOwn(m, name, d, c)
    else (Emit(m.(pending := m.pending + {name}), Reconnected, name, d, Some(c)), Publishing(c))
  }

  function NotifyAuth(m: Manager, name: Name, d: Definition, c: nat): (Manager, Point) {
    if !Registered(m, name, d) then CloseOwn(m, name, d, c)
    else (Emit(ForgetRetry(m, name).(pending := m.pending - {name}), AuthRequired, name, d, Some(c)), Notified)
  }

  // A fenced-off pass closes the connection it holds, and only while that is
  // still the current one.
  function CloseOwn(m: Manager, name: Name, d: Definition, c: nat): (Manager, Point) {
    if Current(m, name) == Some(c)
    then (Emit(m.(current := m.current - {name}), Close, name, d, Some(c)), Notified)
    else (m, Done)
  }

  function RestoreHealth(m: Manager, name: Name, d: Definition): (Manager, Point) {
    if name in m.retries then (Emit(ForgetRetry(m, name), HealthRestored, name, d, None), Notified) else (m, Done)
  }

  function Begin(m: Manager, name: Name, d: Definition, pendingAuth: bool): (Manager, Point) {
    var c := Current(m, name);
    if d.disabled || Halted(m) || !Registered(m, name, d) then (m, Done)
    else if StatusOf(m, c) == Some(NeedsAuth) then (m.(pending := m.pending - {name}), Done)
    else Attempt(DropStaleRetry(m, name), name, d, pendingAuth)
  }

  function Attempt(m: Manager, name: Name, d: Definition, pendingAuth: bool): (Manager, Point) {
    var c := Current(m, name);
    if !MayAttempt(m, name) then (m, Done)
    else if c.None? || StatusOf(m, c) != Some(Connected) then
      if pendingAuth then (m, Done) else (Emit(m, Connect, name, d, None), Connecting)
    else if name in m.pending then Publish(m, name, d, c.value)
    else if !d.hasUrl then (m, Done)
    else (m, Refreshing(c.value))
  }

  // After a connect or reconnect.
  function AfterConnect(m: Manager, name: Name, d: Definition, o: Outcome): (Manager, Point) {
    if Halted(m) then (m, Done)
    else if !o.Returns? then (ReportFailure(m, name, d, Current(m, name)), Done)
    else if StatusOf(m, Some(o.connection)) == Some(NeedsAuth) then NotifyAuth(m, name, d, o.connection)
    else if StatusOf(m, Some(o.connection)) != Some(Connected)
    then (ReportFailure(m, name, d, Some(o.connection)), Done)
    else Publish(m, name, d, o.connection)
  }

  function HandleSuperseded(m: Manager, name: Name, d: Definition, stale: nat, again: bool, pendingAuth: bool)
    : (Manager, Point)
  {
    var c := Current(m, name);
    if !Registered(m, name, d) then (m, Done)
    else if c == Some(stale) && StatusOf(m, c) == Some(Connected) then RestoreHealth(m, name, d)
    else if c.Some? && StatusOf(m, c) == Some(Connected) then Publish(m, name, d, c.value)
    else if c.Some? && StatusOf(m, c) == Some(NeedsAuth) then NotifyAuth(m, name, d, c.value)
    else if again then Begin(m, name, d, pendingAuth)
    else (m, Done)
  }

  function AfterRefresh(
    m: Manager, name: Name, d: Definition, held: nat, again: bool, o: Outcome, pendingAuth: bool)
    : (Manager, Point)
  {
    match o
    case Rejects(reconnectable) =>
      if Halted(m) then (m, Done)
      else if Current(m, name) != Some(held) || StatusOf(m, Some(held)) != Some(Connected)
      then HandleSuperseded(m, name, d, held, again, pendingAuth)
      else if !reconnectable then (ReportFailure(m, name, d, Some(held)), Done)
      else if pendingAuth then (m, Done)
      else (Emit(m, Reconnect, name, d, Some(held)), Reconnecting)
    case Superseded => HandleSuperseded(m, name, d, held, again, pendingAuth)
    case TimedOut => (RecordRetry(m, name, d, Some(held)), Done)
    case _ => if Registered(m, name, d) then RestoreHealth(m, name, d) else (m, Done)
  }

  function AfterPublish(m: Manager, name: Name, d: Definition, held: nat, o: Outcome): (Manager, Point) {
    if !o.Rejects? then (ForgetRetry(m, name).(pending := m.pending - {name}), Done)
    else if m.stopped then (m, Done)
    else (ReportFailure(m, name, d, Some(held)), Done)
  }

  // again: the pass has not yet retried after being superseded.
  datatype Pass = Pass(definition: Definition, point: Point, again: bool)

  function Resume(m: Manager, name: Name, p: Pass, o: Outcome, pendingAuth: bool): (Manager, Point) {
    match p.point
    case Ready => Begin(m, name, p.definition, pendingAuth)
    case Connecting => AfterConnect(m, name, p.definition, o)
    case Refreshing(held) => AfterRefresh(m, name, p.definition, held, p.again, o, pendingAuth)
    case Reconnecting => AfterConnect(m, name, p.definition, o)
    case Publishing(held) => AfterPublish(m, name, p.definition, held, o)
    case Notified => (m, Done)
    case Done => (m, Done)
  }

  // --- The whole system ----------------------------------------------------

  // passes is the convergence under way; there is never a second one.
  datatype System = System(manager: Manager, passes: map<Name, Pass>)

  datatype Event =
    | Register(name: Name, definition: Definition)
    | Dispose(name: Name)
    | DisposeAndClose(name: Name)  // a disposal and, in the same stretch, the close of its connection
    | SetCurrent(name: Name, connection: Option<nat>)
    | SetStatus(id: nat, to: Status)
    | Tick(ms: nat)
    | SetHalt(stopped: bool, aborted: bool)
    | Converge
    | Advance(name: Name, outcome: Outcome, pendingAuth: bool)
    | FinishShutdown

  predicate Idle(s: System) {
    forall name <- s.passes :: s.passes[name].point == Done
  }

  function StartPasses(keepAlive: map<Name, Definition>): map<Name, Pass> {
    map name | name in keepAlive :: Pass(keepAlive[name], Ready, true)
  }

  // A pass that was superseded and began again does not do so twice.
  function NextPass(p: Pass, point: Point): Pass {
    Pass(p.definition, point, p.again && !p.point.Refreshing?)
  }

  function Step(s: System, e: Event): System {
    var m := s.manager;
    match e
    case Register(name, d) => s.(manager := MarkKeepAlive(m, name, d))
    case Dispose(name) => s.(manager := Unregister(m, name))
    case DisposeAndClose(name) => s.(manager := Unregister(m, name).(current := m.current - {name}))
    case SetCurrent(name, c) =>
      s.(manager := m.(current := if c.Some? then m.current[name := c.value] else m.current - {name}))
    case SetStatus(c, to) => s.(manager := m.(status := m.status[c := to]))
    case Tick(ms) => s.(manager := m.(now := m.now + ms))
    case SetHalt(stopped, aborted) => s.(manager := m.(stopped := stopped, aborted := aborted))
    case Converge =>
      if Halted(m) || !Idle(s) then s else s.(passes := StartPasses(m.keepAlive))
    case Advance(name, o, pendingAuth) =>
      if name !in s.passes then s
      else
        var (m', point) := Resume(m, name, s.passes[name], o, pendingAuth);
        System(m', s.passes[name := NextPass(s.passes[name], point)])
    case FinishShutdown =>
      if m.stopped && Idle(s) then s.(manager := m.(retries := map[], pending := {})) else s
  }

  function Run(s: System, events: seq<Event>): System
    decreases |events|
  {
    if events == [] then s else Run(Step(s, events[0]), events[1..])
  }

  // A run is its steps one after the other.
  lemma {:induction false} RunAppends(s: System, before: seq<Event>, later: seq<Event>)
    ensures Run(s, before + later) == Run(Run(s, before), later)
    ensures forall e :: Run(s, [e]) == Step(s, e)
    decreases |before|
  {
    if before == [] {
      assert before + later == later;
    } else {
      assert (before + later)[1..] == before[1..] + later;
      RunAppends(Step(s, before[0]), before[1..], later);
    }
    forall e ensures Run(s, [e]) == Step(s, e) {
      assert [e][1..] == [] && Run(Step(s, e), []) == Step(s, e);
    }
  }

  function Initial(now: int): System {
    System(Manager(now, map[], map[], {}, false, false, map[], map[], []), map[])
  }

  // --- Fencing -------------------------------------------------------------

  // What a pass may start, judged in the state it starts it from: connects and
  // callbacks only while its own definition is registered; a close only when it
  // is not, and only of the connection just returned to it, while still current.
  predicate Fenced(m: Manager, o: Outcome, e: Effect) {
    if e.action == Close
    then !Registered(m, e.name, e.definition) && o.Returns? && e.connection == Some(o.connection)
         && Current(m, e.name) == e.connection
    else Registered(m, e.name, e.definition)
  }

  ghost predicate StartsFenced(before: Manager, o: Outcome, after: Manager) {
    after.effects == before.effects ||
    exists e :: after.effects == before.effects + [e] && Fenced(before, o, e)
  }

  lemma BeginIsFenced(m: Manager, name: Name, d: Definition, o: Outcome, pendingAuth: bool)
    ensures StartsFenced(m, o, Begin(m, name, d, pendingAuth).0)
  {
  }

  lemma AfterConnectIsFenced(m: Manager, name: Name, d: Definition, o: Outcome)
    ensures StartsFenced(m, o, AfterConnect(m, name, d, o).0)
  {
  }

  lemma HandleSupersededIsFenced(
    m: Manager, name: Name, d: Definition, stale: nat, again: bool, o: Outcome, pendingAuth: bool)
    ensures StartsFenced(m, o, HandleSuperseded(m, name, d, stale, again, pendingAuth).0)
  {
    BeginIsFenced(m, name, d, o, pendingAuth);
  }

  // The one start without a fence: a pass whose refresh failed in a way that
  // calls for a reconnect does not look whether its definition is still registered.
  predicate Bypasses(m: Manager, name: Name, d: Definition, held: nat, o: Outcome, pendingAuth: bool) {
    && o == Rejects(true) && !Halted(m) && !pendingAuth
    && Current(m, name) == Some(held) && StatusOf(m, Some(held)) == Some(Connected)
    && !Registered(m, name, d)
  }

  lemma LastEffect(before: Manager, o: Outcome, after: Manager, e: Effect)
    requires after.effects == before.effects + [e] && !Fenced(before, o, e)
    ensures !StartsFenced(before, o, after)
  {
    assert |after.effects| == |before.effects| + 1 && after.effects[|before.effects|] == e;
    forall other | after.effects == before.effects + [other] ensures other == e {
      assert (before.effects + [other])[|before.effects|] == other;
    }
  }

  lemma AfterRefreshIsFenced(
    m: Manager, name: Name, d: Definition, held: nat, again: bool, o: Outcome, pendingAuth: bool)
    ensures
      var after := AfterRefresh(m, name, d, held, again, o, pendingAuth).0;
      && (StartsFenced(m, o, after) <==> !Bypasses(m, name, d, held, o, pendingAuth))
      && (Bypasses(m, name, d, held, o, pendingAuth) ==>
            after.effects == m.effects + [Effect(Reconnect, name, d, Some(held))])
  {
    var after := AfterRefresh(m, name, d, held, again, o, pendingAuth).0;
    if Bypasses(m, name, d, held, o, pendingAuth) {
      LastEffect(m, o, after, Effect(Reconnect, name, d, Some(held)));
    } else if o.Superseded? || o.Rejects? {
      HandleSupersededIsFenced(m, name, d, held, again, o, pendingAuth);
    }
  }

  lemma AfterPublishIsFenced(m: Manager, name: Name, d: Definition, held: nat, o: Outcome)
    ensures StartsFenced(m, o, AfterPublish(m, name, d, held, o).0)
  {
  }

  predicate PassBypasses(m: Manager, name: Name, p: Pass, o: Outcome, pendingAuth: bool) {
    p.point.Refreshing? && Bypasses(m, name, p.definition, p.point.connection, o, pendingAuth)
  }

  lemma ResumeIsFenced(m: Manager, name: Name, p: Pass, o: Outcome, pendingAuth: bool)
    ensures StartsFenced(m, o, Resume(m, name, p, o, pendingAuth).0) <==> !PassBypasses(m, name, p, o, pendingAuth)
  {
    match p.point
    case Ready => BeginIsFenced(m, name, p.definition, o, pendingAuth);
    case Refreshing(held) => AfterRefreshIsFenced(m, name, p.definition, held, p.again, o, pendingAuth);
    case Publishing(held) => AfterPublishIsFenced(m, name, p.definition, held, o);
    case Connecting => AfterConnectIsFenced(m, name, p.definition, o);
    case Reconnecting => AfterConnectIsFenced(m, name, p.definition, o);
    case Notified =>
    case Done =>
  }

  predicate StepBypasses(s: System, e: Event) {
    e.Advance? && e.name in s.passes && PassBypasses(s.manager, e.name, s.passes[e.name], e.outcome, e.pendingAuth)
  }

  // In every state whatever, a pass starts at most one thing per step, and that
  // one thing is fenced, unless and only unless the step is the reconnect that
  // no fence guards. Then the reconnect is all it starts.
  lemma EveryStepIsFenced(s: System, e: Event)
    ensures e.Advance? ==> (StartsFenced(s.manager, e.outcome, Step(s, e).manager) <==> !StepBypasses(s, e))
    ensures StepBypasses(s, e) ==>
      var p := s.passes[e.name];
      Step(s, e).manager.effects ==
        s.manager.effects + [Effect(Reconnect, e.name, p.definition, Some(p.point.connection))]
    ensures !e.Advance? ==> Step(s, e).manager.effects == s.manager.effects
  {
    if e.Advance? && e.name in s.passes {
      var p := s.passes[e.name];
      ResumeIsFenced(s.manager, e.name, p, e.outcome, e.pendingAuth);
      if p.point.Refreshing? {
        AfterRefreshIsFenced(
          s.manager, e.name, p.definition, p.point.connection, p.again, e.outcome, e.pendingAuth);
      }
    }
  }

  // It does happen: the server is disposed while its refresh is awaited, and its
  // connection left open.
  lemma DisposedPassReconnects(now: int, name: Name, d: Definition, c: nat)
    requires d.hasUrl && !d.disabled
    ensures
      var s1 := Step(Initial(now), Register(name, d));
      var s2 := Step(Step(s1, SetCurrent(name, Some(c))), SetStatus(c, Connected));
      var s3 := Step(Step(s2, Converge), Advance(name, Succeeds, false));
      var s4 := Step(s3, Dispose(name));
      var s5 := Step(s4, Advance(name, Rejects(true), false));
      && !Registered(s4.manager, name, d)
      && s5.manager.effects == s4.manager.effects + [Effect(Reconnect, name, d, Some(c))]
  {
    var s1 := Step(Initial(now), Register(name, d));
    var s2 := Step(Step(s1, SetCurrent(name, Some(c))), SetStatus(c, Connected));
    var converging := Step(s2, Converge);
    assert converging.passes[name] == Pass(d, Ready, true);
    var s3 := Step(converging, Advance(name, Succeeds, false));
    assert s3.passes[name].point == Refreshing(c);
  }

  // And where its entry object is replaced and registered anew in the meantime,
  // which needs no disposal.
  lemma ReplacedPassReconnects(now: int, name: Name, d: Definition, d2: Definition, c: nat)
    requires d.hasUrl && !d.disabled && !d2.disabled && d2 != d
    ensures
      var s1 := Step(Initial(now), Register(name, d));
      var s2 := Step(Step(s1, SetCurrent(name, Some(c))), SetStatus(c, Connected));
      var s3 := Step(Step(s2, Converge), Advance(name, Succeeds, false));
      var s4 := Step(s3, Register(name, d2));
      var s5 := Step(s4, Advance(name, Rejects(true), false));
      && Registered(s4.manager, name, d2)
      && s5.manager.effects == s4.manager.effects + [Effect(Reconnect, name, d, Some(c))]
  {
    var s1 := Step(Initial(now), Register(name, d));
    var s2 := Step(Step(s1, SetCurrent(name, Some(c))), SetStatus(c, Connected));
    var converging := Step(s2, Converge);
    assert converging.passes[name] == Pass(d, Ready, true);
    var s3 := Step(converging, Advance(name, Succeeds, false));
    assert s3.passes[name].point == Refreshing(c);
  }

  // How the rest of the extension treats the manager: a disposal closes the
  // connection in the same stretch, no other definition is registered over one
  // that is, and no connection comes back to a pass that is refreshing it.
  predicate Disciplined(s: System, e: Event) {
    var m := s.manager;
    match e
    case Register(name, d) => d.disabled || name !in m.keepAlive || m.keepAlive[name] == d
    case Dispose(_) => false
    case SetCurrent(name, c) =>
      c.None? || c == Current(m, name) || name !in s.passes || s.passes[name].point != Refreshing(c.value)
    case _ => true
  }

  ghost predicate DisciplinedRun(s: System, events: seq<Event>)
    decreases |events|
  {
    events == [] || (Disciplined(s, events[0]) && DisciplinedRun(Step(s, events[0]), events[1..]))
  }

  // A pass whose connection is still the current one is still registered.
  ghost predicate HeldIsRegistered(m: Manager, name: Name, p: Pass) {
    p.point.Refreshing? && Current(m, name) == Some(p.point.connection) ==> Registered(m, name, p.definition)
  }

  ghost predicate AllHeldRegistered(s: System) {
    forall name <- s.passes :: HeldIsRegistered(s.manager, name, s.passes[name])
  }

  // A pass drops no connection but its own server's, and registers nothing.
  ghost predicate LeavesOthers(m: Manager, after: Manager, name: Name) {
    after.keepAlive == m.keepAlive && (after.current == m.current || after.current == m.current - {name})
  }

  lemma BeginRefreshes(m: Manager, name: Name, d: Definition, pendingAuth: bool)
    ensures
      var (after, point) := Begin(m, name, d, pendingAuth);
      LeavesOthers(m, after, name) && (point.Refreshing? ==> Registered(after, name, d))
  {
  }

  lemma AfterConnectRefreshes(m: Manager, name: Name, d: Definition, o: Outcome)
    ensures
      var (after, point) := AfterConnect(m, name, d, o);
      LeavesOthers(m, after, name) && !point.Refreshing?
  {
  }

  lemma HandleSupersededRefreshes(m: Manager, name: Name, d: Definition, stale: nat, again: bool, pendingAuth: bool)
    ensures
      var (after, point) := HandleSuperseded(m, name, d, stale, again, pendingAuth);
      LeavesOthers(m, after, name) && (point.Refreshing? ==> Registered(after, name, d))
  {
    BeginRefreshes(m, name, d, pendingAuth);
  }

  lemma AfterRefreshRefreshes(
    m: Manager, name: Name, d: Definition, held: nat, again: bool, o: Outcome, pendingAuth: bool)
    ensures
      var (after, point) := AfterRefresh(m, name, d, held, again, o, pendingAuth);
      LeavesOthers(m, after, name) && (point.Refreshing? ==> Registered(after, name, d))
  {
    HandleSupersededRefreshes(m, name, d, held, again, pendingAuth);
  }

  lemma ResumeRefreshes(m: Manager, name: Name, p: Pass, o: Outcome, pendingAuth: bool)
    ensures
      var (after, point) := Resume(m, name, p, o, pendingAuth);
      LeavesOthers(m, after, name) && (point.Refreshing? ==> Registered(after, name, p.definition))
  {
    match p.point
    case Ready => BeginRefreshes(m, name, p.definition, pendingAuth);
    case Refreshing(held) => AfterRefreshRefreshes(m, name, p.definition, held, p.again, o, pendingAuth);
    case _ => AfterConnectRefreshes(m, name, p.definition, o);
  }

  lemma DisciplineKeepsHeld(s: System, e: Event)
    requires AllHeldRegistered(s) && Disciplined(s, e)
    ensures AllHeldRegistered(Step(s, e))
  {
    var after := Step(s, e);
    if e.Advance? && e.name in s.passes {
      ResumeRefreshes(s.manager, e.name, s.passes[e.name], e.outcome, e.pendingAuth);
    }
    forall name <- after.passes ensures HeldIsRegistered(after.manager, name, after.passes[name]) {
      if name in s.passes {
        assert HeldIsRegistered(s.manager, name, s.passes[name]);
      }
    }
  }

  lemma {:induction false} DisciplinedRunKeepsHeld(s: System, events: seq<Event>)
    requires AllHeldRegistered(s) && DisciplinedRun(s, events)
    ensures AllHeldRegistered(Run(s, events))
    decreases |events|
  {
    if events != [] {
      DisciplineKeepsHeld(s, events[0]);
      DisciplinedRunKeepsHeld(Step(s, events[0]), events[1..]);
    }
  }

  // Over every run that keeps this discipline, every start is fenced.
  lemma DisciplinedRunsAreFenced(now: int, events: seq<Event>, e: Event)
    requires DisciplinedRun(Initial(now), events)
    ensures
      var s := Run(Initial(now), events);
      !StepBypasses(s, e) && (e.Advance? ==> StartsFenced(s.manager, e.outcome, Step(s, e).manager))
  {
    var s := Run(Initial(now), events);
    DisciplinedRunKeepsHeld(Initial(now), events);
    if e.Advance? && e.name in s.passes {
      assert HeldIsRegistered(s.manager, e.name, s.passes[e.name]);
    }
    EveryStepIsFenced(s, e);
  }

  // --- What a pass does ----------------------------------------------------

  // No remembered retry holds the server back.
  predicate GateOpen(m: Manager, name: Name) {
    var c := Current(m, name);
    name in m.retries ==>
      || m.retries[name].connection != c || m.retries[name].status != StatusOf(m, c)
      || m.now >= m.retries[name].nextAttemptAt
  }

  predicate Due(m: Manager, name: Name, d: Definition) {
    && !d.disabled && !Halted(m) && Registered(m, name, d)
    && StatusOf(m, Current(m, name)) != Some(NeedsAuth) && GateOpen(m, name)
  }

  predicate IsConnected(m: Manager, name: Name) {
    StatusOf(m, Current(m, name)) == Some(Connected)
  }

  function Of(action: Action, name: Name, d: Definition, c: Option<nat>): seq<Effect> {
    [Effect(action, name, d, c)]
  }

  // A ready pass connects a server that is due and not connected, if and only if
  // no authorization is pending; announces a connection not yet announced;
  // refreshes one that was; and does nothing else, but that a server waiting for
  // auth has nothing to announce.
  lemma ReadyPassExactly(m: Manager, name: Name, d: Definition, pendingAuth: bool)
    ensures
      var (after, point) := Begin(m, name, d, pendingAuth);
      && (point == Connecting <==> Due(m, name, d) && !IsConnected(m, name) && !pendingAuth)
      && (point.Publishing? <==> Due(m, name, d) && IsConnected(m, name) && name in m.pending)
      && (point.Refreshing? <==> Due(m, name, d) && IsConnected(m, name) && name !in m.pending && d.hasUrl)
      && (point.Publishing? || point.Refreshing? ==> Current(m, name) == Some(point.connection))
      && point != Notified && point != Reconnecting && point != Ready
      && (name in after.pending <==>
            name in m.pending && (d.disabled || Halted(m) || !Registered(m, name, d) ||
                                  StatusOf(m, Current(m, name)) != Some(NeedsAuth)))
      && after.effects == m.effects +
           (if point == Connecting then Of(Connect, name, d, None)
            else if point.Publishing? then Of(Reconnected, name, d, Current(m, name))
            else [])
  {
    assert m.effects + [] == m.effects;
    if Due(m, name, d) {
      DropStaleOpens(m, name);
    }
  }

  lemma DropStaleOpens(m: Manager, name: Name)
    ensures MayAttempt(DropStaleRetry(m, name), name) <==> GateOpen(m, name)
  {
  }

  // A retry is remembered, counting one more failure, before its callback or
  // without one.
  predicate Remembered(m: Manager, after: Manager, name: Name, c: Option<nat>) {
    && name in after.retries && after.retries[name].attempts == Attempts(m, name) + 1
    && after.retries[name].nextAttemptAt == m.now + Delay(Attempts(m, name) + 1)
    && after.retries[name].connection == c && after.retries[name].status == StatusOf(m, c)
  }

  function Attempts(m: Manager, name: Name): nat {
    if name in m.retries then m.retries[name].attempts else 0
  }

  // Which callback a connect or reconnect that has settled leads to.
  function CallbackOf(m: Manager, o: Outcome): Action {
    if !o.Returns? || StatusOf(m, Some(o.connection)) == Some(Closed) then Failed
    else if StatusOf(m, Some(o.connection)) == Some(NeedsAuth) then AuthRequired
    else Reconnected
  }

  lemma ConnectOutcomes(m: Manager, name: Name, d: Definition, o: Outcome)
    requires !Halted(m) && Registered(m, name, d)
    ensures
      var (after, point) := AfterConnect(m, name, d, o);
      var c := if o.Returns? then Some(o.connection) else Current(m, name);
      && after.effects == m.effects + Of(CallbackOf(m, o), name, d, c)
      && match CallbackOf(m, o)
         case Failed => point == Done && Remembered(m, after, name, c)
         case AuthRequired => point == Notified && name !in after.retries && name !in after.pending
         case _ => point == Publishing(o.connection) && name in after.pending && after.retries == m.retries
  {
    if o.Returns? {
      StatusIsKnown(m, o.connection);
    }
  }

  lemma StatusIsKnown(m: Manager, c: nat)
    ensures
      StatusOf(m, Some(c)) == Some(Connected) || StatusOf(m, Some(c)) == Some(NeedsAuth) ||
      StatusOf(m, Some(c)) == Some(Closed)
  {
    if c in m.status {
      match m.status[c]
      case Connected =>
      case NeedsAuth =>
      case Closed =>
    }
  }

  // After a disposal or a stop it only closes what it brought, if that is current.
  lemma LateConnectOutcomes(m: Manager, name: Name, d: Definition, o: Outcome)
    requires Halted(m) || !Registered(m, name, d)
    ensures
      var (after, point) := AfterConnect(m, name, d, o);
      if !Halted(m) && CallbackOf(m, o) != Failed && Current(m, name) == Some(o.connection)
      then
        && point == Notified && after.effects == m.effects + Of(Close, name, d, Some(o.connection))
        && Current(after, name).None?
      else after == m && point == Done
  {
    if o.Returns? {
      StatusIsKnown(m, o.connection);
    }
  }

  // How a refresh that has settled goes on, for a server still registered.
  lemma RefreshOutcomes(
    m: Manager, name: Name, d: Definition, held: nat, again: bool, o: Outcome, pendingAuth: bool)
    requires !Halted(m) && Registered(m, name, d)
    ensures
      var (after, point) := AfterRefresh(m, name, d, held, again, o, pendingAuth);
      var usable := Current(m, name) == Some(held) && IsConnected(m, name);
      && (o.Succeeds? || o.Returns? ==>
            name !in after.retries && point == (if name in m.retries then Notified else Done)
            && after.effects == m.effects + if name in m.retries then Of(HealthRestored, name, d, None) else [])
      && (o.TimedOut? ==> after.effects == m.effects && point == Done && Remembered(m, after, name, Some(held)))
      && (o == Rejects(false) && usable ==>
            after.effects == m.effects + Of(Failed, name, d, Some(held)) && point == Done
            && Remembered(m, after, name, Some(held)))
      && (o == Rejects(true) && usable ==>
            if pendingAuth then after == m && point == Done
            else after.effects == m.effects + Of(Reconnect, name, d, Some(held)) && point == Reconnecting)
      && (o.Superseded? || (o.Rejects? && !usable) ==>
            (after, point) == HandleSuperseded(m, name, d, held, again, pendingAuth))
  {
    assert m.effects + [] == m.effects;
  }

  // A superseded pass takes up the connection it finds, or begins once more.
  lemma SupersededOutcomes(m: Manager, name: Name, d: Definition, stale: nat, again: bool, pendingAuth: bool)
    requires Registered(m, name, d)
    ensures
      var (after, point) := HandleSuperseded(m, name, d, stale, again, pendingAuth);
      var c := Current(m, name);
      match StatusOf(m, c)
      case Some(Connected) =>
        if c == Some(stale) then
          && name !in after.retries
          && after.effects == m.effects + (if name in m.retries then Of(HealthRestored, name, d, None) else [])
        else
          point == Publishing(c.value) && name in after.pending
          && after.effects == m.effects + Of(Reconnected, name, d, c)
      case Some(NeedsAuth) =>
        point == Notified && name !in after.retries && name !in after.pending
        && after.effects == m.effects + Of(AuthRequired, name, d, c)
      case _ => if again then (after, point) == Begin(m, name, d, pendingAuth) else after == m && point == Done
  {
    assert m.effects + [] == m.effects;
  }

  lemma PublishOutcomes(m: Manager, name: Name, d: Definition, held: nat, o: Outcome)
    ensures
      var (after, point) := AfterPublish(m, name, d, held, o);
      && point == Done
      && if !o.Rejects? then
           after.effects == m.effects && after.retries == m.retries - {name} && after.pending == m.pending - {name}
         else if m.stopped || !Registered(m, name, d) then after == m
         else
           after.effects == m.effects + Of(Failed, name, d, Some(held)) && Remembered(m, after, name, Some(held))
           && after.pending == m.pending
  {
  }

  // The steps of the world around the passes: the clock and the flags,
  lemma ClockExactly(s: System, e: Event)
    requires !e.Advance?
    ensures
      var m, after := s.manager, Step(s, e).manager;
      && after.now == m.now + (if e.Tick? then e.ms else 0)
      && (after.stopped <==> if e.SetHalt? then e.stopped else m.stopped)
      && (after.aborted <==> if e.SetHalt? then e.aborted else m.aborted)
  {
  }

  // what is registered and connected,
  lemma RegisteredExactly(s: System, e: Event, name: Name, d: Definition)
    requires !e.Advance?
    ensures
      var disposes := e == Dispose(name) || e == DisposeAndClose(name);
      Registered(Step(s, e).manager, name, d) <==>
        if e.Register? && e.name == name && !e.definition.disabled then e.definition == d
        else Registered(s.manager, name, d) && !disposes
    ensures Current(Step(s, e).manager, name) ==
      if e.SetCurrent? && e.name == name then e.connection
      else if e == DisposeAndClose(name) then None
      else Current(s.manager, name)
  {
  }

  // and what is tracked.
  lemma TrackedExactly(s: System, e: Event, name: Name)
    requires !e.Advance?
    ensures
      var m, after := s.manager, Step(s, e).manager;
      var forgets := e == Dispose(name) || e == DisposeAndClose(name) || (e.FinishShutdown? && m.stopped && Idle(s));
      && (name in after.retries <==> name in m.retries && !forgets)
      && (name in after.pending <==> name in m.pending && !forgets)
  {
  }

  // A pass keeps its definition, and once it was refreshing does not begin again.
  lemma PassExactly(s: System, name: Name, o: Outcome, pendingAuth: bool)
    requires name in s.passes
    ensures
      var p, after := s.passes[name], Step(s, Advance(name, o, pendingAuth));
      && name in after.passes && after.passes[name].definition == p.definition
      && (after.passes[name].again <==> p.again && !p.point.Refreshing?)
      && forall other :: other != name && other in s.passes ==>
           other in after.passes && after.passes[other] == s.passes[other]
  {
  }

  // --- A dropped server comes back -----------------------------------------

  // A pass of the registered definition waits at a point, and may go on.
  predicate WaitsAt(s: System, name: Name, d: Definition, point: Point) {
    && name in s.passes && s.passes[name].definition == d && s.passes[name].point == point && point != Done
    && Registered(s.manager, name, d) && !Halted(s.manager)
  }

  // A step that leaves this server's registration and pass alone and halts nothing.
  predicate Bystander(e: Event, name: Name) {
    match e
    case Register(n, _) => n != name
    case Dispose(n) => n != name
    case DisposeAndClose(n) => n != name
    case SetHalt(stopped, aborted) => !stopped && !aborted
    case Advance(n, _, _) => n != name
    case _ => true
  }

  ghost predicate Bystanders(events: seq<Event>, name: Name) {
    forall i :: 0 <= i < |events| ==> Bystander(events[i], name)
  }

  // Every server registered when a convergence starts gets a pass of its own.
  lemma ConvergenceStarts(s: System, name: Name, d: Definition)
    requires Idle(s) && !Halted(s.manager) && Registered(s.manager, name, d)
    ensures WaitsAt(Step(s, Converge), name, d, Ready) && Step(s, Converge).manager == s.manager
  {
  }

  predicate SameFlags(m: Manager, after: Manager) {
    after.stopped == m.stopped && after.aborted == m.aborted
  }

  lemma BeginKeepsFlags(m: Manager, name: Name, d: Definition, pendingAuth: bool)
    ensures SameFlags(m, Begin(m, name, d, pendingAuth).0)
  {
  }

  lemma ConnectKeepsFlags(m: Manager, name: Name, d: Definition, o: Outcome)
    ensures SameFlags(m, AfterConnect(m, name, d, o).0)
  {
  }

  lemma SupersededKeepsFlags(m: Manager, name: Name, d: Definition, stale: nat, again: bool, pendingAuth: bool)
    ensures SameFlags(m, HandleSuperseded(m, name, d, stale, again, pendingAuth).0)
  {
    BeginKeepsFlags(m, name, d, pendingAuth);
  }

  lemma RefreshKeepsFlags(
    m: Manager, name: Name, d: Definition, held: nat, again: bool, o: Outcome, pendingAuth: bool)
    ensures SameFlags(m, AfterRefresh(m, name, d, held, again, o, pendingAuth).0)
  {
    SupersededKeepsFlags(m, name, d, held, again, pendingAuth);
  }

  lemma ResumeKeepsFlags(m: Manager, name: Name, p: Pass, o: Outcome, pendingAuth: bool)
    ensures SameFlags(m, Resume(m, name, p, o, pendingAuth).0)
  {
    match p.point
    case Ready => BeginKeepsFlags(m, name, p.definition, pendingAuth);
    case Refreshing(held) => RefreshKeepsFlags(m, name, p.definition, held, p.again, o, pendingAuth);
    case _ => ConnectKeepsFlags(m, name, p.definition, o);
  }

  lemma WaitsOn(s: System, e: Event, name: Name, d: Definition, point: Point)
    requires WaitsAt(s, name, d, point) && Bystander(e, name)
    ensures WaitsAt(Step(s, e), name, d, point)
  {
    match e
    case Advance(n, o, pendingAuth) =>
      if n in s.passes {
        ResumeKeepsFlags(s.manager, n, s.passes[n], o, pendingAuth);
        ResumeRefreshes(s.manager, n, s.passes[n], o, pendingAuth);
      }
    case _ =>
  }

  lemma {:induction false} RunWaits(s: System, events: seq<Event>, name: Name, d: Definition, point: Point)
    requires WaitsAt(s, name, d, point) && Bystanders(events, name)
    ensures WaitsAt(Run(s, events), name, d, point)
    decreases |events|
  {
    if events != [] {
      WaitsOn(s, events[0], name, d, point);
      RunWaits(Step(s, events[0]), events[1..], name, d, point);
    }
  }

  // A dropped server whose pass is due is connected; whatever else happens until
  // the connect returns a live connection, that is then announced; and once the
  // announcement went through no retry and no publication is left.
  lemma DroppedServerComesBack(
    s: System, name: Name, d: Definition, toConnect: seq<Event>, c: nat, toPublish: seq<Event>)
    requires WaitsAt(s, name, d, Ready) && Due(s.manager, name, d) && !IsConnected(s.manager, name)
    requires Bystanders(toConnect, name) && Bystanders(toPublish, name)
    requires
      var connecting := Step(s, Advance(name, Succeeds, false));
      StatusOf(Run(connecting, toConnect).manager, Some(c)) == Some(Connected)
    ensures
      var connecting := Step(s, Advance(name, Succeeds, false));
      var returning := Run(connecting, toConnect);
      var publishing := Step(returning, Advance(name, Returns(c), false));
      var done := Step(Run(publishing, toPublish), Advance(name, Succeeds, false));
      && connecting.manager.effects == s.manager.effects + Of(Connect, name, d, None)
      && publishing.manager.effects == returning.manager.effects + Of(Reconnected, name, d, Some(c))
      && name !in done.manager.retries && name !in done.manager.pending
      && name in done.passes && done.passes[name].point == Done
  {
    var connecting := Step(s, Advance(name, Succeeds, false));
    ConnectStarts(s, name, d);
    RunWaits(connecting, toConnect, name, d, Connecting);
    var returning := Run(connecting, toConnect);
    ConnectPublishes(returning, name, d, c);
    var publishing := Step(returning, Advance(name, Returns(c), false));
    RunWaits(publishing, toPublish, name, d, Publishing(c));
    PublishOutcomes(Run(publishing, toPublish).manager, name, d, c, Succeeds);
  }

  lemma ConnectStarts(s: System, name: Name, d: Definition)
    requires WaitsAt(s, name, d, Ready) && Due(s.manager, name, d) && !IsConnected(s.manager, name)
    ensures
      var after := Step(s, Advance(name, Succeeds, false));
      WaitsAt(after, name, d, Connecting) && after.manager.effects == s.manager.effects + Of(Connect, name, d, None)
  {
    var p := s.passes[name];
    ReadyPassExactly(s.manager, name, d, false);
    ResumeKeepsFlags(s.manager, name, p, Succeeds, false);
    ResumeRefreshes(s.manager, name, p, Succeeds, false);
  }

  lemma ConnectPublishes(s: System, name: Name, d: Definition, c: nat)
    requires WaitsAt(s, name, d, Connecting) && StatusOf(s.manager, Some(c)) == Some(Connected)
    ensures
      var after := Step(s, Advance(name, Returns(c), false));
      && WaitsAt(after, name, d, Publishing(c))
      && after.manager.effects == s.manager.effects + Of(Reconnected, name, d, Some(c))
  {
    var p := s.passes[name];
    ConnectOutcomes(s.manager, name, d, Returns(c));
    ResumeKeepsFlags(s.manager, name, p, Returns(c), false);
    ResumeRefreshes(s.manager, name, p, Returns(c), false);
  }

  // --- Tracked servers and retry streaks -----------------------------------

  ghost predicate TracksOnlyKeepAlive(m: Manager) {
    m.retries.Keys <= m.keepAlive.Keys && m.pending <= m.keepAlive.Keys
  }

  // Each failure of a streak comes at least its delay after the one before.
  ghost predicate Spaced(streak: seq<int>) {
    forall i :: 0 < i < |streak| ==> streak[i] - streak[i - 1] >= Delay(i)
  }

  ghost predicate RetryOk(retry: Retry, now: int) {
    var n := |retry.failures|;
    && n == retry.attempts > 0 && Spaced(retry.failures)
    && retry.failures[n - 1] <= now
    && retry.nextAttemptAt == retry.failures[n - 1] + Delay(n)
  }

  ghost predicate RetriesOk(m: Manager) {
    forall name <- m.retries :: RetryOk(m.retries[name], m.now)
  }

  // A pass past its gate may still record a failure: the wait is over.
  predicate PastGate(point: Point) {
    point.Connecting? || point.Refreshing? || point.Reconnecting? || point.Publishing?
  }

  ghost predicate GateKept(m: Manager, name: Name, point: Point) {
    PastGate(point) ==> MayAttempt(m, name)
  }

  ghost predicate Inv(s: System) {
    && TracksOnlyKeepAlive(s.manager) && RetriesOk(s.manager)
    && forall name <- s.passes :: GateKept(s.manager, name, s.passes[name].point)
  }

  // What one pass does to its own server's retry, and to no other server's.
  ghost predicate TouchesOnly(before: Manager, after: Manager, name: Name) {
    && after.now == before.now && after.keepAlive == before.keepAlive
    && forall other :: other != name ==>
         (other in after.retries <==> other in before.retries) &&
         (other in before.retries ==> after.retries[other] == before.retries[other])
  }

  ghost predicate GoodStep(before: Manager, after: Manager, name: Name, point: Point) {
    && TracksOnlyKeepAlive(after) && RetriesOk(after)
    && TouchesOnly(before, after, name) && GateKept(after, name, point)
  }

  ghost predicate Good(m: Manager) {
    TracksOnlyKeepAlive(m) && RetriesOk(m)
  }

  lemma DelayBounds(n: nat)
    requires n >= 1
    ensures 30_000 <= Delay(n) <= 300_000
    ensures Delay(n) <= Delay(n + 1)
    ensures n >= 5 ==> Delay(n) == 300_000
    ensures Delay(1) == 30_000 && Delay(2) == 60_000 && Delay(3) == 120_000 && Delay(4) == 240_000
  {
    if n <= 10 {
      Pow2Monotone(n - 1, n);
    }
    if n >= 5 {
      Pow2Monotone(4, Min(n - 1, 10));
    }
    assert Pow2(4) == 16;
  }

  lemma {:induction false} Pow2Monotone(a: nat, b: nat)
    requires a <= b
    ensures Pow2(a) <= Pow2(b)
  {
    if a < b {
      Pow2Monotone(a, b - 1);
    }
  }

  lemma ForgetRetryIsGood(m: Manager, name: Name)
    requires Good(m)
    ensures Good(ForgetRetry(m, name)) && TouchesOnly(m, ForgetRetry(m, name), name)
    ensures MayAttempt(ForgetRetry(m, name), name)
  {
  }

  lemma NextRetryOk(previous: Option<Retry>, now: int, c: Option<nat>, status: Option<Status>)
    requires previous.Some? ==> RetryOk(previous.value, now) && now >= previous.value.nextAttemptAt
    ensures RetryOk(NextRetry(previous, now, c, status), now)
  {
    var next := NextRetry(previous, now, c, status);
    if previous.Some? {
      var failures, n := previous.value.failures, |previous.value.failures|;
      forall i | 0 < i <= n ensures next.failures[i] - next.failures[i - 1] >= Delay(i) {
        if i < n {
          assert failures[i] - failures[i - 1] >= Delay(i);
        }
      }
    }
  }

  lemma RecordRetryIsGood(m: Manager, name: Name, d: Definition, c: Option<nat>)
    requires Good(m) && MayAttempt(m, name)
    ensures Good(RecordRetry(m, name, d, c)) && TouchesOnly(m, RecordRetry(m, name, d, c), name)
  {
    NextRetryOk(Previous(m, name), m.now, c, StatusOf(m, c));
  }

  lemma ReportFailureIsGood(m: Manager, name: Name, d: Definition, c: Option<nat>)
    requires Good(m) && MayAttempt(m, name)
    ensures GoodStep(m, ReportFailure(m, name, d, c), name, Done)
  {
    RecordRetryIsGood(m, name, d, c);
  }

  // Good only looks at the tracking maps and the clock.
  lemma SameTracking(m: Manager, after: Manager)
    requires Good(m)
    requires after.retries == m.retries && after.now == m.now
    requires after.keepAlive == m.keepAlive && after.pending <= m.keepAlive.Keys
    ensures Good(after)
  {
  }

  lemma PublishIsGood(m: Manager, name: Name, d: Definition, c: nat)
    requires Good(m) && MayAttempt(m, name)
    ensures var (after, point) := Publish(m, name, d, c); GoodStep(m, after, name, point)
  {
    SameTracking(m, Publish(m, name, d, c).0);
  }

  lemma NotifyAuthIsGood(m: Manager, name: Name, d: Definition, c: nat)
    requires Good(m)
    ensures var (after, point) := NotifyAuth(m, name, d, c); GoodStep(m, after, name, point)
  {
    if Registered(m, name, d) {
      ForgetRetryIsGood(m, name);
      SameTracking(ForgetRetry(m, name), NotifyAuth(m, name, d, c).0);
    } else {
      SameTracking(m, NotifyAuth(m, name, d, c).0);
    }
  }

  lemma RestoreHealthIsGood(m: Manager, name: Name, d: Definition)
    requires Good(m)
    ensures var (after, point) := RestoreHealth(m, name, d); GoodStep(m, after, name, point)
  {
    ForgetRetryIsGood(m, name);
    SameTracking(ForgetRetry(m, name), Emit(ForgetRetry(m, name), HealthRestored, name, d, None));
  }

  lemma AttemptIsGood(m: Manager, name: Name, d: Definition, pendingAuth: bool)
    requires Good(m)
    ensures var (after, point) := Attempt(m, name, d, pendingAuth); GoodStep(m, after, name, point)
  {
    if MayAttempt(m, name) {
      var c := Current(m, name);
      if c.Some? {
        PublishIsGood(m, name, d, c.value);
      }
      SameTracking(m, Emit(m, Connect, name, d, None));
    }
  }

  lemma BeginIsGood(m: Manager, name: Name, d: Definition, pendingAuth: bool)
    requires Good(m)
    ensures var (after, point) := Begin(m, name, d, pendingAuth); GoodStep(m, after, name, point)
  {
    if d.disabled || Halted(m) || !Registered(m, name, d) {
    } else if StatusOf(m, Current(m, name)) == Some(NeedsAuth) {
      SameTracking(m, m.(pending := m.pending - {name}));
    } else {
      DropStaleIsGood(m, name);
      AttemptIsGood(DropStaleRetry(m, name), name, d, pendingAuth);
    }
  }

  lemma DropStaleIsGood(m: Manager, name: Name)
    requires Good(m)
    ensures Good(DropStaleRetry(m, name)) && TouchesOnly(m, DropStaleRetry(m, name), name)
  {
    ForgetRetryIsGood(m, name);
  }

  lemma AfterConnectIsGood(m: Manager, name: Name, d: Definition, o: Outcome)
    requires Good(m) && MayAttempt(m, name)
    ensures var (after, point) := AfterConnect(m, name, d, o); GoodStep(m, after, name, point)
  {
    if Halted(m) {
    } else if !o.Returns? {
      ReportFailureIsGood(m, name, d, Current(m, name));
    } else if StatusOf(m, Some(o.connection)) == Some(NeedsAuth) {
      NotifyAuthIsGood(m, name, d, o.connection);
    } else if StatusOf(m, Some(o.connection)) != Some(Connected) {
      ReportFailureIsGood(m, name, d, Some(o.connection));
    } else {
      PublishIsGood(m, name, d, o.connection);
    }
  }

  lemma HandleSupersededIsGood(m: Manager, name: Name, d: Definition, stale: nat, again: bool, pendingAuth: bool)
    requires Good(m) && MayAttempt(m, name)
    ensures
      var (after, point) := HandleSuperseded(m, name, d, stale, again, pendingAuth);
      GoodStep(m, after, name, point)
  {
    RestoreHealthIsGood(m, name, d);
    BeginIsGood(m, name, d, pendingAuth);
    var c := Current(m, name);
    if c.Some? {
      PublishIsGood(m, name, d, c.value);
      NotifyAuthIsGood(m, name, d, c.value);
    }
  }

  lemma AfterRefreshIsGood(
    m: Manager, name: Name, d: Definition, held: nat, again: bool, o: Outcome, pendingAuth: bool)
    requires Good(m) && MayAttempt(m, name)
    ensures
      var (after, point) := AfterRefresh(m, name, d, held, again, o, pendingAuth);
      GoodStep(m, after, name, point)
  {
    match o
    case Rejects(reconnectable) =>
      HandleSupersededIsGood(m, name, d, held, again, pendingAuth);
      ReportFailureIsGood(m, name, d, Some(held));
    case Superseded => HandleSupersededIsGood(m, name, d, held, again, pendingAuth);
    case TimedOut => RecordRetryIsGood(m, name, d, Some(held));
    case _ => RestoreHealthIsGood(m, name, d);
  }

  lemma AfterPublishIsGood(m: Manager, name: Name, d: Definition, held: nat, o: Outcome)
    requires Good(m) && MayAttempt(m, name)
    ensures var (after, point) := AfterPublish(m, name, d, held, o); GoodStep(m, after, name, point)
  {
    ForgetRetryIsGood(m, name);
    SameTracking(ForgetRetry(m, name), ForgetRetry(m, name).(pending := m.pending - {name}));
    ReportFailureIsGood(m, name, d, Some(held));
  }

  lemma ResumeIsGood(m: Manager, name: Name, p: Pass, o: Outcome, pendingAuth: bool)
    requires Good(m) && GateKept(m, name, p.point)
    ensures var (after, point) := Resume(m, name, p, o, pendingAuth); GoodStep(m, after, name, point)
  {
    match p.point
    case Ready => BeginIsGood(m, name, p.definition, pendingAuth);
    case Connecting => AfterConnectIsGood(m, name, p.definition, o);
    case Refreshing(held) => AfterRefreshIsGood(m, name, p.definition, held, p.again, o, pendingAuth);
    case Reconnecting => AfterConnectIsGood(m, name, p.definition, o);
    case Publishing(held) => AfterPublishIsGood(m, name, p.definition, held, o);
    case _ =>
  }

  lemma AdvanceKeeps(s: System, name: Name, o: Outcome, pendingAuth: bool)
    requires Inv(s) && name in s.passes
    ensures Inv(Step(s, Advance(name, o, pendingAuth)))
  {
    ResumeIsGood(s.manager, name, s.passes[name], o, pendingAuth);
    var after := Step(s, Advance(name, o, pendingAuth));
    forall other <- after.passes ensures GateKept(after.manager, other, after.passes[other].point) {
      if other != name {
        assert GateKept(s.manager, other, s.passes[other].point);
      }
    }
  }

  lemma UnregisterKeeps(s: System, name: Name)
    requires Inv(s)
    ensures Inv(Step(s, Dispose(name))) && Inv(Step(s, DisposeAndClose(name)))
  {
    var m, after := s.manager, Unregister(s.manager, name);
    forall other <- s.passes ensures GateKept(after, other, s.passes[other].point) {
      assert GateKept(m, other, s.passes[other].point);
    }
  }

  lemma WorldKeeps(s: System, e: Event)
    requires Inv(s) && (e.Register? || e.SetCurrent? || e.SetStatus? || e.Tick? || e.SetHalt?)
    ensures Inv(Step(s, e))
  {
    var m, after := s.manager, Step(s, e).manager;
    forall name <- s.passes ensures GateKept(after, name, s.passes[name].point) {
      assert GateKept(m, name, s.passes[name].point);
    }
  }

  lemma StepKeeps(s: System, e: Event)
    requires Inv(s)
    ensures Inv(Step(s, e))
  {
    match e
    case Dispose(name) => UnregisterKeeps(s, name);
    case DisposeAndClose(name) => UnregisterKeeps(s, name);
    case Advance(name, o, pendingAuth) =>
      if name in s.passes {
        AdvanceKeeps(s, name, o, pendingAuth);
      }
    case Converge =>
    case FinishShutdown =>
    case _ => WorldKeeps(s, e);
  }

  lemma {:induction false} RunKeeps(s: System, events: seq<Event>)
    requires Inv(s)
    ensures Inv(Run(s, events))
    decreases |events|
  {
    if events != [] {
      StepKeeps(s, events[0]);
      RunKeeps(Step(s, events[0]), events[1..]);
    }
  }

  // Over every run, only keep-alive servers are tracked.
  lemma EveryRunTracksOnlyKeepAlive(now: int, events: seq<Event>)
    ensures TracksOnlyKeepAlive(Run(Initial(now), events).manager)
  {
    RunKeeps(Initial(now), events);
  }

  // Over every run, the failures of an unbroken retry streak are spaced by
  // their delays: the (n+1)-th comes at least Delay(n) after the n-th.
  lemma EveryRunSpacesRetries(now: int, events: seq<Event>, name: Name)
    requires name in Run(Initial(now), events).manager.retries
    ensures
      var retry := Run(Initial(now), events).manager.retries[name];
      retry.attempts == |retry.failures| && Spaced(retry.failures)
  {
    RunKeeps(Initial(now), events);
    var m := Run(Initial(now), events).manager;
    assert RetryOk(m.retries[name], m.now);
  }

  // A streak of n + 1 failures, n >= 4, lasts at least 450 s plus 300 s for
  // every failure after the fifth.
  lemma {:induction false} StreakLasts(streak: seq<int>, n: nat)
    requires Spaced(streak) && 4 <= n < |streak|
    ensures streak[n] - streak[0] >= 450_000 + 300_000 * (n - 4)
  {
    DelayBounds(n);
    if n == 4 {
      assert streak[1] - streak[0] >= Delay(1);
      assert streak[2] - streak[1] >= Delay(2);
      assert streak[3] - streak[2] >= Delay(3);
      assert streak[4] - streak[3] >= Delay(4);
    } else {
      StreakLasts(streak, n - 1);
      assert streak[n] - streak[n - 1] >= Delay(n);
    }
  }

  // --- The manager's fields and methods ------------------------------------

  class McpLifecycleManager {
    var keepAliveServers: map<Name, Definition>
    var retryStates: map<Name, Retry>
    var pendingMetadataPublications: set<Name>
    var stopped: bool
    // The clock, the caller's abort signal, the connection manager, and a log of
    // what was started.
    var clock: int
    var aborted: bool
    var current: map<Name, nat>
    var status: map<nat, Status>
    var effects: seq<Effect>

    ghost function Now(): Manager
      reads this
    {
      Manager(clock, keepAliveServers, retryStates, pendingMetadataPublications, stopped, aborted,
              current, status, effects)
    }

    constructor (clock: int)
      ensures Now() == Initial(clock).manager
    {
      this.clock, keepAliveServers, retryStates, pendingMetadataPublications := clock, map[], map[], {};
      stopped, aborted, current, status, effects := false, false, map[], map[], [];
    }

    method Mark(name: Name, d: Definition)
      modifies this`keepAliveServers
      ensures Now() == MarkKeepAlive(old(Now()), name, d)
    {
      if !d.disabled {
        keepAliveServers := keepAliveServers[name := d];
      }
    }

    method UnregisterServer(name: Name)
      modifies this`keepAliveServers, this`retryStates, this`pendingMetadataPublications
      ensures Now() == Unregister(old(Now()), name)
    {
      keepAliveServers := keepAliveServers - {name};
      retryStates := retryStates - {name};
      pendingMetadataPublications := pendingMetadataPublications - {name};
    }

    method Log(action: Action, name: Name, d: Definition, c: Option<nat>)
      modifies this`effects
      ensures Now() == Emit(old(Now()), action, name, d, c)
    {
      effects := effects + [Effect(action, name, d, c)];
    }

    method GetConnection(name: Name) returns (c: Option<nat>, s: Option<Status>)
      ensures c == Current(Now(), name) && s == StatusOf(Now(), c)
    {
      c, s := None, None;
      if name in current {
        c := Some(current[name]);
        s := Some(if current[name] in status then status[current[name]] else Closed);
      }
    }

    method ShouldAttemptConnection(name: Name) returns (attempt: bool)
      modifies this`retryStates
      ensures Now() == DropStaleRetry(old(Now()), name) && attempt == MayAttempt(Now(), name)
    {
      if name !in retryStates {
        return true;
      }
      var retry := retryStates[name];
      var c, s := GetConnection(name);
      if retry.connection != c || retry.status != s {
        retryStates := retryStates - {name};
        return true;
      }
      attempt := clock >= retry.nextAttemptAt;
    }

    method Record(name: Name, d: Definition, c: Option<nat>) returns (recorded: bool)
      modifies this`retryStates
      ensures Now() == RecordRetry(old(Now()), name, d, c) && recorded == Registered(old(Now()), name, d)
    {
      if name !in keepAliveServers || keepAliveServers[name] != d {
        return false;
      }
      var s := None;
      if c.Some? {
        s := Some(if c.value in status then status[c.value] else Closed);
      }
      var attempts, failures := 1, [];
      if name in retryStates {
        var previous := retryStates[name];
        attempts, failures := previous.attempts + 1, previous.failures;
      }
      var next := Retry(attempts, clock + Delay(attempts), c, s, failures + [clock]);
      assert next == NextRetry(Previous(Now(), name), clock, c, StatusOf(Now(), c));
      retryStates := retryStates[name := next];
      recorded := true;
    }

    method ReportConnectionFailure(name: Name, d: Definition, c: Option<nat>)
      modifies this`retryStates, this`effects
      ensures Now() == ReportFailure(old(Now()), name, d, c)
    {
      var recorded := Record(name, d, c);
      if recorded {
        Log(Failed, name, d, c);
      }
    }

    method CloseIfCurrent(name: Name, d: Definition, c: nat) returns (point: Point)
      modifies this`current, this`effects
      ensures (Now(), point) == CloseOwn(old(Now()), name, d, c)
    {
      if name in current && current[name] == c {
        current := current - {name};
        Log(Close, name, d, Some(c));
        return Notified;
      }
      point := Done;
    }

    method PublishConnectedMetadata(name: Name, d: Definition, c: nat) returns (point: Point)
      modifies this
      ensures (Now(), point) == Publish(old(Now()), name, d, c)
    {
      if name !in keepAliveServers || keepAliveServers[name] != d {
        point := CloseIfCurrent(name, d, c);
        return;
      }
      pendingMetadataPublications := pendingMetadataPublications + {name};
      Log(Reconnected, name, d, Some(c));
      point := Publishing(c);
    }

    method NotifyAuthRequired(name: Name, d: Definition, c: nat) returns (point: Point)
      modifies this
      ensures (Now(), point) == NotifyAuth(old(Now()), name, d, c)
    {
      if name !in keepAliveServers || keepAliveServers[name] != d {
        point := CloseIfCurrent(name, d, c);
        return;
      }
      pendingMetadataPublications := pendingMetadataPublications - {name};
      retryStates := retryStates - {name};
      Log(AuthRequired, name, d, Some(c));
      point := Notified;
    }

    method CheckKeepAliveConnection(name: Name, d: Definition, pendingAuth: bool) returns (point: Point)
      modifies this
      ensures (Now(), point) == Begin(old(Now()), name, d, pendingAuth)
    {
      if d.disabled || stopped || aborted {
        return Done;
      }
      if name !in keepAliveServers || keepAliveServers[name] != d {
        return Done;
      }
      var c, s := GetConnection(name);
      if s == Some(NeedsAuth) {
        pendingMetadataPublications := pendingMetadataPublications - {name};
        return Done;
      }
      var attempt := ShouldAttemptConnection(name);
      if !attempt {
        return Done;
      }
      if c.None? || s != Some(Connected) {
        if pendingAuth {
          return Done;
        }
        Log(Connect, name, d, None);
        return Connecting;
      }
      if name in pendingMetadataPublications {
        point := PublishConnectedMetadata(name, d, c.value);
        return;
      }
      point := if d.hasUrl then Refreshing(c.value) else Done;
    }

    method HandleSupersededConnection(name: Name, d: Definition, stale: nat, again: bool, pendingAuth: bool)
      returns (point: Point)
      modifies this
      ensures (Now(), point) == HandleSuperseded(old(Now()), name, d, stale, again, pendingAuth)
    {
      var c, s := GetConnection(name);
      if name !in keepAliveServers || keepAliveServers[name] != d {
        return Done;
      }
      if c == Some(stale) && s == Some(Connected) {
        if name in retryStates {
          retryStates := retryStates - {name};
          Log(HealthRestored, name, d, None);
          return Notified;
        }
        return Done;
      }
      if s == Some(Connected) {
        point := PublishConnectedMetadata(name, d, c.value);
        return;
      }
      if s == Some(NeedsAuth) {
        point := NotifyAuthRequired(name, d, c.value);
        return;
      }
      if again {
        point := CheckKeepAliveConnection(name, d, pendingAuth);
        return;
      }
      point := Done;
    }

    // The rest of a pass after its connect or reconnect settles.
    method ResumeAfterConnect(name: Name, d: Definition, o: Outcome) returns (point: Point)
      modifies this
      ensures (Now(), point) == AfterConnect(old(Now()), name, d, o)
    {
      point := Done;
      if stopped || aborted {
        return;
      }
      if !o.Returns? {
        var c, _ := GetConnection(name);
        ReportConnectionFailure(name, d, c);
        return;
      }
      var s := if o.connection in status then status[o.connection] else Closed;
      if s == NeedsAuth {
        point := NotifyAuthRequired(name, d, o.connection);
      } else if s != Connected {
        ReportConnectionFailure(name, d, Some(o.connection));
      } else {
        point := PublishConnectedMetadata(name, d, o.connection);
      }
    }

    // The rest of a pass after its tool refresh settles.
    method ResumeAfterRefresh(name: Name, d: Definition, held: nat, again: bool, o: Outcome, pendingAuth: bool)
      returns (point: Point)
      modifies this
      ensures (Now(), point) == AfterRefresh(old(Now()), name, d, held, again, o, pendingAuth)
    {
      point := Done;
      if o.Rejects? {
        if stopped || aborted {
          return;
        }
        if name !in current || current[name] != held || held !in status || status[held] != Connected {
          point := HandleSupersededConnection(name, d, held, again, pendingAuth);
        } else if !o.reconnectable {
          ReportConnectionFailure(name, d, Some(held));
        } else if !pendingAuth {
          Log(Reconnect, name, d, Some(held));
          point := Reconnecting;
        }
      } else if o.Superseded? {
        point := HandleSupersededConnection(name, d, held, again, pendingAuth);
      } else if o.TimedOut? {
        var _ := Record(name, d, Some(held));
      } else if name in keepAliveServers && keepAliveServers[name] == d && name in retryStates {
        retryStates := retryStates - {name};
        Log(HealthRestored, name, d, None);
        point := Notified;
      }
    }

    // The rest of a pass after the reconnect callback settles.
    method ResumeAfterPublish(name: Name, d: Definition, held: nat, o: Outcome) returns (point: Point)
      modifies this
      ensures (Now(), point) == AfterPublish(old(Now()), name, d, held, o)
    {
      point := Done;
      if !o.Rejects? {
        pendingMetadataPublications := pendingMetadataPublications - {name};
        retryStates := retryStates - {name};
      } else if !stopped {
        ReportConnectionFailure(name, d, Some(held));
      }
    }
  }
}
