// The extension's session lifecycle: session start and shutdown, gateway retry,
// initialization settling, and handlers that wait for an initialization and
// then install its state. Each event is one stretch of code between awaits.
module SessionLifecycle {

  datatype Option<T> = None | Some(value: T)

  // An initialization promise: running, settled (resolved or rejected) with its
  // own continuation still to run, installed by a continuation that then threw
  // and is still to be caught, or handled. The state it resolves to carries the
  // same number.
  datatype Phase = Running | Settled(ok: bool) | Thrown | Handled(ok: bool)

  // How the continuation goes on after installing the state: to its end, or
  // throwing before or after it clears initPromise.
  datatype Ending = Completes | ThrowsBefore | ThrowsAfter

  // handed counts how often the state was passed to shutdownState.
  datatype Init = Init(owner: nat, generation: nat, phase: Phase, handed: nat)

  datatype Adapter = Adapter(
    generation: nat,
    owner: Option<nat>,             // currentOwner
    state: Option<nat>,
    init: Option<nat>,              // initPromise
    failed: bool,                   // a retained initialization failure
    owners: nat,                    // owners created so far
    active: set<nat>,               // owners not stopped
    inits: seq<Init>,
    starting: set<(nat, nat)>,      // session starts awaiting cleanup: generation, owner
    waiting: set<(Option<nat>, nat)>  // handlers awaiting a promise: captured owner, promise
  )

  datatype Event =
    | LoadTime
    | SessionStart
    | SessionStartResume(generation: nat, owner: nat)
    | SessionShutdown
    | GatewayCall
    | Settle(id: nat, ok: bool)
    | Continue(id: nat, ending: Ending)
    | Catch(id: nat)
    | HandlerWait
    | HandlerResume(captured: Option<nat>, id: nat, retain: bool)

  const INITIAL := Adapter(0, None, None, None, false, 0, {}, [], {}, {})

  // --- Steps ---------------------------------------------------------------

  function Stop(active: set<nat>, owner: Option<nat>): set<nat> {
    if owner.Some? then active - {owner.value} else active
  }

  function HandOver(inits: seq<Init>, state: Option<nat>): seq<Init> {
    if state.Some? && state.value < |inits|
    then inits[state.value := inits[state.value].(handed := inits[state.value].handed + 1)]
    else inits
  }

  function Handle(inits: seq<Init>, id: nat, ok: bool): seq<Init>
    requires id < |inits|
  {
    inits[id := inits[id].(phase := Handled(ok))]
  }

  function StartInitialization(a: Adapter, owner: nat, generation: nat): Adapter {
    a.(init := Some(|a.inits|), inits := a.inits + [Init(owner, generation, Running, 0)])
  }

  // A fresh owner and generation, as every new runtime gets.
  function NewRuntime(a: Adapter): Adapter {
    a.(generation := a.generation + 1, owner := Some(a.owners), owners := a.owners + 1,
       active := a.active + {a.owners})
  }

  function DoSessionStart(a: Adapter): Adapter {
    var b := NewRuntime(a);
    b.(state := None, init := None, failed := false,
       active := Stop(a.active, a.owner) + {a.owners},
       inits := HandOver(a.inits, a.state),
       starting := a.starting + {(b.generation, a.owners)})
  }

  function DoSessionStartResume(a: Adapter, generation: nat, owner: nat): Adapter {
    if (generation, owner) !in a.starting then a
    else
      var b := a.(starting := a.starting - {(generation, owner)});
      if generation != a.generation || owner !in a.active then b
      else StartInitialization(b, owner, generation)
  }

  function DoSessionShutdown(a: Adapter): Adapter {
    a.(generation := a.generation + 1, owner := None, state := None, init := None, failed := false,
       active := Stop(a.active, a.owner), inits := HandOver(a.inits, a.state))
  }

  function DoGatewayCall(a: Adapter): Adapter {
    if a.state.Some? || a.init.Some? || !a.failed then a
    else
      var b := NewRuntime(a);
      StartInitialization(b.(state := None), a.owners, b.generation)
  }

  function DoLoadTime(a: Adapter): Adapter {
    if a.generation != 0 || a.state.Some? || a.init.Some? then a
    else
      var b := NewRuntime(a);
      StartInitialization(b, a.owners, b.generation)
  }

  function DoSettle(a: Adapter, id: nat, ok: bool): Adapter {
    if id < |a.inits| && a.inits[id].phase.Running?
    then a.(inits := a.inits[id := a.inits[id].(phase := Settled(ok))])
    else a
  }

  // The continuation of a resolved promise. It installs the state, or hands a
  // state nobody can use any more to shutdownState.
  function DoResolved(a: Adapter, id: nat, ending: Ending): Adapter
    requires id < |a.inits|
  {
    var i := a.inits[id];
    if i.owner !in a.active || i.generation != a.generation || a.init != Some(id)
    then a.(inits := HandOver(Handle(a.inits, id, true), Some(id)), active := a.active - {i.owner})
    else
      var phase := if ending.Completes? then Handled(true) else Thrown;
      a.(inits := a.inits[id := i.(phase := phase)], state := Some(id), failed := false,
         init := if ending.ThrowsBefore? then a.init else None)
  }

  // The catch of a rejected promise, or of a continuation that threw.
  function DoCaught(a: Adapter, id: nat): Adapter
    requires id < |a.inits|
  {
    var i := a.inits[id];
    var b := a.(inits := Handle(a.inits, id, i.phase.Thrown?));
    if i.owner !in a.active || i.generation != a.generation then b
    else if a.init != Some(id) && a.init.Some? then b
    else if a.state.Some? then b.(failed := true, init := None)
    else b.(failed := true, init := None, active := a.active - {i.owner})
  }

  function DoContinue(a: Adapter, id: nat, ending: Ending): Adapter {
    if id < |a.inits| && a.inits[id].phase == Settled(true) then DoResolved(a, id, ending) else a
  }

  function DoCatch(a: Adapter, id: nat): Adapter {
    if id < |a.inits| && (a.inits[id].phase == Settled(false) || a.inits[id].phase.Thrown?)
    then DoCaught(a, id)
    else a
  }

  function DoHandlerWait(a: Adapter): Adapter {
    if a.state.None? && a.init.Some? then a.(waiting := a.waiting + {(a.owner, a.init.value)}) else a
  }

  predicate Installed(phase: Phase) {
    phase == Handled(true) || phase.Thrown?
  }

  predicate Rejected(phase: Phase) {
    phase == Settled(false) || phase == Handled(false)
  }

  // A handler resumes after the continuation of a resolved promise, which was
  // attached first, but before or after the catch of a rejected one. It stays in
  // waiting: several handlers may wait alike.
  function DoHandlerResume(a: Adapter, captured: Option<nat>, id: nat, retain: bool): Adapter {
    if (captured, id) !in a.waiting || id >= |a.inits| then a
    else if Rejected(a.inits[id].phase) then a.(failed := a.failed || retain)
    else if !Installed(a.inits[id].phase) || (captured.Some? && captured.value !in a.active) then a
    else a.(state := Some(id))
  }

  function Step(a: Adapter, e: Event): Adapter {
    match e
    case LoadTime => DoLoadTime(a)
    case SessionStart => DoSessionStart(a)
    case SessionStartResume(generation, owner) => DoSessionStartResume(a, generation, owner)
    case SessionShutdown => DoSessionShutdown(a)
    case GatewayCall => DoGatewayCall(a)
    case Settle(id, ok) => DoSettle(a, id, ok)
    case Continue(id, ending) => DoContinue(a, id, ending)
    case Catch(id) => DoCatch(a, id)
    case HandlerWait => DoHandlerWait(a)
    case HandlerResume(captured, id, retain) => DoHandlerResume(a, captured, id, retain)
  }

  function Run(a: Adapter, events: seq<Event>): Adapter
    decreases |events|
  {
    if events == [] then a else Run(Step(a, events[0]), events[1..])
  }

  // A run is its steps one after the other.
  lemma {:induction false} RunAppends(a: Adapter, before: seq<Event>, later: seq<Event>)
    ensures Run(a, before + later) == Run(Run(a, before), later)
    ensures forall e :: Run(a, [e]) == Step(a, e)
    decreases |before|
  {
    if before == [] {
      assert before + later == later;
    } else {
      assert (before + later)[1..] == before[1..] + later;
      RunAppends(Step(a, before[0]), before[1..], later);
    }
    forall e ensures Run(a, [e]) == Step(a, e) {
      assert [e][1..] == [] && Run(Step(a, e), []) == Step(a, e);
    }
  }

  // --- Invariant -----------------------------------------------------------

  ghost predicate OwnersKnown(a: Adapter) {
    && (a.owner.Some? ==> a.owner.value < a.owners)
    && (forall o <- a.active :: o < a.owners)
    && (forall i :: 0 <= i < |a.inits| ==> a.inits[i].owner < a.owners && a.inits[i].generation <= a.generation)
  }

  // No two initializations share an owner.
  ghost predicate OwnersDistinct(a: Adapter) {
    forall i, j :: 0 <= i < j < |a.inits| ==> a.inits[i].owner != a.inits[j].owner
  }

  ghost predicate StateIsCurrent(a: Adapter) {
    a.state.Some? ==>
      var p := a.state.value;
      p < |a.inits| && a.owner == Some(a.inits[p].owner) && a.inits[p].owner in a.active
      && Installed(a.inits[p].phase)
  }

  ghost predicate InitIsCurrent(a: Adapter) {
    a.init.Some? ==>
      var p := a.init.value;
      p < |a.inits| && a.owner == Some(a.inits[p].owner) && a.inits[p].owner in a.active
      && a.inits[p].generation == a.generation && !a.inits[p].phase.Handled?
      && (a.inits[p].phase.Thrown? ==> a.state == a.init)
      && (a.state.Some? ==> a.state == a.init)
  }

  predicate OnItsWay(phase: Phase) {
    phase.Running? || phase.Settled?
  }

  // An initialization that is on its way under an active owner is the current one.
  ghost predicate LiveInitIsCurrent(a: Adapter) {
    forall i :: 0 <= i < |a.inits| && OnItsWay(a.inits[i].phase) && a.inits[i].owner in a.active ==>
      a.init == Some(i)
  }

  // Every produced state is installed, or was handed to shutdownState once and
  // its owner is stopped. Nothing else was ever handed over.
  ghost predicate HandedOnce(a: Adapter) {
    forall i :: 0 <= i < |a.inits| ==>
      if Installed(a.inits[i].phase) && a.state != Some(i)
      then a.inits[i].handed == 1 && a.inits[i].owner !in a.active
      else a.inits[i].handed == 0
  }

  ghost predicate StartingIsFresh(a: Adapter) {
    && (forall s <- a.starting ::
          s.0 <= a.generation && s.1 < a.owners && forall i :: 0 <= i < |a.inits| ==> a.inits[i].owner != s.1)
    && (forall s, t :: s in a.starting && t in a.starting && s.1 == t.1 ==> s == t)
    && (forall s <- a.starting :: s.0 == a.generation ==> a.owner == Some(s.1) && a.init.None? && a.state.None?)
  }

  ghost predicate WaitingIsOwned(a: Adapter) {
    forall w <- a.waiting :: w.1 < |a.inits| && w.0 == Some(a.inits[w.1].owner)
  }

  ghost predicate Inv(a: Adapter) {
    && OwnersKnown(a) && OwnersDistinct(a)
    && StateIsCurrent(a) && InitIsCurrent(a) && LiveInitIsCurrent(a)
    && HandedOnce(a) && StartingIsFresh(a) && WaitingIsOwned(a)
  }

  lemma SessionShutdownKeeps(a: Adapter)
    requires Inv(a)
    ensures Inv(DoSessionShutdown(a))
  {
  }

  // A session start is a shutdown followed by a fresh owner.
  lemma OpenSessionKeeps(a: Adapter)
    requires Inv(a) && a.owner.None? && a.state.None? && a.init.None?
    requires forall s <- a.starting :: s.0 < a.generation
    ensures Inv(a.(owner := Some(a.owners), owners := a.owners + 1, active := a.active + {a.owners},
                   starting := a.starting + {(a.generation, a.owners)}))
  {
  }

  lemma SessionStartKeeps(a: Adapter)
    requires Inv(a)
    ensures Inv(DoSessionStart(a))
  {
    SessionShutdownKeeps(a);
    OpenSessionKeeps(DoSessionShutdown(a));
  }

  lemma StartInitializationKeeps(a: Adapter, owner: nat)
    requires Inv(a) && a.state.None? && a.init.None? && a.owner == Some(owner) && owner in a.active
    requires forall i :: 0 <= i < |a.inits| ==> a.inits[i].owner != owner
    requires forall s <- a.starting :: s.1 != owner && s.0 != a.generation
    ensures Inv(StartInitialization(a, owner, a.generation))
  {
  }

  lemma SessionStartResumeKeeps(a: Adapter, generation: nat, owner: nat)
    requires Inv(a)
    ensures Inv(DoSessionStartResume(a, generation, owner))
  {
    if (generation, owner) in a.starting {
      var b := a.(starting := a.starting - {(generation, owner)});
      assert Inv(b);
      if generation == a.generation && owner in a.active {
        assert forall s <- b.starting :: s.0 == a.generation ==> s == (generation, owner);
        StartInitializationKeeps(b, owner);
      }
    }
  }

  lemma NewRuntimeKeeps(a: Adapter)
    requires Inv(a) && a.state.None? && a.init.None?
    ensures Inv(NewRuntime(a))
  {
  }

  lemma HandlerResumeChangesNothing(a: Adapter, captured: Option<nat>, id: nat, retain: bool)
    requires Inv(a)
    ensures DoHandlerResume(a, captured, id, retain).(failed := a.failed) == a
  {
  }

  lemma StaleResolvedKeeps(a: Adapter, id: nat, ending: Ending)
    requires Inv(a) && id < |a.inits| && a.inits[id].phase == Settled(true)
    requires a.init != Some(id)
    ensures Inv(DoResolved(a, id, ending)) && a.inits[id].owner !in a.active
  {
    assert OnItsWay(a.inits[id].phase);
  }

  lemma CurrentResolvedKeeps(a: Adapter, id: nat, ending: Ending)
    requires Inv(a) && id < |a.inits| && a.inits[id].phase == Settled(true)
    requires a.init == Some(id)
    ensures Inv(DoResolved(a, id, ending))
  {
  }

  lemma ContinueKeeps(a: Adapter, id: nat, ending: Ending)
    requires Inv(a)
    ensures Inv(DoContinue(a, id, ending))
  {
    if id < |a.inits| && a.inits[id].phase == Settled(true) {
      if a.init == Some(id) {
        CurrentResolvedKeeps(a, id, ending);
      } else {
        StaleResolvedKeeps(a, id, ending);
      }
    }
  }

  lemma StaleCaughtKeeps(a: Adapter, id: nat)
    requires Inv(a) && id < |a.inits| && a.inits[id].owner !in a.active
    requires a.inits[id].phase == Settled(false) || a.inits[id].phase.Thrown?
    ensures Inv(DoCaught(a, id))
  {
  }

  lemma RejectedCaughtKeeps(a: Adapter, id: nat)
    requires Inv(a) && id < |a.inits| && a.inits[id].phase == Settled(false)
    requires a.init == Some(id)
    ensures Inv(DoCaught(a, id))
  {
    assert a.state.None?;
    var b := a.(inits := Handle(a.inits, id, false), failed := true, init := None,
                active := a.active - {a.inits[id].owner});
    assert LiveInitIsCurrent(b) && HandedOnce(b);
  }

  lemma ThrownCaughtKeeps(a: Adapter, id: nat)
    requires Inv(a) && id < |a.inits| && a.inits[id].phase.Thrown? && a.inits[id].owner in a.active
    ensures Inv(DoCaught(a, id)) && DoCaught(a, id).state == a.state
  {
    assert a.state == Some(id);
    assert a.init.None? || a.init == Some(id);
  }

  lemma CatchKeeps(a: Adapter, id: nat)
    requires Inv(a)
    ensures Inv(DoCatch(a, id))
  {
    if id < |a.inits| && (a.inits[id].phase == Settled(false) || a.inits[id].phase.Thrown?) {
      if a.inits[id].owner !in a.active {
        StaleCaughtKeeps(a, id);
      } else if a.inits[id].phase.Thrown? {
        ThrownCaughtKeeps(a, id);
      } else {
        assert OnItsWay(a.inits[id].phase);
        RejectedCaughtKeeps(a, id);
      }
    }
  }

  lemma SettleKeeps(a: Adapter, id: nat, ok: bool)
    requires Inv(a)
    ensures Inv(DoSettle(a, id, ok))
  {
  }

  lemma HandlerWaitKeeps(a: Adapter)
    requires Inv(a)
    ensures Inv(DoHandlerWait(a))
  {
  }

  lemma HandlerResumeKeeps(a: Adapter, captured: Option<nat>, id: nat, retain: bool)
    requires Inv(a)
    ensures Inv(DoHandlerResume(a, captured, id, retain))
  {
    HandlerResumeChangesNothing(a, captured, id, retain);
    var b := DoHandlerResume(a, captured, id, retain);
    assert b == a.(failed := b.failed);
  }

  lemma FreshInitializationKeeps(a: Adapter)
    requires Inv(a) && a.state.None? && a.init.None?
    ensures Inv(StartInitialization(NewRuntime(a), a.owners, a.generation + 1))
  {
    NewRuntimeKeeps(a);
    StartInitializationKeeps(NewRuntime(a), a.owners);
  }

  lemma StepKeeps(a: Adapter, e: Event)
    requires Inv(a)
    ensures Inv(Step(a, e))
  {
    match e
    case LoadTime =>
      if a.state.None? && a.init.None? {
        FreshInitializationKeeps(a);
      }
    case SessionStart => SessionStartKeeps(a);
    case SessionStartResume(generation, owner) => SessionStartResumeKeeps(a, generation, owner);
    case SessionShutdown => SessionShutdownKeeps(a);
    case GatewayCall =>
      if a.state.None? && a.init.None? {
        assert a.(state := None) == a;
        FreshInitializationKeeps(a);
      }
    case Settle(id, ok) => SettleKeeps(a, id, ok);
    case Continue(id, ending) => ContinueKeeps(a, id, ending);
    case Catch(id) => CatchKeeps(a, id);
    case HandlerWait => HandlerWaitKeeps(a);
    case HandlerResume(captured, id, retain) => HandlerResumeKeeps(a, captured, id, retain);
  }

  // --- What every run guarantees -------------------------------------------

  ghost predicate BelongsToCurrentOwner(a: Adapter, id: Option<nat>) {
    id.Some? ==> id.value < |a.inits| && a.owner == Some(a.inits[id.value].owner)
  }

  // Initialization i's state exists and its owner has not been stopped, or may
  // still come to exist under an owner that has not been stopped.
  ghost predicate Live(a: Adapter, i: nat)
    requires i < |a.inits|
  {
    a.inits[i].owner in a.active && !Rejected(a.inits[i].phase)
  }

  ghost predicate Safe(a: Adapter) {
    // the installed state and the pending initialization are the current owner's,
    // and both are there only for the same one, whose continuation has thrown
    && BelongsToCurrentOwner(a, a.state) && BelongsToCurrentOwner(a, a.init)
    && (a.state.Some? && a.init.Some? ==> a.state == a.init && a.inits[a.init.value].phase.Thrown?)
    // every produced state is installed, or was handed to shutdownState exactly once
    && (forall i :: 0 <= i < |a.inits| && Installed(a.inits[i].phase) ==>
          a.inits[i].handed == (if a.state == Some(i) then 0 else 1))
    && (forall i :: 0 <= i < |a.inits| && !Installed(a.inits[i].phase) ==> a.inits[i].handed == 0)
    // and there is at most one live runtime
    && (forall i, j :: 0 <= i < |a.inits| && 0 <= j < |a.inits| && Live(a, i) && Live(a, j) ==> i == j)
  }

  lemma InvIsSafe(a: Adapter)
    requires Inv(a)
    ensures Safe(a)
  {
  }

  lemma {:induction false} RunKeeps(a: Adapter, events: seq<Event>)
    requires Inv(a)
    ensures Inv(Run(a, events))
    decreases |events|
  {
    if events != [] {
      StepKeeps(a, events[0]);
      RunKeeps(Step(a, events[0]), events[1..]);
    }
  }

  // Over every interleaving of the ten kinds of step.
  lemma EveryRunIsSafe(events: seq<Event>)
    ensures Safe(Run(INITIAL, events))
  {
    RunKeeps(INITIAL, events);
    InvIsSafe(Run(INITIAL, events));
  }

  // A handler that waited for an initialization never installs a state that is
  // not installed already, however late it resumes.
  lemma HandlersNeverReviveAState(events: seq<Event>, captured: Option<nat>, id: nat, retain: bool)
    ensures
      var a := Run(INITIAL, events);
      DoHandlerResume(a, captured, id, retain).state == a.state
  {
    RunKeeps(INITIAL, events);
    HandlerResumeChangesNothing(Run(INITIAL, events), captured, id, retain);
  }

  // Both are there at once when a continuation throws before it clears initPromise.
  lemma ThrowingContinuationLeavesBoth(a: Adapter, id: nat)
    requires Inv(a) && a.init == Some(id) && a.inits[id].phase == Settled(true)
    ensures
      var thrown, caught := DoContinue(a, id, ThrowsBefore), DoCatch(DoContinue(a, id, ThrowsBefore), id);
      && thrown.state == Some(id) && thrown.init == Some(id)
      && caught.state == Some(id) && caught.init.None? && caught.failed && caught.inits[id].phase == Handled(true)
  {
  }

  // Nothing is installed or pending, and nothing suspended can start again.
  ghost predicate Down(a: Adapter) {
    && Inv(a) && a.state.None? && a.init.None? && a.generation > 0
    && forall s <- a.starting :: s.0 < a.generation
  }

  // The steps that open a session or retry one.
  predicate Opens(e: Event) {
    e.SessionStart? || e.GatewayCall?
  }

  lemma DownStaysResolving(a: Adapter, id: nat, ending: Ending)
    requires Down(a)
    ensures Down(DoContinue(a, id, ending)) && |DoContinue(a, id, ending).inits| == |a.inits|
  {
    ContinueKeeps(a, id, ending);
    if id < |a.inits| && a.inits[id].phase == Settled(true) {
      StaleResolvedKeeps(a, id, ending);
    }
  }

  lemma DownStaysCatching(a: Adapter, id: nat)
    requires Down(a)
    ensures Down(DoCatch(a, id)) && |DoCatch(a, id).inits| == |a.inits|
  {
    CatchKeeps(a, id);
  }

  lemma DownStaysShut(a: Adapter)
    requires Down(a)
    ensures Down(DoSessionShutdown(a)) && |DoSessionShutdown(a).inits| == |a.inits|
  {
    SessionShutdownKeeps(a);
  }

  lemma DownStays(a: Adapter, e: Event)
    requires Down(a) && !Opens(e)
    ensures Down(Step(a, e)) && |Step(a, e).inits| == |a.inits|
  {
    match e
    case Continue(id, ending) => DownStaysResolving(a, id, ending);
    case Catch(id) => DownStaysCatching(a, id);
    case SessionShutdown => DownStaysShut(a);
    case HandlerResume(captured, id, retain) =>
      HandlerResumeKeeps(a, captured, id, retain);
      HandlerResumeChangesNothing(a, captured, id, retain);
    case _ => StepKeeps(a, e);
  }

  lemma {:induction false} RunStaysDown(a: Adapter, events: seq<Event>)
    requires Down(a) && forall i :: 0 <= i < |events| ==> !Opens(events[i])
    ensures Down(Run(a, events)) && |Run(a, events).inits| == |a.inits|
    decreases |events|
  {
    if events != [] {
      DownStays(a, events[0]);
      assert forall i :: 0 <= i < |events[1..]| ==> events[1..][i] == events[i + 1];
      RunStaysDown(Step(a, events[0]), events[1..]);
    }
  }

  // However a run goes on after a shutdown, short of a session start or a retry:
  // nothing is installed or initialized any more, and every state that was
  // produced before or resolves later has been handed to shutdownState once and
  // its owner is stopped.
  lemma NothingSurvivesShutdown(before: seq<Event>, after: seq<Event>)
    requires forall i :: 0 <= i < |after| ==> !Opens(after[i])
    ensures
      var a := Run(DoSessionShutdown(Run(INITIAL, before)), after);
      && a.state.None? && a.init.None? && |a.inits| == |Run(INITIAL, before).inits|
      && forall i :: 0 <= i < |a.inits| && Installed(a.inits[i].phase) ==>
           a.inits[i].handed == 1 && a.inits[i].owner !in a.active
  {
    RunKeeps(INITIAL, before);
    SessionShutdownKeeps(Run(INITIAL, before));
    RunStaysDown(DoSessionShutdown(Run(INITIAL, before)), after);
  }

  // --- What does happen ----------------------------------------------------

  // The steps that replace the current owner, or may.
  predicate Replaces(e: Event) {
    e.LoadTime? || e.SessionStart? || e.SessionShutdown? || e.GatewayCall?
  }

  // A session start suspended in its cleanup, still the current one.
  ghost predicate Starts(a: Adapter, generation: nat, owner: nat) {
    && Inv(a) && (generation, owner) in a.starting
    && generation == a.generation && a.owner == Some(owner) && owner in a.active
  }

  // The current initialization, in the given phase.
  ghost predicate Initializes(a: Adapter, id: nat, owner: nat, phase: Phase) {
    && Inv(a) && a.init == Some(id) && a.state.None?
    && id < |a.inits| && a.inits[id] == Init(owner, a.generation, phase, 0) && owner in a.active
  }

  // An installed state under its own active owner.
  ghost predicate Ready(a: Adapter, id: nat, owner: nat) {
    && Inv(a) && a.state == Some(id) && a.owner == Some(owner)
    && id < |a.inits| && a.inits[id].owner == owner && owner in a.active
  }

  lemma SessionStartStarts(a: Adapter)
    requires Inv(a)
    ensures Starts(DoSessionStart(a), a.generation + 1, a.owners) && !DoSessionStart(a).failed
  {
    SessionStartKeeps(a);
  }

  // A suspended session start initializes if and only if it is still the current
  // one and its owner active.
  lemma ResumeInitializes(a: Adapter, generation: nat, owner: nat)
    requires Inv(a) && (generation, owner) in a.starting
    ensures
      var after := DoSessionStartResume(a, generation, owner);
      if generation == a.generation && owner in a.active
      then Initializes(after, |a.inits|, owner, Running)
      else after.init == a.init && after.inits == a.inits && after.state == a.state
  {
    SessionStartResumeKeeps(a, generation, owner);
  }

  // A gateway call retries if and only if nothing is installed or pending and a
  // failure is retained.
  lemma GatewayCallRetries(a: Adapter)
    requires Inv(a)
    ensures
      if a.state.None? && a.init.None? && a.failed
      then Initializes(DoGatewayCall(a), |a.inits|, a.owners, Running)
      else DoGatewayCall(a) == a
  {
    StepKeeps(a, GatewayCall);
  }

  // The load-time initialization starts if and only if no session ever did.
  lemma LoadTimeInitializes(a: Adapter)
    requires Inv(a)
    ensures
      if a.generation == 0 && a.state.None? && a.init.None?
      then Initializes(DoLoadTime(a), |a.inits|, a.owners, Running)
      else DoLoadTime(a) == a
  {
    StepKeeps(a, LoadTime);
  }

  lemma SettleSettles(a: Adapter, id: nat, owner: nat, ok: bool)
    requires Initializes(a, id, owner, Running)
    ensures Initializes(DoSettle(a, id, ok), id, owner, Settled(ok))
  {
    SettleKeeps(a, id, ok);
  }

  // The continuation of the current initialization installs its state, however it ends.
  lemma ContinueInstalls(a: Adapter, id: nat, owner: nat, ending: Ending)
    requires Initializes(a, id, owner, Settled(true))
    ensures Ready(DoContinue(a, id, ending), id, owner)
    ensures
      var after := DoContinue(a, id, ending);
      && !after.failed && after.init == (if ending.ThrowsBefore? then Some(id) else None)
      && after.inits[id].phase == if ending.Completes? then Handled(true) else Thrown
  {
    CurrentResolvedKeeps(a, id, ending);
  }

  // The catch of a rejected one leaves its owner stopped and a failure to retry.
  lemma CatchRetains(a: Adapter, id: nat, owner: nat)
    requires Initializes(a, id, owner, Settled(false))
    ensures
      var after := DoCatch(a, id);
      && Inv(after) && after.state.None? && after.init.None? && after.failed && owner !in after.active
      && after.inits[id].phase == Handled(false)
  {
    RejectedCaughtKeeps(a, id);
  }

  // The continuation of one that is not the current initialization, or whose owner
  // has been stopped, hands its state over and installs nothing.
  lemma StaleIsHandedOver(a: Adapter, id: nat, ending: Ending)
    requires Inv(a) && id < |a.inits| && a.inits[id].phase == Settled(true)
    requires a.init != Some(id) || a.inits[id].owner !in a.active
    ensures
      var after := DoContinue(a, id, ending);
      && after.state == a.state && after.init == a.init
      && after.inits[id].phase == Handled(true) && after.inits[id].handed == 1
      && a.inits[id].owner !in after.active
  {
    assert a.inits[id].handed == 0;
  }

  // A handler waits for the pending initialization, under the current owner, if and
  // only if there is one and no state yet.
  lemma HandlerWaitsExactly(a: Adapter)
    ensures
      Step(a, HandlerWait).waiting ==
        a.waiting + if a.state.None? && a.init.Some? then {(a.owner, a.init.value)} else {}
  {
  }

  // A handler that waited for a rejected initialization may retain the failure;
  // no other resumption does.
  lemma HandlerRetainsExactly(a: Adapter, captured: Option<nat>, id: nat, retain: bool)
    requires Inv(a)
    ensures
      var after := DoHandlerResume(a, captured, id, retain);
      after.failed <==>
        || a.failed
        || (retain && (captured, id) in a.waiting
            && (a.inits[id].phase == Settled(false) || a.inits[id].phase == Handled(false)))
  {
  }

  // A shutdown forgets a failure: a gateway call right after it starts nothing.
  lemma ShutdownForgets(a: Adapter)
    requires Inv(a)
    ensures !DoSessionShutdown(a).failed && DoGatewayCall(DoSessionShutdown(a)) == DoSessionShutdown(a)
  {
  }

  // --- Nothing else gets in the way ----------------------------------------

  // A step that concerns neither the owner nor this initialization.
  predicate Bystander(e: Event, id: nat) {
    !Replaces(e) && (e.Settle? || e.Continue? || e.Catch? ==> e.id != id)
  }

  lemma StartsOn(a: Adapter, e: Event, generation: nat, owner: nat)
    requires Starts(a, generation, owner) && !Replaces(e) && e != SessionStartResume(generation, owner)
    ensures Starts(Step(a, e), generation, owner)
  {
    StepKeeps(a, e);
    if e.HandlerResume? {
      HandlerResumeChangesNothing(a, e.captured, e.id, e.retain);
    }
  }

  lemma InitializesOn(a: Adapter, e: Event, id: nat, owner: nat, phase: Phase)
    requires Initializes(a, id, owner, phase) && OnItsWay(phase) && Bystander(e, id)
    ensures Initializes(Step(a, e), id, owner, phase)
  {
    StepKeeps(a, e);
    if e.HandlerResume? {
      HandlerResumeChangesNothing(a, e.captured, e.id, e.retain);
    }
  }

  // Once installed, a state stays until a session starts or shuts down.
  lemma ReadyOn(a: Adapter, e: Event, id: nat, owner: nat)
    requires Ready(a, id, owner) && !e.SessionStart? && !e.SessionShutdown?
    ensures Ready(Step(a, e), id, owner)
  {
    StepKeeps(a, e);
    if e.HandlerResume? {
      HandlerResumeChangesNothing(a, e.captured, e.id, e.retain);
    }
  }

  // A retained failure, with nothing left that could start by itself.
  ghost predicate Retryable(a: Adapter) {
    && Inv(a) && a.state.None? && a.init.None? && a.failed
    && (forall s <- a.starting :: s.0 < a.generation)
    && (forall i :: 0 <= i < |a.inits| && OnItsWay(a.inits[i].phase) ==> a.inits[i].owner !in a.active)
  }

  lemma CatchIsRetryable(a: Adapter, id: nat, owner: nat)
    requires Initializes(a, id, owner, Settled(false))
    ensures Retryable(DoCatch(a, id)) && owner !in DoCatch(a, id).active
  {
    CatchRetains(a, id, owner);
    forall s <- a.starting ensures s.0 < a.generation {
    }
  }

  lemma RetryableOn(a: Adapter, e: Event)
    requires Retryable(a) && !Replaces(e)
    ensures Retryable(Step(a, e))
  {
    StepKeeps(a, e);
    if e.HandlerResume? {
      HandlerResumeChangesNothing(a, e.captured, e.id, e.retain);
    }
  }

  // --- Over runs -----------------------------------------------------------

  ghost predicate NoneReplaces(events: seq<Event>) {
    forall i :: 0 <= i < |events| ==> !Replaces(events[i])
  }

  ghost predicate Bystanders(events: seq<Event>, id: nat) {
    forall i :: 0 <= i < |events| ==> Bystander(events[i], id)
  }

  ghost predicate NoneEndsSession(events: seq<Event>) {
    forall i :: 0 <= i < |events| ==> !events[i].SessionStart? && !events[i].SessionShutdown?
  }

  lemma {:induction false} RunStarts(a: Adapter, events: seq<Event>, generation: nat, owner: nat)
    requires Starts(a, generation, owner) && NoneReplaces(events)
    requires SessionStartResume(generation, owner) !in events
    ensures Starts(Run(a, events), generation, owner)
    decreases |events|
  {
    if events != [] {
      StartsOn(a, events[0], generation, owner);
      RunStarts(Step(a, events[0]), events[1..], generation, owner);
    }
  }

  lemma {:induction false} RunInitializes(a: Adapter, events: seq<Event>, id: nat, owner: nat, phase: Phase)
    requires Initializes(a, id, owner, phase) && OnItsWay(phase) && Bystanders(events, id)
    ensures Initializes(Run(a, events), id, owner, phase)
    decreases |events|
  {
    if events != [] {
      InitializesOn(a, events[0], id, owner, phase);
      RunInitializes(Step(a, events[0]), events[1..], id, owner, phase);
    }
  }

  lemma {:induction false} RunReady(a: Adapter, events: seq<Event>, id: nat, owner: nat)
    requires Ready(a, id, owner) && NoneEndsSession(events)
    ensures Ready(Run(a, events), id, owner)
    decreases |events|
  {
    if events != [] {
      ReadyOn(a, events[0], id, owner);
      RunReady(Step(a, events[0]), events[1..], id, owner);
    }
  }

  lemma {:induction false} RunRetryable(a: Adapter, events: seq<Event>)
    requires Retryable(a) && NoneReplaces(events)
    ensures Retryable(Run(a, events))
    decreases |events|
  {
    if events != [] {
      RetryableOn(a, events[0]);
      RunRetryable(Step(a, events[0]), events[1..]);
    }
  }

  // An initialization, resolved in the end, among whatever else happens meanwhile.
  function Resolved(
    a: Adapter, id: nat, toSettle: seq<Event>, toContinue: seq<Event>, ending: Ending, later: seq<Event>): Adapter
  {
    var settled := Step(Run(a, toSettle), Settle(id, true));
    Run(Step(Run(settled, toContinue), Continue(id, ending)), later)
  }

  lemma InitializationInstalls(
    a: Adapter, id: nat, owner: nat, toSettle: seq<Event>, toContinue: seq<Event>, ending: Ending, later: seq<Event>)
    requires Initializes(a, id, owner, Running)
    requires Bystanders(toSettle, id) && Bystanders(toContinue, id) && NoneEndsSession(later)
    ensures Ready(Resolved(a, id, toSettle, toContinue, ending, later), id, owner)
  {
    RunInitializes(a, toSettle, id, owner, Running);
    SettleSettles(Run(a, toSettle), id, owner, true);
    SettledInstalls(Step(Run(a, toSettle), Settle(id, true)), id, owner, toContinue, ending, later);
  }

  lemma SettledInstalls(
    a: Adapter, id: nat, owner: nat, toContinue: seq<Event>, ending: Ending, later: seq<Event>)
    requires Initializes(a, id, owner, Settled(true)) && Bystanders(toContinue, id) && NoneEndsSession(later)
    ensures Ready(Run(Step(Run(a, toContinue), Continue(id, ending)), later), id, owner)
  {
    RunInitializes(a, toContinue, id, owner, Settled(true));
    ContinueInstalls(Run(a, toContinue), id, owner, ending);
    RunReady(Step(Run(a, toContinue), Continue(id, ending)), later, id, owner);
  }

  // A session start, resumed when its cleanup is done.
  function Suspended(a: Adapter, toResume: seq<Event>): Adapter {
    Run(Step(a, SessionStart), toResume)
  }

  lemma SessionStartInitializes(a: Adapter, toResume: seq<Event>)
    requires Inv(a) && NoneReplaces(toResume) && SessionStartResume(a.generation + 1, a.owners) !in toResume
    ensures
      var suspended := Suspended(a, toResume);
      Initializes(
        Step(suspended, SessionStartResume(a.generation + 1, a.owners)), |suspended.inits|, a.owners, Running)
  {
    SessionStartStarts(a);
    RunStarts(Step(a, SessionStart), toResume, a.generation + 1, a.owners);
    ResumeInitializes(Suspended(a, toResume), a.generation + 1, a.owners);
  }

  // From every reachable state: a session start whose cleanup and initialization
  // end, with no other start, retry or shutdown in between, ends with its state
  // installed under its own active owner, and that stays so until the session ends.
  lemma SessionStartInstalls(
    before: seq<Event>, toResume: seq<Event>, toSettle: seq<Event>, toContinue: seq<Event>, ending: Ending,
    later: seq<Event>)
    requires
      var a := Run(INITIAL, before);
      NoneReplaces(toResume) && SessionStartResume(a.generation + 1, a.owners) !in toResume
    requires
      var id := |Suspended(Run(INITIAL, before), toResume).inits|;
      Bystanders(toSettle, id) && Bystanders(toContinue, id) && NoneEndsSession(later)
    ensures
      var a := Run(INITIAL, before);
      var suspended := Suspended(a, toResume);
      var started := Step(suspended, SessionStartResume(a.generation + 1, a.owners));
      Ready(Resolved(started, |suspended.inits|, toSettle, toContinue, ending, later), |suspended.inits|, a.owners)
  {
    var a := Run(INITIAL, before);
    RunKeeps(INITIAL, before);
    SessionStartInitializes(a, toResume);
    var suspended := Suspended(a, toResume);
    var started := Step(suspended, SessionStartResume(a.generation + 1, a.owners));
    InitializationInstalls(started, |suspended.inits|, a.owners, toSettle, toContinue, ending, later);
  }

  // And so does the retry of a gateway call after a failed initialization.
  lemma RetryInstalls(
    a: Adapter, failed: nat, owner: nat, toCall: seq<Event>, toSettle: seq<Event>, toContinue: seq<Event>,
    ending: Ending, later: seq<Event>)
    requires Initializes(a, failed, owner, Settled(false)) && NoneReplaces(toCall)
    requires
      var id := |Run(Step(a, Catch(failed)), toCall).inits|;
      Bystanders(toSettle, id) && Bystanders(toContinue, id) && NoneEndsSession(later)
    ensures
      var retained := Run(Step(a, Catch(failed)), toCall);
      var id := |retained.inits|;
      Ready(Resolved(Step(retained, GatewayCall), id, toSettle, toContinue, ending, later), id, retained.owners)
  {
    var retained := Run(Step(a, Catch(failed)), toCall);
    CatchIsRetryable(a, failed, owner);
    RunRetryable(Step(a, Catch(failed)), toCall);
    GatewayCallRetries(retained);
    InitializationInstalls(
      Step(retained, GatewayCall), |retained.inits|, retained.owners, toSettle, toContinue, ending, later);
  }

  // And so does the load-time start of an extension that is fresh.
  lemma LoadTimeInstalls(toSettle: seq<Event>, toContinue: seq<Event>, ending: Ending, later: seq<Event>)
    requires Bystanders(toSettle, 0) && Bystanders(toContinue, 0) && NoneEndsSession(later)
    ensures Ready(Resolved(Step(INITIAL, LoadTime), 0, toSettle, toContinue, ending, later), 0, 0)
  {
    LoadTimeInitializes(INITIAL);
    InitializationInstalls(Step(INITIAL, LoadTime), 0, 0, toSettle, toContinue, ending, later);
  }

  // --- The closure variables and the handlers that assign them --------------

  class Extension {
    var lifecycleGeneration: nat
    var currentOwner: Option<nat>
    var state: Option<nat>
    var initPromise: Option<nat>
    var retainedInitFailure: bool
    // The world around the handlers.
    var owners: nat
    var active: set<nat>
    var inits: seq<Init>
    var starting: set<(nat, nat)>
    var waiting: set<(Option<nat>, nat)>

    ghost function Now(): Adapter
      reads this
    {
      Adapter(lifecycleGeneration, currentOwner, state, initPromise, retainedInitFailure,
              owners, active, inits, starting, waiting)
    }

    constructor ()
      ensures Now() == INITIAL && Inv(Now())
    {
      lifecycleGeneration, currentOwner, state, initPromise := 0, None, None, None;
      retainedInitFailure, owners, active, inits, starting, waiting := false, 0, {}, [], {}, {};
    }

    method CreateOwner() returns (owner: nat)
      modifies this`owners, this`active
      ensures owner == old(owners) && owners == old(owners) + 1 && active == old(active) + {owner}
    {
      owner := owners;
      owners, active := owners + 1, active + {owner};
    }

    method StartInit(owner: nat, generation: nat)
      modifies this`inits, this`initPromise
      ensures Now() == StartInitialization(old(Now()), owner, generation)
    {
      initPromise := Some(|inits|);
      inits := inits + [Init(owner, generation, Running, 0)];
    }

    method ShutdownState(s: Option<nat>)
      modifies this`inits, this`active
      ensures inits == HandOver(old(inits), s)
      ensures active ==
        if s.Some? && s.value < |old(inits)| then old(active) - {old(inits)[s.value].owner} else old(active)
    {
      if s.Some? && s.value < |inits| {
        var i := inits[s.value];
        inits := inits[s.value := i.(handed := i.handed + 1)];
        active := active - {i.owner};
      }
    }

    // The state installed is the current owner's, so stopping the one stops the other.
    method OnSessionStart()
      requires OwnersKnown(Now()) && StateIsCurrent(Now())
      modifies this
      ensures Now() == DoSessionStart(old(Now()))
    {
      lifecycleGeneration := lifecycleGeneration + 1;
      var previousState, previousOwner := state, currentOwner;
      var owner := CreateOwner();
      currentOwner, state, initPromise, retainedInitFailure := Some(owner), None, None, false;
      if previousOwner.Some? {
        active := active - {previousOwner.value};
      }
      ShutdownState(previousState);
      starting := starting + {(lifecycleGeneration, owner)};
    }

    method OnSessionStartResume(generation: nat, owner: nat)
      requires (generation, owner) in starting
      modifies this
      ensures Now() == DoSessionStartResume(old(Now()), generation, owner)
    {
      starting := starting - {(generation, owner)};
      if generation != lifecycleGeneration || owner !in active {
        return;
      }
      StartInit(owner, generation);
    }

    method OnSessionShutdown()
      requires StateIsCurrent(Now())
      modifies this
      ensures Now() == DoSessionShutdown(old(Now()))
    {
      lifecycleGeneration := lifecycleGeneration + 1;
      var previousState, owner := state, currentOwner;
      currentOwner, state, initPromise, retainedInitFailure := None, None, None, false;
      if owner.Some? {
        active := active - {owner.value};
      }
      ShutdownState(previousState);
    }

    method OnGatewayCall()
      modifies this
      ensures Now() == DoGatewayCall(old(Now()))
    {
      if state.None? && initPromise.None? && retainedInitFailure {
        lifecycleGeneration := lifecycleGeneration + 1;
        var owner := CreateOwner();
        currentOwner, state := Some(owner), None;
        StartInit(owner, lifecycleGeneration);
      }
    }

    method OnLoadTime()
      modifies this
      ensures Now() == DoLoadTime(old(Now()))
    {
      if lifecycleGeneration == 0 && state.None? && initPromise.None? {
        lifecycleGeneration := lifecycleGeneration + 1;
        var owner := CreateOwner();
        currentOwner := Some(owner);
        StartInit(owner, lifecycleGeneration);
      }
    }

    method OnInitialized(id: nat, ending: Ending)
      requires id < |inits| && inits[id].phase == Settled(true)
      modifies this
      ensures Now() == DoResolved(old(Now()), id, ending)
    {
      var i := inits[id];
      if i.owner !in active || i.generation != lifecycleGeneration || initPromise != Some(id) {
        inits := inits[id := i.(phase := Handled(true))];
        ShutdownState(Some(id));
        return;
      }
      state, retainedInitFailure := Some(id), false;
      if ending.ThrowsBefore? {
        inits := inits[id := i.(phase := Thrown)];
        return;
      }
      initPromise := None;
      inits := inits[id := i.(phase := if ending.ThrowsAfter? then Thrown else Handled(true))];
    }

    // The catch of a rejection, or of what the continuation threw.
    method OnInitializationFailed(id: nat)
      requires id < |inits| && (inits[id].phase == Settled(false) || inits[id].phase.Thrown?)
      modifies this
      ensures Now() == DoCaught(old(Now()), id)
    {
      var i := inits[id];
      inits := inits[id := i.(phase := Handled(i.phase.Thrown?))];
      if i.owner !in active || i.generation != lifecycleGeneration {
        return;
      }
      if initPromise != Some(id) && initPromise.Some? {
        return;
      }
      retainedInitFailure, initPromise := true, None;
      if state.Some? {
        return;
      }
      active := active - {i.owner};
    }

    method OnHandlerResume(captured: Option<nat>, id: nat, retain: bool)
      requires Inv(Now()) && (captured, id) in waiting
      requires Installed(inits[id].phase) || Rejected(inits[id].phase)
      modifies this
      ensures Now() == DoHandlerResume(old(Now()), captured, id, retain)
      ensures state == old(state)
    {
      HandlerResumeChangesNothing(Now(), captured, id, retain);
      if Rejected(inits[id].phase) {
        retainedInitFailure := retainedInitFailure || retain;
      } else if captured.None? || captured.value in active {
        state := Some(id);
      }
    }
  }
}
