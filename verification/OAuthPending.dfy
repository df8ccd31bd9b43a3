// Pending OAuth flows of one runtime: three maps kept in step across awaits on
// the credential store, replaced and timed-out flows, and a shutdown that no
// late flow may slip past.
module OAuthPending {

  type FlowKey = string   // server name and storage directory
  type StateText = string // the random OAuth state of one flow

  datatype Option<T> = None | Some(value: T)

  datatype Flow = Flow(key: FlowKey)

  // A cleanup timer and the flow it was started for.
  datatype Timer = Timer(key: FlowKey, oauthState: StateText)

  // Calls suspended in an await.
  datatype Call =
    | Starting(key: FlowKey, oauthState: StateText, generation: nat) // startAuth, before setPendingAuth
    | Setting(key: FlowKey, oauthState: StateText, generation: nat)  // setPendingAuth, awaiting the clear
    // clearPendingAuth, past its read of the stored state and before acting on it
    | Releasing(key: FlowKey, oauthState: StateText, stored: Option<StateText>)

  datatype Shutdown = NotStarted | Clearing(keys: set<FlowKey>) | Finished | Failed

  datatype Runtime = Runtime(
    generation: nat,
    aborted: bool,
    auths: map<FlowKey, Flow>,
    states: map<FlowKey, StateText>,
    timers: map<FlowKey, nat>,
    live: map<nat, Timer>,          // timers that may still fire
    nextTimer: nat,
    calls: multiset<Call>,
    store: map<FlowKey, StateText>, // the state text persisted for each key
    shutdown: Shutdown
  )

  const INITIAL := Runtime(0, false, map[], map[], map[], map[], 0, multiset{}, map[], NotStarted)

  // --- Steps ---------------------------------------------------------------

  // Whether a cleanup carrying a state text concerns the flow under the key.
  predicate Concerns(r: Runtime, key: FlowKey, carried: Option<StateText>) {
    carried.Some? && key in r.states ==> r.states[key] == carried.value
  }

  function Stored(r: Runtime, key: FlowKey): Option<StateText> {
    if key in r.store then Some(r.store[key]) else None
  }

  // clearPendingAuth up to its first await. The stored state is read before the
  // call suspends.
  function Clear(r: Runtime, key: FlowKey, carried: Option<StateText>): Runtime {
    if !Concerns(r, key, carried) then r
    else
      var live := if key in r.timers then r.live - {r.timers[key]} else r.live;
      var calls := if key in r.states then r.calls + multiset{Releasing(key, r.states[key], Stored(r, key))}
                   else if carried.Some? then r.calls + multiset{Releasing(key, carried.value, Stored(r, key))}
                   else r.calls;
      r.(auths := r.auths - {key}, states := r.states - {key}, timers := r.timers - {key},
         live := live, calls := calls)
  }

  datatype Event =
    | StartAuth(key: FlowKey, oauthState: StateText)
    | BeginSet(call: Call)
    | FinishSet(call: Call, callerAborted: bool)
    | Cleanup(key: FlowKey, carried: Option<StateText>)
    | FireTimer(timer: nat)
    | ReleaseStored(call: Call)
    | StoreState(key: FlowKey, oauthState: StateText)
    | ClearStored(key: FlowKey)    // startAuth and removeAuth clear the stored state themselves
    | BeginShutdown
    | NextClear(key: FlowKey)
    | FailClear

  function DoFinishSet(r: Runtime, call: Call, callerAborted: bool): Runtime
    requires call.Setting?
  {
    if callerAborted || r.aborted || call.generation != r.generation then r
    else r.(auths := r.auths[call.key := Flow(call.key)],
            states := r.states[call.key := call.oauthState],
            timers := r.timers[call.key := r.nextTimer],
            live := r.live[r.nextTimer := Timer(call.key, call.oauthState)],
            nextTimer := r.nextTimer + 1)
  }

  // Deletes whatever is stored by now, if what was read was the state to release.
  function DoRelease(r: Runtime, call: Call): Runtime
    requires call.Releasing?
  {
    if call.stored == Some(call.oauthState) then r.(store := r.store - {call.key}) else r
  }

  // Bump the generation and abort; the flows present now are cleared one by one.
  function DoBeginShutdown(r: Runtime): Runtime {
    if r.aborted then r
    else r.(generation := r.generation + 1, aborted := true,
            shutdown := if r.auths == map[] then Finished else Clearing(set k | k in r.auths :: r.auths[k].key))
  }

  function DoNextClear(r: Runtime, key: FlowKey): Runtime {
    if !r.shutdown.Clearing? || key !in r.shutdown.keys then r
    else
      var left := r.shutdown.keys - {key};
      Clear(r, key, None).(shutdown := if left == {} then Finished else Clearing(left))
  }

  function Step(r: Runtime, e: Event): Runtime {
    match e
    case StartAuth(key, oauthState) =>
      if r.aborted then r else r.(calls := r.calls + multiset{Starting(key, oauthState, r.generation)})
    case BeginSet(call) =>
      if call !in r.calls || !call.Starting? then r
      else
        var b := Clear(r.(calls := r.calls - multiset{call}), call.key, None);
        b.(calls := b.calls + multiset{Setting(call.key, call.oauthState, call.generation)})
    case FinishSet(call, callerAborted) =>
      if call !in r.calls || !call.Setting? then r
      else DoFinishSet(r.(calls := r.calls - multiset{call}), call, callerAborted)
    case Cleanup(key, carried) => Clear(r, key, carried)
    case FireTimer(timer) =>
      if timer !in r.live then r
      else Clear(r.(live := r.live - {timer}), r.live[timer].key, Some(r.live[timer].oauthState))
    case ReleaseStored(call) =>
      if call !in r.calls || !call.Releasing? then r
      else DoRelease(r.(calls := r.calls - multiset{call}), call)
    case StoreState(key, oauthState) => r.(store := r.store[key := oauthState])
    case ClearStored(key) => r.(store := r.store - {key})
    case BeginShutdown => DoBeginShutdown(r)
    case NextClear(key) => DoNextClear(r, key)
    case FailClear => if r.shutdown.Clearing? then r.(shutdown := Failed) else r
  }

  function Run(r: Runtime, events: seq<Event>): Runtime
    decreases |events|
  {
    if events == [] then r else Run(Step(r, events[0]), events[1..])
  }

  // A run is its steps one after the other.
  lemma {:induction false} RunAppends(r: Runtime, before: seq<Event>, later: seq<Event>)
    ensures Run(r, before + later) == Run(Run(r, before), later)
    ensures forall e :: Run(r, [e]) == Step(r, e)
    decreases |before|
  {
    if before == [] {
      assert before + later == later;
    } else {
      assert (before + later)[1..] == before[1..] + later;
      RunAppends(Step(r, before[0]), before[1..], later);
    }
    forall e ensures Run(r, [e]) == Step(r, e) {
      assert [e][1..] == [] && Run(Step(r, e), []) == Step(r, e);
    }
  }

  // --- Invariant -----------------------------------------------------------

  // The three maps have the same keys, and each pending flow's timer is live
  // and carries that flow's own state.
  ghost predicate InStep(r: Runtime) {
    && r.auths.Keys == r.states.Keys == r.timers.Keys
    && (forall k <- r.auths :: r.auths[k].key == k)
    && (forall k <- r.auths :: r.timers[k] in r.live && r.live[r.timers[k]] == Timer(k, r.states[k]))
    && (forall t <- r.live :: t < r.nextTimer)
  }

  // No call in flight captured a generation from after the shutdown.
  ghost predicate CallsAreOld(r: Runtime) {
    && (r.shutdown.NotStarted? <==> !r.aborted)
    && forall c <- r.calls :: !c.Releasing? ==>
         if r.aborted then c.generation < r.generation else c.generation <= r.generation
  }

  // What is left to clear is covered by the shutdown under way.
  ghost predicate ShutdownCovers(r: Runtime) {
    && (r.shutdown.Clearing? ==> r.auths.Keys <= r.shutdown.keys)
    && (r.shutdown.Finished? ==> r.auths == map[])
  }

  ghost predicate Inv(r: Runtime) {
    InStep(r) && CallsAreOld(r) && ShutdownCovers(r)
  }

  lemma ClearKeeps(r: Runtime, key: FlowKey, carried: Option<StateText>)
    requires Inv(r)
    ensures Inv(Clear(r, key, carried))
  {
    var after := Clear(r, key, carried);
    if Concerns(r, key, carried) {
      forall k <- after.auths
        ensures after.timers[k] in after.live && after.live[after.timers[k]] == Timer(k, after.states[k])
      {
        assert r.live[r.timers[k]] == Timer(k, r.states[k]);
      }
    }
  }

  lemma FinishSetKeeps(r: Runtime, call: Call, callerAborted: bool)
    requires Inv(r) && call.Setting?
    ensures Inv(DoFinishSet(r, call, callerAborted))
  {
    var after := DoFinishSet(r, call, callerAborted);
    if after != r {
      forall k <- after.auths
        ensures after.timers[k] in after.live && after.live[after.timers[k]] == Timer(k, after.states[k])
      {
        if k != call.key {
          assert r.live[r.timers[k]] == Timer(k, r.states[k]);
        }
      }
    }
  }

  // A timer that fires either belongs to the pending flow, which it removes, or
  // to a flow that was replaced, and then it changes no map.
  lemma FireTimerKeeps(r: Runtime, timer: nat)
    requires Inv(r) && timer in r.live
    ensures Inv(Step(r, FireTimer(timer)))
  {
    var t := r.live[timer];
    var after := Step(r, FireTimer(timer));
    if forall k <- r.timers :: r.timers[k] != timer {
      var b := r.(live := r.live - {timer});
      forall k <- b.auths ensures b.timers[k] in b.live && b.live[b.timers[k]] == Timer(k, b.states[k]) {
        assert r.live[r.timers[k]] == Timer(k, r.states[k]);
      }
      ClearKeeps(b, t.key, Some(t.oauthState));
    } else {
      assert t.key in r.timers && r.timers[t.key] == timer && r.states[t.key] == t.oauthState;
      ClearKeeps(r, t.key, Some(t.oauthState));
      assert after == Clear(r, t.key, Some(t.oauthState));
    }
  }

  lemma NextClearKeeps(r: Runtime, key: FlowKey)
    requires Inv(r)
    ensures Inv(DoNextClear(r, key))
  {
    if r.shutdown.Clearing? && key in r.shutdown.keys {
      ClearKeeps(r, key, None);
      assert Clear(r, key, None).auths.Keys == r.auths.Keys - {key};
    }
  }

  lemma BeginShutdownKeeps(r: Runtime)
    requires Inv(r)
    ensures Inv(DoBeginShutdown(r))
  {
    assert forall k <- r.auths :: r.auths[k].key == k;
  }

  lemma DropCallKeeps(r: Runtime, call: Call)
    requires Inv(r)
    ensures Inv(r.(calls := r.calls - multiset{call}))
  {
  }

  lemma BeginSetKeeps(r: Runtime, call: Call)
    requires Inv(r) && call in r.calls && call.Starting?
    ensures Inv(Step(r, BeginSet(call)))
  {
    DropCallKeeps(r, call);
    ClearKeeps(r.(calls := r.calls - multiset{call}), call.key, None);
  }

  lemma StartAuthKeeps(r: Runtime, key: FlowKey, oauthState: StateText)
    requires Inv(r)
    ensures Inv(Step(r, StartAuth(key, oauthState)))
  {
  }

  lemma ReleaseKeeps(r: Runtime, call: Call)
    requires Inv(r)
    ensures Inv(Step(r, ReleaseStored(call)))
  {
  }

  lemma StepKeeps(r: Runtime, e: Event)
    requires Inv(r)
    ensures Inv(Step(r, e))
  {
    match e
    case StartAuth(key, oauthState) => StartAuthKeeps(r, key, oauthState);
    case ReleaseStored(call) => ReleaseKeeps(r, call);
    case BeginSet(call) => if call in r.calls && call.Starting? { BeginSetKeeps(r, call); }
    case FinishSet(call, callerAborted) =>
      if call in r.calls && call.Setting? {
        DropCallKeeps(r, call);
        FinishSetKeeps(r.(calls := r.calls - multiset{call}), call, callerAborted);
      }
    case Cleanup(key, carried) => ClearKeeps(r, key, carried);
    case FireTimer(timer) => if timer in r.live { FireTimerKeeps(r, timer); }
    case BeginShutdown => BeginShutdownKeeps(r);
    case NextClear(key) => NextClearKeeps(r, key);
    case _ =>
  }

  lemma {:induction false} RunKeeps(r: Runtime, events: seq<Event>)
    requires Inv(r)
    ensures Inv(Run(r, events))
    decreases |events|
  {
    if events != [] {
      StepKeeps(r, events[0]);
      RunKeeps(Step(r, events[0]), events[1..]);
    }
  }

  // --- What every run guarantees -------------------------------------------

  // At every step boundary the three maps have the same keys, and each pending
  // flow has its own live timer.
  lemma EveryRunKeepsMapsInStep(events: seq<Event>)
    ensures InStep(Run(INITIAL, events))
  {
    RunKeeps(INITIAL, events);
  }

  predicate Pending(r: Runtime, key: FlowKey, oauthState: StateText) {
    key in r.auths && key in r.states && r.states[key] == oauthState
  }

  // The steps that may end the flow with this state under this key.
  predicate Ends(r: Runtime, e: Event, key: FlowKey, oauthState: StateText) {
    match e
    case BeginSet(call) => call in r.calls && call.key == key
    case FinishSet(call, _) => call in r.calls && call.key == key
    case Cleanup(k, carried) => k == key && (carried == None || carried == Some(oauthState))
    case FireTimer(timer) => timer in r.live && r.live[timer] == Timer(key, oauthState)
    case NextClear(k) => k == key && r.shutdown.Clearing?
    case _ => false
  }

  // A cleanup, a timer or a call of some other flow leaves a pending flow
  // untouched, even under the same key: an older OAuth state ends nothing.
  lemma OnlyItsOwnStepsEndAFlow(events: seq<Event>, e: Event, key: FlowKey, oauthState: StateText)
    requires Pending(Run(INITIAL, events), key, oauthState)
    requires !Ends(Run(INITIAL, events), e, key, oauthState)
    ensures
      var r := Run(INITIAL, events);
      Pending(Step(r, e), key, oauthState) && key in r.timers && key in Step(r, e).timers
      && Step(r, e).timers[key] == r.timers[key]
  {
    RunKeeps(INITIAL, events);
    OnlyEndsEnd(Run(INITIAL, events), e, key, oauthState);
  }

  // A cleanup of another key, or carrying another state, spares the flow.
  lemma ClearSpares(r: Runtime, k: FlowKey, carried: Option<StateText>, key: FlowKey, oauthState: StateText)
    requires Inv(r) && Pending(r, key, oauthState)
    requires k != key || (carried.Some? && carried.value != oauthState)
    ensures var after := Clear(r, k, carried); Pending(after, key, oauthState) && SameTimer(r, after, key)
  {
  }

  predicate SameTimer(r: Runtime, after: Runtime, key: FlowKey) {
    key in r.timers && key in after.timers && after.timers[key] == r.timers[key]
  }

  // So does setting a flow under another key.
  lemma BeginSetSpares(r: Runtime, call: Call, key: FlowKey, oauthState: StateText)
    requires Inv(r) && Pending(r, key, oauthState) && call.key != key && call in r.calls && call.Starting?
    ensures var after := Step(r, BeginSet(call)); Pending(after, key, oauthState) && SameTimer(r, after, key)
  {
    DropCallKeeps(r, call);
    ClearSpares(r.(calls := r.calls - multiset{call}), call.key, None, key, oauthState);
  }

  lemma FinishSetSpares(r: Runtime, call: Call, callerAborted: bool, key: FlowKey, oauthState: StateText)
    requires Inv(r) && Pending(r, key, oauthState) && call.key != key
    ensures
      var after := Step(r, FinishSet(call, callerAborted));
      Pending(after, key, oauthState) && SameTimer(r, after, key)
  {
  }

  lemma NextClearSpares(r: Runtime, k: FlowKey, key: FlowKey, oauthState: StateText)
    requires Inv(r) && Pending(r, key, oauthState) && k != key
    ensures Pending(DoNextClear(r, k), key, oauthState) && SameTimer(r, DoNextClear(r, k), key)
  {
    ClearSpares(r, k, None, key, oauthState);
  }

  // The steps that leave the three maps alone.
  predicate Quiet(e: Event) {
    match e
    case StartAuth(_, _) | ReleaseStored(_) | StoreState(_, _) | ClearStored(_) | BeginShutdown | FailClear => true
    case _ => false
  }

  lemma QuietStepSpares(r: Runtime, e: Event, key: FlowKey, oauthState: StateText)
    requires Quiet(e) && Pending(r, key, oauthState) && key in r.timers
    ensures Pending(Step(r, e), key, oauthState) && SameTimer(r, Step(r, e), key)
  {
  }

  lemma OnlyEndsEnd(r: Runtime, e: Event, key: FlowKey, oauthState: StateText)
    requires Inv(r) && Pending(r, key, oauthState) && !Ends(r, e, key, oauthState)
    ensures Pending(Step(r, e), key, oauthState) && SameTimer(r, Step(r, e), key)
  {
    match e
    case BeginSet(call) =>
      if call in r.calls && call.Starting? {
        BeginSetSpares(r, call, key, oauthState);
      }
    case FinishSet(call, callerAborted) =>
      if call in r.calls {
        FinishSetSpares(r, call, callerAborted, key, oauthState);
      }
    case Cleanup(k, carried) => ClearSpares(r, k, carried, key, oauthState);
    case FireTimer(timer) =>
      if timer in r.live {
        TimerSpares(r, timer, key, oauthState);
      }
    case NextClear(k) =>
      if r.shutdown.Clearing? {
        NextClearSpares(r, k, key, oauthState);
      }
    case _ => QuietStepSpares(r, e, key, oauthState);
  }

  lemma TimerSpares(r: Runtime, timer: nat, key: FlowKey, oauthState: StateText)
    requires Inv(r) && Pending(r, key, oauthState)
    requires timer in r.live && r.live[timer] != Timer(key, oauthState)
    ensures Pending(Step(r, FireTimer(timer)), key, oauthState) && SameTimer(r, Step(r, FireTimer(timer)), key)
  {
  }

  // --- Releasing the stored state ------------------------------------------

  // Resuming the release deletes a state text that some other flow has stored.
  predicate LosesOther(r: Runtime, call: Call) {
    && call.Releasing? && call.key in r.store && r.store[call.key] != call.oauthState
    && call.key !in Step(r, ReleaseStored(call)).store
  }

  // Whatever is stored in the end was there from the start, or was stored by a step.
  lemma {:induction false} StoredBySomeStep(r: Runtime, events: seq<Event>, key: FlowKey)
    requires key in Run(r, events).store
    ensures
      var x := Run(r, events).store[key];
      Stored(r, key) == Some(x) || exists i :: 0 <= i < |events| && events[i] == StoreState(key, x)
    decreases |events|
  {
    if events != [] {
      var x := Run(r, events).store[key];
      StoredBySomeStep(Step(r, events[0]), events[1..], key);
      if Stored(Step(r, events[0]), key) == Some(x) {
        StoreStepOrigin(r, events[0], key, x);
      } else {
        var i :| 0 <= i < |events[1..]| && events[1..][i] == StoreState(key, x);
        assert events[i + 1] == StoreState(key, x);
      }
    }
  }

  lemma StoreStepOrigin(r: Runtime, e: Event, key: FlowKey, x: StateText)
    requires Stored(Step(r, e), key) == Some(x)
    ensures Stored(r, key) == Some(x) || e == StoreState(key, x)
  {
  }

  // The state that this cleanup sets out to release, and what it read.
  function ReleaseOf(r: Runtime, key: FlowKey, carried: Option<StateText>): Call
    requires Concerns(r, key, carried) && (key in r.states || carried.Some?)
  {
    Releasing(key, if key in r.states then r.states[key] else carried.value, Stored(r, key))
  }

  lemma LosesWhen(s: Runtime, call: Call)
    requires call.Releasing? && call in s.calls
    ensures LosesOther(s, call) <==>
      call.stored == Some(call.oauthState) && call.key in s.store && s.store[call.key] != call.oauthState
  {
  }

  // A release loses another flow's stored state if and only if it read its own,
  // and a state that another flow stored between its read and its delete is
  // still there.
  lemma ReleaseLosesExactly(r: Runtime, key: FlowKey, carried: Option<StateText>, between: seq<Event>)
    requires Concerns(r, key, carried) && (key in r.states || carried.Some?)
    requires ReleaseOf(r, key, carried) in Run(Clear(r, key, carried), between).calls
    ensures
      var call, s := ReleaseOf(r, key, carried), Run(Clear(r, key, carried), between);
      LosesOther(s, call) <==>
        && Stored(r, key) == Some(call.oauthState)
        && exists i, x :: 0 <= i < |between| && between[i] == StoreState(key, x)
             && x != call.oauthState && Stored(s, key) == Some(x)
  {
    var call, s := ReleaseOf(r, key, carried), Run(Clear(r, key, carried), between);
    LosesWhen(s, call);
    if key in s.store && s.store[key] != call.oauthState && call.stored == Some(call.oauthState) {
      StoredBySomeStep(Clear(r, key, carried), between, key);
      assert Stored(Clear(r, key, carried), key) == Some(call.oauthState);
    }
  }

  // Nothing else deletes what is stored under the key.
  predicate Undeleted(events: seq<Event>, key: FlowKey) {
    forall i :: 0 <= i < |events| ==>
      events[i] != ClearStored(key) && (events[i].ReleaseStored? ==> events[i].call.key != key)
  }

  predicate StoresUnder(e: Event, key: FlowKey) {
    e.StoreState? && e.key == key
  }

  predicate OthersStore(events: seq<Event>, key: FlowKey, own: StateText) {
    forall i :: 0 <= i < |events| && StoresUnder(events[i], key) ==> events[i].oauthState != own
  }

  lemma StepStores(r: Runtime, e: Event, key: FlowKey, own: StateText)
    requires e != ClearStored(key) && (e.ReleaseStored? ==> e.call.key != key)
    requires StoresUnder(e, key) ==> e.oauthState != own
    requires (key in r.store && r.store[key] != own) || StoresUnder(e, key)
    ensures key in Step(r, e).store && Step(r, e).store[key] != own
  {
  }

  lemma {:induction false} OtherStateStays(r: Runtime, events: seq<Event>, key: FlowKey, own: StateText)
    requires Undeleted(events, key) && OthersStore(events, key, own)
    requires
      || (key in r.store && r.store[key] != own)
      || exists i :: 0 <= i < |events| && StoresUnder(events[i], key)
    ensures key in Run(r, events).store && Run(r, events).store[key] != own
    decreases |events|
  {
    if events != [] {
      var rest := events[1..];
      assert forall i :: 0 <= i < |rest| ==> rest[i] == events[i + 1];
      if StoresUnder(events[0], key) || (key in r.store && r.store[key] != own) {
        StepStores(r, events[0], key, own);
      } else {
        var i :| 0 <= i < |events| && StoresUnder(events[i], key);
        assert StoresUnder(rest[i - 1], key);
      }
      OtherStateStays(Step(r, events[0]), rest, key, own);
    }
  }

  // So when only other flows store under the key and nothing else deletes there,
  // a release that read its own state spares theirs if and only if none of them
  // stored anything between its read and its delete.
  lemma ReleaseSparesExactly(r: Runtime, key: FlowKey, carried: Option<StateText>, between: seq<Event>)
    requires Concerns(r, key, carried) && (key in r.states || carried.Some?)
    requires ReleaseOf(r, key, carried) in Run(Clear(r, key, carried), between).calls
    requires Stored(r, key) == Some(ReleaseOf(r, key, carried).oauthState)
    requires Undeleted(between, key) && OthersStore(between, key, ReleaseOf(r, key, carried).oauthState)
    ensures
      var call, s := ReleaseOf(r, key, carried), Run(Clear(r, key, carried), between);
      !LosesOther(s, call) <==> forall i :: 0 <= i < |between| ==> !StoresUnder(between[i], key)
  {
    var call := ReleaseOf(r, key, carried);
    var start := Clear(r, key, carried);
    LosesWhen(Run(start, between), call);
    if i :| 0 <= i < |between| && StoresUnder(between[i], key) {
      OtherStateStays(start, between, key, call.oauthState);
    } else {
      assert Stored(start, key) == Stored(r, key);
      UnstoredStays(start, between, key);
    }
  }

  // What no step stores was there before.
  lemma UnstoredStays(r: Runtime, events: seq<Event>, key: FlowKey)
    requires forall i :: 0 <= i < |events| ==> !StoresUnder(events[i], key)
    ensures key in Run(r, events).store ==> Stored(r, key) == Stored(Run(r, events), key)
  {
    if key in Run(r, events).store {
      StoredBySomeStep(r, events, key);
    }
  }

  // It does happen: the older flow is cleaned up while the newer one starts.
  lemma NewerStateIsLost(key: FlowKey, older: StateText, newer: StateText)
    requires older != newer
    ensures
      var r1 := Step(Step(INITIAL, StartAuth(key, older)), StoreState(key, older));
      var r2 := Step(Step(r1, BeginSet(Starting(key, older, 0))), FinishSet(Setting(key, older, 0), false));
      Pending(r2, key, older) && LosesNewer(r2, key, older, newer)
  {
    var r1 := Step(Step(INITIAL, StartAuth(key, older)), StoreState(key, older));
    assert Starting(key, older, 0) in r1.calls;
    var r2 := Step(Step(r1, BeginSet(Starting(key, older, 0))), FinishSet(Setting(key, older, 0), false));
    assert r2.states[key] == older && Stored(r2, key) == Some(older);
    PendingFlowLosesNewer(r2, key, older, newer);
  }

  // A newer flow starts, the older one is cleaned up, the newer one stores its
  // state, and the release of the older one deletes it.
  predicate LosesNewer(r: Runtime, key: FlowKey, older: StateText, newer: StateText) {
    var r1 := Step(Step(r, StartAuth(key, newer)), Cleanup(key, Some(older)));
    var r2 := Step(r1, StoreState(key, newer));
    Stored(r2, key) == Some(newer) && Stored(Step(r2, ReleaseStored(Releasing(key, older, Some(older)))), key) == None
  }

  lemma PendingFlowLosesNewer(r: Runtime, key: FlowKey, older: StateText, newer: StateText)
    requires key in r.states && r.states[key] == older && Stored(r, key) == Some(older)
    ensures LosesNewer(r, key, older, newer)
  {
    var r1 := Step(Step(r, StartAuth(key, newer)), Cleanup(key, Some(older)));
    assert Releasing(key, older, Some(older)) in r1.calls;
  }

  // Once the shutdown has bumped the generation, no run ever adds a flow.
  lemma {:induction false} NoFlowAfterShutdown(r: Runtime, events: seq<Event>)
    requires Inv(r) && r.aborted
    ensures Run(r, events).auths.Keys <= r.auths.Keys && Run(r, events).aborted
    ensures r.shutdown.Finished? ==> Run(r, events).shutdown.Finished?
    decreases |events|
  {
    if events != [] {
      StepKeeps(r, events[0]);
      AbortedStepAddsNothing(r, events[0]);
      NoFlowAfterShutdown(Step(r, events[0]), events[1..]);
    }
  }

  lemma AbortedStepAddsNothing(r: Runtime, e: Event)
    requires Inv(r) && r.aborted
    ensures Step(r, e).auths.Keys <= r.auths.Keys && Step(r, e).aborted
    ensures r.shutdown.Finished? ==> Step(r, e).shutdown.Finished?
  {
  }

  // So when every store call of the shutdown succeeds the maps end empty, and
  // stay empty whatever still resumes.
  lemma MapsEndEmpty(events: seq<Event>, later: seq<Event>)
    requires Run(INITIAL, events).shutdown.Finished?
    ensures
      var r := Run(Run(INITIAL, events), later);
      r.auths == map[] && r.states == map[] && r.timers == map[]
  {
    var r := Run(INITIAL, events);
    RunKeeps(INITIAL, events);
    NoFlowAfterShutdown(r, later);
    RunKeeps(r, later);
  }

  // Clearing every key of the snapshot does finish the shutdown.
  lemma {:induction false} ShutdownFinishes(r: Runtime, keys: seq<FlowKey>)
    requires r.shutdown.Clearing? && r.shutdown.keys == (set k | k in keys)
    requires forall i, j :: 0 <= i < j < |keys| ==> keys[i] != keys[j]
    requires keys != []
    ensures Run(r, seq(|keys|, i requires 0 <= i < |keys| => NextClear(keys[i]))).shutdown.Finished?
    decreases |keys|
  {
    var events := seq(|keys|, i requires 0 <= i < |keys| => NextClear(keys[i]));
    var after := Step(r, events[0]);
    var rest := keys[1..];
    assert keys[0] in r.shutdown.keys && keys[0] !in rest;
    assert r.shutdown.keys - {keys[0]} == (set k | k in rest) by {
      assert forall k :: k in keys <==> k == keys[0] || k in rest;
    }
    assert events[1..] == seq(|rest|, i requires 0 <= i < |rest| => NextClear(rest[i]));
    if rest == [] {
      assert events[1..] == [];
    } else {
      assert rest[0] in r.shutdown.keys - {keys[0]};
      assert after.shutdown == Clearing(set k | k in rest);
      ShutdownFinishes(after, rest);
    }
  }

  // --- What the steps do ---------------------------------------------------

  predicate NoFlow(r: Runtime, key: FlowKey) {
    key !in r.auths && key !in r.states && key !in r.timers
  }

  // A flow is registered, with a timer of its own, if and only if its caller has
  // not aborted and the runtime has not been shut down since it started.
  lemma SetRegistersExactly(r: Runtime, call: Call, callerAborted: bool)
    requires Inv(r) && call in r.calls && call.Setting?
    ensures
      var after := Step(r, FinishSet(call, callerAborted));
      && after.calls == r.calls - multiset{call}
      && if !callerAborted && !r.aborted && call.generation == r.generation
         then
           && Pending(after, call.key, call.oauthState) && call.key in after.timers
           && after.timers[call.key] !in r.live && after.timers[call.key] in after.live
         else forall k :: SameFlow(r, after, k)
    ensures forall k :: k != call.key ==> SameFlow(r, Step(r, FinishSet(call, callerAborted)), k)
  {
  }

  predicate SameFlow(r: Runtime, after: Runtime, k: FlowKey) {
    && (k in after.auths <==> k in r.auths) && (k in after.states <==> k in r.states)
    && (k in after.timers <==> k in r.timers)
    && (k in r.states ==> after.states[k] == r.states[k]) && (k in r.timers ==> after.timers[k] == r.timers[k])
  }

  // A cleanup of a flow ends it and its timer, and sets out to release its state.
  lemma CleanupEnds(r: Runtime, key: FlowKey, oauthState: StateText, carried: Option<StateText>)
    requires Inv(r) && Pending(r, key, oauthState) && (carried == None || carried == Some(oauthState))
    ensures
      var after := Step(r, Cleanup(key, carried));
      && NoFlow(after, key) && r.timers[key] !in after.live
      && after.calls == r.calls + multiset{Releasing(key, oauthState, Stored(r, key))}
      && forall k :: k != key ==> SameFlow(r, after, k)
  {
  }

  // So does its timer.
  lemma TimerEnds(r: Runtime, key: FlowKey, oauthState: StateText)
    requires Inv(r) && Pending(r, key, oauthState)
    ensures
      var after := Step(r, FireTimer(r.timers[key]));
      && NoFlow(after, key) && r.timers[key] !in after.live
      && Releasing(key, oauthState, Stored(r, key)) in after.calls
  {
    var b := r.(live := r.live - {r.timers[key]});
    assert r.live[r.timers[key]] == Timer(key, oauthState);
    assert Step(r, FireTimer(r.timers[key])) == Clear(b, key, Some(oauthState));
  }

  // A timer fires once, and ends no flow but the one it was started for.
  lemma TimerFiresOnce(r: Runtime, timer: nat, key: FlowKey)
    requires Inv(r) && timer in r.live
    ensures
      var after := Step(r, FireTimer(timer));
      timer !in after.live && (r.live[timer].key != key ==> SameFlow(r, after, key))
  {
  }

  // A cleanup without a flow still releases a state it carries.
  lemma CleanupOfNoFlow(r: Runtime, key: FlowKey, oauthState: StateText)
    requires Inv(r) && NoFlow(r, key)
    ensures Step(r, Cleanup(key, Some(oauthState))).calls
         == r.calls + multiset{Releasing(key, oauthState, Stored(r, key))}
    ensures Step(r, Cleanup(key, None)).calls == r.calls
  {
  }

  // What is stored, step by step: only storing, clearing and a release that had
  // read its own state change it.
  lemma StoredExactly(r: Runtime, e: Event, key: FlowKey)
    ensures Stored(Step(r, e), key) ==
      if e.StoreState? && e.key == key then Some(e.oauthState)
      else if e == ClearStored(key) then None
      else if e.ReleaseStored? && e.call in r.calls && e.call.Releasing? && e.call.key == key
           && e.call.stored == Some(e.call.oauthState) then None
      else Stored(r, key)
    ensures
      e.ReleaseStored? && e.call in r.calls && e.call.Releasing? ==>
        Step(r, e).calls[e.call] == r.calls[e.call] - 1
  {
  }

  // The shutdown aborts at once, and sets out to clear the flows there are.
  lemma ShutdownStarts(r: Runtime)
    requires Inv(r) && !r.aborted
    ensures
      var after := Step(r, BeginShutdown);
      && after.aborted && after.generation == r.generation + 1
      && (after.shutdown.Finished? <==> r.auths.Keys == {})
      && (r.auths.Keys != {} ==> after.shutdown == Clearing(r.auths.Keys))
      && Step(after, BeginShutdown) == after
  {
    if r.auths.Keys != {} {
      assert r.auths != map[];
      assert (set k | k in r.auths :: r.auths[k].key) == r.auths.Keys by {
        forall k | k in r.auths ensures k in (set j | j in r.auths :: r.auths[j].key) {
          assert r.auths[k].key == k;
        }
      }
    }
  }

  lemma ShutdownGoesOn(r: Runtime, key: FlowKey)
    requires Inv(r) && r.shutdown.Clearing? && key in r.shutdown.keys
    ensures NoFlow(Step(r, NextClear(key)), key)
    ensures Step(r, FailClear).shutdown == Failed
  {
  }

  // --- A started flow is registered ----------------------------------------

  // Any step but a shutdown and the one that resumes this call.
  predicate Bystander(e: Event, call: Call) {
    !e.BeginShutdown? && e != BeginSet(call) && (e.FinishSet? ==> e.call != call)
  }

  ghost predicate Bystanders(events: seq<Event>, call: Call) {
    forall i :: 0 <= i < |events| ==> Bystander(events[i], call)
  }

  lemma CallWaits(r: Runtime, e: Event, call: Call)
    requires call in r.calls && !call.Releasing? && !r.aborted && Bystander(e, call)
    ensures call in Step(r, e).calls
  {
    match e
    case BeginSet(c) =>
      if c in r.calls && c.Starting? {
        CallOutlivesSet(r, c, call);
      }
    case Cleanup(key, carried) => CallOutlivesClear(r, key, carried, call);
    case FireTimer(t) =>
      if t in r.live {
        CallOutlivesClear(r.(live := r.live - {t}), r.live[t].key, Some(r.live[t].oauthState), call);
      }
    case NextClear(key) => CallOutlivesClear(r, key, None, call);
    case FinishSet(c, callerAborted) => CallOutlivesFinish(r, c, callerAborted, call);
    case ReleaseStored(c) => CallOutlivesRelease(r, c, call);
    case _ =>
  }

  lemma CallOutlivesFinish(r: Runtime, c: Call, callerAborted: bool, call: Call)
    requires call in r.calls && c != call
    ensures call in Step(r, FinishSet(c, callerAborted)).calls
  {
  }

  lemma CallOutlivesRelease(r: Runtime, c: Call, call: Call)
    requires call in r.calls && !call.Releasing?
    ensures call in Step(r, ReleaseStored(c)).calls
  {
  }

  lemma CallOutlivesSet(r: Runtime, c: Call, call: Call)
    requires c in r.calls && c.Starting? && call in r.calls && c != call
    ensures call in Step(r, BeginSet(c)).calls
  {
    CallOutlivesClear(r.(calls := r.calls - multiset{c}), c.key, None, call);
  }

  lemma FlagsStay(r: Runtime, e: Event)
    requires !r.aborted && !e.BeginShutdown?
    ensures !Step(r, e).aborted && Step(r, e).generation == r.generation
  {
  }

  lemma CallOutlivesClear(r: Runtime, key: FlowKey, carried: Option<StateText>, call: Call)
    requires call in r.calls
    ensures
      var after := Clear(r, key, carried);
      call in after.calls && after.aborted == r.aborted && after.generation == r.generation
  {
  }

  lemma {:induction false} CallStays(r: Runtime, events: seq<Event>, call: Call)
    requires call in r.calls && !call.Releasing? && !r.aborted && Bystanders(events, call)
    ensures
      call in Run(r, events).calls && !Run(r, events).aborted && Run(r, events).generation == r.generation
    decreases |events|
  {
    if events != [] {
      CallWaits(r, events[0], call);
      FlagsStay(r, events[0]);
      CallStays(Step(r, events[0]), events[1..], call);
    }
  }

  // From every reachable state that is not shut down: a flow that is started is
  // pending once both its stretches have resumed, whatever happens in between
  // short of a shutdown and an abort by its own caller.
  lemma StartedFlowIsRegistered(
    before: seq<Event>, key: FlowKey, oauthState: StateText, toSet: seq<Event>, toFinish: seq<Event>)
    requires !Run(INITIAL, before).aborted
    requires
      var generation := Run(INITIAL, before).generation;
      Bystanders(toSet, Starting(key, oauthState, generation))
      && Bystanders(toFinish, Setting(key, oauthState, generation))
    ensures
      var r := Run(INITIAL, before);
      var starting, setting := Starting(key, oauthState, r.generation), Setting(key, oauthState, r.generation);
      var set1 := Step(Run(Step(r, StartAuth(key, oauthState)), toSet), BeginSet(starting));
      Pending(Step(Run(set1, toFinish), FinishSet(setting, false)), key, oauthState)
  {
    var r := Run(INITIAL, before);
    var starting, setting := Starting(key, oauthState, r.generation), Setting(key, oauthState, r.generation);
    var started := Step(r, StartAuth(key, oauthState));
    CallStays(started, toSet, starting);
    var ready := Run(started, toSet);
    SetBegins(ready, starting);
    var set1 := Step(ready, BeginSet(starting));
    CallStays(set1, toFinish, setting);
    RunKeeps(INITIAL, before);
    RunKeeps(r, [StartAuth(key, oauthState)]);
    assert Run(r, [StartAuth(key, oauthState)]) == Run(started, []);
    RunKeeps(started, toSet);
    StepKeeps(ready, BeginSet(starting));
    RunKeeps(set1, toFinish);
    SetRegistersExactly(Run(set1, toFinish), setting, false);
  }

  // Before a flow is set, whatever is pending under its key is ended.
  lemma SetBegins(r: Runtime, call: Call)
    requires call in r.calls && call.Starting?
    ensures
      var after := Step(r, BeginSet(call));
      && NoFlow(after, call.key) && Setting(call.key, call.oauthState, call.generation) in after.calls
      && after.calls[call] == r.calls[call] - 1
      && after.aborted == r.aborted && after.generation == r.generation
      && (call.key in r.states ==>
            Releasing(call.key, r.states[call.key], Stored(r, call.key)) in after.calls)
  {
  }

  // --- The runtime's maps and the functions that change them ---------------

  class OAuthRuntime {
    var generation: nat
    var aborted: bool
    var pendingAuths: map<FlowKey, Flow>
    var pendingAuthStates: map<FlowKey, StateText>
    var pendingAuthCleanupTimers: map<FlowKey, nat>
    // Timers that may fire, suspended calls, the credential store, the shutdown.
    var live: map<nat, Timer>
    var nextTimer: nat
    var calls: multiset<Call>
    var store: map<FlowKey, StateText>
    var shutdown: Shutdown

    ghost function Now(): Runtime
      reads this
    {
      Runtime(generation, aborted, pendingAuths, pendingAuthStates, pendingAuthCleanupTimers,
              live, nextTimer, calls, store, shutdown)
    }

    constructor ()
      ensures Now() == INITIAL
    {
      generation, aborted, nextTimer, calls, shutdown := 0, false, 0, multiset{}, NotStarted;
      pendingAuths, pendingAuthStates, pendingAuthCleanupTimers := map[], map[], map[];
      live, store := map[], map[];
    }

    method ClearPendingAuth(key: FlowKey, carried: Option<StateText>)
      modifies this
      ensures Now() == Clear(old(Now()), key, carried)
    {
      var pendingState := None;
      if key in pendingAuthStates {
        pendingState := Some(pendingAuthStates[key]);
      }
      if carried.Some? && pendingState.Some? && pendingState != carried {
        return;
      }
      DropFlow(key);
      var toRelease := if pendingState.Some? then pendingState else carried;
      if toRelease.Some? {
        ReadStoredState(key, toRelease.value);
      }
    }

    method DropFlow(key: FlowKey)
      modifies this
      ensures
        var was := old(Now());
        Now() == was.(auths := was.auths - {key}, states := was.states - {key}, timers := was.timers - {key},
                      live := if key in was.timers then was.live - {was.timers[key]} else was.live)
    {
      if key in pendingAuthCleanupTimers {
        live := live - {pendingAuthCleanupTimers[key]};
        pendingAuthCleanupTimers := pendingAuthCleanupTimers - {key};
      }
      pendingAuths := pendingAuths - {key};
      pendingAuthStates := pendingAuthStates - {key};
    }

    // The synchronous read of the stored state, before the await.
    method ReadStoredState(key: FlowKey, oauthState: StateText)
      modifies this`calls
      ensures
        var was := old(Now());
        Now() == was.(calls := was.calls + multiset{Releasing(key, oauthState, Stored(was, key))})
    {
      var stored := None;
      if key in store {
        stored := Some(store[key]);
      }
      calls := calls + multiset{Releasing(key, oauthState, stored)};
    }

    // The end of setPendingAuth, after the clear it awaited.
    method FinishSetPendingAuth(call: Call, callerAborted: bool)
      requires call.Setting?
      modifies this
      ensures Now() == DoFinishSet(old(Now()), call, callerAborted)
    {
      if callerAborted || aborted || call.generation != generation {
        return;
      }
      pendingAuths := pendingAuths[call.key := Flow(call.key)];
      pendingAuthStates := pendingAuthStates[call.key := call.oauthState];
      live := live[nextTimer := Timer(call.key, call.oauthState)];
      pendingAuthCleanupTimers := pendingAuthCleanupTimers[call.key := nextTimer];
      nextTimer := nextTimer + 1;
    }

    // The end of clearPendingAuth, which acts on what was read before the await.
    method ReleaseStoredState(call: Call)
      requires call.Releasing?
      modifies this`store
      ensures Now() == DoRelease(old(Now()), call)
    {
      if call.stored == Some(call.oauthState) {
        store := store - {call.key};
      }
    }

    method StartShutdown()
      requires Inv(Now())
      modifies this
      ensures Now() == DoBeginShutdown(old(Now())) && Inv(Now())
    {
      BeginShutdownKeeps(Now());
      if aborted {
        return;
      }
      generation, aborted := generation + 1, true;
      shutdown := if pendingAuths == map[] then Finished
                  else Clearing(set k | k in pendingAuths :: pendingAuths[k].key);
    }
  }
}
