# A model of the agent extensions

Dafny models of the parts of the bundled agent extensions that hold state
machines, dynamic programming, layered merges or arithmetic, with proofs of what
they promise.

| file | what it models |
|---|---|
| `Lines.dfy`, `UnifiedDiff.dfy` | the preview of a configuration write: table, walk, printed text |
| `ConfigMerge.dfy` | layers of server entries, and which fields survive a change of transport or url |
| `Regrouping.dfy` | when it matters in which order layers are merged |
| `ProjectOverride.dfy` | the writer of a server's disabled flag, against what the loader computes |
| `LoadedCredentials.dfy` | under which url a loaded credential was supplied |
| `SessionLifecycle.dfy` | session start and shutdown, gateway retry, initializations, waiting handlers |
| `KeepAlive.dfy` | convergence passes over keep-alive servers, their fences and retry streaks |
| `OAuthPending.dfy` | pending OAuth flows of a runtime, and its shutdown |
| `FailureBackoff.dfy` | remembered connection failures and the gate of a lazy connect |
| `ReserveLine.dfy`, `Compaction.dfy`, `RunGuards.dfy`, `BatchFiles.dfy` | the guardrail: compaction line, compactions, watchdog and budgets, batch file parser |
| `DirectTools.dfy` | resolving direct tool names, and the registry that follows them |
| `Elicitation.dfy` | choosing by label |
| `Transcripts.dfy` | packing transcripts into files |

Asynchronous code is modelled by its stretches between awaits. A `Step` function
gives the effect of one stretch, or of the world around it, on the whole state;
`Run` folds any list of steps, so a theorem about `Run` is about every
interleaving. A class beside it holds the fields or closure variables of the
original, and each method is proved to do what the step function says. What a
step must do is stated apart from it, by the conditions under which each thing
happens, and over runs: what a start, a failure or an event leads to in the end,
whatever else happens in between. Steps may
come in more orders than a JavaScript event loop allows, with these exceptions,
which the proofs rest on:

- a handler awaiting a resolved initialization resumes after the promise's own
  continuation, which was attached first; it may resume before or after the catch
  of a rejected one, or of what the continuation threw;
- stopping an owner takes effect at once;
- callbacks of a keep-alive pass do not reject, so a convergence has ended only
  when all its passes have, and there is one pass per server at a time;
- a timer does not fire before it is due by the clock the code reads.

Where the code and its comments disagree the model follows the code: the comment
at `bundled/extensions/guardrail.ts:362-363` calls 90,112 tokens the smallest
possible line, which `ReserveLine.CheapFloorIsSafe` shows to hold for windows of
at least 122,880 only. The 120 s gap between compactions
(`bundled/extensions/guardrail.ts:83`) is kept neither across the await
(`Compaction.ThrottleIsNotKeptAcrossTheAwait`) nor across a session start
(`Compaction.SessionStartBlindsTheThrottle`). The fence described at
`bundled/extensions/pi-mcp-adapter/lifecycle.ts:167-170` is missing before the
reconnect at line 236 (`KeepAlive.ReplacedPassReconnects`). The comparison of the
stored OAuth state uses a value read before an await
(`OAuthPending.NewerStateIsLost`).

## Model

| member | source | states |
|---|---|---|
| `UnifiedDiff.BuildUnifiedDiff` | bundled/extensions/pi-mcp-adapter/config.ts:904-946 | the result is the no-change note if and only if the texts are equal; otherwise reading the printed diff gives back both texts, it keeps as many lines as the longest common subsequence, and no other edit script between the two line lists has fewer changes |
| `UnifiedDiff.FillTable` | bundled/extensions/pi-mcp-adapter/config.ts:911-922 | the table filled in place holds, in every cell, the longest-common-subsequence length of the two suffixes |
| `UnifiedDiff.Walk` | bundled/extensions/pi-mcp-adapter/config.ts:924-943 | the greedy walk ends, and has printed a script whose old side, new side and kept lines are those the table promises |
| `UnifiedDiff.LcsIsUpperBound` | bundled/extensions/pi-mcp-adapter/config.ts:913-922 | no common subsequence of the two lists is longer than the recurrence says (common subsequence defined independently of it) |
| `UnifiedDiff.LcsIsAchieved` | bundled/extensions/pi-mcp-adapter/config.ts:913-922 | some common subsequence is that long |
| `UnifiedDiff.FewestChanges` | bundled/extensions/pi-mcp-adapter/config.ts:924-943 | a script keeping that many lines has the fewest added plus removed lines of all scripts between the same lists |
| `UnifiedDiff.ReadOfPrint` | bundled/extensions/pi-mcp-adapter/config.ts:924-945 | a printed script is read back line by line as the same script, whatever the lines contain |
| `Lines.JoinOfSplit` | bundled/extensions/pi-mcp-adapter/config.ts:907-908 | joining the lines a text was split into gives the text back |
| `Lines.SplitOfJoin` | bundled/extensions/pi-mcp-adapter/config.ts:945 | splitting joined single-line strings gives them back |
| `ConfigMerge.MergeServerMaps` | bundled/extensions/pi-mcp-adapter/config.ts:527-582 | the loop with its deletes computes the per-server merge, in whatever order the servers come |
| `ConfigMerge.MergeOver` | bundled/extensions/pi-mcp-adapter/config.ts:533-579 | the deletes and the final spread keep exactly the fields no rule drops |
| `ConfigMerge.InheritedExactly` | bundled/extensions/pi-mcp-adapter/config.ts:545-579 | a field is inherited if and only if it belongs to no other transport than the one selected, and is no credential beside a string url that is new |
| `ConfigMerge.SuppliedStands` | bundled/extensions/pi-mcp-adapter/config.ts:579 | what the upper layer supplies stands, and nothing else is added |
| `ConfigMerge.FoldIsPerServer` | bundled/extensions/pi-mcp-adapter/config.ts:324-332 | folding any number of layers treats every server on its own |
| `ConfigMerge.CredentialsFollowUrl` | bundled/extensions/pi-mcp-adapter/config.ts:520-582 | a url-bound credential field of an entry with a string url was last supplied by some layer, and since that layer the effective url has been the present one; an inherited oauth: false is the one exception |
| `ConfigMerge.CredentialsOfFold` | bundled/extensions/pi-mcp-adapter/config.ts:328-332 | the same, of the folded configuration |
| `LoadedCredentials.CredentialsFollowUrlInTree` | bundled/extensions/pi-mcp-adapter/config.ts:520-582 | however layers are grouped: a credential field of an entry with a string url was never merged under another url, from the layer that supplies it on, if and only if no layer that leaves it in place switched away from another url to a command or a socket in between; this always holds but for bearerTokenStore, and for it where every command and socket is a string |
| `LoadedCredentials.CredentialsOfLoaded` | bundled/extensions/pi-mcp-adapter/config.ts:318-371 | the same, of what the loader ends with, however each source and the discovered hosts were put together, and the credential's value is its supplying layer's |
| `LoadedCredentials.StoreEndsUnderAnotherUrl` | bundled/extensions/pi-mcp-adapter/config.ts:331-342 | it can fail: with a command taken back by one that is no string, bearerTokenStore ends up under another url |
| `ConfigMerge.OAuthOffSurvivesUrlChange` | bundled/extensions/pi-mcp-adapter/config.ts:575-577 | oauth: false does survive a change of url |
| `Regrouping.RegroupingExactly` | bundled/extensions/pi-mcp-adapter/config.ts:520-582 | merging three layers one by one or the upper two first gives the same field f, whatever the lower two are, if and only if the top layer holds f, or f is a field no rule drops, or the top layer holds no transport field, or its transport drops f; for bearerTokenStore, if and only if the top layer holds it, or holds no url and names no transport |
| `Regrouping.RegroupingOfEntries` | bundled/extensions/pi-mcp-adapter/config.ts:331-341 | the whole entries agree if and only if that holds of every field; so they do whenever the top layer holds no transport field, whatever the middle one names |
| `ConfigMerge.OneTransport` | bundled/extensions/pi-mcp-adapter/config.ts:545-569 | if every layer names at most one of command, url and socket, so does the effective entry |
| `ConfigMerge.TransportOfLastLayer` | bundled/extensions/pi-mcp-adapter/config.ts:545-579 | where a layer names a transport and no later one does: the effective entry has that transport, with that layer's value and no other transport field, if and only if the layer has no other transport field and no later layer has any, of whatever type; earlier layers do not matter |
| `ConfigMerge.TypedTransportOfLastLayer` | bundled/extensions/pi-mcp-adapter/config.ts:545-579 | so it does when the transport fields from that layer on are strings and at most one a layer |
| `ConfigMerge.NothingOutlivesASwitch` | bundled/extensions/pi-mcp-adapter/config.ts:545-569 | a field that the transport of some layer does not use is, if present in the end, supplied by that layer or a later one |
| `ConfigMerge.UntypedLayerErasesTransport` | bundled/extensions/pi-mcp-adapter/config.ts:545-579 | a last layer that sets the transport field to something other than a string erases the transport |
| `ProjectOverride.OverrideIsExact` | bundled/extensions/pi-mcp-adapter/config.ts:1004-1065 | after the edit every other server's effective entry and every other field of this one are unchanged, and the disabled flag is the requested one if and only if the request takes effect: always when disabling; when enabling, exactly if a layer the writer reads carries a flag or the layers it does not read leave the server enabled |
| `ProjectOverride.AcceptedExactly` | bundled/extensions/pi-mcp-adapter/config.ts:1024-1051 | disabling is accepted if and only if the servers and the entry are objects or absent, enabling if in addition the imports are absent or all known; which error comes otherwise |
| `ProjectOverride.DisablingDisables` | bundled/extensions/pi-mcp-adapter/config.ts:1035-1065 | disabling in any such file ends with the loader reading the server as disabled |
| `ProjectOverride.WrittenFlag` | bundled/extensions/pi-mcp-adapter/config.ts:1036-1053 | the file then holds true, or false exactly where a lower source disables the server, or no flag |
| `ProjectOverride.WrittenExactly` | bundled/extensions/pi-mcp-adapter/config.ts:1056-1064 | an edit writes nothing when the entry is what it was, removes an entry left empty, uses the servers key there is or mcpServers, and touches no other key |
| `ProjectOverride.ProjectFile.WriteServerDisabledOverride` | bundled/extensions/pi-mcp-adapter/config.ts:1004-1065 | fails with the right error and leaves the file alone, or writes the edit that OverrideIsExact is about; accepts exactly the files AcceptedExactly says; an accepted disabling disables |
| `ProjectOverride.FlagOfOver` | bundled/extensions/pi-mcp-adapter/config.ts:318-342 | the loader's disabled flag is the nearest one among the file's own entry, the configuration below it, and hosts, plugins and packages |
| `ProjectOverride.FirstImportWins` | bundled/extensions/pi-mcp-adapter/config.ts:590-604 | an imported server is the one of the first kind in order that defines it |
| `ProjectOverride.ImportedServerIsLoaded` | bundled/extensions/pi-mcp-adapter/config.ts:590-611 | and it is loaded, with the file's own entry over it |
| `ProjectOverride.EditIsLocal` | bundled/extensions/pi-mcp-adapter/config.ts:1056-1064 | the loader reads the new entry from the edited file, and every other entry and the imports as before |
| `ProjectOverride.OverIgnoresFlag` | bundled/extensions/pi-mcp-adapter/config.ts:527-582 | changing only a disabled flag changes nothing else of the loaded entry |
| `ProjectOverride.EnableCanFail` | bundled/extensions/pi-mcp-adapter/config.ts:1036-1053 | enabling a server that only a package disables is accepted, and the loader still ends with it disabled |
| `SessionLifecycle.EveryRunIsSafe` | bundled/extensions/pi-mcp-adapter/index.ts:542-729 | over every interleaving of the ten kinds of step: the installed state and the pending initialization belong to the current owner, and both exist together only for the same initialization, whose continuation has thrown; every produced state is installed or was handed to shutdownState exactly once; at most one runtime is live |
| `SessionLifecycle.ThrowingContinuationLeavesBoth` | bundled/extensions/pi-mcp-adapter/index.ts:565-605 | a continuation that throws after installing leaves both, until the catch clears the pending initialization and keeps the state |
| `SessionLifecycle.StepKeeps` | bundled/extensions/pi-mcp-adapter/index.ts:542-668 | every step keeps the invariant behind that |
| `SessionLifecycle.HandlersNeverReviveAState` | bundled/extensions/pi-mcp-adapter/index.ts:795-800 | a handler that waited for an initialization never installs a state that is not installed already, however late it resumes |
| `SessionLifecycle.NothingSurvivesShutdown` | bundled/extensions/pi-mcp-adapter/index.ts:706-729 | however a run goes on after a shutdown, without a session start or a retry: nothing is installed or pending, no initialization starts, and every state produced before or resolving later has been handed to shutdownState once and its owner stopped |
| `SessionLifecycle.SessionStartInstalls` | bundled/extensions/pi-mcp-adapter/index.ts:642-670 | from every reachable state: a session start whose cleanup ends and whose initialization resolves and continues, with anything else in between but another start, retry or shutdown, ends with that state installed under its own active owner, until the session ends |
| `SessionLifecycle.RetryInstalls` | bundled/extensions/pi-mcp-adapter/index.ts:1098-1101 | so does the retry of a gateway call after a failed initialization |
| `SessionLifecycle.LoadTimeInstalls` | bundled/extensions/pi-mcp-adapter/index.ts:618-640 | so does the load-time start of a fresh extension |
| `SessionLifecycle.ResumeInitializes` | bundled/extensions/pi-mcp-adapter/index.ts:668-670 | a resumed session start begins an initialization if and only if its generation is current and its owner active; otherwise nothing is installed or begun |
| `SessionLifecycle.CatchIsRetryable` | bundled/extensions/pi-mcp-adapter/index.ts:595-614 | a rejected current initialization leaves nothing installed or pending, its owner stopped, and a failure to retry |
| `SessionLifecycle.StaleIsHandedOver` | bundled/extensions/pi-mcp-adapter/index.ts:555-563 | the continuation of a stale initialization hands its state over once, stops its owner and installs nothing |
| `SessionLifecycle.HandlerRetainsExactly` | bundled/extensions/pi-mcp-adapter/index.ts:985-1004 | a resuming handler retains a failure if and only if it waited for a rejected initialization and retains it |
| `SessionLifecycle.HandlerWaitsExactly` | bundled/extensions/pi-mcp-adapter/index.ts:795-800 | a handler waits exactly for a pending initialization while no state is installed |
| `SessionLifecycle.ShutdownForgets` | bundled/extensions/pi-mcp-adapter/index.ts:706-724 | a shutdown forgets a failure, so a gateway call right after it starts nothing |
| `SessionLifecycle.Extension.OnSessionStart` | bundled/extensions/pi-mcp-adapter/index.ts:642-663 | new owner and generation, the previous owner stopped and its state handed over, before the first await |
| `SessionLifecycle.Extension.OnSessionStartResume` | bundled/extensions/pi-mcp-adapter/index.ts:668-670 | initializes only when its generation is still the current one and its owner active |
| `SessionLifecycle.Extension.OnSessionShutdown` | bundled/extensions/pi-mcp-adapter/index.ts:706-724 | everything is dropped, stopped and handed over before the first await |
| `SessionLifecycle.Extension.OnGatewayCall` | bundled/extensions/pi-mcp-adapter/index.ts:1098-1101 | retries only without a state, without a pending initialization and after a retained failure |
| `SessionLifecycle.Extension.OnLoadTime` | bundled/extensions/pi-mcp-adapter/index.ts:618-640 | the load-time initialization starts only when no session has |
| `SessionLifecycle.Extension.OnInitialized` | bundled/extensions/pi-mcp-adapter/index.ts:555-594 | installs the state, or hands a stale one to shutdownState; when it throws, the pending initialization is left as the place of the throw leaves it |
| `SessionLifecycle.Extension.OnInitializationFailed` | bundled/extensions/pi-mcp-adapter/index.ts:595-614 | records the failure of the current initialization, rejected or thrown, and stops its owner unless a state is installed; ignores a stale one |
| `SessionLifecycle.Extension.OnHandlerResume` | bundled/extensions/pi-mcp-adapter/index.ts:985-1004 | the resumed handler's assignment never changes the installed state |
| `KeepAlive.EveryStepIsFenced` | bundled/extensions/pi-mcp-adapter/lifecycle.ts:160-339 | in every state, a pass starts at most one thing per step, and it is fenced if and only if it is not the reconnect after a failed refresh of a still current, connected connection under a definition no longer registered: a callback or any other connect or reconnect starts only while the pass's own definition object is registered, a close only when it is not, and only of the connection just returned to it while that is still current |
| `KeepAlive.DisposedPassReconnects` | bundled/extensions/pi-mcp-adapter/lifecycle.ts:219-236 | that unguarded reconnect does happen: a server disposed while its refresh is awaited, its connection left open, is reconnected by its stale pass |
| `KeepAlive.ReplacedPassReconnects` | bundled/extensions/pi-mcp-adapter/init.ts:493-499 | and so is one whose entry object is replaced and registered anew while its refresh is awaited |
| `KeepAlive.DisciplinedRunsAreFenced` | bundled/extensions/pi-mcp-adapter/index.ts:447-473 | over every run it cannot happen where, as there, a disposal closes the connection in the same stretch and no other definition is registered over a registered one, provided no connection comes back to a pass that is refreshing it |
| `KeepAlive.ReadyPassExactly` | bundled/extensions/pi-mcp-adapter/lifecycle.ts:160-218 | a ready pass connects if and only if its definition is registered and enabled, nothing is halted, no retry holds it back, the server is neither connected nor waiting for auth, and no authorization is pending; announces or refreshes exactly the connections that are due for it; and starts nothing else |
| `KeepAlive.ConnectOutcomes` | bundled/extensions/pi-mcp-adapter/lifecycle.ts:184-207 | which callback a settled connect or reconnect of a registered server leads to, and what is remembered: a failure counted, a retry forgotten, a publication pending |
| `KeepAlive.LateConnectOutcomes` | bundled/extensions/pi-mcp-adapter/lifecycle.ts:276-334 | one that settles after a stop does nothing, and after a disposal closes the connection it brought if that is current |
| `KeepAlive.RefreshOutcomes` | bundled/extensions/pi-mcp-adapter/lifecycle.ts:219-273 | how each outcome of a refresh goes on: health restored if a retry was remembered, failure counted, reconnect unless an authorization is pending, or the superseded path |
| `KeepAlive.SupersededOutcomes` | bundled/extensions/pi-mcp-adapter/lifecycle.ts:276-300 | a superseded pass takes up the connection it finds, or begins again once |
| `KeepAlive.PublishOutcomes` | bundled/extensions/pi-mcp-adapter/lifecycle.ts:302-319 | a publication that went through leaves no retry and nothing pending; a rejected one counts as a failure |
| `KeepAlive.DroppedServerComesBack` | bundled/extensions/pi-mcp-adapter/lifecycle.ts:122-319 | over every run: a due server without a connection is connected, the connection returned is announced, and then nothing is left to retry or publish, whatever else happens in between short of a halt, a disposal or a registration of that server |
| `KeepAlive.ConvergenceStarts` | bundled/extensions/pi-mcp-adapter/lifecycle.ts:122-158 | a convergence gives every registered server a pass of its own definition |
| `KeepAlive.PassExactly` | bundled/extensions/pi-mcp-adapter/lifecycle.ts:286-300 | a pass keeps its definition, and begins again at most once |
| `KeepAlive.RegisteredExactly` | bundled/extensions/pi-mcp-adapter/lifecycle.ts:66-83 | what is registered and connected changes by registration, disposal and the connection manager only |
| `KeepAlive.TrackedExactly` | bundled/extensions/pi-mcp-adapter/lifecycle.ts:77-83 | what is tracked is forgotten by a disposal or a finished shutdown only, apart from passes |
| `KeepAlive.EveryRunTracksOnlyKeepAlive` | bundled/extensions/pi-mcp-adapter/lifecycle.ts:66-405 | over every run, retry and pending-publication keys are keep-alive keys |
| `KeepAlive.EveryRunSpacesRetries` | bundled/extensions/pi-mcp-adapter/lifecycle.ts:341-405 | over every run, within a retry streak the (n+1)-th failure comes at least the n-th delay after the n-th |
| `KeepAlive.StreakLasts` | bundled/extensions/pi-mcp-adapter/lifecycle.ts:383-405 | a streak of n + 1 failures, n >= 4, lasts at least 450,000 + 300,000 (n - 4) ms |
| `KeepAlive.DelayBounds` | bundled/extensions/pi-mcp-adapter/lifecycle.ts:392-396 | the delay never falls, lies within 30 s and 300 s, and is 300 s from the fifth failure on |
| `KeepAlive.ResumeIsGood` | bundled/extensions/pi-mcp-adapter/lifecycle.ts:160-339 | whatever the outcome of an await, the rest of a pass touches its own server's retry only, keeps the tracked keys within the keep-alive keys, and stays behind its gate |
| `KeepAlive.NextRetryOk` | bundled/extensions/pi-mcp-adapter/lifecycle.ts:391-404 | recording a failure past the gate extends the streak with the spacing kept |
| `KeepAlive.StepKeeps` | bundled/extensions/pi-mcp-adapter/lifecycle.ts:122-158 | every step, of the passes and of the world around them, keeps the invariant |
| `KeepAlive.McpLifecycleManager.UnregisterServer` | bundled/extensions/pi-mcp-adapter/lifecycle.ts:77-83 | a server's registration, retry and pending publication go together |
| `KeepAlive.McpLifecycleManager.ShouldAttemptConnection` | bundled/extensions/pi-mcp-adapter/lifecycle.ts:341-349 | drops a retry remembered for another connection or status, and waits for the rest |
| `KeepAlive.McpLifecycleManager.Record` | bundled/extensions/pi-mcp-adapter/lifecycle.ts:383-405 | counts a failure of the registered definition and of no other |
| `KeepAlive.McpLifecycleManager.CheckKeepAliveConnection` | bundled/extensions/pi-mcp-adapter/lifecycle.ts:160-218 | the first stretch of a pass, up to its first await |
| `KeepAlive.McpLifecycleManager.HandleSupersededConnection` | bundled/extensions/pi-mcp-adapter/lifecycle.ts:276-300 | what a superseded pass does with the connection it finds |
| `KeepAlive.McpLifecycleManager.PublishConnectedMetadata` | bundled/extensions/pi-mcp-adapter/lifecycle.ts:302-313 | publishes for the registered definition, else closes its own connection if current |
| `KeepAlive.McpLifecycleManager.NotifyAuthRequired` | bundled/extensions/pi-mcp-adapter/lifecycle.ts:322-334 | notifies for the registered definition, else closes its own connection if current |
| `KeepAlive.McpLifecycleManager.ResumeAfterConnect` | bundled/extensions/pi-mcp-adapter/lifecycle.ts:184-207 | the rest of a pass after a connect or reconnect |
| `KeepAlive.McpLifecycleManager.ResumeAfterRefresh` | bundled/extensions/pi-mcp-adapter/lifecycle.ts:219-273 | the rest of a pass after a refresh |
| `KeepAlive.McpLifecycleManager.ResumeAfterPublish` | bundled/extensions/pi-mcp-adapter/lifecycle.ts:312-319 | the rest of a pass after the reconnect callback |
| `OAuthPending.EveryRunKeepsMapsInStep` | bundled/extensions/pi-mcp-adapter/mcp-auth-flow.ts:500-562 | at every step boundary the flow, state and timer maps have the same keys, and each pending flow has its own live timer |
| `OAuthPending.OnlyItsOwnStepsEndAFlow` | bundled/extensions/pi-mcp-adapter/mcp-auth-flow.ts:530-562 | over every run, a pending flow is ended only by a cleanup carrying its own state or none, its own timer, a call setting the same key, or the shutdown: a cleanup, timer or release with an older state leaves it untouched |
| `OAuthPending.StartedFlowIsRegistered` | bundled/extensions/pi-mcp-adapter/mcp-auth-flow.ts:500-527 | from every reachable state that is not shut down, a started flow is pending once its two stretches have resumed, whatever happens in between short of a shutdown |
| `OAuthPending.SetRegistersExactly` | bundled/extensions/pi-mcp-adapter/mcp-auth-flow.ts:511-527 | a flow is registered, with a new timer, if and only if its caller has not aborted and the generation is its own; every other flow stays |
| `OAuthPending.CleanupEnds` | bundled/extensions/pi-mcp-adapter/mcp-auth-flow.ts:530-557 | a cleanup with its own state or none ends the flow and its timer and sets out to release its state, and touches no other flow |
| `OAuthPending.CleanupOfNoFlow` | bundled/extensions/pi-mcp-adapter/mcp-auth-flow.ts:530-557 | without a flow, a cleanup still sets out to release the state it carries |
| `OAuthPending.TimerEnds` | bundled/extensions/pi-mcp-adapter/mcp-auth-flow.ts:514-527 | so does its own timer |
| `OAuthPending.TimerFiresOnce` | bundled/extensions/pi-mcp-adapter/mcp-auth-flow.ts:514-527 | a timer fires once and ends no flow under another key |
| `OAuthPending.StoredExactly` | bundled/extensions/pi-mcp-adapter/mcp-auth-flow.ts:557-561 | the stored state text changes exactly by storing, by clearing, and by a release that had read its own |
| `OAuthPending.ShutdownStarts` | bundled/extensions/pi-mcp-adapter/mcp-auth-flow.ts:1103-1110 | a shutdown aborts at once, takes a new generation and sets out to clear exactly the flows there are |
| `OAuthPending.ShutdownGoesOn` | bundled/extensions/pi-mcp-adapter/mcp-auth-flow.ts:1108-1112 | each step of the shutdown ends the flow under its key; a store call that fails ends the shutdown |
| `OAuthPending.ReleaseLosesExactly` | bundled/extensions/pi-mcp-adapter/mcp-auth-flow.ts:554-561 | over every run after a cleanup, its release deletes a state text that is not its own if and only if it read its own, and another one stored since is still there |
| `OAuthPending.ReleaseSparesExactly` | bundled/extensions/pi-mcp-adapter/mcp-auth-flow.ts:554-561 | if other flows only store under the key in between and nothing else deletes there, a release that read its own state text spares theirs if and only if none stored one between the read and the delete |
| `OAuthPending.NewerStateIsLost` | bundled/extensions/pi-mcp-adapter/mcp-auth-flow.ts:554-561 | the losing interleaving, as a run: a newer flow stores its state between the two, and the release of the older flow deletes it |
| `OAuthPending.NoFlowAfterShutdown` | bundled/extensions/pi-mcp-adapter/mcp-auth-flow.ts:1103-1118 | once the generation is bumped no run adds a flow |
| `OAuthPending.MapsEndEmpty` | bundled/extensions/pi-mcp-adapter/mcp-auth-flow.ts:1109-1112 | when every store call of the shutdown succeeds the maps end empty and stay empty |
| `OAuthPending.ShutdownFinishes` | bundled/extensions/pi-mcp-adapter/mcp-auth-flow.ts:1109-1111 | clearing each key of the snapshot once finishes the shutdown |
| `OAuthPending.OAuthRuntime.ClearPendingAuth` | bundled/extensions/pi-mcp-adapter/mcp-auth-flow.ts:530-557 | the synchronous part of a cleanup, which ends with reading the stored state text |
| `OAuthPending.OAuthRuntime.FinishSetPendingAuth` | bundled/extensions/pi-mcp-adapter/mcp-auth-flow.ts:511-527 | sets all three maps, or nothing when aborted or of an old generation |
| `OAuthPending.OAuthRuntime.ReleaseStoredState` | bundled/extensions/pi-mcp-adapter/mcp-auth-flow.ts:557-560 | deletes the stored state text, whatever it is by now, if the one read before the await was this flow's |
| `OAuthPending.OAuthRuntime.StartShutdown` | bundled/extensions/pi-mcp-adapter/mcp-auth-flow.ts:1103-1110 | bumps the generation once and keeps the invariant |
| `FailureBackoff.EveryRunAgrees` | bundled/extensions/pi-mcp-adapter/init.ts:55-92 | while the owner is active the tracker, message and timer maps have the same keys, with one live timer per failed server, and a timer that fires belongs to the latest failure |
| `FailureBackoff.NoConnectDuringBackoff` | bundled/extensions/pi-mcp-adapter/init.ts:640-660 | over every run, after a recorded failure that is not cleared no lazy connect gets as far as connecting until 60 s have passed |
| `FailureBackoff.BacksOffExactly` | bundled/extensions/pi-mcp-adapter/failure-backoff.ts:5-23 | a lazy connect backs off exactly when the server is in active failure backoff, and then a message is available and its age is right to the nearest second |
| `FailureBackoff.GateExactly` | bundled/extensions/pi-mcp-adapter/init.ts:640-660 | each of the five ends of a lazy connect before its first await, by connection, latest failure and configuration |
| `FailureBackoff.ConnectsAfterBackoff` | bundled/extensions/pi-mcp-adapter/init.ts:640-660 | over every run, an enabled server that failed and was not connected since connects again once more than 60 s have passed, and until then its message is that of the failure, cut after 8192 characters |
| `FailureBackoff.TimerForgets` | bundled/extensions/pi-mcp-adapter/init.ts:75-87 | the timer does nothing before 60 s have passed, and then leaves nothing of this failure and all of the others |
| `FailureBackoff.StoppedTimerKeeps` | bundled/extensions/pi-mcp-adapter/init.ts:75-79 | under a stopped owner a timer leaves the failure as it is |
| `FailureBackoff.ClearOpensGate` | bundled/extensions/pi-mcp-adapter/init.ts:55-68 | clearing a failure opens the gate at once |
| `FailureBackoff.FailureMemory.Record` | bundled/extensions/pi-mcp-adapter/init.ts:70-89 | replaces whatever was remembered of the server, timer included |
| `FailureBackoff.FailureMemory.Clear` | bundled/extensions/pi-mcp-adapter/init.ts:55-68 | forgets the server and says whether its backoff was active |
| `FailureBackoff.FailureMemory.OnTimer` | bundled/extensions/pi-mcp-adapter/init.ts:75-87 | forgets the failure the timer was started for, and only under an active owner |
| `ReserveLine.LineBounds` | bundled/extensions/guardrail.ts:207-215 | the line lies between half the window, rounded up, and the window |
| `ReserveLine.LineIsMonotone` | bundled/extensions/guardrail.ts:207-215 | the line never falls and rises by at most the growth of the window |
| `ReserveLine.ReserveExactly` | bundled/extensions/guardrail.ts:207-212 | the reserve on each of its four stretches: half the window, 32,768, 531 more per 1000 of window rounded down, half the window again |
| `ReserveLine.HalfFromMillion` | bundled/extensions/guardrail.ts:79-82 | the reserve is half the window for every window from 1,047,783 on, and from no smaller bound on |
| `ReserveLine.CheapFloorIsSafe` | bundled/extensions/guardrail.ts:362-367 | the early exit at 90,112 tokens never skips a due compaction if and only if the window is at least 122,880 |
| `Compaction.OneCompactionAtATime` | bundled/extensions/guardrail.ts:311-397 | over every interleaving of the two handlers, at most one compaction is outstanding and the flag is true exactly while one is, unless a session start forgets one |
| `Compaction.StepKeepsFlag` | bundled/extensions/guardrail.ts:252-256 | a step breaks that if and only if it is a session start while a compaction is outstanding |
| `Compaction.ForgottenCompactionOverlaps` | bundled/extensions/guardrail.ts:252-256 | a second compaction can then start beside the first |
| `Compaction.NoThresholdCompactionMeanwhile` | bundled/extensions/guardrail.ts:283-307 | over every run that forgets no compaction, the host's threshold compaction is never let through while a compaction is outstanding |
| `Compaction.GapExactly` | bundled/extensions/guardrail.ts:313-325 | over every run, a resuming handler whose check no session start had blinded comes at least 120 s after the last noted compaction if nothing was noted while it was suspended; and if and only if, when it was suspended for less than 120 s |
| `Compaction.GapCoversStarts` | bundled/extensions/guardrail.ts:329 | a gap of 120 s to the last note is one to every compaction started before |
| `Compaction.SessionStartBlindsTheThrottle` | bundled/extensions/guardrail.ts:252-256 | a session start zeroes the remembered time, and the next compaction then starts however recent the last one is |
| `Compaction.ThrottleIsNotKeptAcrossTheAwait` | bundled/extensions/guardrail.ts:358-370 | with a note while a handler is suspended, two compactions may start at the same instant, one after the other's end |
| `Compaction.WaitsExactly` | bundled/extensions/guardrail.ts:311-365 | a handler goes on to the window lookup if and only if its throttle, its usage and, at a turn end, its floor let it |
| `Compaction.StartsExactly` | bundled/extensions/guardrail.ts:317-397 | a compaction starts if and only if a waiting handler resumes with more tokens than the line while none is known to run, after a settlement only with progress; what it then notes |
| `Compaction.EveryStartIsDue` | bundled/extensions/guardrail.ts:317-397 | over every run, each started compaction is that of a resuming handler above the line of its window |
| `Compaction.DecidesExactly` | bundled/extensions/guardrail.ts:269-308 | when the host's compaction gets a bounded summary, a veto or neither, and what each changes |
| `Compaction.ThresholdExactly` | bundled/extensions/guardrail.ts:297-307 | over every run that forgets no compaction, a threshold compaction whose input fits goes on if and only if none is outstanding and the tokens have reached the line |
| `Compaction.NothingAfterVeto` | bundled/extensions/guardrail.ts:301-321 | after a veto a settlement starts no compaction until there is progress |
| `Compaction.HistoryExactly` | bundled/extensions/guardrail.ts:252-256 | what a session start zeroes, what an ended compaction resets, and when a note is taken |
| `Compaction.CompactionGuard.OnTurnEnd` | bundled/extensions/guardrail.ts:355-365 | the checks before the await |
| `Compaction.CompactionGuard.OnWindowKnown` | bundled/extensions/guardrail.ts:365-397 | the checks after it; starts at most one compaction |
| `Compaction.CompactionGuard.OnBeforeCompact` | bundled/extensions/guardrail.ts:269-308 | bounded summary, veto or neither, and what each of them notes |
| `RunGuards.EveryRunKeepsBudgets` | bundled/extensions/guardrail.ts:480-589 | since the handler that resets its budget last ran there are at most 2 garbled, 6 error-continuation and 2 stall re-prompts and 1 hung-tool abort, for any interleaving of events |
| `RunGuards.TurnEndExactly` | bundled/extensions/guardrail.ts:495-585 | when a turn end re-prompts for garbled calls and for a reply that gives up after a failed call, and when either is remembered |
| `RunGuards.GarbledStreamIsReprompted` | bundled/extensions/guardrail.ts:495-508 | over every run, garbled text in the stream is answered by a re-prompt at the end of its turn, within the budget |
| `RunGuards.ResetsExactly` | bundled/extensions/guardrail.ts:509-589 | between turns and polls each budget is given back by its own settlement handler only, a failed call forgotten with its budget, garbled text with the session |
| `RunGuards.FailedCallIsFollowedUp` | bundled/extensions/guardrail.ts:545-585 | after a turn whose tool call failed, every text-only reply that does not read like a completion is answered by a re-prompt until the budget of six is spent, whatever happens between the turns short of the reset of that budget |
| `RunGuards.AbortsOnlyOverdueTools` | bundled/extensions/guardrail.ts:671-713 | in every run an abort comes only after each in-flight tool has run longer than 360 s, and longer than its own declared time plus 15 s when all declare one |
| `RunGuards.PollExactly` | bundled/extensions/guardrail.ts:671-776 | a poll aborts, re-prompts or gives up exactly when the run is overdue, by tools in flight and budgets |
| `RunGuards.HungToolIsAborted` | bundled/extensions/guardrail.ts:671-735 | a single silent tool is aborted if and only if more than 360 s, and more than its declared time plus 15 s, have passed |
| `RunGuards.SilentRunIsReprompted` | bundled/extensions/guardrail.ts:736-776 | a run silent without tools is re-prompted twice, then given up |
| `RunGuards.NothingWithinTimeout` | bundled/extensions/guardrail.ts:671-803 | over every run, no poll does anything within 360 s of an activity |
| `RunGuards.NothingAfterEnd` | bundled/extensions/guardrail.ts:804-809 | nor after the end of a run until a turn starts |
| `RunGuards.ToolsExactly` | bundled/extensions/guardrail.ts:783-799 | the tool in flight under an id: its start kept through updates, with the longest time declared, until it ends or the watch does |
| `RunGuards.DeclaredTimesAreWaitedOut` | bundled/extensions/guardrail.ts:675-700 | every abort over given in-flight tools, with starts, last activity and now in order, comes after all their declared times plus 15 s, if and only if all of them declare one or none of these exceeds the 360 s |
| `RunGuards.UndeclaredToolEndsTheWait` | bundled/extensions/guardrail.ts:687-695 | one tool without a declared time is enough for the abort, however long the others declare |
| `RunGuards.EveryRunKeepsClock` | bundled/extensions/guardrail.ts:783-803 | every tool's start is no later than the last activity, and that no later than now |
| `RunGuards.RunGuard.OnPoll` | bundled/extensions/guardrail.ts:671-776 | the poll, with its loop over the in-flight tools |
| `RunGuards.RunGuard.OnTurnEnd` | bundled/extensions/guardrail.ts:495-585 | the two turn-end handlers one after the other |
| `BatchFiles.RoundTrip` | bundled/extensions/guardrail.ts:861-871 | for any files, printing them as blocks and parsing that gives back the same list in order if and only if every path is non-empty, lies on one line, without space at its edges and without === starting inside it (or running into the closing ===) after its first character, and no content holds a header or has a newline at either edge |
| `BatchFiles.RoundTripUpToEdges` | bundled/extensions/guardrail.ts:869-871 | with such paths and without headers in the contents, only newlines at their edges are lost |
| `BatchFiles.ReadsAnyEnding` | bundled/extensions/guardrail.ts:869-871 | the last block is read whole with or without terminator, and with or without a newline before or after it |
| `BatchFiles.FinalNewlineIsOptional` | bundled/extensions/guardrail.ts:864-871 | a printed list without its final newline is read back as the same list |
| `BatchFiles.ParseBatch` | bundled/extensions/guardrail.ts:864-872 | the loop over the blocks parses the whole argument, in order |
| `BatchFiles.FindHeaderSplits` | bundled/extensions/guardrail.ts:864 | a header never reaches over the end of a line: the first one lies in the leading text or after it |
| `BatchFiles.SpaceExactly` | bundled/extensions/guardrail.ts:864-868 | the characters trimmed from a path, and those a header cannot cross |
| `DirectTools.ResolvedNames` | bundled/extensions/pi-mcp-adapter/direct-tools.ts:179-279 | resolved direct tools have pairwise distinct names, none built in, and every name is owned by the first eligible tool or resource in order, when it is not built in |
| `DirectTools.OfferedExactly` | bundled/extensions/pi-mcp-adapter/direct-tools.ts:179-279 | offered are exactly the visible and allowed tools, and exposed resources, of enabled servers with a valid cache that the environment, the server or the global setting asks for, in this precedence |
| `DirectTools.ResolveDirectTools` | bundled/extensions/pi-mcp-adapter/direct-tools.ts:168-293 | the loops over servers, tools and resources compute that list, and all its names are reserved also for unavailable servers |
| `DirectTools.EmitOwners` | bundled/extensions/pi-mcp-adapter/direct-tools.ts:284-286 | making servers unavailable hides their own tools only; no other server takes over a name |
| `DirectTools.DirectToolRegistry.SyncDirectTools` | bundled/extensions/pi-mcp-adapter/index.ts:329-368 | after a sync the registry is exactly name to fingerprint of the specs, and the three lists say what changed |
| `DirectTools.RegistryIsExact` | bundled/extensions/pi-mcp-adapter/index.ts:344-364 | each spec's name is registered with that spec, and no other name is |
| `DirectTools.SyncTwice` | bundled/extensions/pi-mcp-adapter/index.ts:344-364 | a second sync with the same specs changes nothing |
| `DirectTools.OfflineAndBack` | bundled/extensions/pi-mcp-adapter/index.ts:329-368 | a server going offline takes exactly its own tools out of the registry, and coming back puts exactly these in again |
| `Elicitation.CollectChoice` | bundled/extensions/pi-mcp-adapter/elicitation-handler.ts:126-144 | for any labels the shown actions are pairwise distinct, and picking the k-th one means the k-th value, the default or omission, or nothing when dismissed |
| `Elicitation.ActionsMean` | bundled/extensions/pi-mcp-adapter/elicitation-handler.ts:126-144 | the actions are the choices in order, then the default if any, then omission unless required, each under its own text with dots at most, and each means that |
| `Elicitation.CollectSelection` | bundled/extensions/pi-mcp-adapter/elicitation-handler.ts:166-178 | picking choices by their changing labels ends with the starting set toggled once per pick |
| `Elicitation.ToggledByParity` | bundled/extensions/pi-mcp-adapter/elicitation-handler.ts:174-177 | a value ends selected as it started, flipped once per pick of it |
| `Elicitation.MarksSelected` | bundled/extensions/pi-mcp-adapter/elicitation-handler.ts:168-169 | each choice is shown under its own label, after a check mark exactly when selected |
| `Elicitation.UniqueLabels` | bundled/extensions/pi-mcp-adapter/elicitation-handler.ts:272-280 | the labels are pairwise distinct, and the loop ends |
| `Elicitation.UniqueAction` | bundled/extensions/pi-mcp-adapter/elicitation-handler.ts:282-286 | the action is not among the labels, and the loop ends |
| `Elicitation.FreshIsFirst` | bundled/extensions/pi-mcp-adapter/elicitation-handler.ts:272-286 | as few suffixes as possible are appended: every shorter form is in use |
| `Elicitation.SuffixShrinks` | bundled/extensions/pi-mcp-adapter/elicitation-handler.ts:276 | each suffix takes a label out of those in use that are at least as long as the candidate |
| `Transcripts.SplitIntoFiles` | scripts/session-transcripts.ts:196-241 | every transcript is in exactly one file, in order; every file is within the limit or a single oversized transcript; two consecutive files never fit into one |
| `Transcripts.AddTranscript` | scripts/session-transcripts.ts:201-233 | one turn of the loop keeps that, and nothing is pending when an oversized transcript is written |
| `Transcripts.FileCountIsBounded` | scripts/session-transcripts.ts:203 | every two files together hold at least limit - 1 characters |
| `Transcripts.SizeIsConserved` | scripts/session-transcripts.ts:232 | the files hold every transcript once and one separator for each transcript that does not start a file |
| `Transcripts.JoinAppends` | scripts/session-transcripts.ts:232 | a file is its transcripts in order with a blank line between them |

## Left out

- Files, network, browser, processes, user interface: their results are inputs or arbitrary steps.
- The connection manager, the credential store and the runtime owner: only the current connection by name, a map of stored state texts, and a set of active owners.
- Text heuristics (garbled calls, completions, declared timeouts, visibility and include/exclude rules): arbitrary inputs.
- ProjectOverride.OverrideIsExact: the project file is the last source, as `getConfigSources` places it when its path differs from the user's and the project's; exclusive mode and coinciding paths are not modelled.
- LoadedCredentials.CredentialsOfLoaded: does not promise that bearerTokenStore stays with its url, because the code does not; the condition in it is exact, and `LoadedCredentials.StoreEndsUnderAnotherUrl` shows the failure.
- ProjectOverride: entries of plugins are arbitrary here, though the plugin loader never gives one a disabled flag.
- ProjectOverride.ProjectFile.WriteServerDisabledOverride: whether the file is reported as changed is not modelled, because that compares JSON text including the order of keys.
- Order of the keys of merged servers and entries: they are maps; a transport branch that deletes fields of a missing entry is the same as one that does not run.
- The imports and settings parts of `mergeConfigs`, the import file formats, and the conflict and provenance reports: the first are plain unions, the reports do not always name the layer that wins.
- KeepAlive.DisciplinedRunsAreFenced: that no other definition is registered over a registered one is a condition, because `bundled/extensions/pi-mcp-adapter/init.ts:497` registers the present entry after a lazy connect, and `bundled/extensions/pi-mcp-adapter/index.ts:375` may have replaced that entry object; likewise that a closed connection object does not become current again.
- KeepAlive: idle shutdown of other servers, the health-check interval and the logged warnings; the limit of ten concurrent checks, since passes may begin in any order anyway; a callback that has been unset by a shutdown is treated as one that does nothing.
- SessionLifecycle: what a session does with an installed state, tool surface updates and runtime-registered servers; a handler's own timeout, which leaves no trace.
- OAuthPending: that every stored state text is released by its own flow only, which the code does not promise; `OAuthPending.ReleaseLosesExactly` says when it fails. Reading the store is synchronous (`bundled/extensions/pi-mcp-adapter/mcp-auth.ts:938`).
- OAuthPending: the callback server and the authorization exchange itself; they decide only when a cleanup comes and which state it carries.
- FailureBackoff: the rest of a lazy connect after it starts connecting, and metadata notifications.
- ReserveLine: 0.531 is taken as the rational 531/1000 and windows as integers, so double rounding is not modelled.
- Compaction.GapExactly: for a handler suspended for 120 s or longer only the sufficient direction is stated; its window request is aborted after 8 s. A gap after a session start is not promised.
- Compaction: the resume prompt after a mid-run compaction, and an event without preparation data, which the handler ignores.
- RunGuards: the prompt sent after a hung-tool abort has settled, the broken-call blocker, and the timer's own start and stop.
- BatchFiles: writing the files.
- DirectTools: the host's list of active tools and its fallback when it cannot unregister; a spec stands for its own fingerprint, which serializes all its fields.
- Elicitation: free text, boolean fields and validation; the order of the selected values, which are a set; dismissing a multiple choice halfway, which discards it.
- Transcripts: file names, which only number the files.
