# Supamachine authentication state machine, in Dafny

Supamachine drives an application's sign-in lifecycle. It checks for a session, loads per-user context, runs app initialisation and ends in AUTH_READY, with an error state for each failing step. This project models its core:

- **Reducer** (`src/core/reducer.ts`): a pure transition function. It returns a fresh state object, or the input object itself for a rejected or ignored event. It throws for a status it has no case for. `Reducer.Step` makes that reference identity visible: `Changed(next)` is a fresh object, `Unchanged(warned)` is the input returned again, and `Fatal` is the throw.
- **Vocabulary** (`src/core/constants.ts`, `states.ts`, `events.ts`): the status and event-type name sets, the ten-variant state union and the event union. The core reads four properties that the two name records do not define: `AuthStateStatus.CHECKING`, `AuthStateStatus.ERROR_CHECKING`, `AuthEventType.ERROR_CHECKING` and `AuthEventType.AUTH_RESOLVED`. The model reads them as the intended names: `CHECKING_SESSION`, `ERROR_CHECKING_SESSION`, `ERROR_CHECKING_SESSION` and an AUTH_RESOLVED event type outside the vocabulary. "## Left out" says what the code does instead.
- **Orchestrator** (`src/core/runtime.ts`): the `SupamachineCore` class. Its fields hold the state, the session captured for loading and the listener set.
  - `Dispatch` reduces the event, updates the captured session and notifies every listener.
  - It then starts effects only on status edges. Without a loader, it resolves an empty context in the same call.
  - A started `loadContext`/`initializeApp` race is a `Task` in `inFlight`. The environment settles it later with `CompleteLoad`/`CompleteInit`. A timeout is one of the failure outcomes, with the source's error messages.
  - Listener calls are appended to the `delivered` log.
  - Contexts are instances of a class, so the reference test in `updateContext` is modelled exactly.
- **Logger** (`src/core/logger.ts`): the level order, the per-channel thresholds and the case-insensitive `parseLogLevel`.
- **Flowchart generator** (`scripts/generate-flowchart.ts`). The model covers:
  - the probe of every (state fixture, event fixture) pair through the reducer;
  - grouping of edges by `from|||to`;
  - splitting of the keys;
  - the sort by display order;
  - the Mermaid lines.
  
  On the script's own fixtures the probe reaches the AUTHENTICATING fixture, and the reducer throws. `Flowchart.FixturesThrow` proves this. The diagram lemmas hold for every fixture set without AUTHENTICATING.

Modules: `Wrappers` (Option), `Constants`, `States`, `Events`, `Reducer`, `Logger`, `Runtime`, `RuntimeScenarios` (client runs following tests/runtime.test.ts) and `Flowchart`.

Where the code and its design notes or tests disagree, the model follows the code:
- The reducer has no AUTHENTICATING case, so that status throws.
- AUTH_CHANGED never compares user ids, so the same user's session also restarts loading.
- `refreshContext`, `beginAuth` and `cancelAuth` do not exist in `runtime.ts`.

There are two exceptions. The first is the four undefined name reads described under Vocabulary above.

The second is `updateContext` (src/core/runtime.ts:78-81). After the await it spreads the new context into whatever state is current. The class's `ResumeUpdateContext` is the corrected form: it applies the update only while the state is still the AUTH_READY state the updater saw. The code as written is `Runtime.UpdateAfterAwaitAsWritten`, and the "## Findings" table records the difference.

## Model

| member | source | states |
|---|---|---|
| Wrappers.Option.GetOr | src/core/runtime.ts:56-60 | `??`: the value when present, the default otherwise |
| Constants.StatusFromName | src/core/constants.ts:8-19 | every status name parses back to its status; a parsed name is that status's name |
| Constants.EventTypeFromName | src/core/constants.ts:23-33 | every event-type name parses back to its type; a parsed name is that type's name |
| Constants.StatusVocabulary | src/core/constants.ts:8-19 | exactly ten statuses, all listed, with pairwise distinct names |
| Constants.EventTypeVocabulary | src/core/constants.ts:23-33 | exactly nine event types including AUTH_INITIATED and AUTH_CANCELLED, pairwise distinct names |
| Constants.SharedNames | src/core/constants.ts:1-35 | a status name equals an event-type name exactly for the four pairs START, ERROR_CHECKING_SESSION, ERROR_CONTEXT, ERROR_INITIALIZING, although the types stay distinct |
| States.SessionOf | src/core/states.ts:18-41 | a session is present exactly in CONTEXT_LOADING, ERROR_CONTEXT, INITIALIZING, ERROR_INITIALIZING and AUTH_READY |
| States.ErrorOf | src/core/states.ts:9-37 | an error is present exactly in the three ERROR_* variants |
| States.ContextOf | src/core/states.ts:5-42 | context is null in the seven pre-initialisation variants and present in INITIALIZING and ERROR_INITIALIZING; AUTH_READY may hold null |
| Events.TypeOf | src/core/events.ts:4-20 | AUTH_RESOLVED is the one event whose type is not in the event-type name set; AUTH_CHANGED and ERROR_CHECKING map to their name-set entries |
| Events.ErrorCarried | src/core/events.ts:18-20 | an error is carried exactly by the three error events |
| Reducer.Reducer | src/core/reducer.ts:23-194 | throws exactly for AUTHENTICATING and never produces it; AUTH_CHANGED yields CONTEXT_LOADING with the event's session or SIGNED_OUT, without comparing users; CONTEXT_LOADING is entered only by AUTH_CHANGED with that session; other transitions keep the session; the result's error is exactly the event's error; CONTEXT_RESOLVED installs the event's context and INITIALIZED/ERROR_INITIALIZING keep the context |
| Reducer.InvalidTransition | src/core/reducer.ts:15-21 | the default branch: no new state, and a warning |
| Reducer.NoOpExactlyUnlisted | src/core/reducer.ts:15-21 | the input comes back exactly for the pairs without a case and for SIGNED_OUT + AUTH_CHANGED(null); only the former warn |
| Reducer.Next | src/core/reducer.ts:23-194 | the state the caller holds afterwards; a status change happens only through a listed case |
| Reducer.PipelineSteps | src/core/reducer.ts:30-113 | START+START gives CHECKING_SESSION with null context; CONTEXT_RESOLVED and INITIALIZED carry session and context forward; each error event stores its error and keeps what the failed step had |
| Reducer.UnusedEventsRejected | src/core/reducer.ts:35-183 | AUTH_INITIATED, AUTH_CANCELLED and AUTH_RESOLVED are invalid transitions in every handled status |
| Reducer.SignOutFromEverywhere | src/core/reducer.ts:43-179 | AUTH_CHANGED(null) gives SIGNED_OUT from every handled status after START, and the silent no-op from SIGNED_OUT |
| Reducer.SessionRestartsLoading | src/core/reducer.ts:43-177 | AUTH_CHANGED with a session gives CONTEXT_LOADING with exactly that session from every handled status after START |
| Reducer.RunAvoidsAuthenticating | src/core/reducer.ts:187-190 | a run from any status but AUTHENTICATING never throws and never reaches AUTHENTICATING |
| Reducer.AuthenticatingUnreachable | src/core/reducer.ts:187-190 | from START, AUTHENTICATING is unreachable and the throwing default is never taken |
| Logger.EnabledChannels | src/core/logger.ts:24-39 | a channel is enabled exactly when the level reaches its threshold (error 1, warn 2, info 3, debug 4) |
| Logger.EnabledMonotone | src/core/logger.ts:1-39 | a higher level enables a superset of channels |
| Logger.ChannelAt | src/core/logger.ts:24-39 | the channel switched on at a level has that level as its threshold |
| Logger.ExactlyLevelMany | src/core/logger.ts:1-39 | level n enables exactly n channels |
| Logger.ToLower | src/core/logger.ts:47 | lower-casing keeps the length and folds each letter |
| Logger.ParseLogLevel | src/core/logger.ts:43-54 | undefined gives WARN; any other result is the level whose name the lower-cased input is |
| Logger.ParseExactly | src/core/logger.ts:43-54 | a non-WARN level is parsed exactly from its lower-cased name; everything else, including undefined and empty, is WARN |
| Logger.ToLowerIdempotent | src/core/logger.ts:47 | lower-casing twice is lower-casing once |
| Logger.ParseIgnoresCase | src/core/logger.ts:43-54 | parsing does not depend on letter case |
| Logger.NameRoundTrip | src/core/logger.ts:1-54 | each level's lower-case and upper-case names parse back to it |
| Runtime.ComputeAppState | src/core/runtime.ts:29-40 | `mapState`'s value exactly in AUTH_READY with a mapper, the core state itself otherwise |
| Runtime.SessionForLoadingAfter | src/core/runtime.ts:89-98 | AUTH_RESOLVED and AUTH_CHANGED set the captured session to the event's session, or clear it for none; every other event leaves it as it was |
| Runtime.LoadEvent | src/core/runtime.ts:143-159 | a loaded context becomes CONTEXT_RESOLVED with that context; a rejection becomes ERROR_CONTEXT with its error, and a timeout ERROR_CONTEXT with "loadContext timeout" |
| Runtime.InitEvent | src/core/runtime.ts:167-185 | success becomes INITIALIZED; a rejection becomes ERROR_INITIALIZING with its error, and a timeout ERROR_INITIALIZING with "initializeApp timeout" |
| Runtime.LoadingSessionStaysInSync | src/core/runtime.ts:89-122 | every dispatch of an event other than AUTH_RESOLVED keeps the captured session equal to the CONTEXT_LOADING state's session |
| Runtime.AuthResolvedDesyncsLoadingSession | src/core/runtime.ts:89-98 | AUTH_RESOLVED(null) in CONTEXT_LOADING is rejected by the reducer but still clears the captured session |
| Runtime.LoadOutcomeLands | src/core/runtime.ts:143-159 | a load success resolves to INITIALIZING with the loaded context; a rejection or timeout gives ERROR_CONTEXT with its error; the session stays |
| Runtime.LoadOutcomeOutsideLoading | src/core/runtime.ts:149-158 | a load result arriving outside CONTEXT_LOADING is an invalid transition |
| Runtime.InitOutcomeLands | src/core/runtime.ts:176-185 | an init success gives AUTH_READY and a failure or timeout gives ERROR_INITIALIZING, keeping session and context |
| Runtime.SessionSwitchWhileLoading | src/core/runtime.ts:102-104 | a new session while loading replaces the state and starts no second load |
| Runtime.Launches | src/core/runtime.ts:102-129 | at most one task, only on a status change: a load exactly on entering CONTEXT_LOADING with a loader, an initialisation exactly on CONTEXT_LOADING to INITIALIZING with an initializer, with the new state's session and context |
| Runtime.EnteringLoadingCarriesSession | src/core/runtime.ts:102-107 | on entering CONTEXT_LOADING the event was AUTH_CHANGED with that session, which the bookkeeping captured |
| Runtime.NotifyAll | src/core/runtime.ts:201-204 | one call per registered listener, in order, each with the current state and its app state |
| Runtime.EachListenerOnce | src/core/runtime.ts:201-204 | with set semantics, each registered listener is called exactly once and others never |
| Runtime.RemoveListener | src/core/runtime.ts:190 | `delete` removes exactly that listener, keeps set semantics, and changes nothing when the listener is absent |
| Runtime.RemoveListenerKeepsOrder | src/core/runtime.ts:188-191 | deleting a registered listener leaves the others in insertion order |
| Runtime.ResumedState | src/core/runtime.ts:70-83 | the intended update: only in the AUTH_READY state whose context the updater saw, only for a different reference, replacing only the context |
| Runtime.RecordsWellShaped | src/core/states.ts:5-42 | every state's record obeys the union's field-presence rules |
| Runtime.AsWrittenUpdateAfterSignOut | src/core/runtime.ts:78-81 | the update as written, after a sign-out during the await, leaves a SIGNED_OUT record with a context, and after a user switch overwrites the other user's context |
| Runtime.UpdateAfterAwaitAsWritten | src/core/runtime.ts:78-81 | the update as written: a record exactly when the updater returned a new reference, equal to the record of the state current after the await with only its context replaced |
| Runtime.ResumeAgreesWithoutInterleaving | src/core/runtime.ts:70-83 | when nothing changed during the await, the corrected and written updates coincide |
| Runtime.SupamachineCore.constructor | src/core/runtime.ts:43-63 | START, no captured session, no listeners, no tasks; timeouts default to 10000/30000 ms and the log level to WARN |
| Runtime.SupamachineCore.SetLogLevel | src/core/runtime.ts:65-68 | the level becomes the given one |
| Runtime.SupamachineCore.Emit | src/core/runtime.ts:201-204 | the log grows by one call per listener with the current state |
| Runtime.SupamachineCore.Dispatch | src/core/runtime.ts:85-130 | the reducer's state, the captured-session bookkeeping, one emit even for an unchanged state, and the effect of the status edge; without a loader the same call ends in INITIALIZING with a fresh empty context after two emits |
| Runtime.SupamachineCore.ResolveEmptyContext | src/core/runtime.ts:110-116 | CONTEXT_LOADING moves to INITIALIZING with the same session and a fresh context |
| Runtime.SupamachineCore.ReduceAndEmit | src/core/runtime.ts:86-100 | reduce, set or clear the captured session from AUTH_CHANGED/AUTH_RESOLVED, emit |
| Runtime.SupamachineCore.LoadContextWithTimeout | src/core/runtime.ts:132-147 | starts exactly one load race for the session when a loader exists |
| Runtime.SupamachineCore.InitializeAppWithTimeout | src/core/runtime.ts:162-177 | starts the initialisation race only in INITIALIZING with an initializer, on that state's session and context |
| Runtime.SupamachineCore.CompleteLoad | src/core/runtime.ts:143-159 | the settled load is removed and its event dispatched against the current state |
| Runtime.SupamachineCore.CompleteInit | src/core/runtime.ts:176-185 | the settled initialisation is removed and its event dispatched |
| Runtime.SupamachineCore.BeginUpdateContext | src/core/runtime.ts:70-77 | the updater runs exactly in AUTH_READY with a non-null context, on that context |
| Runtime.SupamachineCore.ResumeUpdateContext | src/core/runtime.ts:78-82 | corrected update; as written: Runtime.UpdateAfterAwaitAsWritten. Replaces only the context and emits once exactly when the state is still that AUTH_READY and the result is a new reference |
| Runtime.SupamachineCore.Subscribe | src/core/runtime.ts:188-191 | adds the listener once (set semantics) and hands back its removal handle |
| Runtime.SupamachineCore.Unsubscribe | src/core/runtime.ts:190 | removes exactly that listener; reports whether it was registered |
| Runtime.SupamachineCore.GetSnapshot | src/core/runtime.ts:193-195 | the current state |
| Runtime.SupamachineCore.GetAppState | src/core/runtime.ts:197-199 | the app state of the current state |
| RuntimeScenarios.HappyPath | tests/runtime.test.ts:12-34 | CHECKING_SESSION, CONTEXT_LOADING, one load with the session, one initialisation, AUTH_READY with the loaded context |
| RuntimeScenarios.LoadFailure | tests/runtime.test.ts:36-48 | with only a loader, a rejected load ends in ERROR_CONTEXT with that error and nothing pending |
| RuntimeScenarios.NoLoaderWithInitializer | tests/runtime.test.ts:50-62 | without a loader AUTH_CHANGED ends in INITIALIZING, starts one initialisation, and reaches AUTH_READY |
| RuntimeScenarios.NoCallbacks | src/core/runtime.ts:162-166 | with neither callback the core stays in INITIALIZING with nothing pending |
| RuntimeScenarios.MapStateView | tests/runtime.test.ts:64-80 | in AUTH_READY the app state is the mapper's value |
| RuntimeScenarios.UpdateContextNotifies | tests/runtime.test.ts:82-107 | a new context reference replaces the context and calls the subscriber once with the new snapshot; returning the same reference calls nobody |
| RuntimeScenarios.StaleLoadAppliedToNewSession | src/core/runtime.ts:102-152 | switching users while loading keeps one load for the old session, whose result becomes the new session's context |
| Flowchart.StateFixtures | scripts/generate-flowchart.ts:45-94 | ten fixtures with distinct statuses, AUTHENTICATING third |
| Flowchart.EventFixtures | scripts/generate-flowchart.ts:96-134 | ten fixtures with distinct labels, AUTH_CHANGED probed with and without a session |
| Flowchart.Throws | scripts/generate-flowchart.ts:145 | the reducer throws on a pair exactly when its state is AUTHENTICATING |
| Flowchart.EdgeOf | scripts/generate-flowchart.ts:145-154 | a pair yields an edge exactly when the result is not the input reference, named by both statuses and the event label |
| Flowchart.ProbeFromCharacterised | scripts/generate-flowchart.ts:143-156 | the probe throws iff some probed state is AUTHENTICATING, naming that status; otherwise the edges are exactly the changed pairs' edges, in order |
| Flowchart.ProbeThrowsIff | scripts/generate-flowchart.ts:143-146 | the probe throws iff some probed state is AUTHENTICATING, and the throw names that status |
| Flowchart.ProbeEdges | scripts/generate-flowchart.ts:147-154 | a probe that does not throw records exactly the changed pairs' edges, in order |
| Flowchart.EdgeRecordedIff | scripts/generate-flowchart.ts:143-156 | an edge is recorded iff some pair yields it |
| Flowchart.ProbeStatesIsProbeFrom | scripts/generate-flowchart.ts:143-144 | the nested loops visit all pairs in row-major order |
| Flowchart.FixturesThrow | scripts/generate-flowchart.ts:54-57 | on its own fixtures the script throws at AUTHENTICATING |
| Flowchart.EnumerateEdges | scripts/generate-flowchart.ts:140-156 | the loop's result is the probe of all pairs |
| Flowchart.IndexOf | scripts/generate-flowchart.ts:177 | the first position of the name, or -1 exactly when absent |
| Flowchart.StateOrder | scripts/generate-flowchart.ts:163-174 | the display order; `Flowchart.StateOrderRanksEveryStatus` shows that every status has one distinct place in it |
| Flowchart.StateIdx | scripts/generate-flowchart.ts:176-179 | the position in the display order, or its length exactly for an unknown name |
| Flowchart.StateOrderRanksEveryStatus | scripts/generate-flowchart.ts:163-174 | every status has a place, and distinct statuses distinct places |
| Flowchart.StatusKeyRanksDistinct | scripts/generate-flowchart.ts:163-193 | keys built from two different status pairs have different sort ranks |
| Flowchart.FindSep | scripts/generate-flowchart.ts:190 | the first separator occurrence at or after a position, or none |
| Flowchart.Split | scripts/generate-flowchart.ts:190-191 | splitting gives at least one piece |
| Flowchart.SplitJoin | scripts/generate-flowchart.ts:190-191 | joining the pieces with the separator gives back the string |
| Flowchart.SplitPiecesHaveNoSep | scripts/generate-flowchart.ts:190-191 | no piece of a split contains the separator |
| Flowchart.SplitCutsLeftmost | scripts/generate-flowchart.ts:190-191 | the first piece ends at the leftmost separator: there is more than one piece exactly when the string holds a separator, and none starts inside the first piece |
| Flowchart.KeySplits | scripts/generate-flowchart.ts:184-224 | splitting `from|||to` gives back `[from, to]` when neither contains a bar |
| Flowchart.StatusNamesHaveNoBar | scripts/generate-flowchart.ts:184 | no status name contains a bar |
| Flowchart.KeyIndex | scripts/generate-flowchart.ts:185-186 | the entry for a key, or the count of entries when absent |
| Flowchart.GroupEdges | scripts/generate-flowchart.ts:182-187 | `edgeMap` after the grouping loop, with at most one entry per edge; `Flowchart.GroupEdgesMerges` states its entries |
| Flowchart.GroupKeysDistinct | scripts/generate-flowchart.ts:182-187 | the grouped map never holds one key twice |
| Flowchart.GroupLabelsExact | scripts/generate-flowchart.ts:182-187 | each entry holds exactly the labels of the edges with its key, in enumeration order |
| Flowchart.GroupKeysPresent | scripts/generate-flowchart.ts:182-187 | a key has an entry exactly when some edge carries it |
| Flowchart.GroupEdgesMerges | scripts/generate-flowchart.ts:182-187 | distinct keys; a key has an entry iff some edge has it; each entry holds exactly its edges' labels in enumeration order |
| Flowchart.GroupByPair | scripts/generate-flowchart.ts:182-187 | the grouping loop builds the grouped map |
| Flowchart.CompareIsRankOrder | scripts/generate-flowchart.ts:189-193 | the comparator answers "not after" exactly for the from-index, then to-index, order |
| Flowchart.Compare | scripts/generate-flowchart.ts:189-193 | the comparator returns 0 exactly for keys of equal rank; `Flowchart.CompareIsRankOrder` gives its sign |
| Flowchart.Insert | scripts/generate-flowchart.ts:189 | inserting adds exactly the one element to the multiset of keys |
| Flowchart.InsertKeepsSorted | scripts/generate-flowchart.ts:189 | inserting into a rank-sorted sequence keeps it sorted |
| Flowchart.SortBy | scripts/generate-flowchart.ts:189 | a permutation of the keys, sorted by rank |
| Flowchart.SortKeysSorts | scripts/generate-flowchart.ts:189-193 | the sorted keys are the same keys, in comparator order |
| Flowchart.Join | scripts/generate-flowchart.ts:225 | no labels join to the empty text, and a single label joins to itself |
| Flowchart.JoinSnoc | scripts/generate-flowchart.ts:225 | joining one more part appends the separator and that part, so the parts appear in order |
| Flowchart.LabelTextGrows | scripts/generate-flowchart.ts:182-225 | each further edge with a pair's key appends " / " and its label to that pair's text, in enumeration order |
| Flowchart.DiagramShape | scripts/generate-flowchart.ts:218-227 | opens with "stateDiagram-v2" and "[*] --> START", then one line per grouped key |
| Flowchart.Diagram | scripts/generate-flowchart.ts:218-227 | the header, then the line of each grouped key in sorted order; `Flowchart.DiagramShape`, `Flowchart.DiagramCoversEdges` and `Flowchart.DiagramOnlyEdges` state its lines |
| Flowchart.DiagramLineAt | scripts/generate-flowchart.ts:223-227 | the line after the header at position m is the line of the m-th sorted key |
| Flowchart.DiagramCoversEdges | scripts/generate-flowchart.ts:223-227 | every edge's pair gets a line with all of that pair's labels joined by " / " |
| Flowchart.DiagramOnlyEdges | scripts/generate-flowchart.ts:223-227 | every line after the header is such a line for some edge |
| Flowchart.ProbedEdgesHaveNoBar | scripts/generate-flowchart.ts:150-154 | probed edges are named by statuses, so their keys split back |
| Flowchart.FlowchartWithoutAuthenticating | scripts/generate-flowchart.ts:143-227 | without an AUTHENTICATING fixture the probe does not throw, and each recorded transition pair gets its line |
| Flowchart.RenderLines | scripts/generate-flowchart.ts:218-227 | the header, then one line per sorted key |
| Flowchart.GenerateFlowchart | scripts/generate-flowchart.ts:143-227 | no diagram when the probe throws, otherwise the diagram of the probed edges |

## Left out

- Console output: the logger's `console.*` calls and the reducer's warning text. Only whether an invalid transition warns is kept (`Step.Unchanged.warned`).
- Timers and `Promise.race`: a timeout is a failure outcome the environment chooses. The losing promise is neither cancelled nor modelled.
- The module-level reducer logger that `setReducerLogLevel` reassigns is global state outside the class. `SetLogLevel` records the level only.
- Throwing listeners and a throwing `mapState`: `Dispatch` assumes that every listener and `mapState` return normally. In the code, a throw inside `emit` (src/core/runtime.ts:201-204) aborts `dispatch` (src/core/runtime.ts:100) after the state and `sessionForLoading` are updated. The later listeners are not called and no edge effect starts, so CONTEXT_LOADING can be left with no load running. Inside the two timeout wrappers the throw is caught, and ERROR_CONTEXT or ERROR_INITIALIZING is then dispatched against a state that has already moved on, which is an invalid transition.
- The four undefined name reads. `AuthStateStatus.CHECKING` (src/core/reducer.ts:33, 40), `AuthStateStatus.ERROR_CHECKING` (src/core/reducer.ts:55, 167), `AuthEventType.ERROR_CHECKING` (src/core/reducer.ts:53) and `AuthEventType.AUTH_RESOLVED` (src/core/runtime.ts:89, 94; src/core/events.ts:8) are not keys of the records at src/core/constants.ts:8-33, so as the code runs each is `undefined`. The model reads them as the intended names instead. The effects of the code as it runs:
  - START + START yields a state whose status is `undefined`. That state then matches `case undefined`, the CHECKING branch.
  - The adapter sends its session-check error (src/supabase/adapter.ts:28-31, 40-43) with type `AuthEventType.ERROR_CHECKING`, which is `undefined`.
    - In the state that START + START yields, the event matches `case AuthEventType.ERROR_CHECKING` (src/core/reducer.ts:53). The result is `{status: undefined, error}`, which again behaves as the CHECKING branch.
    - In every other status no event case is `undefined`, so the event is an invalid transition.
    - src/core/events.ts:18 types this event with the string "ERROR_CHECKING", but no code sends that string.
  - A state with the status string "CHECKING_SESSION" matches no case and reaches the throwing default.
  - The AUTH_RESOLVED branches of `dispatch` (src/core/runtime.ts:89, 94) test `event.type === undefined`.
    - The adapter's session-check error has that type and no session, so it takes the branch at line 94 and clears `sessionForLoading`.
    - Suppose a getSession error or timeout settles after a sign-in has moved the core to CONTEXT_LOADING. The reducer rejects the event, so the state stays CONTEXT_LOADING, but the captured session is cleared.
  - Tests disagree as well: tests/reducer.test.ts:15 expects "CHECKING_SESSION", while tests/runtime.test.ts:23 expects `S.CHECKING`, which is `undefined`.
- Flowchart.FixturesThrow: holds under the intended names. As the code runs, the second state fixture, CHECKING_SESSION, already reaches the throwing default, so the script throws naming CHECKING_SESSION before it reaches AUTHENTICATING.
- Events.TypeOf: maps ERROR_CHECKING to ERROR_CHECKING_SESSION under the intended names. As the code runs, the adapter sends that event with type `undefined`, and both the reducer and `dispatch` compare it with their `undefined` reads.
- Runtime.AuthResolvedDesyncsLoadingSession: stated for AUTH_RESOLVED under its intended name. As the code runs, the adapter's session-check error, whose type is `undefined`, reaches the same desync: CONTEXT_LOADING stays, and `sessionForLoading` is cleared.
- Runtime.LoadingSessionStaysInSync: stated under the intended names, where AUTH_RESOLVED is a real event type. As the code runs, it is the adapter's `undefined`-typed session-check error, not an AUTH_RESOLVED event, that takes the AUTH_RESOLVED branch of the bookkeeping. So the invariant also fails after that error.
- Listener re-entrancy: a listener that dispatches or unsubscribes during `emit` is not modelled. Listener bodies are calls into unseen code, recorded in the `delivered` log.
- `loadContext`, `initializeApp` and the `mapState` body are caller code. The first two are present or absent, and `mapState` is a function value.
- `context: {} as C` (the empty context) is a fresh `Context` instance, and the generic context type is that class.
- src/react, src/supabase, src/core/types.ts, src/index.ts and the example apps are not part of this model. They hold bindings, client I/O and stale type re-exports.
- The script's file writes, argv handling, colour class definitions and Markdown table (scripts/generate-flowchart.ts:195-216, 229-275). The diagram is modelled up to the edge lines.
- Flowchart.SortBy: proves a sorted permutation, not stability. Keys built from two different status pairs have different ranks (`Flowchart.StatusKeyRanksDistinct`), so stability never decides the order of the script's keys.
- Logger.ToLower: folds ASCII letters only. JavaScript's `toLowerCase` also folds letters of other scripts, which never produce the five level names.
- Runtime.LoadingSessionStaysInSync: holds only for events other than AUTH_RESOLVED. `Runtime.AuthResolvedDesyncsLoadingSession` shows why.
- Runtime.SupamachineCore.Dispatch: for the empty-context path it states that the state is INITIALIZING with the same session and a fresh context. It does not name the context object.
- The transitions the design notes and tests describe but the reducer does not have: AUTHENTICATING cases, same-user suppression, the AUTH_READY session swap, and `refreshContext`/`beginAuth`/`cancelAuth`.

## Findings

| source | as written | input that shows it | evidently intended | confidence | as-written member | corrected member |
|---|---|---|---|---|---|---|
| src/core/runtime.ts:78-81 | after `await updater(current)`, the new context is spread into whatever state is current by then | AUTH_READY(u, c), `updateContext` starts, AUTH_CHANGED(null) settles during the await, updater returns c' ≠ c: the state becomes a SIGNED_OUT record holding c' | apply the update only if the state is still the AUTH_READY state whose context the updater saw | medium, not executed | Runtime.AsWrittenUpdateAfterSignOut | Runtime.SupamachineCore.ResumeUpdateContext |
