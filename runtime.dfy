/**
 * The orchestrator of src/core/runtime.ts. `SupamachineCore` owns the
 * current state, the session captured for context loading and the listener
 * set. The external pieces are modelled as follows:
 *  - listeners are identified by ids, and each call into a listener is
 *    appended to the `delivered` log;
 *  - `loadContext` and `initializeApp` are only ever started here: a started
 *    call is a `Task` record in `inFlight`, and the environment later settles
 *    it through `CompleteLoad` / `CompleteInit` with an outcome (a timeout
 *    is one of the failure outcomes);
 *  - `mapState` is a function value, `loadContext` and `initializeApp`
 *    are present or absent.
 */
module Runtime {
  import opened Wrappers
  import opened Constants
  import opened States
  import opened Events
  import opened Reducer
  import Logger

  const DEFAULT_LOAD_CONTEXT_TIMEOUT_MS: int := 10_000
  const DEFAULT_INITIALIZE_APP_TIMEOUT_MS: int := 30_000
  const DEFAULT_LOG_LEVEL: Logger.LogLevel := Logger.WARN

  datatype RuntimeOptions<D> = RuntimeOptions(
    hasLoadContext: bool,
    mapState: Option<CoreState -> D>,
    hasInitializeApp: bool,
    loadContextTimeoutMs: Option<int>,
    initializeAppTimeoutMs: Option<int>,
    logLevel: Option<Logger.LogLevel>)

  /** What consumers see: the core state, or `mapState`'s value in AUTH_READY. */
  datatype AppState<D> = CoreView(core: CoreState) | Mapped(mapped: D)

  function ComputeAppState<D>(s: CoreState, mapState: Option<CoreState -> D>): (r: AppState<D>)
    ensures r.Mapped? <==> s.AuthReady? && mapState.Some?
    ensures r.Mapped? ==> r.mapped == mapState.value(s)
    ensures r.CoreView? ==> r.core == s
  {
    if !s.AuthReady? then CoreView(s)
    else if mapState.Some? then Mapped(mapState.value(s))
    else CoreView(s)
  }

  type ListenerId = nat

  /** One call `l(coreState, appState)` of a listener. */
  datatype Notification<D> = Notification(listener: ListenerId, coreState: CoreState, appState: AppState<D>)

  /** A started, not yet settled, `loadContext` or `initializeApp` race. */
  datatype Task =
    | LoadContextTask(session: Session)
    | InitializeAppTask(session: Session, context: Context)

  /** How a `loadContext` race settles. */
  datatype LoadOutcome = Loaded(context: Context) | LoadRejected(error: Error) | LoadTimedOut

  /** How an `initializeApp` race settles. */
  datatype InitOutcome = InitDone | InitRejected(error: Error) | InitTimedOut

  const LOAD_TIMEOUT_ERROR: Error := Error("loadContext timeout")
  const INIT_TIMEOUT_ERROR: Error := Error("initializeApp timeout")

  /** The event `loadContextWithTimeout` dispatches once its race settles. */
  function LoadEvent(o: LoadOutcome): (r: AuthEvent)
    ensures r.ContextResolved? <==> o.Loaded?
    ensures r.ContextResolved? ==> r.context == o.context
    ensures !r.ContextResolved? ==> r.ErrorContextEvent? && r.error == (if o.LoadRejected? then o.error else LOAD_TIMEOUT_ERROR)
  {
    match o
    case Loaded(context) => ContextResolved(context)
    case LoadRejected(error) => ErrorContextEvent(error)
    case LoadTimedOut => ErrorContextEvent(LOAD_TIMEOUT_ERROR)
  }

  /** The event `initializeAppWithTimeout` dispatches once its race settles. */
  function InitEvent(o: InitOutcome): (r: AuthEvent)
    ensures r.Initialized? <==> o.InitDone?
    ensures !r.Initialized? ==> r.ErrorInitializingEvent? && r.error == (if o.InitRejected? then o.error else INIT_TIMEOUT_ERROR)
  {
    match o
    case InitDone => Initialized
    case InitRejected(error) => ErrorInitializingEvent(error)
    case InitTimedOut => ErrorInitializingEvent(INIT_TIMEOUT_ERROR)
  }

  /** `sessionForLoading` after the event bookkeeping of `dispatch`. */
  function SessionForLoadingAfter(sfl: Option<Session>, e: AuthEvent): (r: Option<Session>)
    ensures r != sfl ==> (e.AuthResolved? || e.AuthChanged?) && r == e.session
    ensures (e.AuthResolved? || e.AuthChanged?) ==> r == e.session
  {
    if e.AuthResolved? || e.AuthChanged? then e.session else sfl
  }

  /** `sessionForLoading` at the end of a dispatch that does not resolve an empty context. */
  function SessionAfterDispatch(prev: CoreState, sfl: Option<Session>, e: AuthEvent): Option<Session>
    requires !prev.Authenticating?
  {
    if EntersSignedOut(prev, Next(prev, e)) then None else SessionForLoadingAfter(sfl, e)
  }

  /** The session captured for loading is the CONTEXT_LOADING state's own session. */
  predicate LoadingSessionInSync(s: CoreState, sfl: Option<Session>) {
    s.ContextLoading? ==> sfl == Some(s.session)
  }

  /** Every dispatch of an event other than AUTH_RESOLVED keeps the captured session in sync. */
  lemma LoadingSessionStaysInSync(prev: CoreState, sfl: Option<Session>, e: AuthEvent)
    requires !prev.Authenticating? && !e.AuthResolved?
    requires LoadingSessionInSync(prev, sfl)
    ensures LoadingSessionInSync(Next(prev, e), SessionAfterDispatch(prev, sfl, e))
  {
    var next := Next(prev, e);
    if next.ContextLoading? && !e.AuthChanged? {
      assert Reducer.Reducer(prev, e).Unchanged?;
    }
  }

  /**
   * AUTH_RESOLVED is rejected by the reducer but still rewrites the captured
   * session: with a null session, CONTEXT_LOADING stays and the captured
   * session is gone.
   */
  lemma AuthResolvedDesyncsLoadingSession(session: Session)
    ensures LoadingSessionInSync(ContextLoading(session), Some(session))
    ensures Next(ContextLoading(session), AuthResolved(None)) == ContextLoading(session)
    ensures !LoadingSessionInSync(ContextLoading(session), SessionAfterDispatch(ContextLoading(session), Some(session), AuthResolved(None)))
  {
    assert Reducer.Reducer(ContextLoading(session), AuthResolved(None)).Unchanged?;
  }

  /** A load result landing in CONTEXT_LOADING: the session stays, the context or the error is stored. */
  lemma LoadOutcomeLands(session: Session, o: LoadOutcome)
    ensures o.Loaded? ==> Next(ContextLoading(session), LoadEvent(o)) == Initializing(session, o.context)
    ensures o.LoadRejected? ==> Next(ContextLoading(session), LoadEvent(o)) == ErrorContext(session, o.error)
    ensures o.LoadTimedOut? ==> Next(ContextLoading(session), LoadEvent(o)) == ErrorContext(session, LOAD_TIMEOUT_ERROR)
  {
    assert Reducer.Reducer(ContextLoading(session), LoadEvent(o)).Changed?;
  }

  /** A load result arriving in any other status is rejected as an invalid transition. */
  lemma LoadOutcomeOutsideLoading(s: CoreState, o: LoadOutcome)
    requires !s.ContextLoading? && !s.Authenticating?
    ensures Reducer.Reducer(s, LoadEvent(o)) == InvalidTransition()
  {
    NoOpExactlyUnlisted(s, LoadEvent(o));
  }

  /** An initialization result landing in INITIALIZING keeps both the session and the context. */
  lemma InitOutcomeLands(session: Session, context: Context, o: InitOutcome)
    ensures o.InitDone? ==> Next(Initializing(session, context), InitEvent(o)) == AuthReady(session, context)
    ensures o.InitRejected? ==> Next(Initializing(session, context), InitEvent(o)) == ErrorInitializing(session, context, o.error)
    ensures o.InitTimedOut? ==> Next(Initializing(session, context), InitEvent(o)) == ErrorInitializing(session, context, INIT_TIMEOUT_ERROR)
  {
    assert Reducer.Reducer(Initializing(session, context), InitEvent(o)).Changed?;
  }

  /** A new session while loading replaces the state but starts no second load. */
  lemma SessionSwitchWhileLoading(a: Session, b: Session, hasLoadContext: bool, hasInitializeApp: bool)
    ensures Next(ContextLoading(a), AuthChanged(Some(b))) == ContextLoading(b)
    ensures Reducer.Reducer(ContextLoading(a), AuthChanged(Some(b))).Changed?
    ensures Launches(ContextLoading(a), ContextLoading(b), hasLoadContext, hasInitializeApp) == []
  {
    SessionRestartsLoading(ContextLoading(a), b);
  }

  predicate EntersLoading(prev: CoreState, next: CoreState) {
    next.ContextLoading? && !prev.ContextLoading?
  }

  predicate EntersSignedOut(prev: CoreState, next: CoreState) {
    next.SignedOut? && !prev.SignedOut?
  }

  predicate StartsInitialization(prev: CoreState, next: CoreState) {
    next.Initializing? && prev.ContextLoading?
  }

  /**
   * The task a status edge starts (the synchronous empty-context dispatch
   * without `loadContext` aside): at most one, and only when the status
   * actually changes.
   */
  function Launches(prev: CoreState, next: CoreState, hasLoadContext: bool, hasInitializeApp: bool): (r: seq<Task>)
    ensures |r| <= 1
    ensures r != [] ==> StatusOf(prev) != StatusOf(next)
    ensures r != [] && r[0].LoadContextTask? <==> EntersLoading(prev, next) && hasLoadContext
    ensures r != [] && r[0].InitializeAppTask? <==> StartsInitialization(prev, next) && hasInitializeApp
    ensures r != [] ==> SessionOf(next) == Some(r[0].session)
    ensures r != [] && r[0].InitializeAppTask? ==> ContextOf(next) == r[0].context
  {
    if EntersLoading(prev, next) then
      (if hasLoadContext then [LoadContextTask(next.session)] else [])
    else if EntersSignedOut(prev, next) then []
    else if StartsInitialization(prev, next) && hasInitializeApp then [InitializeAppTask(next.session, next.context)]
    else []
  }

  /**
   * On the edge into CONTEXT_LOADING the event was AUTH_CHANGED with the new
   * state's session, so the bookkeeping has just captured that session.
   */
  lemma EnteringLoadingCarriesSession(prev: CoreState, sfl: Option<Session>, e: AuthEvent)
    requires !prev.Authenticating?
    requires EntersLoading(prev, Next(prev, e))
    ensures e == AuthChanged(Some(Next(prev, e).session))
    ensures SessionForLoadingAfter(sfl, e) == Some(Next(prev, e).session)
  {
    assert Reducer.Reducer(prev, e).Changed?;
  }

  /** The listener calls of one `emit`: each registered listener, in insertion order, with the same pair. */
  function NotifyAll<D>(ls: seq<ListenerId>, s: CoreState, mapState: Option<CoreState -> D>): (r: seq<Notification<D>>)
    ensures |r| == |ls|
    ensures forall k :: 0 <= k < |ls| ==> r[k].listener == ls[k] && r[k].coreState == s
    ensures forall k :: 0 <= k < |ls| ==> r[k].appState == ComputeAppState(s, mapState)
  {
    seq(|ls|, k requires 0 <= k < |ls| => Notification(ls[k], s, ComputeAppState(s, mapState)))
  }

  predicate NoDuplicates<T(==)>(s: seq<T>) {
    forall i, j :: 0 <= i < j < |s| ==> s[i] != s[j]
  }

  /** With a duplicate-free listener set, one emit calls each registered listener exactly once. */
  lemma EachListenerOnce<D>(ls: seq<ListenerId>, s: CoreState, mapState: Option<CoreState -> D>, l: ListenerId)
    requires NoDuplicates(ls)
    ensures l in ls ==> |set k | 0 <= k < |ls| && NotifyAll(ls, s, mapState)[k].listener == l| == 1
    ensures l !in ls ==> forall n :: n in NotifyAll(ls, s, mapState) ==> n.listener != l
  {
    var r := NotifyAll(ls, s, mapState);
    if l in ls {
      var i :| 0 <= i < |ls| && ls[i] == l;
      assert (set k | 0 <= k < |ls| && r[k].listener == l) == {i};
    }
  }

  /** `Set.delete` on the insertion-ordered listener set. */
  function RemoveListener(ls: seq<ListenerId>, fn: ListenerId): (r: seq<ListenerId>)
    ensures fn !in r
    ensures forall x :: x != fn ==> (x in r <==> x in ls)
    ensures NoDuplicates(ls) ==> NoDuplicates(r)
    ensures |r| <= |ls|
    ensures fn !in ls ==> r == ls
  {
    if ls == [] then []
    else if ls[0] == fn then RemoveListener(ls[1..], fn)
    else
      var rest := RemoveListener(ls[1..], fn);
      assert ls[0] !in ls[1..] ==> ls[0] !in rest;
      [ls[0]] + rest
  }

  /** Deleting a registered listener keeps the others in insertion order. */
  lemma {:induction false} RemoveListenerKeepsOrder(a: seq<ListenerId>, fn: ListenerId, b: seq<ListenerId>)
    requires fn !in a && fn !in b
    ensures RemoveListener(a + [fn] + b, fn) == a + b
    decreases |a|
  {
    if a == [] {
      assert (a + [fn] + b)[1..] == b;
    } else {
      RemoveListenerKeepsOrder(a[1..], fn, b);
      assert (a + [fn] + b)[1..] == a[1..] + [fn] + b;
      assert a + b == [a[0]] + (a[1..] + b);
    }
  }

  function RemoveAt<T>(s: seq<T>, i: nat): (r: seq<T>)
    requires i < |s|
    ensures |r| == |s| - 1
    ensures forall k :: 0 <= k < i ==> r[k] == s[k]
    ensures forall k :: i <= k < |r| ==> r[k] == s[k + 1]
  {
    s[..i] + s[i + 1..]
  }

  /** Whether a dispatch of `e` from `prev` goes through the synchronous empty-context resolution. */
  predicate ResolvesEmpty(prev: CoreState, e: AuthEvent, hasLoadContext: bool)
    requires !prev.Authenticating?
  {
    EntersLoading(prev, Next(prev, e)) && !hasLoadContext
  }

  /**
   * The update that `updateContext` is meant to make once the updater has
   * returned `next` for `current`: replace only the context, and only if the
   * state is still the AUTH_READY state whose context the updater saw and
   * `next` is a different reference.
   */
  function ResumedState(s: CoreState, current: Context, next: Context): (r: Option<CoreState>)
    ensures r.Some? <==> s.AuthReady? && s.readyContext == current && next != current
    ensures r.Some? ==> StatusOf(r.value) == AUTH_READY && SessionOf(r.value) == SessionOf(s)
    ensures r.Some? ==> ContextOf(r.value) == next
  {
    if s.AuthReady? && s.readyContext == current && next != current then Some(AuthReady(s.session, next))
    else None
  }

  /**
   * A state object as the plain record JavaScript holds, on which the
   * spread `{ ...this.state, context: next }` operates.
   */
  datatype StateRecord = StateRecord(status: AuthStateStatus, session: Option<Session>, context: Context?, error: Option<Error>)

  function RecordOf(s: CoreState): StateRecord {
    StateRecord(StatusOf(s), SessionOf(s), ContextOf(s), ErrorOf(s))
  }

  /** The field-presence rules of the `CoreState` union, on a record. */
  predicate WellShaped(r: StateRecord) {
    && (r.session.Some? <==> r.status in SessionStatuses)
    && (r.error.Some? <==> r.status in ErrorStatuses)
    && (r.status in NullContextStatuses ==> r.context == null)
    && (r.status == INITIALIZING || r.status == AuthStateStatus.ERROR_INITIALIZING ==> r.context != null)
  }

  /** Every union member's record obeys the rules. */
  lemma RecordsWellShaped(s: CoreState)
    ensures WellShaped(RecordOf(s))
  {}

  /**
   * `updateContext` as written, after `await updater(current)` returned
   * `next`: the spread is applied to whatever state is current by then.
   */
  function UpdateAfterAwaitAsWritten(now: CoreState, current: Context, next: Context): (r: Option<StateRecord>)
    ensures r.Some? <==> next != current
    ensures r.Some? ==> r.value.context == next
    ensures r.Some? ==> r.value.(context := RecordOf(now).context) == RecordOf(now)
  {
    if next != current then Some(RecordOf(now).(context := next)) else None
  }

  /**
   * The update can outlive the AUTH_READY state it was started in: a
   * sign-out settling during the await leaves a SIGNED_OUT record with a
   * context, outside the union; after a switch to another user's AUTH_READY
   * that user's context is replaced by one derived from the old context.
   */
  lemma AsWrittenUpdateAfterSignOut(session: Session, other: Session, current: Context, otherContext: Context, next: Context)
    requires next != current
    ensures Next(AuthReady(session, current), AuthChanged(None)) == SignedOut
    ensures UpdateAfterAwaitAsWritten(SignedOut, current, next) == Some(StateRecord(SIGNED_OUT, None, next, None))
    ensures !WellShaped(StateRecord(SIGNED_OUT, None, next, None))
    ensures UpdateAfterAwaitAsWritten(AuthReady(other, otherContext), current, next) == Some(RecordOf(AuthReady(other, next)))
    ensures ResumedState(SignedOut, current, next).None?
    ensures ResumedState(AuthReady(other, otherContext), current, next).Some? <==> otherContext == current
  {
    SignOutFromEverywhere(AuthReady(session, current));
  }

  /** With no state change during the await, the corrected update and the written one coincide. */
  lemma ResumeAgreesWithoutInterleaving(s: CoreState, current: Context, next: Context)
    requires s.AuthReady? && s.readyContext == current
    ensures ResumedState(s, current, next).Some? ==> WellShaped(RecordOf(ResumedState(s, current, next).value))
    ensures UpdateAfterAwaitAsWritten(s, current, next) ==
      (if ResumedState(s, current, next).Some? then Some(RecordOf(ResumedState(s, current, next).value)) else None)
  {
    if next != current {
      RecordsWellShaped(AuthReady(s.session, next));
    }
  }

  class SupamachineCore<D> {
    var state: CoreState
    var sessionForLoading: Option<Session>
    var listeners: seq<ListenerId>
    var inFlight: seq<Task>
    var delivered: seq<Notification<D>>
    var logLevel: Logger.LogLevel
    const hasLoadContext: bool
    const hasInitializeApp: bool
    const mapState: Option<CoreState -> D>
    const loadContextTimeoutMs: int
    const initializeAppTimeoutMs: int

    /** The listener set has set semantics, and the throwing status is never current. */
    ghost predicate Valid()
      reads this
    {
      !state.Authenticating? && NoDuplicates(listeners)
    }

    /**
     * The post-state of a dispatch of `e` begun in `prev`: the reducer's
     * state, the session bookkeeping, one emit, and the effect of the status
     * edge; without `loadContext` the edge into CONTEXT_LOADING dispatches
     * CONTEXT_RESOLVED with a fresh empty context in the same call.
     */
    ghost predicate DispatchPost(prev: CoreState, prevSession: Option<Session>, prevInFlight: seq<Task>,
                                 prevDelivered: seq<Notification<D>>, e: AuthEvent)
      requires !prev.Authenticating?
      reads this
    {
      var mid := Next(prev, e);
      var sfl := SessionForLoadingAfter(prevSession, e);
      if ResolvesEmpty(prev, e, hasLoadContext) then
        && state.Initializing? && state.session == mid.session
        && sessionForLoading == sfl
        && delivered == prevDelivered + NotifyAll(listeners, mid, mapState) + NotifyAll(listeners, state, mapState)
        && inFlight == prevInFlight + Launches(mid, state, hasLoadContext, hasInitializeApp)
      else
        && state == mid
        && sessionForLoading == SessionAfterDispatch(prev, prevSession, e)
        && delivered == prevDelivered + NotifyAll(listeners, mid, mapState)
        && inFlight == prevInFlight + Launches(prev, mid, hasLoadContext, hasInitializeApp)
    }

    constructor (options: RuntimeOptions<D>)
      ensures Valid()
      ensures state == Start && sessionForLoading == None
      ensures listeners == [] && inFlight == [] && delivered == []
      ensures hasLoadContext == options.hasLoadContext && hasInitializeApp == options.hasInitializeApp
      ensures mapState == options.mapState
      ensures loadContextTimeoutMs == options.loadContextTimeoutMs.GetOr(DEFAULT_LOAD_CONTEXT_TIMEOUT_MS)
      ensures initializeAppTimeoutMs == options.initializeAppTimeoutMs.GetOr(DEFAULT_INITIALIZE_APP_TIMEOUT_MS)
      ensures logLevel == options.logLevel.GetOr(DEFAULT_LOG_LEVEL)
    {
      state := Start;
      sessionForLoading := None;
      listeners := [];
      inFlight := [];
      delivered := [];
      hasLoadContext := options.hasLoadContext;
      hasInitializeApp := options.hasInitializeApp;
      mapState := options.mapState;
      loadContextTimeoutMs := options.loadContextTimeoutMs.GetOr(DEFAULT_LOAD_CONTEXT_TIMEOUT_MS);
      initializeAppTimeoutMs := options.initializeAppTimeoutMs.GetOr(DEFAULT_INITIALIZE_APP_TIMEOUT_MS);
      logLevel := options.logLevel.GetOr(DEFAULT_LOG_LEVEL);
    }

    method SetLogLevel(level: Logger.LogLevel)
      modifies this`logLevel
      ensures logLevel == level
    {
      logLevel := level;
    }

    /** Calls every registered listener once with the current state and app state. */
    method Emit()
      modifies this`delivered
      ensures delivered == old(delivered) + NotifyAll(listeners, state, mapState)
    {
      var appState := ComputeAppState(state, mapState);
      var i := 0;
      while i < |listeners|
        invariant 0 <= i <= |listeners|
        invariant delivered == old(delivered) + NotifyAll(listeners[..i], state, mapState)
      {
        assert NotifyAll(listeners[..i + 1], state, mapState)
            == NotifyAll(listeners[..i], state, mapState) + [Notification(listeners[i], state, appState)];
        delivered := delivered + [Notification(listeners[i], state, appState)];
        i := i + 1;
      }
      assert listeners[..i] == listeners;
    }

    method Dispatch(e: AuthEvent)
      requires Valid()
      modifies this
      decreases if e.ContextResolved? then 0 else 1, 1
      ensures Valid()
      ensures listeners == old(listeners) && logLevel == old(logLevel)
      ensures DispatchPost(old(state), old(sessionForLoading), old(inFlight), old(delivered), e)
      ensures ResolvesEmpty(old(state), e, hasLoadContext) ==> state.Initializing? && fresh(state.context)
    {
      var prevState := state;
      ghost var prevSession := sessionForLoading;
      ReduceAndEmit(e);
      if state.ContextLoading? && !prevState.ContextLoading? {
        EnteringLoadingCarriesSession(prevState, prevSession, e);
        var session := sessionForLoading;
        if session.Some? && hasLoadContext {
          LoadContextWithTimeout(session.value);
        } else if session.Some? && !hasLoadContext {
          ResolveEmptyContext();
        }
      } else if state.SignedOut? && !prevState.SignedOut? {
        sessionForLoading := None;
      } else if state.Initializing? && prevState.ContextLoading? {
        InitializeAppWithTimeout();
      }
    }

    /** Without `loadContext`: `dispatch({type: CONTEXT_RESOLVED, context: {}})` from CONTEXT_LOADING. */
    method ResolveEmptyContext()
      requires Valid() && state.ContextLoading?
      modifies this
      decreases 0, 2
      ensures Valid()
      ensures listeners == old(listeners) && logLevel == old(logLevel)
      ensures state.Initializing? && state.session == old(state).session && fresh(state.context)
      ensures sessionForLoading == old(sessionForLoading)
      ensures delivered == old(delivered) + NotifyAll(listeners, state, mapState)
      ensures inFlight == old(inFlight) + Launches(old(state), state, hasLoadContext, hasInitializeApp)
    {
      var empty := new Context();
      Dispatch(ContextResolved(empty));
    }

    /** The first half of `dispatch`: reduce, update `sessionForLoading` from the event, emit. */
    method ReduceAndEmit(e: AuthEvent)
      requires Valid()
      modifies this`state, this`sessionForLoading, this`delivered
      ensures Valid()
      ensures state == Next(old(state), e)
      ensures sessionForLoading == SessionForLoadingAfter(old(sessionForLoading), e)
      ensures delivered == old(delivered) + NotifyAll(listeners, state, mapState)
    {
      state := Next(state, e);
      sessionForLoading := SessionForLoadingAfter(sessionForLoading, e);
      Emit();
    }

    /** Starts the `loadContext` race for `session` when a loader is configured. */
    method LoadContextWithTimeout(session: Session)
      modifies this`inFlight
      ensures inFlight == old(inFlight) + (if hasLoadContext then [LoadContextTask(session)] else [])
    {
      if hasLoadContext {
        inFlight := inFlight + [LoadContextTask(session)];
      }
    }

    /** Starts the `initializeApp` race on the current INITIALIZING state's session and context. */
    method InitializeAppWithTimeout()
      modifies this`inFlight
      ensures inFlight == old(inFlight) +
        (if hasInitializeApp && state.Initializing? then [InitializeAppTask(state.session, state.context)] else [])
    {
      if hasInitializeApp && state.Initializing? {
        inFlight := inFlight + [InitializeAppTask(state.session, state.context)];
      }
    }

    /**
     * The `loadContext` race `inFlight[i]` settles: its result is dispatched
     * against whatever the state is now, without looking at the session the
     * task was started for.
     */
    method CompleteLoad(i: nat, outcome: LoadOutcome)
      requires Valid()
      requires i < |inFlight| && inFlight[i].LoadContextTask?
      modifies this
      ensures Valid()
      ensures listeners == old(listeners) && logLevel == old(logLevel)
      ensures DispatchPost(old(state), old(sessionForLoading), RemoveAt(old(inFlight), i), old(delivered), LoadEvent(outcome))
    {
      inFlight := RemoveAt(inFlight, i);
      Dispatch(LoadEvent(outcome));
    }

    /** The `initializeApp` race `inFlight[i]` settles. */
    method CompleteInit(i: nat, outcome: InitOutcome)
      requires Valid()
      requires i < |inFlight| && inFlight[i].InitializeAppTask?
      modifies this
      ensures Valid()
      ensures listeners == old(listeners) && logLevel == old(logLevel)
      ensures DispatchPost(old(state), old(sessionForLoading), RemoveAt(old(inFlight), i), old(delivered), InitEvent(outcome))
    {
      inFlight := RemoveAt(inFlight, i);
      Dispatch(InitEvent(outcome));
    }

    /**
     * The synchronous half of `updateContext`: in AUTH_READY with a context,
     * the updater is called with that context; otherwise nothing happens.
     */
    method BeginUpdateContext() returns (current: Option<Context>)
      ensures current.Some? <==> state.AuthReady? && state.readyContext != null
      ensures current.Some? ==> current.value == state.readyContext
    {
      if state.AuthReady? && state.readyContext != null {
        current := Some(state.readyContext);
      } else {
        current := None;
      }
    }

    /**
     * The half after `await updater(current)` returned `next`: replaces only
     * the context and emits once, when the state is still the AUTH_READY
     * state the updater saw and `next` is a different reference.
     */
    method ResumeUpdateContext(current: Context, next: Context) returns (emitted: bool)
      requires Valid()
      modifies this`state, this`delivered
      ensures Valid()
      ensures emitted <==> ResumedState(old(state), current, next).Some?
      ensures state == ResumedState(old(state), current, next).GetOr(old(state))
      ensures delivered == old(delivered) + (if emitted then NotifyAll(listeners, state, mapState) else [])
    {
      var r := ResumedState(state, current, next);
      emitted := r.Some?;
      if emitted {
        state := r.value;
        Emit();
      }
    }

    /** `subscribe`: add to the set; the returned handle removes this listener. */
    method Subscribe(fn: ListenerId) returns (unsubscribe: ListenerId)
      requires Valid()
      modifies this`listeners
      ensures Valid()
      ensures listeners == if fn in old(listeners) then old(listeners) else old(listeners) + [fn]
      ensures unsubscribe == fn
    {
      if fn !in listeners {
        listeners := listeners + [fn];
      }
      unsubscribe := fn;
    }

    /** The closure `subscribe` returns: `listeners.delete(fn)`. */
    method Unsubscribe(fn: ListenerId) returns (deleted: bool)
      requires Valid()
      modifies this`listeners
      ensures Valid()
      ensures deleted <==> fn in old(listeners)
      ensures listeners == RemoveListener(old(listeners), fn)
    {
      deleted := fn in listeners;
      listeners := RemoveListener(listeners, fn);
    }

    method GetSnapshot() returns (s: CoreState)
      ensures s == state
    {
      s := state;
    }

    method GetAppState() returns (a: AppState<D>)
      ensures a == ComputeAppState(state, mapState)
    {
      a := ComputeAppState(state, mapState);
    }
  }
}
