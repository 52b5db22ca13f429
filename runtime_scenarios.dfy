/**
 * Client runs of `SupamachineCore` that follow the cases of
 * tests/runtime.test.ts and the stale-result path of a session switch
 * during loading. Each is proved from the class's contracts alone.
 */
module RuntimeScenarios {
  import opened Wrappers
  import opened States
  import opened Events
  import opened Runtime
  import Logger

  /**
   * START then AUTH_CHANGED with a session on a new core: with a loader the
   * core waits in CONTEXT_LOADING on one load; without one it is already in
   * INITIALIZING and has started `initializeApp` if configured.
   */
  method SignIn<D>(core: SupamachineCore<D>, session: Session)
    requires core.Valid() && core.state == Start && core.sessionForLoading == None && core.inFlight == []
    modifies core
    ensures core.Valid() && core.listeners == old(core.listeners)
    ensures core.sessionForLoading == Some(session)
    ensures core.hasLoadContext ==> core.state == ContextLoading(session) && core.inFlight == [LoadContextTask(session)]
    ensures !core.hasLoadContext ==> core.state.Initializing? && core.state.session == session
    ensures !core.hasLoadContext ==> core.inFlight == if core.hasInitializeApp then [InitializeAppTask(session, core.state.context)] else []
  {
    core.Dispatch(StartEvent);
    assert core.state == CheckingSession && core.sessionForLoading == None && core.inFlight == [];
    core.Dispatch(AuthChanged(Some(session)));
  }

  /** With both callbacks: START, AUTH_CHANGED, the load, the initialization; each callback started once. */
  method HappyPath(session: Session)
    returns (afterStart: CoreState, afterAuth: CoreState, loaded: Context, loads: seq<Task>, inits: seq<Task>, final: CoreState)
    ensures afterStart == CheckingSession
    ensures afterAuth == ContextLoading(session)
    ensures loads == [LoadContextTask(session)]
    ensures inits == [InitializeAppTask(session, loaded)]
    ensures final == AuthReady(session, loaded)
  {
    var core := new SupamachineCore<bool>(RuntimeOptions(true, None, true, None, None, Some(Logger.NONE)));
    core.Dispatch(StartEvent);
    afterStart := core.GetSnapshot();
    core.Dispatch(AuthChanged(Some(session)));
    afterAuth := core.GetSnapshot();
    loads := core.inFlight;
    loaded := new Context();
    LoadOutcomeLands(session, Loaded(loaded));
    core.CompleteLoad(0, Loaded(loaded));
    inits := core.inFlight;
    InitOutcomeLands(session, loaded, InitDone);
    core.CompleteInit(0, InitDone);
    final := core.GetSnapshot();
  }

  /** With only a loader, a rejected load ends in ERROR_CONTEXT with the rejection and nothing pending. */
  method LoadFailure(session: Session, error: Error) returns (final: CoreState, pending: seq<Task>)
    ensures final == ErrorContext(session, error)
    ensures pending == []
  {
    var core := new SupamachineCore<bool>(RuntimeOptions(true, None, false, None, None, Some(Logger.NONE)));
    SignIn(core, session);
    LoadOutcomeLands(session, LoadRejected(error));
    core.CompleteLoad(0, LoadRejected(error));
    final := core.GetSnapshot();
    pending := core.inFlight;
  }

  /**
   * Without `loadContext` the AUTH_CHANGED call itself ends in INITIALIZING
   * with a fresh empty context and starts `initializeApp`; its success
   * reaches AUTH_READY.
   */
  method NoLoaderWithInitializer(session: Session)
    returns (afterAuth: CoreState, pending: seq<Task>, final: CoreState)
    ensures afterAuth.Initializing? && afterAuth.session == session
    ensures pending == [InitializeAppTask(session, afterAuth.context)]
    ensures final == AuthReady(session, afterAuth.context)
  {
    var core := new SupamachineCore<bool>(RuntimeOptions(false, None, true, None, None, Some(Logger.NONE)));
    SignIn(core, session);
    afterAuth := core.GetSnapshot();
    pending := core.inFlight;
    core.CompleteInit(0, InitDone);
    final := core.GetSnapshot();
  }

  /** With neither callback the machine stops in INITIALIZING: nothing dispatches INITIALIZED. */
  method NoCallbacks(session: Session) returns (final: CoreState, pending: seq<Task>)
    ensures final.Initializing? && final.session == session
    ensures pending == []
  {
    var core := new SupamachineCore<bool>(RuntimeOptions(false, None, false, None, None, Some(Logger.NONE)));
    SignIn(core, session);
    final := core.GetSnapshot();
    pending := core.inFlight;
  }

  /** In AUTH_READY with `mapState`, the app state is the mapper's value; the core snapshot stays AUTH_READY. */
  method MapStateView(session: Session) returns (core: CoreState, app: AppState<string>)
    ensures core.AuthReady? && core.session == session
    ensures app == Mapped("DASHBOARD")
  {
    var m := (s: CoreState) => "DASHBOARD";
    var machine := new SupamachineCore<string>(RuntimeOptions(false, Some(m), true, None, None, Some(Logger.NONE)));
    SignIn(machine, session);
    InitOutcomeLands(session, machine.state.context, InitDone);
    machine.CompleteInit(0, InitDone);
    core := machine.GetSnapshot();
    app := machine.GetAppState();
  }

  /** A core with both callbacks, driven to AUTH_READY with a loaded context and no listeners. */
  method ReadyCore(session: Session) returns (core: SupamachineCore<bool>, loaded: Context)
    ensures fresh(core) && core.Valid()
    ensures core.state == AuthReady(session, loaded)
    ensures core.listeners == [] && core.mapState == None
  {
    core := new SupamachineCore<bool>(RuntimeOptions(true, None, true, None, None, Some(Logger.NONE)));
    SignIn(core, session);
    loaded := new Context();
    LoadOutcomeLands(session, Loaded(loaded));
    core.CompleteLoad(0, Loaded(loaded));
    assert core.inFlight == [InitializeAppTask(session, loaded)];
    InitOutcomeLands(session, loaded, InitDone);
    core.CompleteInit(0, InitDone);
  }

  /**
   * `updateContext` in AUTH_READY with an updater returning a new object:
   * a listener subscribed afterwards is called once with the new context,
   * which the snapshot shows; returning the same object calls nobody.
   */
  method UpdateContextNotifies(session: Session, spy: ListenerId)
    returns (updated: bool, calls: seq<Notification<bool>>, snapshot: CoreState, sameUpdated: bool, sameCalls: seq<Notification<bool>>)
    ensures updated && !sameUpdated && sameCalls == []
    ensures snapshot.AuthReady? && snapshot.session == session && snapshot.readyContext != null
    ensures calls == [Notification(spy, snapshot, CoreView(snapshot))]
  {
    var core, loaded := ReadyCore(session);
    var _ := core.Subscribe(spy);
    var before := core.delivered;
    var current := core.BeginUpdateContext();
    var next := new Context();
    updated := core.ResumeUpdateContext(current.value, next);
    calls := core.delivered[|before|..];
    snapshot := core.GetSnapshot();
    var again := core.BeginUpdateContext();
    var beforeSame := core.delivered;
    sameUpdated := core.ResumeUpdateContext(again.value, again.value);
    sameCalls := core.delivered[|beforeSame|..];
  }

  /**
   * A user switch while loading keeps CONTEXT_LOADING and starts no second
   * load; when the first user's load then resolves, its context is applied
   * to the second user's session.
   */
  method StaleLoadAppliedToNewSession(a: Session, b: Session)
    returns (afterSwitch: CoreState, loads: seq<Task>, loadedForA: Context, final: CoreState)
    ensures afterSwitch == ContextLoading(b)
    ensures loads == [LoadContextTask(a)]
    ensures final == Initializing(b, loadedForA)
  {
    var core := new SupamachineCore<bool>(RuntimeOptions(true, None, false, None, None, Some(Logger.NONE)));
    SignIn(core, a);
    SessionSwitchWhileLoading(a, b, true, false);
    core.Dispatch(AuthChanged(Some(b)));
    assert core.state == ContextLoading(b) && core.inFlight == [LoadContextTask(a)];
    afterSwitch := core.GetSnapshot();
    loads := core.inFlight;
    loadedForA := new Context();
    LoadOutcomeLands(b, Loaded(loadedForA));
    core.CompleteLoad(0, Loaded(loadedForA));
    final := core.GetSnapshot();
  }
}
