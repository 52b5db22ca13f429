/**
 * The transition function of src/core/reducer.ts. The source returns either
 * a fresh state object or the input object itself; `Step` makes that
 * identity observable: `Changed(next)` is a fresh object, `Unchanged(warned)`
 * is the input returned again (with or without the invalid-transition
 * warning), and `Fatal` is the throw of the exhaustive default branch.
 */
module Reducer {
  import opened Wrappers
  import opened Constants
  import opened States
  import opened Events

  datatype Step = Changed(next: CoreState) | Unchanged(warned: bool) | Fatal

  /**
   * The (status, event type) pairs the switch lists a case for. The
   * reducer's CHECKING and ERROR_CHECKING names are the CHECKING_SESSION and
   * ERROR_CHECKING_SESSION entries of the vocabularies. AUTHENTICATING has no
   * case at all.
   */
  const TransitionTable: set<(AuthStateStatus, AuthEventType)> := {
    (AuthStateStatus.START, AuthEventType.START),
    (AuthStateStatus.CHECKING_SESSION, AUTH_CHANGED),
    (AuthStateStatus.CHECKING_SESSION, AuthEventType.ERROR_CHECKING_SESSION),
    (CONTEXT_LOADING, CONTEXT_RESOLVED),
    (CONTEXT_LOADING, AuthEventType.ERROR_CONTEXT),
    (CONTEXT_LOADING, AUTH_CHANGED),
    (INITIALIZING, INITIALIZED),
    (INITIALIZING, AuthEventType.ERROR_INITIALIZING),
    (INITIALIZING, AUTH_CHANGED),
    (AUTH_READY, AUTH_CHANGED),
    (SIGNED_OUT, AUTH_CHANGED),
    (AuthStateStatus.ERROR_CHECKING_SESSION, AUTH_CHANGED),
    (AuthStateStatus.ERROR_CONTEXT, AUTH_CHANGED),
    (AuthStateStatus.ERROR_INITIALIZING, AUTH_CHANGED)
  }

  /** Whether the switch has a case for this state's status and this event's type. */
  predicate Handles(s: CoreState, e: AuthEvent) {
    TypeOf(e).Some? && (StatusOf(s), TypeOf(e).value) in TransitionTable
  }

  /** `invalidTransition`: warn, and hand back the input state itself. */
  function InvalidTransition(): (r: Step)
    ensures r.Unchanged? && r.warned
  {
    Unchanged(warned := true)
  }

  /** The answer every handled status gives to AUTH_CHANGED. */
  function SessionChange(session: Option<Session>): CoreState {
    if session.Some? then ContextLoading(session.value) else SignedOut
  }

  function Reducer(s: CoreState, e: AuthEvent): (r: Step)
    // the default branch throws exactly for the status without a case
    ensures r.Fatal? <==> s.Authenticating?
    ensures r.Changed? ==> !r.next.Authenticating?
    // AUTH_CHANGED never compares users: a session always restarts loading
    ensures r.Changed? && e.AuthChanged? ==> r.next == SessionChange(e.session)
    ensures r.Changed? && r.next.ContextLoading? ==> e == AuthChanged(Some(r.next.session))
    // along the pipeline the session is carried unchanged
    ensures r.Changed? && !e.AuthChanged? ==> SessionOf(r.next) == SessionOf(s)
    // an error state stores exactly the error its event carried
    ensures r.Changed? ==> ErrorOf(r.next) == ErrorCarried(e)
    ensures r.Changed? && e.ContextResolved? ==> ContextOf(r.next) == e.context
    ensures r.Changed? && (e.Initialized? || e.ErrorInitializingEvent?) ==> ContextOf(r.next) == ContextOf(s)
  {
    match s
    case Start =>
      (match e
       case StartEvent => Changed(CheckingSession)
       case _ => InvalidTransition())
    case CheckingSession =>
      (match e
       case AuthChanged(session) => Changed(SessionChange(session))
       case ErrorCheckingEvent(error) => Changed(ErrorCheckingSession(error))
       case _ => InvalidTransition())
    case ContextLoading(session) =>
      (match e
       case ContextResolved(context) => Changed(Initializing(session, context))
       case ErrorContextEvent(error) => Changed(ErrorContext(session, error))
       case AuthChanged(newSession) => Changed(SessionChange(newSession))
       case _ => InvalidTransition())
    case Initializing(session, context) =>
      (match e
       case Initialized => Changed(AuthReady(session, context))
       case ErrorInitializingEvent(error) => Changed(ErrorInitializing(session, context, error))
       case AuthChanged(newSession) => Changed(SessionChange(newSession))
       case _ => InvalidTransition())
    case AuthReady(_, _) =>
      (match e
       case AuthChanged(newSession) => Changed(SessionChange(newSession))
       case _ => InvalidTransition())
    case SignedOut =>
      (match e
       case AuthChanged(session) =>
         if session.Some? then Changed(ContextLoading(session.value)) else Unchanged(warned := false)
       case _ => InvalidTransition())
    case ErrorCheckingSession(_) | ErrorContext(_, _) | ErrorInitializing(_, _, _) =>
      (match e
       case AuthChanged(session) => Changed(SessionChange(session))
       case _ => InvalidTransition())
    case Authenticating => Fatal
  }

  /**
   * The input comes back (same reference) exactly for the pairs the switch
   * does not list and for the explicit SIGNED_OUT + AUTH_CHANGED(null)
   * no-op; only the unlisted pairs warn.
   */
  lemma NoOpExactlyUnlisted(s: CoreState, e: AuthEvent)
    requires !s.Authenticating?
    ensures Reducer(s, e).Unchanged? <==> !Handles(s, e) || (s.SignedOut? && e == AuthChanged(None))
    ensures Reducer(s, e).Unchanged? ==> (Reducer(s, e).warned <==> !Handles(s, e))
  {
  }

  /** The state the caller holds after the call: the fresh object, or the input itself. */
  function Next(s: CoreState, e: AuthEvent): (r: CoreState)
    requires !s.Authenticating?
    ensures !r.Authenticating?
    ensures Reducer(s, e).Unchanged? ==> r == s
    ensures StatusOf(r) != StatusOf(s) ==> Reducer(s, e).Changed? && Handles(s, e)
  {
    if Reducer(s, e).Changed? then Reducer(s, e).next else s
  }

  /**
   * The forward pipeline: START begins the session check with no context,
   * CONTEXT_RESOLVED and INITIALIZED carry the session (and the context)
   * forward, and each error event stores its error while keeping what the
   * failed step had.
   */
  lemma PipelineSteps(session: Session, context: Context, error: Error)
    ensures Reducer(Start, StartEvent) == Changed(CheckingSession)
    ensures ContextOf(CheckingSession) == null
    ensures Reducer(ContextLoading(session), ContextResolved(context)) == Changed(Initializing(session, context))
    ensures Reducer(Initializing(session, context), Initialized) == Changed(AuthReady(session, context))
    ensures Reducer(CheckingSession, ErrorCheckingEvent(error)) == Changed(ErrorCheckingSession(error))
    ensures Reducer(ContextLoading(session), ErrorContextEvent(error)) == Changed(ErrorContext(session, error))
    ensures Reducer(Initializing(session, context), ErrorInitializingEvent(error)) == Changed(ErrorInitializing(session, context, error))
  {}

  /** AUTH_INITIATED, AUTH_CANCELLED and AUTH_RESOLVED are rejected, with a warning, by every handled status. */
  lemma UnusedEventsRejected(s: CoreState, o: Option<Session>)
    requires !s.Authenticating?
    ensures Reducer(s, AuthInitiated) == InvalidTransition()
    ensures Reducer(s, AuthCancelled) == InvalidTransition()
    ensures Reducer(s, AuthResolved(o)) == InvalidTransition()
  {}

  /**
   * A sign-out reaches SIGNED_OUT from every handled status after START;
   * from SIGNED_OUT itself it is the one silent no-op.
   */
  lemma SignOutFromEverywhere(s: CoreState)
    requires !s.Start? && !s.Authenticating?
    ensures s.SignedOut? ==> Reducer(s, AuthChanged(None)) == Unchanged(warned := false)
    ensures !s.SignedOut? ==> Reducer(s, AuthChanged(None)) == Changed(SignedOut)
  {}

  /** A session restarts loading from every handled status after START, whatever the current user. */
  lemma SessionRestartsLoading(s: CoreState, session: Session)
    requires !s.Start? && !s.Authenticating?
    ensures Reducer(s, AuthChanged(Some(session))) == Changed(ContextLoading(session))
  {}

  /**
   * Runs a sequence of events from `s`, as a caller feeding each result back
   * in; None when some step throws.
   */
  function Run(s: CoreState, events: seq<AuthEvent>): Option<CoreState>
    decreases |events|
  {
    if events == [] then Some(s)
    else
      match Reducer(s, events[0])
      case Fatal => None
      case Changed(next) => Run(next, events[1..])
      case Unchanged(_) => Run(s, events[1..])
  }

  /** No run from a state other than AUTHENTICATING throws or ever reaches AUTHENTICATING. */
  lemma {:induction false} RunAvoidsAuthenticating(s: CoreState, events: seq<AuthEvent>)
    requires !s.Authenticating?
    ensures Run(s, events).Some? && !Run(s, events).value.Authenticating?
    decreases |events|
  {
    if events != [] {
      RunAvoidsAuthenticating(Next(s, events[0]), events[1..]);
    }
  }

  /** AUTHENTICATING is unreachable from START, so the throwing default is never taken. */
  lemma AuthenticatingUnreachable(events: seq<AuthEvent>)
    ensures Run(Start, events).Some?
    ensures !Run(Start, events).value.Authenticating?
  {
    RunAvoidsAuthenticating(Start, events);
  }
}
