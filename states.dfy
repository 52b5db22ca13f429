/**
 * The `CoreState` tagged union of src/core/states.ts: one variant per
 * lifecycle status, each carrying exactly the fields meaningful there.
 * The field-presence rules of the union are carried by the variants'
 * parameter lists; the accessors below state them per status.
 */
module States {
  import opened Wrappers
  import opened Constants

  /** The auth provider's session; the core never looks inside it. */
  datatype Session = Session(userId: string, accessToken: string)

  /** A JavaScript `Error`. */
  datatype Error = Error(message: string)

  /**
   * An application context object. It is a reference: the runtime compares
   * contexts by identity (`next !== current`), and `{}` makes a fresh one.
   */
  class Context {
    constructor () {}
  }

  datatype CoreState =
    | Start
    | CheckingSession
    | Authenticating
    | ErrorCheckingSession(error: Error)
    | SignedOut
    | ContextLoading(session: Session)
    | ErrorContext(session: Session, error: Error)
    | Initializing(session: Session, context: Context)
    | ErrorInitializing(session: Session, context: Context, error: Error)
    | AuthReady(session: Session, readyContext: Context?)

  /** The `status` discriminant of a state. */
  function StatusOf(s: CoreState): AuthStateStatus {
    match s
    case Start => AuthStateStatus.START
    case CheckingSession => AuthStateStatus.CHECKING_SESSION
    case Authenticating => AUTHENTICATING
    case ErrorCheckingSession(_) => AuthStateStatus.ERROR_CHECKING_SESSION
    case SignedOut => SIGNED_OUT
    case ContextLoading(_) => CONTEXT_LOADING
    case ErrorContext(_, _) => AuthStateStatus.ERROR_CONTEXT
    case Initializing(_, _) => INITIALIZING
    case ErrorInitializing(_, _, _) => AuthStateStatus.ERROR_INITIALIZING
    case AuthReady(_, _) => AUTH_READY
  }

  /** Statuses whose variant has a `session` field. */
  const SessionStatuses: set<AuthStateStatus> :=
    {CONTEXT_LOADING, AuthStateStatus.ERROR_CONTEXT, INITIALIZING, AuthStateStatus.ERROR_INITIALIZING, AUTH_READY}

  /** Statuses whose variant has an `error` field. */
  const ErrorStatuses: set<AuthStateStatus> :=
    {AuthStateStatus.ERROR_CHECKING_SESSION, AuthStateStatus.ERROR_CONTEXT, AuthStateStatus.ERROR_INITIALIZING}

  /** Statuses whose `context` field is typed `null`. */
  const NullContextStatuses: set<AuthStateStatus> :=
    {AuthStateStatus.START, AuthStateStatus.CHECKING_SESSION, AUTHENTICATING,
     AuthStateStatus.ERROR_CHECKING_SESSION, SIGNED_OUT, CONTEXT_LOADING, AuthStateStatus.ERROR_CONTEXT}

  /** The `session` field, present exactly from CONTEXT_LOADING on. */
  function SessionOf(s: CoreState): (r: Option<Session>)
    ensures r.Some? <==> StatusOf(s) in SessionStatuses
  {
    match s
    case ContextLoading(session) => Some(session)
    case ErrorContext(session, _) => Some(session)
    case Initializing(session, _) => Some(session)
    case ErrorInitializing(session, _, _) => Some(session)
    case AuthReady(session, _) => Some(session)
    case _ => None
  }

  /** The `error` field, present exactly in the three ERROR_* variants. */
  function ErrorOf(s: CoreState): (r: Option<Error>)
    ensures r.Some? <==> StatusOf(s) in ErrorStatuses
  {
    match s
    case ErrorCheckingSession(error) => Some(error)
    case ErrorContext(_, error) => Some(error)
    case ErrorInitializing(_, _, error) => Some(error)
    case _ => None
  }

  /**
   * The `context` field every variant has: null before INITIALIZING, a
   * context in INITIALIZING and ERROR_INITIALIZING, a context or null in
   * AUTH_READY.
   */
  function ContextOf(s: CoreState): (r: Context?)
    ensures StatusOf(s) in NullContextStatuses ==> r == null
    ensures s.Initializing? || s.ErrorInitializing? ==> r != null
  {
    match s
    case Initializing(_, context) => context
    case ErrorInitializing(_, context, _) => context
    case AuthReady(_, context) => context
    case _ => null
  }
}
