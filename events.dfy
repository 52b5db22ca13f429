/**
 * The `AuthEvent` tagged union of src/core/events.ts, widened with the
 * AUTH_INITIATED and AUTH_CANCELLED types that src/core/constants.ts names
 * and an adapter may send.
 */
module Events {
  import opened Wrappers
  import opened Constants
  import opened States

  datatype AuthEvent =
    | StartEvent
    | AuthResolved(session: Option<Session>)
    | AuthChanged(session: Option<Session>)
    | AuthInitiated
    | AuthCancelled
    | ContextResolved(context: Context)
    | Initialized
    | ErrorCheckingEvent(error: Error)
    | ErrorContextEvent(error: Error)
    | ErrorInitializingEvent(error: Error)

  /**
   * The `type` of an event within the `AuthEventType` vocabulary. The
   * union's "ERROR_CHECKING" is the vocabulary's ERROR_CHECKING_SESSION;
   * AUTH_RESOLVED has no entry there, so it has no type in it.
   */
  function TypeOf(e: AuthEvent): (r: Option<AuthEventType>)
    ensures r.None? <==> e.AuthResolved?
    ensures r == Some(AUTH_CHANGED) <==> e.AuthChanged?
    ensures r == Some(AuthEventType.ERROR_CHECKING_SESSION) <==> e.ErrorCheckingEvent?
  {
    match e
    case StartEvent => Some(AuthEventType.START)
    case AuthResolved(_) => None
    case AuthChanged(_) => Some(AUTH_CHANGED)
    case AuthInitiated => Some(AUTH_INITIATED)
    case AuthCancelled => Some(AUTH_CANCELLED)
    case ContextResolved(_) => Some(CONTEXT_RESOLVED)
    case Initialized => Some(INITIALIZED)
    case ErrorCheckingEvent(_) => Some(AuthEventType.ERROR_CHECKING_SESSION)
    case ErrorContextEvent(_) => Some(AuthEventType.ERROR_CONTEXT)
    case ErrorInitializingEvent(_) => Some(AuthEventType.ERROR_INITIALIZING)
  }

  /** The error an error event carries. */
  function ErrorCarried(e: AuthEvent): (r: Option<Error>)
    ensures r.Some? <==> TypeOf(e) in {Some(AuthEventType.ERROR_CHECKING_SESSION),
                                       Some(AuthEventType.ERROR_CONTEXT), Some(AuthEventType.ERROR_INITIALIZING)}
  {
    match e
    case ErrorCheckingEvent(error) => Some(error)
    case ErrorContextEvent(error) => Some(error)
    case ErrorInitializingEvent(error) => Some(error)
    case _ => None
  }
}
