/**
 * The two frozen name records of src/core/constants.ts: the ten state
 * statuses and the nine event types. Each key's string equals the key;
 * the two vocabularies are separate types even where the strings coincide.
 */
module Constants {
  import opened Wrappers

  datatype AuthStateStatus =
    | START
    | CHECKING_SESSION
    | AUTHENTICATING
    | SIGNED_OUT
    | CONTEXT_LOADING
    | INITIALIZING
    | AUTH_READY
    | ERROR_CHECKING_SESSION
    | ERROR_CONTEXT
    | ERROR_INITIALIZING

  datatype AuthEventType =
    | START
    | AUTH_CHANGED
    | AUTH_INITIATED
    | AUTH_CANCELLED
    | CONTEXT_RESOLVED
    | INITIALIZED
    | ERROR_CHECKING_SESSION
    | ERROR_CONTEXT
    | ERROR_INITIALIZING

  /** The statuses in the order the record declares them. */
  const AllStatuses: seq<AuthStateStatus> := [
    AuthStateStatus.START, AuthStateStatus.CHECKING_SESSION, AUTHENTICATING, SIGNED_OUT,
    CONTEXT_LOADING, INITIALIZING, AUTH_READY, AuthStateStatus.ERROR_CHECKING_SESSION,
    AuthStateStatus.ERROR_CONTEXT, AuthStateStatus.ERROR_INITIALIZING]

  /** The event types in the order the record declares them. */
  const AllEventTypes: seq<AuthEventType> := [
    AuthEventType.START, AUTH_CHANGED, AUTH_INITIATED, AUTH_CANCELLED, CONTEXT_RESOLVED,
    INITIALIZED, AuthEventType.ERROR_CHECKING_SESSION, AuthEventType.ERROR_CONTEXT,
    AuthEventType.ERROR_INITIALIZING]

  /** The string value the record stores under each status key. */
  function StatusName(s: AuthStateStatus): string {
    match s
    case START => "START"
    case CHECKING_SESSION => "CHECKING_SESSION"
    case AUTHENTICATING => "AUTHENTICATING"
    case SIGNED_OUT => "SIGNED_OUT"
    case CONTEXT_LOADING => "CONTEXT_LOADING"
    case INITIALIZING => "INITIALIZING"
    case AUTH_READY => "AUTH_READY"
    case ERROR_CHECKING_SESSION => "ERROR_CHECKING_SESSION"
    case ERROR_CONTEXT => "ERROR_CONTEXT"
    case ERROR_INITIALIZING => "ERROR_INITIALIZING"
  }

  /** The string value the record stores under each event-type key. */
  function EventTypeName(t: AuthEventType): string {
    match t
    case START => "START"
    case AUTH_CHANGED => "AUTH_CHANGED"
    case AUTH_INITIATED => "AUTH_INITIATED"
    case AUTH_CANCELLED => "AUTH_CANCELLED"
    case CONTEXT_RESOLVED => "CONTEXT_RESOLVED"
    case INITIALIZED => "INITIALIZED"
    case ERROR_CHECKING_SESSION => "ERROR_CHECKING_SESSION"
    case ERROR_CONTEXT => "ERROR_CONTEXT"
    case ERROR_INITIALIZING => "ERROR_INITIALIZING"
  }

  /** Membership of a string in the derived `AuthStateStatus` string union. */
  function StatusFromName(name: string): (r: Option<AuthStateStatus>)
    ensures r.Some? ==> StatusName(r.value) == name
    ensures forall s :: StatusName(s) == name ==> r == Some(s)
  {
    if name == "START" then Some(AuthStateStatus.START)
    else if name == "CHECKING_SESSION" then Some(AuthStateStatus.CHECKING_SESSION)
    else if name == "AUTHENTICATING" then Some(AUTHENTICATING)
    else if name == "SIGNED_OUT" then Some(SIGNED_OUT)
    else if name == "CONTEXT_LOADING" then Some(CONTEXT_LOADING)
    else if name == "INITIALIZING" then Some(INITIALIZING)
    else if name == "AUTH_READY" then Some(AUTH_READY)
    else if name == "ERROR_CHECKING_SESSION" then Some(AuthStateStatus.ERROR_CHECKING_SESSION)
    else if name == "ERROR_CONTEXT" then Some(AuthStateStatus.ERROR_CONTEXT)
    else if name == "ERROR_INITIALIZING" then Some(AuthStateStatus.ERROR_INITIALIZING)
    else None
  }

  /** Membership of a string in the derived `AuthEventType` string union. */
  function EventTypeFromName(name: string): (r: Option<AuthEventType>)
    ensures r.Some? ==> EventTypeName(r.value) == name
    ensures forall t :: EventTypeName(t) == name ==> r == Some(t)
  {
    if name == "START" then Some(AuthEventType.START)
    else if name == "AUTH_CHANGED" then Some(AUTH_CHANGED)
    else if name == "AUTH_INITIATED" then Some(AUTH_INITIATED)
    else if name == "AUTH_CANCELLED" then Some(AUTH_CANCELLED)
    else if name == "CONTEXT_RESOLVED" then Some(CONTEXT_RESOLVED)
    else if name == "INITIALIZED" then Some(INITIALIZED)
    else if name == "ERROR_CHECKING_SESSION" then Some(AuthEventType.ERROR_CHECKING_SESSION)
    else if name == "ERROR_CONTEXT" then Some(AuthEventType.ERROR_CONTEXT)
    else if name == "ERROR_INITIALIZING" then Some(AuthEventType.ERROR_INITIALIZING)
    else None
  }

  /** Ten statuses, listed once each, with pairwise different names. */
  lemma StatusVocabulary()
    ensures |AllStatuses| == 10
    ensures forall s :: s in AllStatuses
    ensures forall i, j :: 0 <= i < j < |AllStatuses| ==> StatusName(AllStatuses[i]) != StatusName(AllStatuses[j])
  {
    forall s ensures s in AllStatuses {
      match s
      case START => assert AllStatuses[0] == s;
      case CHECKING_SESSION => assert AllStatuses[1] == s;
      case AUTHENTICATING => assert AllStatuses[2] == s;
      case SIGNED_OUT => assert AllStatuses[3] == s;
      case CONTEXT_LOADING => assert AllStatuses[4] == s;
      case INITIALIZING => assert AllStatuses[5] == s;
      case AUTH_READY => assert AllStatuses[6] == s;
      case ERROR_CHECKING_SESSION => assert AllStatuses[7] == s;
      case ERROR_CONTEXT => assert AllStatuses[8] == s;
      case ERROR_INITIALIZING => assert AllStatuses[9] == s;
    }
    forall i, j | 0 <= i < j < |AllStatuses|
      ensures StatusName(AllStatuses[i]) != StatusName(AllStatuses[j])
    {
      assert StatusFromName(StatusName(AllStatuses[i])) == Some(AllStatuses[i]);
      assert StatusFromName(StatusName(AllStatuses[j])) == Some(AllStatuses[j]);
    }
  }

  /** Nine event types (AUTH_INITIATED and AUTH_CANCELLED among them), with pairwise different names. */
  lemma EventTypeVocabulary()
    ensures |AllEventTypes| == 9
    ensures forall t :: t in AllEventTypes
    ensures AUTH_INITIATED in AllEventTypes && AUTH_CANCELLED in AllEventTypes
    ensures forall i, j :: 0 <= i < j < |AllEventTypes| ==> EventTypeName(AllEventTypes[i]) != EventTypeName(AllEventTypes[j])
  {
    forall t ensures t in AllEventTypes {
      match t
      case START => assert AllEventTypes[0] == t;
      case AUTH_CHANGED => assert AllEventTypes[1] == t;
      case AUTH_INITIATED => assert AllEventTypes[2] == t;
      case AUTH_CANCELLED => assert AllEventTypes[3] == t;
      case CONTEXT_RESOLVED => assert AllEventTypes[4] == t;
      case INITIALIZED => assert AllEventTypes[5] == t;
      case ERROR_CHECKING_SESSION => assert AllEventTypes[6] == t;
      case ERROR_CONTEXT => assert AllEventTypes[7] == t;
      case ERROR_INITIALIZING => assert AllEventTypes[8] == t;
    }
    forall i, j | 0 <= i < j < |AllEventTypes|
      ensures EventTypeName(AllEventTypes[i]) != EventTypeName(AllEventTypes[j])
    {
      assert EventTypeFromName(EventTypeName(AllEventTypes[i])) == Some(AllEventTypes[i]);
      assert EventTypeFromName(EventTypeName(AllEventTypes[j])) == Some(AllEventTypes[j]);
    }
  }

  /**
   * A status and an event type share a string in exactly four cases; the
   * vocabularies stay distinct types all the same.
   */
  lemma SharedNames(s: AuthStateStatus, t: AuthEventType)
    ensures StatusName(s) == EventTypeName(t) <==>
      (s, t) in {(AuthStateStatus.START, AuthEventType.START),
                 (AuthStateStatus.ERROR_CHECKING_SESSION, AuthEventType.ERROR_CHECKING_SESSION),
                 (AuthStateStatus.ERROR_CONTEXT, AuthEventType.ERROR_CONTEXT),
                 (AuthStateStatus.ERROR_INITIALIZING, AuthEventType.ERROR_INITIALIZING)}
  {
    var n := StatusName(s);
    if n == EventTypeName(t) {
      assert EventTypeFromName(n) == Some(t);
      assert StatusFromName(n) == Some(s);
    }
  }
}
