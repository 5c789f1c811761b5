/**
 * The authentication error record and its normaliser (`normalizeAuthError`), and the value
 * a timed-out authentication request is rejected with.
 */
module AuthTypes {
  import opened Wrappers
  import opened JsValue
  import Errors

  /** A registered user. */
  datatype User = User(id: string, email: string, name: Option<string>, createdAt: string)

  /** The two session modes. */
  datatype Mode = Chat | Voice

  /** Who wrote a message. */
  datatype Role = UserRole | Assistant | System

  /** `SessionSummary`. */
  datatype SessionSummary = SessionSummary(
    id: string, mode: Mode, createdAt: string, lastMessageAt: Option<string>, messageCount: nat)

  /** `Message`; `createdAt` is the timestamp the mock store orders by. */
  datatype Message = Message(
    id: string, sessionId: string, role: Role, content: string, createdAt: int, mode: Mode)

  /** `NormalizedAuthError`: a message, an optional numeric status and string code, and the
      value that was thrown. */
  datatype NormalizedAuthError = NormalizedAuthError(
    message: string,
    status: Option<int>,
    code: Option<string>,
    originalError: Value)

  const UNKNOWN_AUTH_ERROR: string := "Unknown authentication error"
  const AUTH_ERROR: string := "Authentication error"

  /** `normalizeAuthError(error)`. */
  function NormalizeAuthError(error: Value): (r: NormalizedAuthError)
    ensures r.originalError == error
    ensures !Truthy(error) ==> r == NormalizedAuthError(UNKNOWN_AUTH_ERROR, None, None, error)
    ensures Truthy(error) && error.Str? ==> r == NormalizedAuthError(error.s, None, None, error)
    ensures Truthy(error) && !error.Str? && !(error.Obj? && HasProperty(error, "message"))
            ==> r == NormalizedAuthError(AUTH_ERROR, None, None, error)
    ensures error.Obj? && HasProperty(error, "message") ==>
              (Get(error, "message").Str? ==> r.message == Get(error, "message").s)
              && (!Get(error, "message").Str? ==> r.message == AUTH_ERROR)
              && (r.status.Some? <==> Get(error, "status").Num?)
              && (r.status.Some? ==> r.status.value == Get(error, "status").n)
              && (r.code.Some? <==> Get(error, "code").Str?)
              && (r.code.Some? ==> r.code.value == Get(error, "code").s)
  {
    if !Truthy(error) then NormalizedAuthError(UNKNOWN_AUTH_ERROR, None, None, error)
    else if TypeofObject(error) && error.Obj? && HasProperty(error, "message") then
      NormalizedAuthError(
        match Get(error, "message") case Str(m) => m case _ => AUTH_ERROR,
        match Get(error, "status") case Num(n) => Some(n) case _ => None,
        match Get(error, "code") case Str(c) => Some(c) case _ => None,
        error)
    else if error.Str? then NormalizedAuthError(error.s, None, None, error)
    else NormalizedAuthError(AUTH_ERROR, None, None, error)
  }

  /** The normalised record seen again as a thrown object. */
  function AsValue(e: NormalizedAuthError): Value {
    var base := map["message" := Str(e.message)];
    var withStatus := if e.status.Some? then base["status" := Num(e.status.value)] else base;
    Obj(if e.code.Some? then withStatus["code" := Str(e.code.value)] else withStatus, false)
  }

  /** Normalising is idempotent: a normalised error, thrown again, normalises to the same
      message, status and code. */
  lemma NormalizeIdempotent(error: Value)
    ensures var n := NormalizeAuthError(error);
            var again := NormalizeAuthError(AsValue(n));
            again.message == n.message && again.status == n.status && again.code == n.code
  {
    var n := NormalizeAuthError(error);
    var v := AsValue(n);
    assert "message" in v.fields;
    assert Get(v, "message") == Str(n.message);
    assert n.status.Some? <==> "status" in v.fields;
    assert n.code.Some? <==> "code" in v.fields;
  }

  const AUTH_TIMEOUT_MS: nat := 15000

  /** The object `createTimeoutPromise` rejects with after `AUTH_TIMEOUT_MS`. */
  function TimeoutRejection(): Value {
    Obj(map["message" := Str("Request timeout"), "status" := Num(504), "code" := Str("TIMEOUT")], false)
  }

  /** The timeout rejection normalises to its message, status 504 and code 'TIMEOUT', and is
      classified for the user as a server timeout. */
  lemma TimeoutRejectionMeaning()
    ensures NormalizeAuthError(TimeoutRejection())
            == NormalizedAuthError("Request timeout", Some(504), Some("TIMEOUT"), TimeoutRejection())
    ensures Errors.UserFriendlyError(TimeoutRejection()) == Success(Errors.TIMEOUT_MESSAGE)
  {
    var t := TimeoutRejection();
    assert Get(t, "message") == Str("Request timeout");
    assert Get(t, "status") == Num(504);
    assert Get(t, "code") == Str("TIMEOUT");
  }
}
