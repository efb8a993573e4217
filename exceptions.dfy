/**
 * The client's error taxonomy (ee/bjarn/ktify/utils/Exceptions.kt): its four exception classes, the
 * two error objects the Web API sends, and the serializer for the status code inside them; plus the
 * platform exceptions that the modelled code can raise, so that every thrown value has a name.
 */
module Exceptions {
  import opened Wrappers
  import opened Kotlin
  import opened Json

  /** ktor's `HttpStatusCode`, by its numeric value: ktor compares status codes by value alone. */
  datatype HttpStatusCode = HttpStatusCode(value: Int32)

  /** The body of a regular Web API error: `{"status": ..., "message": ...}`. */
  datatype ErrorObject = ErrorObject(status: HttpStatusCode, message: string)

  /** The body of an authentication error: `{"error": ..., "error_description": ...}`. */
  datatype AuthenticationErrorObject = AuthenticationErrorObject(error: string, errorDescription: string)

  /** The exception classes of the client, with the default messages of their constructors. */
  datatype KtifyException =
    | RequestException(message: string := "Unauthorized", error: ErrorObject)
    | AuthenticationException(message: string, authError: AuthenticationErrorObject)
    | RateLimitException(message: string := "Too many requests", retryAfterMs: int)
    | InputException(parameters: seq<string>, message: string := "Provided parameter input is not valid")

  /** Everything the modelled code can throw. */
  datatype Failure =
    | Thrown(exception: KtifyException)   // one of the client's own exceptions
    | IllegalArgument(detail: string)     // a failed `require`, `Enum.valueOf`, a JsonElement cast
    | NumberFormat(input: string)         // `String.toInt()` on text that is not an Int
    | Serialization                       // kotlinx.serialization could not decode the input
    | Transport                           // whatever the HTTP engine or the token endpoint raised

  /** What each constructor fills in when the caller leaves the message out. */
  lemma DefaultMessages(e: ErrorObject, retryAfterMs: int, parameters: seq<string>)
    ensures RequestException(error := e).message == "Unauthorized"
    ensures RequestException(error := e).error == e
    ensures RateLimitException(retryAfterMs := retryAfterMs).message == "Too many requests"
    ensures RateLimitException(retryAfterMs := retryAfterMs).retryAfterMs == retryAfterMs
    ensures InputException(parameters).message == "Provided parameter input is not valid"
    ensures InputException(parameters).parameters == parameters
  {
  }

  // ---------------------------------------------------------------------------------------------
  // HttpStatusCodeSerializer

  /** `serialize`: the status code is written as its integer value, a non-null primitive that reads back. */
  function SerializeStatus(code: HttpStatusCode): (j: Json)
    ensures IsPrimitive(j) && !j.JNull? && ParseInt(Content(j)) == Some(code.value)
  {
    ParseIntLiteral(code.value);
    JNum(IntLiteral(code.value))
  }

  /**
   * `deserialize`: `decodeInt()` reads the content of a non-null primitive as an `Int`, and
   * `HttpStatusCode.fromValue` gives the code of that value, registered or not.
   */
  function DeserializeStatus(j: Json): (r: Result<HttpStatusCode, Failure>)
    ensures r.Failure? ==> r.error == Serialization
  {
    if !IsPrimitive(j) || j.JNull? then Failure(Serialization)
    else
      match ParseInt(Content(j))
      case None => Failure(Serialization)
      case Some(v) => Success(HttpStatusCode(v))
  }

  /** Writing a status code and reading it back restores the same numeric code. */
  lemma StatusRoundTrip(code: HttpStatusCode)
    ensures DeserializeStatus(SerializeStatus(code)) == Success(code)
  {
    ParseIntLiteral(code.value);
  }

  // ---------------------------------------------------------------------------------------------
  // Decoding the error objects with kotlinx's default `Json`, which refuses unknown keys

  function EncodeErrorObject(e: ErrorObject): JsonObject {
    map["status" := SerializeStatus(e.status), "message" := JStr(e.message)]
  }

  function DecodeErrorObject(o: JsonObject): (r: Result<ErrorObject, Failure>)
    ensures r.Success? ==> o.Keys == {"status", "message"} && o["message"] == JStr(r.value.message)
    ensures r.Failure? ==> r.error == Serialization
  {
    if !(o.Keys <= {"status", "message"}) || "status" !in o || "message" !in o || !o["message"].JStr? then
      Failure(Serialization)
    else
      match DeserializeStatus(o["status"])
      case Failure(e) => Failure(e)
      case Success(status) => Success(ErrorObject(status, o["message"].s))
  }

  lemma ErrorObjectRoundTrip(e: ErrorObject)
    ensures DecodeErrorObject(EncodeErrorObject(e)) == Success(e)
  {
    var o := EncodeErrorObject(e);
    assert o.Keys == {"status", "message"};
    StatusRoundTrip(e.status);
  }

  function EncodeAuthenticationErrorObject(e: AuthenticationErrorObject): JsonObject {
    map["error" := JStr(e.error), "error_description" := JStr(e.errorDescription)]
  }

  function DecodeAuthenticationErrorObject(o: JsonObject): (r: Result<AuthenticationErrorObject, Failure>)
    ensures r.Success? <==>
      o.Keys == {"error", "error_description"} && o["error"].JStr? && o["error_description"].JStr?
    ensures r.Success? ==> o == EncodeAuthenticationErrorObject(r.value)
    ensures r.Failure? ==> r.error == Serialization
  {
    if !(o.Keys <= {"error", "error_description"}) || "error" !in o || "error_description" !in o
       || !o["error"].JStr? || !o["error_description"].JStr? then
      Failure(Serialization)
    else
      Success(AuthenticationErrorObject(o["error"].s, o["error_description"].s))
  }

  lemma AuthenticationErrorObjectRoundTrip(e: AuthenticationErrorObject)
    ensures DecodeAuthenticationErrorObject(EncodeAuthenticationErrorObject(e)) == Success(e)
  {
    assert EncodeAuthenticationErrorObject(e).Keys == {"error", "error_description"};
  }
}
