/**
 * The backend's replies, taken as inputs of the model, and the two ways the
 * client turns a reply into a value or a thrown error: `authFetch` in
 * src/lib/auth.ts and `fetchApi` in src/lib/api.ts. They differ only on a
 * failed reply whose body is not JSON.
 */
module Http {
  import opened Common
  import opened Text

  /** What one `fetch` of the backend produced. */
  datatype Reply<+T> =
      /** A 2xx status with a JSON body decoded as T. */
    | Ok(data: T)
      /** A non-2xx status with a JSON body and its optional `message` field. */
    | Rejected(status: nat, message: Option<string>)
      /** A body that `response.json()` refuses, with the parser's message. */
    | NotJson(status: nat, ok: bool, parseError: string)
      /** `fetch` itself threw (network failure), with the error's message. */
    | Unreachable(reason: string)

  const ApiErrorPrefix: string := "API error: "

  /** `message || \`API error: ${status}\``: the text of the error thrown for a failed reply. */
  function ErrorText(message: Option<string>, status: nat): (r: string)
    ensures Truthy(message) ==> r == message.value
    ensures !Truthy(message) ==> r == ApiErrorPrefix + NatToString(status)
  {
    if Truthy(message) then message.value else ApiErrorPrefix + NatToString(status)
  }

  /** When the server gave no message, the status can be read back from the error text. */
  lemma ErrorTextCarriesStatus(status: nat)
    ensures var t := ErrorText(None, status);
      |t| > |ApiErrorPrefix| && t[..|ApiErrorPrefix|] == ApiErrorPrefix
      && AllDigits(t[|ApiErrorPrefix|..]) && DigitsValue(t[|ApiErrorPrefix|..]) == status
  {
    var t := ErrorText(None, status);
    assert t[|ApiErrorPrefix|..] == NatToString(status);
    NatToStringRoundTrip(status);
  }

  /**
   * `authFetch`: reads the body as JSON first (so a body that is not JSON
   * throws the parser's error whatever the status), then throws the body's
   * message or "API error: <status>" on a non-2xx status.
   */
  function AuthFetch<T>(reply: Reply<T>): (r: Result<T, string>)
    ensures r.Success? <==> reply.Ok?
    ensures reply.Ok? ==> r.value == reply.data
    ensures reply.Rejected? ==> r.error == ErrorText(reply.message, reply.status)
    ensures reply.NotJson? ==> r.error == reply.parseError
  {
    match reply
    case Ok(data) => Success(data)
    case Rejected(status, message) => Failure(ErrorText(message, status))
    case NotJson(_, _, parseError) => Failure(parseError)
    case Unreachable(reason) => Failure(reason)
  }

  /**
   * `fetchApi`: checks the status first; a failed reply whose body is not
   * JSON is read as `{}`, so its error is "API error: <status>".
   */
  function FetchApi<T>(reply: Reply<T>): (r: Result<T, string>)
    ensures r.Success? <==> reply.Ok?
    ensures reply.Ok? ==> r.value == reply.data
    ensures reply.Rejected? ==> r.error == ErrorText(reply.message, reply.status)
    ensures reply.NotJson? && !reply.ok ==> r.error == ApiErrorPrefix + NatToString(reply.status)
  {
    match reply
    case Ok(data) => Success(data)
    case Rejected(status, message) => Failure(ErrorText(message, status))
    case NotJson(status, ok, parseError) =>
      if ok then Failure(parseError) else Failure(ErrorText(None, status))
    case Unreachable(reason) => Failure(reason)
  }

  /** The two clients agree on every reply except a failed one whose body is not JSON. */
  lemma FetchersAgree<T>(reply: Reply<T>)
    requires !(reply.NotJson? && !reply.ok)
    ensures AuthFetch(reply) == FetchApi(reply)
  {
  }
}
