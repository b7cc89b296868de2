/**
 * How the two payment forms of the client turn the gateway's answer to
 * `POST /create-intent` into the argument of the payment element's
 * intent-creation callback: an HTTP error becomes "Server error: <status>", an
 * answer without a client secret becomes "No client secret returned from
 * server", and every error is reported with the code "Failed" and its message
 * (or "Unknown error occurred" when the message is empty).
 */
module IntentCallback {
  import opened Common

  /** What `fetch` yields: a rejection with an error message, or a response with
      its `ok` flag, its status and its parsed JSON object. */
  datatype ServerAnswer =
    | NetworkFailure(message: string)
    | Answer(ok: bool, status: int, body: Body)

  /** `ok` is true exactly for the 2xx statuses. */
  function AnswerOf(status: int, body: Body): (r: ServerAnswer)
    ensures r.Answer? && r.status == status && r.body == body
    ensures r.ok <==> 200 <= status < 300
  {
    Answer(200 <= status < 300, status, body)
  }

  /** `{clientSecret}` or `{error: {code, message, localizedMessage}}`. */
  datatype CallbackParams =
    | WithSecret(clientSecret: Value)
    | WithError(code: string, message: string, localizedMessage: string)

  const FailedCode: string := "Failed"
  const NoSecretMessage: string := "No client secret returned from server"
  const UnknownErrorMessage: string := "Unknown error occurred"

  /** `Server error: ${status}` */
  function ServerErrorMessage(status: int): (r: string)
    ensures |r| > |"Server error: "| && r[..|"Server error: "|] == "Server error: "
    ensures ParseInt(r[|"Server error: "|..]) == Some(status)
  {
    var r := "Server error: " + IntToString(status);
    assert r[|"Server error: "|..] == IntToString(status);
    IntToStringRoundTrip(status);
    r
  }

  /** The `catch` block: the error's message, or the fallback when it is empty,
      as both the message and the localized message. */
  function Failure(message: string): (r: CallbackParams)
    ensures r.WithError? && r.code == FailedCode && r.localizedMessage == r.message
    ensures r.message != ""
    ensures message != "" ==> r.message == message
    ensures message == "" ==> r.message == UnknownErrorMessage
  {
    var shown := if message != "" then message else UnknownErrorMessage;
    WithError(FailedCode, shown, shown)
  }

  /** The callback argument for an answer that is not a store-credit payment:
      the body's client secret when the answer is 2xx and the secret is truthy,
      otherwise the error that was thrown. */
  function SecretOrError(answer: ServerAnswer): CallbackParams
  {
    match answer
    case NetworkFailure(m) => Failure(m)
    case Answer(ok, status, body) =>
      if !ok then Failure(ServerErrorMessage(status))
      else if !TruthyField(Field(body, "clientSecret")) then Failure(NoSecretMessage)
      else WithSecret(body["clientSecret"])
  }

  /** The callback carries a client secret exactly when the answer is 2xx with a
      truthy `clientSecret`, and then carries that value; every other answer
      gives a "Failed" error with a non-empty message. */
  lemma SecretIff(answer: ServerAnswer)
    ensures SecretOrError(answer).WithSecret? <==>
      answer.Answer? && answer.ok && TruthyField(Field(answer.body, "clientSecret"))
    ensures SecretOrError(answer).WithSecret? ==>
      SecretOrError(answer).clientSecret == answer.body["clientSecret"]
    ensures SecretOrError(answer).WithError? ==>
      SecretOrError(answer).code == FailedCode && SecretOrError(answer).message != ""
  {
  }

  /** A non-2xx answer is reported as "Server error: <status>", whatever its
      body says, and the status reads back from the message. */
  lemma HttpErrorReported(status: int, body: Body)
    requires !(200 <= status < 300)
    ensures var p := SecretOrError(AnswerOf(status, body));
      && p == WithError(FailedCode, ServerErrorMessage(status), ServerErrorMessage(status))
      && ParseInt(p.message[|"Server error: "|..]) == Some(status)
  {
  }

  /** A 2xx answer whose `clientSecret` is missing, empty or otherwise falsy is
      reported as "No client secret returned from server". */
  lemma MissingSecretReported(status: int, body: Body)
    requires 200 <= status < 300 && !TruthyField(Field(body, "clientSecret"))
    ensures SecretOrError(AnswerOf(status, body)) == WithError(FailedCode, NoSecretMessage, NoSecretMessage)
  {
  }
}
