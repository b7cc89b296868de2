/**
 * The payment form the checkout screen uses (utils/PaymentForm.tsx): the
 * confirm handler it gives the payment element, the guard under which it
 * updates the amount the element shows, and what the "Confirm Payment" button
 * does after confirming.
 */
module ConfirmHandler {
  import opened Common
  import opened IntentCallback

  /** The form's properties; `storeCredit` and `total` default to 0. */
  datatype FormProps = FormProps(amount: int, storeCredit: int, total: int)

  /** `!!n` on a number: true for every number but 0. */
  predicate NumberTruthy(n: int)
  {
    n != 0
  }

  /** The JSON body the confirm handler posts to `/create-intent` for the
      properties it sees: it charges `amount - storeCredit`, reports `total` as
      the `amount` property (not the `total` one) and flags `isUpdated` for a
      non-zero credit. An undefined `setup_future_usage` is left out by the
      serialiser. */
  function ConfirmRequest(props: FormProps, tokenId: string, save: bool): (r: Body)
    ensures "setup_future_usage" in r <==> save
    ensures save ==> r["setup_future_usage"] == JString("off_session")
    ensures Field(r, "paymentMethodId") == Some(JString(tokenId)) && Field(r, "currency") == Some(JString("usd"))
    ensures "confirmation_token_id" !in r
    ensures IsNumberField(r, "amount") && IsNumberField(r, "storeCreditApplied") && IsNumberField(r, "total")
    ensures r["amount"].n + r["storeCreditApplied"].n == r["total"].n == props.amount
    ensures r["storeCreditApplied"].n == props.storeCredit
    ensures Field(r, "isUpdated") == Some(JBool(props.storeCredit != 0))
  {
    var body := map[
      "paymentMethodId" := JString(tokenId),
      "amount" := JNumber(props.amount - props.storeCredit),
      "currency" := JString("usd"),
      "storeCreditApplied" := JNumber(props.storeCredit),
      "total" := JNumber(props.amount),
      "isUpdated" := JBool(NumberTruthy(props.storeCredit))];
    if save then body["setup_future_usage" := JString("off_session")] else body
  }

  /** The charge is not clamped: a credit larger than the amount is sent as a
      negative amount. */
  lemma ChargeNotClamped(props: FormProps, tokenId: string, save: bool)
    requires props.storeCredit > props.amount
    ensures ConfirmRequest(props, tokenId, save)["amount"].n < 0
  {
  }

  /** The handler always calls back exactly once, through the shared mapping;
      it has no store-credit case, so a "paid with store credit" answer, which
      carries no client secret, is reported as an error. */
  lemma PaidWithStoreCreditIsAnError(status: int, body: Body)
    requires 200 <= status < 300
    requires TruthyField(Field(body, "paidWithStoreCredit")) && "clientSecret" !in body
    ensures SecretOrError(AnswerOf(status, body)) == WithError(FailedCode, NoSecretMessage, NoSecretMessage)
  {
  }

  /** The amount the element is switched to, if any: only with a positive
      credit, no loading error, an `update` function, a loaded element and a
      positive `amount - storeCredit`. The inner `newAmount > 0` test repeats
      the guard and never fails. */
  function ModeUpdate(props: FormProps, loadingError: bool, hasUpdate: bool, isLoaded: bool): (r: Option<int>)
    ensures r.Some? <==>
      props.storeCredit > 0 && !loadingError && hasUpdate && isLoaded && props.amount - props.storeCredit > 0
    ensures r.Some? ==> r.value == props.amount - props.storeCredit && 0 < r.value < props.amount
  {
    if props.storeCredit <= 0 || loadingError || !hasUpdate || !isLoaded || props.amount - props.storeCredit <= 0 then
      None
    else
      var newAmount := props.amount - props.storeCredit;
      if newAmount > 0 then Some(newAmount) else None
  }

  /** When the element is updated, it shows the amount the handler would
      charge for the same properties. */
  lemma UpdateMatchesCharge(props: FormProps, loadingError: bool, hasUpdate: bool, isLoaded: bool,
                            tokenId: string, save: bool)
    requires ModeUpdate(props, loadingError, hasUpdate, isLoaded).Some?
    ensures ConfirmRequest(props, tokenId, save)["amount"] ==
      JNumber(ModeUpdate(props, loadingError, hasUpdate, isLoaded).value)
  {
  }

  // ---------------------------------------------------------------------------
  // The "Confirm Payment" button

  /** How `confirm()` settles. */
  datatype ConfirmResult = Completed | PaymentFailed(message: string) | Canceled | Threw

  datatype Effect = Log(line: string) | ClearPaymentOption | LogError(line: string)

  /** The effects after `confirm()`, in order: a log line for the status, then
      the selection is cleared; when `confirm()` throws, the selection is
      cleared first and the error logged after. */
  function PressEffects(result: ConfirmResult): seq<Effect>
  {
    match result
    case Completed => [Log("Success Payment was completed successfully!"), ClearPaymentOption]
    case PaymentFailed(m) => [Log("Error Payment failed: " + m), ClearPaymentOption]
    case Canceled => [Log("Payment was canceled by the user"), ClearPaymentOption]
    case Threw => [ClearPaymentOption, LogError("Unexpected error during confirmation:")]
  }

  /** The number of times the selection is cleared. */
  function Clears(effects: seq<Effect>): (n: nat)
    ensures n <= |effects|
    ensures n == 0 <==> forall i :: 0 <= i < |effects| ==> effects[i] != ClearPaymentOption
  {
    if effects == [] then 0
    else (if effects[0] == ClearPaymentOption then 1 else 0) + Clears(effects[1..])
  }

  /** The selection is cleared exactly once on every path, as the last effect
      when `confirm()` settles and before the error is logged when it throws. */
  lemma ClearedOnEveryPath(result: ConfirmResult)
    ensures Clears(PressEffects(result)) == 1
    ensures var e := PressEffects(result);
      && (result != Threw ==> e[|e| - 1] == ClearPaymentOption)
      && (result == Threw ==> e[0] == ClearPaymentOption && e[1].LogError?)
  {
    var e := PressEffects(result);
    assert e[1..][1..] == [];
  }
}
