/**
 * The store-credit payment form (components/payment-form.tsx): it keeps the
 * credit it applies and the amount left to pay as component state, posts a
 * confirmation token with that amount to `/create-intent`, and maps the answer
 * to the payment element's callback, except for a "paid with store credit"
 * answer, which is only announced to the user.
 */
module PaymentFormComponent {
  import opened Common
  import opened IntentCallback

  /** The credit applied and the amount left to pay. */
  datatype Credit = Credit(appliedCredit: int, finalAmount: int)

  /** `applyStoreCredit`: the credit is `min(storeCredit, amount)` and the amount
      left is `max(amount - credit, 0)`. Since the credit never exceeds the
      amount, the floor at zero never takes effect and the two always add up to
      the amount. */
  function ApplyCredit(amount: int, storeCredit: int): (r: Credit)
    ensures r.appliedCredit <= storeCredit && r.appliedCredit <= amount
    ensures r.appliedCredit == storeCredit || r.appliedCredit == amount
    ensures r.finalAmount >= 0
    ensures r.appliedCredit + r.finalAmount == amount
  {
    var creditToApply := Min(storeCredit, amount);
    Credit(creditToApply, Max(amount - creditToApply, 0))
  }

  /** With a non-negative credit and amount, the credit applied is non-negative
      too, and the whole amount is covered exactly when the credit reaches it. */
  lemma CoveredIff(amount: int, storeCredit: int)
    requires 0 <= amount && 0 <= storeCredit
    ensures 0 <= ApplyCredit(amount, storeCredit).appliedCredit
    ensures ApplyCredit(amount, storeCredit).finalAmount == 0 <==> storeCredit >= amount
  {
  }

  /** The JSON body of `POST /create-intent`; an undefined
      `setup_future_usage` is left out by the serialiser. */
  function ConfirmBody(tokenId: string, finalAmount: int, appliedCredit: int, save: bool): (r: Body)
    ensures "setup_future_usage" in r <==> save
    ensures save ==> r["setup_future_usage"] == JString("off_session")
    ensures Field(r, "confirmation_token_id") == Some(JString(tokenId)) && Field(r, "amount") == Some(JNumber(finalAmount))
    ensures Field(r, "currency") == Some(JString("usd")) && Field(r, "store_credit_applied") == Some(JNumber(appliedCredit))
  {
    var body := map["confirmation_token_id" := JString(tokenId), "amount" := JNumber(finalAmount),
                    "currency" := JString("usd"), "store_credit_applied" := JNumber(appliedCredit)];
    if save then body["setup_future_usage" := JString("off_session")] else body
  }

  /** The effect of one `handleConfirm`: the callbacks made, in order, and the
      credit announced by the "paid with store credit" alert, if it was shown. */
  datatype Confirmed = Confirmed(callbacks: seq<CallbackParams>, alertedCredit: Option<int>)

  /** A 2xx answer with a truthy `paidWithStoreCredit` shows the alert and
      returns; every other answer goes to the shared secret-or-error mapping. */
  function HandleConfirm(answer: ServerAnswer, appliedCredit: int): Confirmed
  {
    if answer.Answer? && answer.ok && TruthyField(Field(answer.body, "paidWithStoreCredit")) then
      Confirmed([], Some(appliedCredit))
    else
      Confirmed([SecretOrError(answer)], None)
  }

  /** The callback is made at most once, and it is skipped exactly when the
      answer is a 2xx "paid with store credit" one, even if that answer also
      carries a client secret. */
  lemma CallbackUnlessPaidWithCredit(answer: ServerAnswer, appliedCredit: int)
    ensures var c := HandleConfirm(answer, appliedCredit);
      && |c.callbacks| <= 1
      && (c.callbacks == [] <==> c.alertedCredit.Some?)
      && (c.alertedCredit.Some? <==>
            answer.Answer? && answer.ok && TruthyField(Field(answer.body, "paidWithStoreCredit")))
      && (c.alertedCredit.Some? ==> c.alertedCredit.value == appliedCredit)
  {
  }

  /** Otherwise the single callback carries the body's client secret exactly
      when the answer is 2xx with a truthy `clientSecret`; a non-2xx answer is
      reported as "Server error: <status>" and a 2xx one without a secret as
      "No client secret returned from server". */
  lemma CallbackOutcome(answer: ServerAnswer, appliedCredit: int)
    requires !(answer.Answer? && answer.ok && TruthyField(Field(answer.body, "paidWithStoreCredit")))
    ensures var c := HandleConfirm(answer, appliedCredit);
      && |c.callbacks| == 1
      && (c.callbacks[0].WithSecret? <==> answer.Answer? && answer.ok && TruthyField(Field(answer.body, "clientSecret")))
      && (c.callbacks[0].WithSecret? ==> c.callbacks[0].clientSecret == answer.body["clientSecret"])
      && (answer.Answer? && !answer.ok ==>
            c.callbacks[0] == WithError(FailedCode, ServerErrorMessage(answer.status), ServerErrorMessage(answer.status)))
      && (answer.Answer? && answer.ok && !TruthyField(Field(answer.body, "clientSecret")) ==>
            c.callbacks[0] == WithError(FailedCode, NoSecretMessage, NoSecretMessage))
  {
    SecretIff(answer);
  }

  /** The component's state and properties. */
  class CreditForm {
    const amount: int
    const storeCredit: int
    var appliedCredit: int
    var finalAmount: int

    /** Nothing applied yet: the amount left is the whole amount. */
    constructor (amount: int, storeCredit: int)
      ensures this.amount == amount && this.storeCredit == storeCredit
      ensures appliedCredit == 0 && finalAmount == amount
    {
      this.amount := amount;
      this.storeCredit := storeCredit;
      appliedCredit := 0;
      finalAmount := amount;
    }

    /** `applyStoreCredit`: both pieces of state are set from the properties,
        so applying twice is applying once. */
    method ApplyStoreCredit()
      modifies this
      ensures appliedCredit == ApplyCredit(amount, storeCredit).appliedCredit
      ensures finalAmount == ApplyCredit(amount, storeCredit).finalAmount
      ensures appliedCredit + finalAmount == amount
    {
      var creditToApply := Min(storeCredit, amount);
      appliedCredit := creditToApply;
      var newAmount := Max(amount - creditToApply, 0);
      finalAmount := newAmount;
    }

    /** The body `handleConfirm` posts in this state. */
    function Request(tokenId: string, save: bool): Body
      reads this
    {
      ConfirmBody(tokenId, finalAmount, appliedCredit, save)
    }
  }

  /** In the form's initial state the request charges the whole amount and
      reports no credit. */
  method InitialRequest(amount: int, storeCredit: int, tokenId: string, save: bool) returns (body: Body)
    ensures Field(body, "amount") == Some(JNumber(amount)) && Field(body, "store_credit_applied") == Some(JNumber(0))
  {
    var form := new CreditForm(amount, storeCredit);
    body := form.Request(tokenId, save);
  }

  /** After the credit is applied, the amount charged and the credit reported
      add up to the form's amount. */
  method RequestAfterApplying(amount: int, storeCredit: int, tokenId: string, save: bool) returns (body: Body)
    ensures IsNumberField(body, "amount") && IsNumberField(body, "store_credit_applied")
    ensures body["amount"].n + body["store_credit_applied"].n == amount
    ensures 0 <= body["amount"].n
  {
    var form := new CreditForm(amount, storeCredit);
    form.ApplyStoreCredit();
    body := form.Request(tokenId, save);
  }
}
