/**
 * The store-credit variant of `/create-intent` (server/routes/stripe.ts). The
 * gateway's entry point does not mount this router; it is modelled as a handler
 * on its own.
 *
 * When the order total equals the store credit applied, the handler answers that
 * the order was paid with store credit and makes no processor call (the "deduct
 * store credit" step is empty: no balance exists to change). Otherwise it creates
 * and confirms an intent for exactly the `amount` the client sent, and records the
 * credit and the total as metadata.
 */
module StoreCreditRoute {
  import opened Common

  const CustomerId: string := "cus_TUmiUmrxCQZ6hr"
  const ReturnUrl: string := "com.nellis.stripe://stripe-redirect"
  const DescriptionPrefix: string := "Payment for order XYZ, used store credit: "
  /** Stands for the engine's TypeError when `toString` is called on `null`. */
  const NullToStringMessage: string := "Cannot read properties of null (reading 'toString')"

  /** `a === b` on two JSON values: same kind and same value; two parsed objects
      are never the same object. */
  predicate StrictEquals(a: Value, b: Value)
  {
    a == b && !a.JComposite?
  }

  /** `"" + v`: how a value reads when concatenated to a string. Arrays are not
      told apart from objects. */
  function TextOf(v: Value): string
  {
    match v
    case JNull => "null"
    case JBool(b) => if b then "true" else "false"
    case JNumber(n) => IntToString(n)
    case JString(s) => s
    case JComposite => "[object Object]"
  }

  /** `v.toString()`: like concatenation, except that it throws on `null`. A
      number becomes a decimal string that reads back as that number; a string
      is itself; a boolean is its name. */
  function ToStringOf(v: Value): (r: Option<string>)
    ensures r.None? <==> v.JNull?
    ensures r.Some? ==> r.value == TextOf(v)
    ensures v.JNumber? ==> r.Some? && ParseInt(r.value) == Some(v.n)
    ensures v.JString? ==> r == Some(v.s)
    ensures v.JBool? ==> r == Some(if v.b then "true" else "false")
  {
    if v.JNull? then None
    else if v.JNumber? then IntToStringRoundTrip(v.n); Some(TextOf(v))
    else Some(TextOf(v))
  }

  /** The arguments of `paymentIntents.create`; `None` is a key left undefined. */
  datatype CreateArgs = CreateArgs(
    amount: Option<Value>,
    currency: Value,
    confirm: bool,
    customer: string,
    returnUrl: string,
    paymentMethod: Option<Value>,
    setupFutureUsage: Option<Value>,
    description: string,
    storeCreditAppliedMeta: string,
    totalMeta: string)

  datatype Response =
    | PaidWithStoreCredit(storeCreditUsed: Value)  // {success, paidWithStoreCredit: true, amount: 0, storeCreditUsed}
    | ClientSecret(clientSecret: Option<string>)
    | Failed(status: int, message: string)

  /** What the handler does: its answer and the processor calls it makes (at most
      one create). `reply` is the processor's answer to that call: the client
      secret of the new intent, or an error with an optional status code. */
  datatype Handled = Handled(response: Response, calls: seq<CreateArgs>)

  /** `storeCreditApplied = 0` and `total = 0`: the defaults apply when the keys are absent. */
  function Credit(body: Body): Value
  {
    if "storeCreditApplied" in body then body["storeCreditApplied"] else JNumber(0)
  }

  function Total(body: Body): Value
  {
    if "total" in body then body["total"] else JNumber(0)
  }

  function Handle(body: Body, reply: Result<Option<string>, (Option<int>, string)>): Handled
  {
    var credit := Credit(body);
    var total := Total(body);
    if StrictEquals(total, credit) then
      Handled(PaidWithStoreCredit(credit), [])
    else if credit.JNull? || total.JNull? then
      // `.toString()` on null throws before the create call
      Handled(Failed(400, NullToStringMessage), [])
    else
      var args := CreateArgs(
        amount := Field(body, "amount"),
        currency := if "currency" in body then body["currency"] else JString("usd"),
        confirm := true,
        customer := CustomerId,
        returnUrl := ReturnUrl,
        paymentMethod := Field(body, "paymentMethodId"),
        setupFutureUsage := Field(body, "setup_future_usage"),
        description := DescriptionPrefix + TextOf(credit),
        storeCreditAppliedMeta := ToStringOf(credit).value,
        totalMeta := ToStringOf(total).value);
      match reply
      case Ok(secret) => Handled(ClientSecret(secret), [args])
      case Err(e) => Handled(Failed(StatusOf(e.0), e.1), [args])
  }

  /** The processor is skipped exactly when `total === storeCreditApplied`, and the
      answer then reports the credit applied as the credit used. */
  lemma ShortCircuitIff(body: Body, reply: Result<Option<string>, (Option<int>, string)>)
    ensures var h := Handle(body, reply);
      h.response.PaidWithStoreCredit? <==> StrictEquals(Total(body), Credit(body))
    ensures var h := Handle(body, reply);
      h.response.PaidWithStoreCredit? ==> h.calls == [] && h.response.storeCreditUsed == Credit(body)
  {
  }

  /** Both fields default to 0, so a body that sends neither is "paid with store
      credit" without any charge. */
  lemma OmittedCreditAndTotalSkipProcessor(body: Body, reply: Result<Option<string>, (Option<int>, string)>)
    requires "storeCreditApplied" !in body && "total" !in body
    ensures Handle(body, reply) == Handled(PaidWithStoreCredit(JNumber(0)), [])
  {
  }

  /** With a credit and a total that are not `===` and neither `null`, exactly one
      intent is created: it charges the client's `amount` unchanged (the credit is
      not subtracted), for the fixed customer, confirmed, with
      `payment_method = paymentMethodId`. */
  lemma ForwardsAmountUnchanged(body: Body, reply: Result<Option<string>, (Option<int>, string)>)
    requires !StrictEquals(Total(body), Credit(body)) && !Credit(body).JNull? && !Total(body).JNull?
    ensures var h := Handle(body, reply);
      && |h.calls| == 1
      && h.calls[0].amount == Field(body, "amount")
      && h.calls[0].confirm && h.calls[0].customer == CustomerId && h.calls[0].returnUrl == ReturnUrl
      && h.calls[0].paymentMethod == Field(body, "paymentMethodId")
    ensures reply.Ok? ==> Handle(body, reply).response == ClientSecret(reply.value)
    ensures reply.Err? ==> Handle(body, reply).response == Failed(StatusOf(reply.error.0), reply.error.1)
  {
  }

  /** The metadata carries the credit and the total as decimal strings that read
      back as the numbers sent, and the description ends with the credit. */
  lemma MetadataReadsBack(body: Body, reply: Result<Option<string>, (Option<int>, string)>, credit: int, total: int)
    requires Credit(body) == JNumber(credit) && Total(body) == JNumber(total) && credit != total
    ensures var a := Handle(body, reply).calls[0];
      && ParseInt(a.storeCreditAppliedMeta) == Some(credit)
      && ParseInt(a.totalMeta) == Some(total)
      && |a.description| >= |DescriptionPrefix|
      && a.description[|DescriptionPrefix|..] == a.storeCreditAppliedMeta
      && ParseInt(a.description[|DescriptionPrefix|..]) == Some(credit)
  {
    IntToStringRoundTrip(credit);
    IntToStringRoundTrip(total);
    var a := Handle(body, reply).calls[0];
    assert a.description[|DescriptionPrefix|..] == IntToString(credit);
  }

  /** A `null` credit or total that is not matched by the other throws while the
      arguments are built: 400 and no processor call. */
  lemma NullCreditOrTotalRejected(body: Body, reply: Result<Option<string>, (Option<int>, string)>)
    requires Credit(body).JNull? || Total(body).JNull?
    requires !StrictEquals(Total(body), Credit(body))
    ensures Handle(body, reply) == Handled(Failed(400, NullToStringMessage), [])
  {
  }
}
