/**
 * The checkout as a whole: the screen's credit reaches the payment form, the
 * form's request reaches a `/create-intent` handler, and the handler's answer
 * comes back through the form's callback mapping.
 *
 * Two handlers answer to that path in the repository: the one of the lessons
 * router, which the gateway mounts, and the store-credit one, which it does
 * not. Both are connected here to both forms.
 */
module CheckoutFlow {
  import opened Common
  import opened IntentCallback
  import opened ConfirmHandler
  import HomeScreen
  import PaymentFormComponent
  import IntentRouter
  import StoreCreditRoute

  /** A client secret as JSON: a string, or `null` when the intent has none. */
  function SecretValue(s: Option<string>): (v: Value)
    ensures Truthy(v) <==> NonEmpty(s)
  {
    if s.Some? then JString(s.value) else JNull
  }

  /** The lessons router's answer as the client receives it:
      `{client_secret, clientSecret}` with 200, or `{error}` with the status. */
  function RouterAnswer(r: IntentRouter.Response): ServerAnswer
  {
    match r
    case Succeeded(s) =>
      AnswerOf(200, map["client_secret" := SecretValue(s), "clientSecret" := SecretValue(s)])
    case Failed(status, message) => AnswerOf(status, map["error" := JString(message)])
  }

  /** The store-credit handler's answer as the client receives it. */
  function CreditRouteAnswer(r: StoreCreditRoute.Response): ServerAnswer
  {
    match r
    case PaidWithStoreCredit(used) =>
      AnswerOf(200, map["success" := JBool(true), "paidWithStoreCredit" := JBool(true),
                        "amount" := JNumber(0), "storeCreditUsed" := used])
    case ClientSecret(s) => AnswerOf(200, map["clientSecret" := SecretValue(s)])
    case Failed(status, message) => AnswerOf(status, map["error" := JString(message)])
  }

  // ---------------------------------------------------------------------------
  // The screen's form against the mounted router

  /** The screen's form sends `paymentMethodId` and no `confirmation_token_id`,
      so the mounted `/create-intent` answers every one of its requests with 400
      "Invalid payment method or confirmation token" without calling the
      processor, and the form reports "Server error: 400". */
  lemma FormRequestRejectedByMountedRoute(props: FormProps, tokenId: string, save: bool,
                                          owners: IntentRouter.Owners,
                                          attach: Result<(), IntentRouter.ProcessorError>,
                                          reply: Result<IntentRouter.Intent, IntentRouter.ProcessorError>)
    ensures var o := IntentRouter.Route(ConfirmRequest(props, tokenId, save), owners, attach, reply);
      && o == IntentRouter.Outcome(IntentRouter.Failed(400, IntentRouter.InvalidReferenceMessage), owners, [])
      && SecretOrError(RouterAnswer(o.response)) == Failure(ServerErrorMessage(400))
  {
    var body := ConfirmRequest(props, tokenId, save);
    assert Field(body, "confirmation_token_id") == None;
    IntentRouter.RejectedReferenceMakesNoCall(body, owners, attach, reply);
  }

  // ---------------------------------------------------------------------------
  // The store-credit form against the mounted router

  /** The store-credit form's request with a confirmation token creates one
      intent for its `finalAmount`, saving exactly when asked; the credit it
      reports is not read by the route. */
  lemma ComponentRequestOnMountedRoute(finalAmount: int, appliedCredit: int, otherCredit: int, tokenId: string,
                                       save: bool, owners: IntentRouter.Owners,
                                       attach: Result<(), IntentRouter.ProcessorError>,
                                       reply: Result<IntentRouter.Intent, IntentRouter.ProcessorError>)
    requires StartsWith(tokenId, "ctoken_")
    ensures var o := IntentRouter.Route(PaymentFormComponent.ConfirmBody(tokenId, finalAmount, appliedCredit, save), owners, attach, reply);
      && 1 <= |o.calls| && o.calls[0].Create?
      && o.calls[0].args.amount == JNumber(finalAmount)
      && o.calls[0].args.confirmationToken == Some(tokenId)
      && (o.calls[0].args.setupFutureUsage.Some? <==> save)
    ensures IntentRouter.Route(PaymentFormComponent.ConfirmBody(tokenId, finalAmount, appliedCredit, save), owners, attach, reply)
         == IntentRouter.Route(PaymentFormComponent.ConfirmBody(tokenId, finalAmount, otherCredit, save), owners, attach, reply)
  {
    var body := PaymentFormComponent.ConfirmBody(tokenId, finalAmount, appliedCredit, save);
    var other := PaymentFormComponent.ConfirmBody(tokenId, finalAmount, otherCredit, save);
    IntentRouter.TokenArgsShape(body, owners, attach, reply, tokenId);
    assert IntentRouter.BaseArgs(body) == IntentRouter.BaseArgs(other);
    assert Field(body, "confirmation_token_id") == Field(other, "confirmation_token_id");
    assert Field(body, "setup_future_usage") == Field(other, "setup_future_usage");
  }

  /** A successful create with a client secret reaches the store-credit form's
      callback as that secret, exactly once. */
  lemma ComponentReceivesSecret(secret: string, appliedCredit: int)
    requires secret != ""
    ensures var r := IntentRouter.Succeeded(Some(secret));
      PaymentFormComponent.HandleConfirm(RouterAnswer(r), appliedCredit)
        == PaymentFormComponent.Confirmed([WithSecret(JString(secret))], None)
  {
    var a := RouterAnswer(IntentRouter.Succeeded(Some(secret)));
    assert Field(a.body, "paidWithStoreCredit") == None;
    assert Field(a.body, "clientSecret") == Some(JString(secret));
  }

  // ---------------------------------------------------------------------------
  // Both forms against the store-credit handler

  /** The store-credit handler reads the screen's form's fields
      (`paymentMethodId`, `storeCreditApplied`, `total`): it skips the processor
      exactly when the form's `amount` equals its credit, and otherwise charges
      `amount - storeCredit`. The "paid with store credit" answer has no client
      secret, so that form reports it as "No client secret returned from
      server", while the store-credit form only shows its alert. */
  lemma FormRequestOnCreditRoute(props: FormProps, tokenId: string, save: bool,
                                 reply: Result<Option<string>, (Option<int>, string)>)
    ensures var h := StoreCreditRoute.Handle(ConfirmRequest(props, tokenId, save), reply);
      && (h.response.PaidWithStoreCredit? <==> props.amount == props.storeCredit)
      && (h.response.PaidWithStoreCredit? ==>
            && SecretOrError(CreditRouteAnswer(h.response)) == Failure(NoSecretMessage)
            && PaymentFormComponent.HandleConfirm(CreditRouteAnswer(h.response), props.storeCredit).callbacks == [])
      && (!h.response.PaidWithStoreCredit? ==>
            |h.calls| == 1 && h.calls[0].amount == Some(JNumber(props.amount - props.storeCredit)))
  {
    var body := ConfirmRequest(props, tokenId, save);
    assert StoreCreditRoute.Credit(body) == JNumber(props.storeCredit);
    assert StoreCreditRoute.Total(body) == JNumber(props.amount);
    StoreCreditRoute.ShortCircuitIff(body, reply);
  }

  // ---------------------------------------------------------------------------
  // The credit is deducted twice

  /** As written: the screen passes the amount already net of the credit, and the
      form subtracts the credit again. The amount the element shows is deducted
      twice today. The request built from the same properties would be too, once
      the confirm handler reads the current properties (it does not: see
      `SessionAsWritten`): the charge plus the credit falls short of the order by
      the credit, `total` is the net amount, and the store-credit handler, which
      the gateway does not mount, would skip the processor when the order is
      twice the credit. */
  lemma DoubleDeduction(moneyAmount: int, applied: int, tokenId: string, save: bool,
                        reply: Result<Option<string>, (Option<int>, string)>)
    ensures var body := ConfirmRequest(HomeScreen.PropsFor(moneyAmount, applied), tokenId, save);
      && body["amount"] == JNumber(moneyAmount - 2 * applied)
      && body["amount"].n + body["storeCreditApplied"].n == moneyAmount - applied
      && body["total"] == JNumber(moneyAmount - applied)
    ensures var shown := ModeUpdate(HomeScreen.PropsFor(moneyAmount, applied), false, true, true);
      shown.Some? ==> shown.value == moneyAmount - 2 * applied
    ensures var h := StoreCreditRoute.Handle(ConfirmRequest(HomeScreen.PropsFor(moneyAmount, applied), tokenId, save), reply);
      h.response.PaidWithStoreCredit? <==> moneyAmount == 2 * applied
  {
    FormRequestOnCreditRoute(HomeScreen.PropsFor(moneyAmount, applied), tokenId, save, reply);
  }

  /** An order of 1000 with 300 of credit: the element shows 400 instead of 700,
      and a request built from those properties would ask for 400. With 500 of
      credit, such a request would be declared paid with store credit by the
      store-credit handler although 500 is left to pay. */
  lemma DoubleDeductionExample(tokenId: string, save: bool, reply: Result<Option<string>, (Option<int>, string)>)
    ensures ModeUpdate(HomeScreen.PropsFor(1000, 300), false, true, true) == Some(400)
    ensures ConfirmRequest(HomeScreen.PropsFor(1000, 300), tokenId, save)["amount"] == JNumber(400)
    ensures StoreCreditRoute.Handle(ConfirmRequest(HomeScreen.PropsFor(1000, 500), tokenId, save), reply)
      == StoreCreditRoute.Handled(StoreCreditRoute.PaidWithStoreCredit(JNumber(500)), [])
  {
    DoubleDeduction(1000, 300, tokenId, save, reply);
    DoubleDeduction(1000, 500, tokenId, save, reply);
  }

  /** Corrected: the screen passes the order amount and lets the form deduct
      the credit once. */
  function CorrectedProps(moneyAmount: int, applied: int): (r: FormProps)
    ensures r.amount - r.storeCredit == moneyAmount - applied
    ensures r.total == r.amount == moneyAmount && r.storeCredit == applied
  {
    FormProps(moneyAmount, applied, moneyAmount)
  }

  /** With the corrected properties, the charge plus the credit is the order
      amount and `total` is the order amount; the element shows the charge; and
      the store-credit handler skips the processor exactly when nothing is left
      to charge, and otherwise charges exactly what is left. */
  lemma CorrectedChargeCoversOrder(moneyAmount: int, applied: int, tokenId: string, save: bool,
                                   reply: Result<Option<string>, (Option<int>, string)>)
    ensures var body := ConfirmRequest(CorrectedProps(moneyAmount, applied), tokenId, save);
      && body["amount"].n + body["storeCreditApplied"].n == moneyAmount
      && body["total"] == JNumber(moneyAmount)
    ensures var shown := ModeUpdate(CorrectedProps(moneyAmount, applied), false, true, true);
      shown.Some? ==> JNumber(shown.value) == ConfirmRequest(CorrectedProps(moneyAmount, applied), tokenId, save)["amount"]
    ensures var h := StoreCreditRoute.Handle(ConfirmRequest(CorrectedProps(moneyAmount, applied), tokenId, save), reply);
      && (h.response.PaidWithStoreCredit? <==> moneyAmount - applied == 0)
      && (!h.response.PaidWithStoreCredit? ==> |h.calls| == 1 && h.calls[0].amount == Some(JNumber(moneyAmount - applied)))
  {
    var props := CorrectedProps(moneyAmount, applied);
    FormRequestOnCreditRoute(props, tokenId, save, reply);
    var body := ConfirmRequest(props, tokenId, save);
    assert body["amount"] == JNumber(moneyAmount - applied);
    assert body["storeCreditApplied"] == JNumber(applied);
  }

  // ---------------------------------------------------------------------------
  // The confirm handler sees the first render's properties

  /** As written: the form builds its confirm handler once, when it is first
      shown, and the screen shows it with no credit applied; a credit applied
      afterwards changes the amount the element shows (deducted twice) but not
      the request, which charges the whole order and reports no credit. */
  method SessionAsWritten(hours: int, minutes: int, text: string, parsedCents: int, tokenId: string, save: bool)
    returns (shown: Option<int>, request: Body)
    requires 0 <= hours < 24 && 0 <= minutes < 60
    ensures var money := HomeScreen.MoneyAmount(hours, minutes);
      var applied := HomeScreen.AppliedCredit(HomeScreen.RequestedCents(text, parsedCents), money);
      && (shown.Some? <==> 0 < applied && 2 * applied < money)
      && (shown.Some? ==> shown.value == money - 2 * applied)
      && Field(request, "amount") == Some(JNumber(money))
      && Field(request, "storeCreditApplied") == Some(JNumber(0))
      && Field(request, "total") == Some(JNumber(money))
  {
    var screen := new HomeScreen.Screen(hours, minutes);
    var mounted := screen.Props();
    screen.Toggle();
    screen.OnChangeText(text, parsedCents);
    var current := screen.Props();
    shown := ModeUpdate(current, false, true, true);
    request := ConfirmRequest(mounted, tokenId, save);
  }

  /** Corrected: the handler reads the current properties, which carry the
      order amount; the request then charges the order less the credit, reports
      the credit and the order total, and matches the amount shown. */
  method Session(hours: int, minutes: int, text: string, parsedCents: int, tokenId: string, save: bool)
    returns (shown: Option<int>, request: Body)
    requires 0 <= hours < 24 && 0 <= minutes < 60
    ensures var money := HomeScreen.MoneyAmount(hours, minutes);
      var applied := HomeScreen.AppliedCredit(HomeScreen.RequestedCents(text, parsedCents), money);
      && Field(request, "amount") == Some(JNumber(money - applied))
      && Field(request, "storeCreditApplied") == Some(JNumber(applied))
      && Field(request, "total") == Some(JNumber(money))
      && (shown.Some? <==> 0 < applied < money)
      && (shown.Some? ==> Field(request, "amount") == Some(JNumber(shown.value)))
  {
    var screen := new HomeScreen.Screen(hours, minutes);
    screen.Toggle();
    screen.OnChangeText(text, parsedCents);
    var current := CorrectedProps(screen.moneyAmount, screen.appliedStoreCredit);
    shown := ModeUpdate(current, false, true, true);
    request := ConfirmRequest(current, tokenId, save);
  }
}
