/**
 * The account routes: body validators, the email-conflict rule of
 * `/update-payment-details/:customer_id`, `/account-update`, the uncaptured-payment
 * guard of `/delete-account/:customer_id` and the key-type branch of
 * `/payment-sheet`. Each handler is a function from its inputs (and the
 * processor's answers) to its reply and the processor calls it makes, in order.
 */
module Account {
  import opened Common

  const EmailExists: ApiError := ApiError("email_exists", "Customer email already exists!")
  const RequiresCapture: string := "requires_capture"
  /** The page size of the intent listing the deletion guard looks at. */
  const ListLimit: nat := 100

  /** Processor calls, as the handlers issue them. */
  datatype Call =
    | SearchByEmail(email: string)
    | UpdateCustomer(customer: string, name: string, email: string)
    | CreateSetupIntent(customer: string)
    | DetachMethod(paymentMethod: string)
    | ListIntents(customer: string, limit: nat)
    | DeleteCustomer(customer: string)
    | CreateGuestCustomer
    | CreateCustomerSession(customer: string)
    | CreateEphemeralKey(customer: string)

  datatype Reply =
    | Rejected(status: int, error: ApiError)
    | SetupIntentCreated(clientSecret: string, customerId: string)
    | NoReply                                    // the handler never answers
    | Uncaptured(status: int, ids: seq<string>)  // {uncaptured_payments: ids}
    | AccountDeleted                             // {deleted: true}
    | PaymentSheet(customer: string, customerSessionClientSecret: string)

  datatype Handled = Handled(reply: Reply, calls: seq<Call>)

  // ---------------------------------------------------------------------------
  // Validators

  predicate IsUpdatePaymentDetailsBody(body: Body)
  {
    IsStringField(body, "email") && IsStringField(body, "name")
  }

  predicate IsAccountUpdateBody(body: Body)
  {
    && IsStringField(body, "oldName")
    && IsStringField(body, "oldEmail")
    && IsStringField(body, "name")
    && IsStringField(body, "email")
    && IsStringField(body, "customerId")
    && IsStringField(body, "paymentMethodId")
  }

  // ---------------------------------------------------------------------------
  // /update-payment-details/:customer_id

  /** `found` is the ids of the customers the email search returns (limit 1);
      `setupSecret` is the client secret of the setup intent the processor creates. */
  function UpdatePaymentDetails(body: Body, customerId: string, found: seq<string>, setupSecret: string): Handled
  {
    if !IsUpdatePaymentDetailsBody(body) then Handled(Rejected(400, InvalidBody), [])
    else
      var email := body["email"].s;
      var name := body["name"].s;
      if |found| > 0 && found[0] != customerId then
        Handled(Rejected(400, EmailExists), [SearchByEmail(email)])
      else
        Handled(SetupIntentCreated(setupSecret, customerId),
                [SearchByEmail(email), UpdateCustomer(customerId, name, email), CreateSetupIntent(customerId)])
  }

  /** A body without string `email` and `name` is rejected before any processor
      call, and only such a body is rejected as invalid. */
  lemma UpdateDetailsInvalidBodyIff(body: Body, customerId: string, found: seq<string>, setupSecret: string)
    ensures var h := UpdatePaymentDetails(body, customerId, found, setupSecret);
      h.reply == Rejected(400, InvalidBody) <==> !IsUpdatePaymentDetailsBody(body)
    ensures !IsUpdatePaymentDetailsBody(body) ==> UpdatePaymentDetails(body, customerId, found, setupSecret).calls == []
  {
  }

  /** With a valid body the answer is `email_exists` iff the search finds a
      customer and the first one is not the customer of the path; otherwise the
      customer is updated before the setup intent is created. */
  lemma EmailConflictIff(body: Body, customerId: string, found: seq<string>, setupSecret: string)
    requires IsUpdatePaymentDetailsBody(body)
    ensures var h := UpdatePaymentDetails(body, customerId, found, setupSecret);
      h.reply == Rejected(400, EmailExists) <==> |found| > 0 && found[0] != customerId
    ensures var h := UpdatePaymentDetails(body, customerId, found, setupSecret);
      !(|found| > 0 && found[0] != customerId) ==>
        && h.reply == SetupIntentCreated(setupSecret, customerId)
        && h.calls[1] == UpdateCustomer(customerId, body["name"].s, body["email"].s)
        && h.calls[2] == CreateSetupIntent(customerId)
  {
  }

  // ---------------------------------------------------------------------------
  // /account-update

  function AccountUpdate(body: Body): Handled
  {
    if !IsAccountUpdateBody(body) then Handled(Rejected(400, InvalidBody), [])
    else
      Handled(NoReply, [UpdateCustomer(body["customerId"].s, body["name"].s, body["email"].s),
                        DetachMethod(body["paymentMethodId"].s)])
  }

  /** All six fields must be strings; a valid body updates the customer, then
      detaches the payment method, and is never answered. */
  lemma AccountUpdateIff(body: Body)
    ensures AccountUpdate(body).reply == Rejected(400, InvalidBody) <==> !IsAccountUpdateBody(body)
    ensures IsAccountUpdateBody(body) ==>
      && AccountUpdate(body).reply == NoReply
      && AccountUpdate(body).calls == [UpdateCustomer(body["customerId"].s, body["name"].s, body["email"].s),
                                       DetachMethod(body["paymentMethodId"].s)]
  {
  }

  /** `oldName` and `oldEmail` are checked but otherwise unused. */
  lemma AccountUpdateIgnoresOldValues(body: Body, oldName: string, oldEmail: string)
    requires IsAccountUpdateBody(body)
    ensures AccountUpdate(body["oldName" := JString(oldName)]["oldEmail" := JString(oldEmail)]) == AccountUpdate(body)
  {
    var b := body["oldName" := JString(oldName)]["oldEmail" := JString(oldEmail)];
    assert b["customerId"] == body["customerId"] && b["name"] == body["name"];
    assert b["email"] == body["email"] && b["paymentMethodId"] == body["paymentMethodId"];
  }

  // ---------------------------------------------------------------------------
  // /delete-account/:customer_id

  datatype IntentSummary = IntentSummary(id: string, status: string)

  /** `data.filter(pi => pi.status === "requires_capture").map(pi => pi.id)` */
  function UncapturedIds(intents: seq<IntentSummary>): seq<string>
  {
    if intents == [] then []
    else
      var last := intents[|intents| - 1];
      UncapturedIds(intents[..|intents| - 1]) + (if last.status == RequiresCapture then [last.id] else [])
  }

  /** An id is listed iff some intent with that id awaits capture. */
  lemma {:induction false} UncapturedIdsMembers(intents: seq<IntentSummary>, id: string)
    ensures id in UncapturedIds(intents) <==>
      exists i :: 0 <= i < |intents| && intents[i].id == id && intents[i].status == RequiresCapture
  {
    if intents != [] {
      var init := intents[..|intents| - 1];
      UncapturedIdsMembers(init, id);
      if exists i :: 0 <= i < |intents| && intents[i].id == id && intents[i].status == RequiresCapture {
        var i :| 0 <= i < |intents| && intents[i].id == id && intents[i].status == RequiresCapture;
        if i < |init| {
          assert init[i] == intents[i];
        }
      }
      if id in UncapturedIds(init) {
        var i :| 0 <= i < |init| && init[i].id == id && init[i].status == RequiresCapture;
        assert intents[i] == init[i];
      }
    }
  }

  /** Nothing is listed iff no intent awaits capture. */
  lemma {:induction false} NoneUncaptured(intents: seq<IntentSummary>)
    ensures UncapturedIds(intents) == [] <==> forall i :: 0 <= i < |intents| ==> intents[i].status != RequiresCapture
  {
    if intents != [] {
      var init := intents[..|intents| - 1];
      NoneUncaptured(init);
      assert forall i :: 0 <= i < |init| ==> init[i] == intents[i];
    }
  }

  /** The filter keeps listed order: it distributes over concatenation. */
  lemma {:induction false} UncapturedIdsAppend(a: seq<IntentSummary>, b: seq<IntentSummary>)
    ensures UncapturedIds(a + b) == UncapturedIds(a) + UncapturedIds(b)
    decreases |b|
  {
    if b == [] {
      assert a + b == a;
    } else {
      assert (a + b)[..|a + b| - 1] == a + b[..|b| - 1];
      UncapturedIdsAppend(a, b[..|b| - 1]);
    }
  }

  /** `intents` is everything the processor holds for the customer, in listing
      order; the route sees the first page of 100. */
  function DeleteAccount(customerId: string, intents: seq<IntentSummary>): Handled
  {
    var listed := intents[..Min(|intents|, ListLimit)];
    var ids := UncapturedIds(listed);
    if |ids| > 0 then Handled(Uncaptured(400, ids), [ListIntents(customerId, ListLimit)])
    else Handled(AccountDeleted, [ListIntents(customerId, ListLimit), DeleteCustomer(customerId)])
  }

  /** The customer is deleted iff none of the first 100 intents awaits capture;
      otherwise the answer is 400 with the ids of exactly those that do. */
  lemma DeleteAccountIff(customerId: string, intents: seq<IntentSummary>)
    ensures var h := DeleteAccount(customerId, intents);
      h.reply == AccountDeleted <==>
        forall i :: 0 <= i < |intents| && i < ListLimit ==> intents[i].status != RequiresCapture
    ensures var h := DeleteAccount(customerId, intents);
      DeleteCustomer(customerId) in h.calls <==> h.reply == AccountDeleted
    ensures var h := DeleteAccount(customerId, intents);
      h.reply.Uncaptured? ==> h.reply.status == 400 && forall id :: id in h.reply.ids <==>
        exists i :: 0 <= i < |intents| && i < ListLimit && intents[i].id == id && intents[i].status == RequiresCapture
  {
    var listed := intents[..Min(|intents|, ListLimit)];
    var h := DeleteAccount(customerId, intents);
    forall id ensures id in UncapturedIds(listed) <==>
      exists i :: 0 <= i < |intents| && i < ListLimit && intents[i].id == id && intents[i].status == RequiresCapture
    {
      UncapturedIdsMembers(listed, id);
      if exists i :: 0 <= i < |intents| && i < ListLimit && intents[i].id == id && intents[i].status == RequiresCapture {
        var i :| 0 <= i < |intents| && i < ListLimit && intents[i].id == id && intents[i].status == RequiresCapture;
        assert listed[i] == intents[i];
      }
    }
    NoneUncaptured(listed);
    assert forall i :: 0 <= i < |listed| ==> listed[i] == intents[i];
    if !forall i :: 0 <= i < |intents| && i < ListLimit ==> intents[i].status != RequiresCapture {
      var i :| 0 <= i < |intents| && i < ListLimit && intents[i].status == RequiresCapture;
      assert intents[i].id in UncapturedIds(listed);
    }
  }

  /** An intent awaiting capture beyond the first 100 does not block deletion. */
  lemma LaterUncapturedIntentIgnored(customerId: string, first: seq<IntentSummary>, rest: seq<IntentSummary>)
    requires |first| == ListLimit
    requires forall i :: 0 <= i < |first| ==> first[i].status != RequiresCapture
    ensures DeleteAccount(customerId, first + rest).reply == AccountDeleted
  {
    DeleteAccountIff(customerId, first + rest);
    assert forall i :: 0 <= i < ListLimit ==> (first + rest)[i] == first[i];
  }

  // ---------------------------------------------------------------------------
  // /payment-sheet

  /** `customer` is the id of the guest customer the processor creates;
      `sessionSecret` and `ephemeralSecret` the secrets it would hand out. */
  function PaymentSheetFor(body: Body, customer: string, sessionSecret: string, ephemeralSecret: string): Handled
  {
    if Field(body, "customer_key_type") == Some(JString("customer_session")) then
      Handled(PaymentSheet(customer, sessionSecret), [CreateGuestCustomer, CreateCustomerSession(customer)])
    else
      Handled(PaymentSheet(customer, ephemeralSecret), [CreateGuestCustomer, CreateEphemeralKey(customer)])
  }

  /** A customer session is created iff `customer_key_type === "customer_session"`;
      any other value, or none, falls back to an ephemeral key. */
  lemma PaymentSheetKeyIff(body: Body, customer: string, sessionSecret: string, ephemeralSecret: string)
    ensures var h := PaymentSheetFor(body, customer, sessionSecret, ephemeralSecret);
      && |h.calls| == 2 && h.calls[0] == CreateGuestCustomer
      && (h.calls[1] == CreateCustomerSession(customer) <==> IsStringField(body, "customer_key_type") && body["customer_key_type"].s == "customer_session")
      && (h.calls[1] == CreateEphemeralKey(customer) <==> !(IsStringField(body, "customer_key_type") && body["customer_key_type"].s == "customer_session"))
    ensures var h := PaymentSheetFor(body, customer, sessionSecret, ephemeralSecret);
      h.reply.customer == customer
      && h.reply.customerSessionClientSecret == (if h.calls[1].CreateCustomerSession? then sessionSecret else ephemeralSecret)
  {
  }
}
