/**
 * The `/create-intent` route of the lessons router (the one the gateway mounts).
 *
 * The identifier in `confirmation_token_id` is classified by its prefix: `pm_` is a
 * payment method, `ctoken_` a confirmation token, anything else is rejected with
 * 400. For a payment method the route first retrieves it from the processor and,
 * when it has no customer yet and the caller asked to save it, attaches it to the
 * fixed customer BEFORE creating the intent. For a confirmation token the intent is
 * created directly, and after a successful confirmation the resulting payment
 * method is attached if it is still customer-less; that follow-up is best-effort.
 *
 * The processor is abstract: it knows a set of payment methods, each with the
 * customer it is attached to (if any), and it records every call made to it. The
 * processor's answers to the create call and to the attach call are parameters;
 * a request makes at most one attach call (before the create for a `pm_`
 * method, or in the follow-up for a token).
 */
module IntentRouter {
  import opened Common

  /** The customer every intent of this route is created for. */
  const CustomerId: string := "cus_TUmiUmrxCQZ6hr"
  const ReturnUrl: string := "com.nellis.stripe://stripe-redirect"
  const DefaultAmount: int := 1099
  const DefaultCurrency: string := "usd"
  const InvalidReferenceMessage: string := "Invalid payment method or confirmation token"
  /** Stands for the engine's TypeError when `startsWith` is called on a value
      that is neither a string nor null/undefined. */
  const NotAStringMessage: string := "confirmation_token_id?.startsWith is not a function"

  /** How the route reads `confirmation_token_id`. */
  datatype Reference =
    | PaymentMethod(id: string)
    | ConfirmationToken(id: string)
    | Unrecognised  // missing, null, or a string with neither prefix
    | NotAString    // a number, boolean, array or object: `startsWith` throws

  lemma PrefixesExclusive(s: string)
    ensures !(StartsWith(s, "pm_") && StartsWith(s, "ctoken_"))
  {
    if StartsWith(s, "pm_") {
      assert s[0] == s[..3][0] == 'p';
    }
  }

  function Classify(field: Option<Value>): (r: Reference)
    ensures r.PaymentMethod? <==> field.Some? && field.value.JString? && StartsWith(field.value.s, "pm_")
    ensures r.ConfirmationToken? <==> field.Some? && field.value.JString? && StartsWith(field.value.s, "ctoken_")
    ensures (r.PaymentMethod? || r.ConfirmationToken?) ==> field.Some? && field.value == JString(r.id)
    ensures r.NotAString? <==> field.Some? && !field.value.JString? && !field.value.JNull?
  {
    match field
    case None => Unrecognised
    case Some(v) =>
      match v
      case JNull => Unrecognised
      case JString(s) =>
        PrefixesExclusive(s);
        if StartsWith(s, "pm_") then PaymentMethod(s)
        else if StartsWith(s, "ctoken_") then ConfirmationToken(s)
        else Unrecognised
      case _ => NotAString
  }

  /** The arguments of `paymentIntents.create`. A `false` flag or a `None` field is
      a key the route did not set. */
  datatype IntentArgs = IntentArgs(
    amount: Value,
    currency: Value,
    confirm: bool,
    customer: string,
    returnUrl: string,
    paymentMethod: Option<string>,
    offSession: bool,
    setupFutureUsage: Option<Value>,
    confirmationToken: Option<string>,
    automaticPaymentMethods: bool)

  /** The `args` literal every branch starts from; `amount` and `currency` take
      their defaults only when the body leaves them undefined. */
  function BaseArgs(body: Body): IntentArgs
  {
    IntentArgs(
      amount := if "amount" in body then body["amount"] else JNumber(DefaultAmount),
      currency := if "currency" in body then body["currency"] else JString(DefaultCurrency),
      confirm := true,
      customer := CustomerId,
      returnUrl := ReturnUrl,
      paymentMethod := None,
      offSession := false,
      setupFutureUsage := None,
      confirmationToken := None,
      automaticPaymentMethods := false)
  }

  /** `pm.customer` is truthy. */
  predicate IsAttached(owner: Option<string>)
  {
    NonEmpty(owner)
  }

  /** The three cases of a `pm_` identifier. */
  datatype MethodPlan = AttachAndSave | UseSaved | UseUnsaved

  function PlanFor(owner: Option<string>, setupFutureUsage: Option<Value>): MethodPlan
  {
    if !IsAttached(owner) && TruthyField(setupFutureUsage) then AttachAndSave
    else if IsAttached(owner) then UseSaved
    else UseUnsaved
  }

  function MethodArgs(base: IntentArgs, id: string, plan: MethodPlan, setupFutureUsage: Option<Value>): IntentArgs
  {
    match plan
    case AttachAndSave => base.(paymentMethod := Some(id), setupFutureUsage := setupFutureUsage)
    case UseSaved => base.(paymentMethod := Some(id), offSession := true)
    case UseUnsaved => base.(paymentMethod := Some(id))
  }

  function TokenArgs(base: IntentArgs, id: string, setupFutureUsage: Option<Value>): IntentArgs
  {
    base.(
      confirmationToken := Some(id),
      automaticPaymentMethods := true,
      setupFutureUsage := if TruthyField(setupFutureUsage) then setupFutureUsage else None)
  }

  // ---------------------------------------------------------------------------
  // The abstract processor

  /** Payment methods the processor knows, each with the customer it is attached to. */
  type Owners = map<string, Option<string>>

  datatype Call =
    | Retrieve(pm: string)
    | Attach(pm: string, customer: string)
    | Create(args: IntentArgs)

  /** The fields of a created intent the route reads. `paymentMethod` is the id
      whether the processor returned it as a string or as an object. */
  datatype Intent = Intent(status: string, paymentMethod: Option<string>, clientSecret: Option<string>)

  datatype ProcessorError = ProcessorError(statusCode: Option<int>, message: string)

  /** What the processor raises for a payment method it does not know (its own
      wording is not modelled). */
  const UnknownMethodError := ProcessorError(Some(404), "No such payment method")

  /** `{client_secret, clientSecret}` or `status(err.statusCode || 400).json({error: message})`. */
  datatype Response = Succeeded(clientSecret: Option<string>) | Failed(status: int, message: string)

  function FailedWith(e: ProcessorError): Response
  {
    Failed(StatusOf(e.statusCode), e.message)
  }

  /** The whole effect of one request: the answer, the processor's new
      attachments, and the calls made to it, in order. */
  datatype Outcome = Outcome(response: Response, owners: Owners, calls: seq<Call>)

  /** The route as a function of the body, the processor's attachments and the
      processor's answers to the attach call and to the create call. A failed
      attach before the create reaches the route's catch; a failed follow-up
      attach is swallowed. */
  function Route(body: Body, owners: Owners, attach: Result<(), ProcessorError>,
                 reply: Result<Intent, ProcessorError>): Outcome
  {
    var base := BaseArgs(body);
    var sfu := Field(body, "setup_future_usage");
    match Classify(Field(body, "confirmation_token_id"))
    case NotAString => Outcome(Failed(400, NotAStringMessage), owners, [])
    case Unrecognised => Outcome(Failed(400, InvalidReferenceMessage), owners, [])
    case PaymentMethod(id) =>
      if id !in owners then Outcome(FailedWith(UnknownMethodError), owners, [Retrieve(id)])
      else
        var plan := PlanFor(owners[id], sfu);
        var args := MethodArgs(base, id, plan, sfu);
        if plan == AttachAndSave then
          var before := [Retrieve(id), Attach(id, CustomerId)];
          match attach
          case Err(e) => Outcome(FailedWith(e), owners, before)
          case Ok(_) => AfterCreate(owners[id := Some(CustomerId)], before, args, attach, reply, false)
        else
          AfterCreate(owners, [Retrieve(id)], args, attach, reply, false)
    case ConfirmationToken(id) =>
      AfterCreate(owners, [], TokenArgs(base, id, sfu), attach, reply, TruthyField(sfu))
  }

  /** The create call and what follows it. `saveToken` is "a token was used and
      `setup_future_usage` is set". */
  function AfterCreate(owners: Owners, before: seq<Call>, args: IntentArgs, attach: Result<(), ProcessorError>,
                       reply: Result<Intent, ProcessorError>, saveToken: bool): Outcome
  {
    var calls := before + [Create(args)];
    match reply
    case Err(e) => Outcome(FailedWith(e), owners, calls)
    case Ok(intent) =>
      if saveToken && NonEmpty(intent.paymentMethod) && intent.status == "succeeded" then
        var (owners', followUp) := FollowUpAttach(owners, intent.paymentMethod.value, attach);
        Outcome(Succeeded(intent.clientSecret), owners', calls + followUp)
      else
        Outcome(Succeeded(intent.clientSecret), owners, calls)
  }

  /** Retrieve the confirmed payment method and attach it if it has no customer;
      a failure here (of the retrieve or of the attach) is swallowed. */
  function FollowUpAttach(owners: Owners, pm: string, attach: Result<(), ProcessorError>): (Owners, seq<Call>)
  {
    if pm !in owners then (owners, [Retrieve(pm)])
    else if IsAttached(owners[pm]) then (owners, [Retrieve(pm)])
    else if attach.Err? then (owners, [Retrieve(pm), Attach(pm, CustomerId)])
    else (owners[pm := Some(CustomerId)], [Retrieve(pm), Attach(pm, CustomerId)])
  }

  class Processor {
    var owners: Owners
    var log: seq<Call>

    constructor (known: Owners)
      ensures owners == known && log == []
    {
      owners := known;
      log := [];
    }

    method RetrieveMethod(pm: string) returns (r: Result<Option<string>, ProcessorError>)
      modifies this
      ensures owners == old(owners) && log == old(log) + [Retrieve(pm)]
      ensures r == if pm in owners then Ok(owners[pm]) else Err(UnknownMethodError)
    {
      log := log + [Retrieve(pm)];
      r := if pm in owners then Ok(owners[pm]) else Err(UnknownMethodError);
    }

    /** `reply` is the processor's answer for a method it knows. */
    method AttachMethod(pm: string, customer: string, reply: Result<(), ProcessorError>)
      returns (r: Result<(), ProcessorError>)
      modifies this
      ensures log == old(log) + [Attach(pm, customer)]
      ensures r == if pm in old(owners) then reply else Err(UnknownMethodError)
      ensures r.Ok? ==> owners == old(owners)[pm := Some(customer)]
      ensures r.Err? ==> owners == old(owners)
    {
      log := log + [Attach(pm, customer)];
      if pm !in owners {
        r := Err(UnknownMethodError);
      } else if reply.Err? {
        r := reply;
      } else {
        owners := owners[pm := Some(customer)];
        r := reply;
      }
    }

    method CreateIntent(args: IntentArgs, reply: Result<Intent, ProcessorError>)
      returns (r: Result<Intent, ProcessorError>)
      modifies this
      ensures owners == old(owners) && log == old(log) + [Create(args)]
      ensures r == reply
    {
      log := log + [Create(args)];
      r := reply;
    }
  }

  /** The route handler, making its calls to the processor one at a time. */
  method HandleCreateIntent(p: Processor, body: Body, attach: Result<(), ProcessorError>,
                            reply: Result<Intent, ProcessorError>)
    returns (res: Response)
    modifies p
    ensures res == Route(body, old(p.owners), attach, reply).response
    ensures p.owners == Route(body, old(p.owners), attach, reply).owners
    ensures p.log == old(p.log) + Route(body, old(p.owners), attach, reply).calls
  {
    var sfu := Field(body, "setup_future_usage");
    var args := BaseArgs(body);
    var reference := Classify(Field(body, "confirmation_token_id"));
    ghost var before: seq<Call> := [];
    if reference.NotAString? {
      return Failed(400, NotAStringMessage);
    }
    if reference.PaymentMethod? {
      var pm := p.RetrieveMethod(reference.id);
      if pm.Err? {
        return FailedWith(pm.error);
      }
      before := [Retrieve(reference.id)];
      if !IsAttached(pm.value) && TruthyField(sfu) {
        var attached := p.AttachMethod(reference.id, CustomerId, attach);
        if attached.Err? {
          return FailedWith(attached.error);
        }
        before := before + [Attach(reference.id, CustomerId)];
        args := args.(paymentMethod := Some(reference.id), setupFutureUsage := sfu);
      } else if IsAttached(pm.value) {
        args := args.(paymentMethod := Some(reference.id), offSession := true);
      } else {
        args := args.(paymentMethod := Some(reference.id));
      }
    } else if reference.ConfirmationToken? {
      args := args.(confirmationToken := Some(reference.id), automaticPaymentMethods := true);
      if TruthyField(sfu) {
        args := args.(setupFutureUsage := sfu);
      }
    } else {
      return Failed(400, InvalidReferenceMessage);
    }
    ghost var owners := p.owners;
    ghost var log := p.log;
    assert log == old(p.log) + before;
    var saveToken := reference.ConfirmationToken? && TruthyField(sfu);
    res := CreateAndSave(p, args, attach, reply, saveToken);
    AfterCreateAppends(owners, before, args, attach, reply, saveToken);
  }

  /** The create call, then, after a successful token payment to be saved, the
      follow-up attach. */
  method CreateAndSave(p: Processor, args: IntentArgs, attach: Result<(), ProcessorError>,
                       reply: Result<Intent, ProcessorError>, saveToken: bool)
    returns (res: Response)
    modifies p
    ensures res == AfterCreate(old(p.owners), [], args, attach, reply, saveToken).response
    ensures p.owners == AfterCreate(old(p.owners), [], args, attach, reply, saveToken).owners
    ensures p.log == old(p.log) + AfterCreate(old(p.owners), [], args, attach, reply, saveToken).calls
  {
    var intent := p.CreateIntent(args, reply);
    if intent.Err? {
      return FailedWith(intent.error);
    }
    if saveToken && NonEmpty(intent.value.paymentMethod) && intent.value.status == "succeeded" {
      SaveAfterConfirm(p, intent.value.paymentMethod.value, attach);
    }
    return Succeeded(intent.value.clientSecret);
  }

  /** The follow-up after a token payment: look the method up and attach it to
      the customer when it has none; any failure is swallowed. */
  method SaveAfterConfirm(p: Processor, pmId: string, attach: Result<(), ProcessorError>)
    modifies p
    ensures p.owners == FollowUpAttach(old(p.owners), pmId, attach).0
    ensures p.log == old(p.log) + FollowUpAttach(old(p.owners), pmId, attach).1
  {
    var pm := p.RetrieveMethod(pmId);
    if pm.Ok? && !IsAttached(pm.value) {
      var attached := p.AttachMethod(pmId, CustomerId, attach);  // a failure is swallowed
    }
  }

  /** The calls made before the create come first in the outcome; the answer and
      the attachments do not depend on them. */
  lemma AfterCreateAppends(owners: Owners, before: seq<Call>, args: IntentArgs, attach: Result<(), ProcessorError>,
                           reply: Result<Intent, ProcessorError>, saveToken: bool)
    ensures var o := AfterCreate(owners, [], args, attach, reply, saveToken);
      AfterCreate(owners, before, args, attach, reply, saveToken) == Outcome(o.response, o.owners, before + o.calls)
  {
    if reply.Ok? && saveToken && NonEmpty(reply.value.paymentMethod) && reply.value.status == "succeeded" {
      var followUp := FollowUpAttach(owners, reply.value.paymentMethod.value, attach).1;
      assert before + [Create(args)] + followUp == before + ([] + [Create(args)] + followUp);
    } else {
      assert before + [Create(args)] == before + ([] + [Create(args)]);
    }
  }

  // ---------------------------------------------------------------------------
  // Properties of the route

  function CreateCount(calls: seq<Call>): nat
  {
    if calls == [] then 0
    else CreateCount(calls[..|calls| - 1]) + (if calls[|calls| - 1].Create? then 1 else 0)
  }

  lemma {:induction false} CreateCountAppend(a: seq<Call>, b: seq<Call>)
    ensures CreateCount(a + b) == CreateCount(a) + CreateCount(b)
    decreases |b|
  {
    if b != [] {
      assert (a + b)[..|a + b| - 1] == a + b[..|b| - 1];
      CreateCountAppend(a, b[..|b| - 1]);
    } else {
      assert a + b == a;
    }
  }

  /** The request reaches the create call: a token, or a known `pm_` method
      whose attach (when one is needed) succeeds. */
  predicate Routable(body: Body, owners: Owners, attach: Result<(), ProcessorError>)
  {
    var r := Classify(Field(body, "confirmation_token_id"));
    r.ConfirmationToken?
    || (r.PaymentMethod? && r.id in owners
        && !(PlanFor(owners[r.id], Field(body, "setup_future_usage")) == AttachAndSave && attach.Err?))
  }

  /** Any other identifier, a missing one included, is answered with 400 and no
      call reaches the processor. */
  lemma RejectedReferenceMakesNoCall(body: Body, owners: Owners, attach: Result<(), ProcessorError>,
                                     reply: Result<Intent, ProcessorError>)
    requires var r := Classify(Field(body, "confirmation_token_id")); r.Unrecognised? || r.NotAString?
    ensures var o := Route(body, owners, attach, reply);
      o.response.Failed? && o.response.status == 400 && o.calls == [] && o.owners == owners
    ensures Classify(Field(body, "confirmation_token_id")).Unrecognised? ==>
      Route(body, owners, attach, reply).response.message == InvalidReferenceMessage
  {
  }

  /** Exactly one intent is created when the request reaches the create call,
      none otherwise. */
  lemma {:induction false} CreatesAtMostOnce(body: Body, owners: Owners, attach: Result<(), ProcessorError>,
                                             reply: Result<Intent, ProcessorError>)
    ensures CreateCount(Route(body, owners, attach, reply).calls) == if Routable(body, owners, attach) then 1 else 0
  {
    var r := Classify(Field(body, "confirmation_token_id"));
    var sfu := Field(body, "setup_future_usage");
    match r
    case PaymentMethod(id) =>
      assert CreateCount([Retrieve(id)]) == 0 by {
        assert [Retrieve(id)][..0] == [];
      }
      if id in owners {
        var plan := PlanFor(owners[id], sfu);
        var args := MethodArgs(BaseArgs(body), id, plan, sfu);
        var before := if plan == AttachAndSave then [Retrieve(id), Attach(id, CustomerId)] else [Retrieve(id)];
        assert CreateCount(before) == 0 by {
          if plan == AttachAndSave {
            assert before[..1] == [Retrieve(id)];
          }
        }
        if !(plan == AttachAndSave && attach.Err?) {
          CreatedOnce(before, args, owners, attach, reply, false);
        }
      }
    case ConfirmationToken(id) =>
      CreatedOnce([], TokenArgs(BaseArgs(body), id, sfu), owners, attach, reply, TruthyField(sfu));
    case _ =>
  }

  lemma {:induction false} CreatedOnce(before: seq<Call>, args: IntentArgs, owners: Owners,
                                       attach: Result<(), ProcessorError>,
                                       reply: Result<Intent, ProcessorError>, saveToken: bool)
    requires CreateCount(before) == 0
    ensures CreateCount(AfterCreate(owners, before, args, attach, reply, saveToken).calls) == 1
  {
    var calls := before + [Create(args)];
    CreateCountAppend(before, [Create(args)]);
    assert CreateCount([Create(args)]) == 1 by { assert [Create(args)][..0] == []; }
    if reply.Ok? && saveToken && NonEmpty(reply.value.paymentMethod) && reply.value.status == "succeeded" {
      var pm := reply.value.paymentMethod.value;
      var (_, followUp) := FollowUpAttach(owners, pm, attach);
      CreateCountAppend(calls, followUp);
      assert CreateCount(followUp) == 0 by {
        if |followUp| == 2 {
          assert followUp[..1] == [Retrieve(pm)];
        }
        assert [Retrieve(pm)][..0] == [];
      }
    }
  }

  /** Every intent the route creates is confirmed immediately, for the fixed
      customer, with the fixed return URL; `amount` defaults to 1099 and
      `currency` to "usd" when the body leaves them out. */
  lemma CreateCarriesFixedFields(body: Body, owners: Owners, attach: Result<(), ProcessorError>,
                                 reply: Result<Intent, ProcessorError>, i: nat)
    requires i < |Route(body, owners, attach, reply).calls| && Route(body, owners, attach, reply).calls[i].Create?
    ensures var a := Route(body, owners, attach, reply).calls[i].args;
      && a.confirm && a.customer == CustomerId && a.returnUrl == ReturnUrl
      && ("amount" !in body ==> a.amount == JNumber(1099))
      && ("amount" in body ==> a.amount == body["amount"])
      && ("currency" !in body ==> a.currency == JString("usd"))
      && ("currency" in body ==> a.currency == body["currency"])
  {
  }

  /** A `pm_` method with no customer, to be saved: it is attached to the
      customer first, and only when that succeeds is the intent created,
      carrying both `payment_method` and `setup_future_usage`. A failed attach
      ends the request with the attach's error and no create. */
  lemma NewMethodAttachedBeforeCreate(body: Body, owners: Owners, attach: Result<(), ProcessorError>,
                                      reply: Result<Intent, ProcessorError>, id: string)
    requires Classify(Field(body, "confirmation_token_id")) == PaymentMethod(id)
    requires id in owners && !IsAttached(owners[id])
    requires TruthyField(Field(body, "setup_future_usage"))
    ensures var o := Route(body, owners, attach, reply);
      && 2 <= |o.calls| && o.calls[0] == Retrieve(id) && o.calls[1] == Attach(id, CustomerId)
    ensures attach.Ok? ==>
      var o := Route(body, owners, attach, reply);
      && |o.calls| == 3 && o.calls[2].Create?
      && o.calls[2].args.paymentMethod == Some(id)
      && o.calls[2].args.setupFutureUsage == Some(body["setup_future_usage"])
      && !o.calls[2].args.offSession && o.calls[2].args.confirmationToken.None?
      && o.owners == owners[id := Some(CustomerId)]
    ensures attach.Err? ==>
      Route(body, owners, attach, reply) ==
        Outcome(Failed(StatusOf(attach.error.statusCode), attach.error.message), owners,
                [Retrieve(id), Attach(id, CustomerId)])
  {
  }

  /** A `pm_` method that already has a customer is used off-session and never
      saved again; one without a customer that is not to be saved is used as is.
      Neither is attached. */
  lemma ExistingOrUnsavedMethodNotAttached(body: Body, owners: Owners, attach: Result<(), ProcessorError>,
                                           reply: Result<Intent, ProcessorError>, id: string)
    requires Classify(Field(body, "confirmation_token_id")) == PaymentMethod(id)
    requires id in owners
    requires IsAttached(owners[id]) || !TruthyField(Field(body, "setup_future_usage"))
    ensures var o := Route(body, owners, attach, reply);
      && |o.calls| == 2 && o.calls[0] == Retrieve(id) && o.calls[1].Create?
      && o.owners == owners
      && o.calls[1].args.paymentMethod == Some(id)
      && o.calls[1].args.setupFutureUsage.None?
      && o.calls[1].args.offSession == IsAttached(owners[id])
  {
  }

  /** A `ctoken_` token is passed as `confirmation_token` with automatic payment
      methods, never as `payment_method`; `setup_future_usage` is sent exactly
      when it was requested. */
  lemma TokenArgsShape(body: Body, owners: Owners, attach: Result<(), ProcessorError>,
                       reply: Result<Intent, ProcessorError>, id: string)
    requires Classify(Field(body, "confirmation_token_id")) == ConfirmationToken(id)
    ensures var o := Route(body, owners, attach, reply);
      && 1 <= |o.calls| && o.calls[0].Create?
      && o.calls[0].args.confirmationToken == Some(id)
      && o.calls[0].args.automaticPaymentMethods
      && o.calls[0].args.paymentMethod.None?
      && !o.calls[0].args.offSession
      && (o.calls[0].args.setupFutureUsage.Some? <==> TruthyField(Field(body, "setup_future_usage")))
  {
  }

  /** The follow-up attach after confirmation is attempted exactly when a token
      was used, saving was requested, the intent succeeded with a payment
      method, and that method is known to the processor without a customer; the
      method then belongs to the customer exactly when the attach succeeded. */
  lemma FollowUpAttachIff(body: Body, owners: Owners, attach: Result<(), ProcessorError>,
                          reply: Result<Intent, ProcessorError>)
    requires Classify(Field(body, "confirmation_token_id")).ConfirmationToken?
    ensures var o := Route(body, owners, attach, reply);
      (|o.calls| == 3 && o.calls[2].Attach?) <==>
        && TruthyField(Field(body, "setup_future_usage"))
        && reply.Ok? && NonEmpty(reply.value.paymentMethod) && reply.value.status == "succeeded"
        && reply.value.paymentMethod.value in owners
        && !IsAttached(owners[reply.value.paymentMethod.value])
    ensures var o := Route(body, owners, attach, reply);
      forall i :: 0 <= i < |o.calls| && o.calls[i].Attach? ==>
        i == 2 && o.calls[i] == Attach(reply.value.paymentMethod.value, CustomerId)
    ensures var o := Route(body, owners, attach, reply);
      (|o.calls| == 3 && o.calls[2].Attach?) ==>
        o.owners == if attach.Ok? then owners[reply.value.paymentMethod.value := Some(CustomerId)] else owners
    ensures var o := Route(body, owners, attach, reply);
      !(|o.calls| == 3 && o.calls[2].Attach?) ==> o.owners == owners
  {
  }

  /** Whatever the follow-up finds or suffers (an unknown method, one already
      attached, a failed attach), the answer to a token request depends only on
      the processor's reply to the create call: the follow-up never turns a
      success into a failure. */
  lemma TokenAnswerIgnoresFollowUp(body: Body, owners1: Owners, owners2: Owners,
                                   attach1: Result<(), ProcessorError>, attach2: Result<(), ProcessorError>,
                                   reply: Result<Intent, ProcessorError>)
    requires Classify(Field(body, "confirmation_token_id")).ConfirmationToken?
    ensures Route(body, owners1, attach1, reply).response == Route(body, owners2, attach2, reply).response
    ensures reply.Ok? ==> Route(body, owners1, attach1, reply).response == Succeeded(reply.value.clientSecret)
  {
  }

  /** A failed attach of a new `pm_` method to be saved ends the request before
      any intent is created: the answer carries the attach's status (400 when it
      has none) and message, and the method stays without a customer. */
  lemma PreCreateAttachFailureStops(body: Body, owners: Owners, e: ProcessorError,
                                    reply: Result<Intent, ProcessorError>, id: string)
    requires Classify(Field(body, "confirmation_token_id")) == PaymentMethod(id)
    requires id in owners && !IsAttached(owners[id])
    requires TruthyField(Field(body, "setup_future_usage"))
    ensures var o := Route(body, owners, Err(e), reply);
      && CreateCount(o.calls) == 0
      && o.response == Failed(StatusOf(e.statusCode), e.message)
      && o.owners == owners && !IsAttached(o.owners[id])
  {
    NewMethodAttachedBeforeCreate(body, owners, Err(e), reply, id);
    var calls := [Retrieve(id), Attach(id, CustomerId)];
    assert calls[..1] == [Retrieve(id)] && [Retrieve(id)][..0] == [];
    assert CreateCount(calls) == CreateCount([Retrieve(id)]) == 0;
  }

  /** A failed follow-up attach after a token payment is swallowed: the request
      still answers with the intent's client secret, and the method stays
      without a customer. */
  lemma FollowUpAttachFailureSwallowed(body: Body, owners: Owners, e: ProcessorError,
                                       intent: Intent, pm: string)
    requires Classify(Field(body, "confirmation_token_id")).ConfirmationToken?
    requires TruthyField(Field(body, "setup_future_usage"))
    requires intent.status == "succeeded" && intent.paymentMethod == Some(pm) && pm != ""
    requires pm in owners && !IsAttached(owners[pm])
    ensures var o := Route(body, owners, Err(e), Ok(intent));
      && o.response == Succeeded(intent.clientSecret)
      && |o.calls| == 3 && o.calls[0].Create?
      && o.calls[1] == Retrieve(pm) && o.calls[2] == Attach(pm, CustomerId)
      && o.owners == owners
  {
  }

  /** A processor error on the create call is answered with its status code
      (400 when it has none) and its message. */
  lemma CreateErrorPropagates(body: Body, owners: Owners, attach: Result<(), ProcessorError>, e: ProcessorError)
    requires Routable(body, owners, attach)
    ensures Route(body, owners, attach, Err(e)).response == Failed(StatusOf(e.statusCode), e.message)
  {
  }
}
