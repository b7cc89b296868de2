/**
 * The remaining rules of the lessons router: the body validators of
 * `/schedule-lesson`, `/complete-lesson-payment` and `/refund-lesson`, and the
 * per-portion mapping of `/create-split-payment`.
 */
module LessonRoutes {
  import opened Common

  // ---------------------------------------------------------------------------
  // Validators

  predicate IsScheduleLessonBody(body: Body)
  {
    IsStringField(body, "customer_id") && IsNumberField(body, "amount") && IsStringField(body, "description")
  }

  predicate IsCompleteLessonPaymentBody(body: Body)
  {
    IsStringField(body, "payment_intent_id") && IsNumberField(body, "amount")
  }

  predicate IsRefundLessonBody(body: Body)
  {
    IsStringField(body, "payment_intent_id") && IsNumberField(body, "amount")
  }

  datatype Call =
    | ListCards(customer: string)
    // a confirmed, manually captured card payment in "usd"
    | CreateManualCapture(amount: int, customer: string, description: string, paymentMethod: Option<string>)
    | Capture(paymentIntent: string, amountToCapture: int)
    | Refund(paymentIntent: string, amount: int)

  datatype Reply = Rejected(status: int, error: ApiError) | Relayed  // the processor's answer is passed on

  datatype Handled = Handled(reply: Reply, calls: seq<Call>)

  /** `firstCard` is the id of the customer's first saved card, if any. */
  function ScheduleLesson(body: Body, firstCard: Option<string>): Handled
  {
    if !IsScheduleLessonBody(body) then Handled(Rejected(400, InvalidBody), [])
    else
      var customer := body["customer_id"].s;
      Handled(Relayed, [ListCards(customer),
                        CreateManualCapture(body["amount"].n, customer, body["description"].s, firstCard)])
  }

  function CompleteLessonPayment(body: Body): Handled
  {
    if !IsCompleteLessonPaymentBody(body) then Handled(Rejected(400, InvalidBody), [])
    else Handled(Relayed, [Capture(body["payment_intent_id"].s, body["amount"].n)])
  }

  function RefundLesson(body: Body): Handled
  {
    if !IsRefundLessonBody(body) then Handled(Rejected(400, InvalidBody), [])
    else Handled(Relayed, [Refund(body["payment_intent_id"].s, body["amount"].n)])
  }

  /** Each lesson route answers 400 `invalid_body` without any processor call
      exactly when its validator fails; otherwise its calls carry the body's
      fields unchanged. */
  lemma LessonValidatorsGuard(body: Body, firstCard: Option<string>)
    ensures ScheduleLesson(body, firstCard).reply == Rejected(400, InvalidBody) <==> !IsScheduleLessonBody(body)
    ensures !IsScheduleLessonBody(body) ==> ScheduleLesson(body, firstCard).calls == []
    ensures IsScheduleLessonBody(body) ==>
      ScheduleLesson(body, firstCard).calls[1] ==
        CreateManualCapture(body["amount"].n, body["customer_id"].s, body["description"].s, firstCard)
    ensures CompleteLessonPayment(body).reply == Rejected(400, InvalidBody) <==> !IsCompleteLessonPaymentBody(body)
    ensures CompleteLessonPayment(body).calls == [] <==> !IsCompleteLessonPaymentBody(body)
    ensures IsCompleteLessonPaymentBody(body) ==>
      CompleteLessonPayment(body).calls == [Capture(body["payment_intent_id"].s, body["amount"].n)]
    ensures RefundLesson(body).reply == Rejected(400, InvalidBody) <==> !IsRefundLessonBody(body)
    ensures RefundLesson(body).calls == [] <==> !IsRefundLessonBody(body)
    ensures IsRefundLessonBody(body) ==>
      RefundLesson(body).calls == [Refund(body["payment_intent_id"].s, body["amount"].n)]
  {
  }

  /** An amount sent as a string is refused (no coercion). */
  lemma StringAmountRefused(body: Body, s: string)
    requires IsStringField(body, "payment_intent_id")
    ensures RefundLesson(body["amount" := JString(s)]).reply == Rejected(400, InvalidBody)
  {
  }

  // ---------------------------------------------------------------------------
  // /create-split-payment

  /** The destructured body: `portions` is `None` when it is not an array. */
  datatype SplitRequest = SplitRequest(
    totalAmount: Option<Value>,
    portions: Option<seq<Value>>,
    currency: Option<Value>,
    metadata: Option<map<string, Value>>)

  /** Stands for the engine's TypeError when `portions.map` is not a function. */
  const PortionsNotArrayMessage: string := "portions.map is not a function"

  /** What the processor answers to one create call. */
  datatype Created = Created(clientSecret: Option<string>, id: string)

  datatype PortionCreate = PortionCreate(amount: Value, currency: Value, metadata: map<string, Value>)

  datatype Portion = Portion(portion: int, amount: Value, clientSecret: Option<string>, paymentIntentId: string)

  datatype SplitReply = SplitIntents(paymentIntents: seq<Portion>) | SplitFailed(status: int, message: string)

  datatype SplitHandled = SplitHandled(reply: SplitReply, calls: seq<PortionCreate>)

  /** `portion_${k}_of_${n}` */
  function Label(k: nat, n: nat): string
  {
    "portion_" + NatToString(k) + "_of_" + NatToString(n)
  }

  /** `{...metadata, splitPayment, totalBill}`; an undefined `totalBill` is not sent. */
  function PortionMetadata(req: SplitRequest, k: nat, n: nat): map<string, Value>
  {
    var base := if req.metadata.Some? then req.metadata.value else map[];
    var labelled := base["splitPayment" := JString(Label(k, n))];
    if req.totalAmount.Some? then labelled["totalBill" := req.totalAmount.value]
    else labelled - {"totalBill"}
  }

  function CurrencyOf(req: SplitRequest): Value
  {
    if req.currency.Some? then req.currency.value else JString("usd")
  }

  /** The answers for the first `k` portions, or the message of the first failure. */
  function Collect(portions: seq<Value>, reply: nat -> Result<Created, string>, k: nat): Result<seq<Portion>, string>
    requires k <= |portions|
  {
    if k == 0 then Ok([])
    else
      match Collect(portions, reply, k - 1)
      case Err(m) => Err(m)
      case Ok(ps) =>
        match reply(k - 1)
        case Err(m) => Err(m)
        case Ok(c) => Ok(ps + [Portion(k, portions[k - 1], c.clientSecret, c.id)])
  }

  /** Every portion is sent (the creates run side by side), and the answer lists
      the portions in order, or is 400 with the first failure in portion order. */
  function SplitPayment(req: SplitRequest, reply: nat -> Result<Created, string>): SplitHandled
  {
    if req.portions.None? then SplitHandled(SplitFailed(400, PortionsNotArrayMessage), [])
    else
      var portions := req.portions.value;
      var n := |portions|;
      var calls := seq(n, i requires 0 <= i < n => PortionCreate(portions[i], CurrencyOf(req), PortionMetadata(req, i + 1, n)));
      match Collect(portions, reply, n)
      case Ok(ps) => SplitHandled(SplitIntents(ps), calls)
      case Err(m) => SplitHandled(SplitFailed(400, m), calls)
  }

  lemma {:induction false} CollectOk(portions: seq<Value>, reply: nat -> Result<Created, string>, k: nat)
    requires k <= |portions|
    ensures Collect(portions, reply, k).Ok? <==> forall i :: 0 <= i < k ==> reply(i).Ok?
    ensures Collect(portions, reply, k).Ok? ==>
      var ps := Collect(portions, reply, k).value;
      |ps| == k && forall i :: 0 <= i < k ==>
        ps[i] == Portion(i + 1, portions[i], reply(i).value.clientSecret, reply(i).value.id)
  {
    if k > 0 {
      CollectOk(portions, reply, k - 1);
    }
  }

  lemma {:induction false} CollectFirstFailure(portions: seq<Value>, reply: nat -> Result<Created, string>, k: nat, j: nat)
    requires j < k <= |portions|
    requires reply(j).Err? && forall i :: 0 <= i < j ==> reply(i).Ok?
    ensures Collect(portions, reply, k) == Err(reply(j).error)
  {
    if k - 1 == j {
      CollectOk(portions, reply, j);
    } else {
      CollectFirstFailure(portions, reply, k - 1, j);
    }
  }

  /** One create per portion, in order, each with the portion's amount, the
      currency ("usd" by default) and the request metadata plus its label and
      the bill total. */
  lemma SplitCreatesEveryPortion(req: SplitRequest, reply: nat -> Result<Created, string>, i: nat)
    requires req.portions.Some? && i < |req.portions.value|
    ensures var h := SplitPayment(req, reply);
      var n := |req.portions.value|;
      && |h.calls| == n
      && h.calls[i].amount == req.portions.value[i]
      && h.calls[i].currency == (if req.currency.Some? then req.currency.value else JString("usd"))
      && h.calls[i].metadata["splitPayment"] == JString(Label(i + 1, n))
      && (req.totalAmount.Some? <==> "totalBill" in h.calls[i].metadata)
      && (req.totalAmount.Some? ==> h.calls[i].metadata["totalBill"] == req.totalAmount.value)
      && (req.metadata.Some? ==> forall key :: key in req.metadata.value && key != "splitPayment" && key != "totalBill" ==>
            key in h.calls[i].metadata && h.calls[i].metadata[key] == req.metadata.value[key])
  {
  }

  /** The answer lists every portion, numbered from 1 in order, iff every create
      succeeds; otherwise it is 400 with the message of the first failing
      portion. */
  lemma SplitReplyIff(req: SplitRequest, reply: nat -> Result<Created, string>)
    requires req.portions.Some?
    ensures var n := |req.portions.value|;
      SplitPayment(req, reply).reply.SplitIntents? <==> forall i :: 0 <= i < n ==> reply(i).Ok?
    ensures var h := SplitPayment(req, reply);
      h.reply.SplitIntents? ==>
        && |h.reply.paymentIntents| == |req.portions.value|
        && forall i :: 0 <= i < |req.portions.value| ==>
             && h.reply.paymentIntents[i].portion == i + 1
             && h.reply.paymentIntents[i].amount == req.portions.value[i]
             && h.reply.paymentIntents[i].paymentIntentId == reply(i).value.id
  {
    CollectOk(req.portions.value, reply, |req.portions.value|);
  }

  lemma SplitFailureIsFirst(req: SplitRequest, reply: nat -> Result<Created, string>, j: nat)
    requires req.portions.Some? && j < |req.portions.value|
    requires reply(j).Err? && forall i :: 0 <= i < j ==> reply(i).Ok?
    ensures SplitPayment(req, reply).reply == SplitFailed(400, reply(j).error)
  {
    CollectFirstFailure(req.portions.value, reply, |req.portions.value|, j);
  }

  /** The leading run of decimal digits of a string. */
  function TakeDigits(s: string): (r: string)
    ensures AllDigits(r) && |r| <= |s|
  {
    if s == [] || !IsDigit(s[0]) then [] else [s[0]] + TakeDigits(s[1..])
  }

  lemma {:induction false} TakeDigitsOfRun(a: string, x: string)
    requires AllDigits(a)
    requires x == [] || !IsDigit(x[0])
    ensures TakeDigits(a + x) == a
  {
    if a != [] {
      assert (a + x)[1..] == a[1..] + x;
      TakeDigitsOfRun(a[1..], x);
    } else {
      assert a + x == x;
    }
  }

  /** Two portions of one split never share a label. */
  lemma LabelsDistinct(i: nat, j: nat, n: nat)
    requires i != j
    ensures Label(i, n) != Label(j, n)
  {
    if Label(i, n) == Label(j, n) {
      var tail := "_of_" + NatToString(n);
      assert Label(i, n) == "portion_" + (NatToString(i) + tail);
      assert Label(j, n) == "portion_" + (NatToString(j) + tail);
      assert Label(i, n)[8..] == NatToString(i) + tail;
      assert Label(j, n)[8..] == NatToString(j) + tail;
      TakeDigitsOfRun(NatToString(i), tail);
      TakeDigitsOfRun(NatToString(j), tail);
      ParseNatOfNatToString(i);
      ParseNatOfNatToString(j);
    }
  }
}
