/**
 * The reporting routes: `/calculate-lesson-total` sums the charges of the last 36
 * hours and their fees, and `/find-customers-with-failed-payments` keeps, per
 * customer, the most recent payment intent of the last 36 hours and reports the
 * customers whose most recent intent failed.
 *
 * Both routes page through a processor listing with a `while (hasMore)` loop. The
 * listing is given as the sequence of pages the processor would answer, one per
 * request; the current time is a parameter.
 */
module Reporting {
  import opened Common

  /** 36 hours, in seconds. */
  const WindowSeconds: int := 36 * 60 * 60

  /** `Math.floor(Date.now() / 1000) - 36 * 60 * 60`: the creation time (in
      seconds) from which the listing starts. */
  function WindowStart(nowMs: int): (r: int)
    ensures (r + WindowSeconds) * 1000 <= nowMs < (r + WindowSeconds + 1) * 1000
  {
    nowMs / 1000 - WindowSeconds
  }

  // ---------------------------------------------------------------------------
  // Paging

  datatype Page<T> = Page(data: seq<T>, hasMore: bool)

  /** The listing ends: some page says there is nothing more after it. */
  predicate Ends<T>(pages: seq<Page<T>>)
  {
    exists k :: 0 <= k < |pages| && !pages[k].hasMore
  }

  lemma EndsTail<T>(pages: seq<Page<T>>)
    requires Ends(pages) && pages[0].hasMore
    ensures Ends(pages[1..])
  {
    var k :| 0 <= k < |pages| && !pages[k].hasMore;
    assert pages[1..][k - 1] == pages[k];
  }

  /** How many pages the loop requests: it stops right after the first page
      whose `has_more` is false. */
  function FetchCount<T>(pages: seq<Page<T>>): (n: nat)
    requires Ends(pages)
    ensures 1 <= n <= |pages|
    ensures !pages[n - 1].hasMore
    ensures forall k :: 0 <= k < n - 1 ==> pages[k].hasMore
  {
    if !pages[0].hasMore then 1
    else
      EndsTail(pages);
      var m := FetchCount(pages[1..]);
      assert forall k :: 1 <= k < m + 1 ==> pages[k] == pages[1..][k - 1];
      1 + m
  }

  /** The items of a run of pages, in listed order. */
  function Items<T>(pages: seq<Page<T>>): seq<T>
  {
    if pages == [] then [] else Items(pages[..|pages| - 1]) + pages[|pages| - 1].data
  }

  /** Everything the loop sees. */
  function Listed<T>(pages: seq<Page<T>>): seq<T>
    requires Ends(pages)
  {
    Items(pages[..FetchCount(pages)])
  }

  /** The `starting_after` sent with request `i`: none at first; after a page
      with more to come, the id of that page's last item (an empty page leaves
      the cursor as it was). */
  function CursorBefore<T>(pages: seq<Page<T>>, i: nat, idOf: T -> string): Option<string>
    requires i <= |pages|
  {
    if i == 0 then None
    else
      var p := pages[i - 1];
      if p.hasMore && |p.data| > 0 then Some(idOf(p.data[|p.data| - 1]))
      else CursorBefore(pages, i - 1, idOf)
  }

  /** The cursors of the first `i` requests, in order. */
  function Cursors<T>(pages: seq<Page<T>>, i: nat, idOf: T -> string): (r: seq<Option<string>>)
    requires i <= |pages|
    ensures |r| == i
    ensures forall k :: 0 <= k < i ==> r[k] == CursorBefore(pages, k, idOf)
  {
    if i == 0 then [] else Cursors(pages, i - 1, idOf) + [CursorBefore(pages, i - 1, idOf)]
  }

  lemma ItemsSnoc<T>(pages: seq<Page<T>>, i: nat)
    requires i < |pages|
    ensures Items(pages[..i + 1]) == Items(pages[..i]) + pages[i].data
  {
    assert pages[..i + 1][..i] == pages[..i];
  }

  /** One turn of a paging loop: the page read decides whether another
      request follows and which cursor it carries. */
  lemma PageStep<T>(pages: seq<Page<T>>, i: nat, idOf: T -> string)
    requires Ends(pages) && i < FetchCount(pages)
    ensures pages[i].hasMore <==> i + 1 < FetchCount(pages)
    ensures CursorBefore(pages, i + 1, idOf) ==
      if pages[i].hasMore && |pages[i].data| > 0 then Some(idOf(pages[i].data[|pages[i].data| - 1]))
      else CursorBefore(pages, i, idOf)
    ensures Items(pages[..i + 1]) == Items(pages[..i]) + pages[i].data
  {
    ItemsSnoc(pages, i);
  }

  // ---------------------------------------------------------------------------
  // Lesson totals

  datatype Charge = Charge(id: string, amountCaptured: int, balanceTransaction: Option<string>)

  function ChargeId(c: Charge): string
  {
    c.id
  }

  /** Sum of `amount_captured`. */
  function PaymentTotal(charges: seq<Charge>): int
  {
    if charges == [] then 0
    else PaymentTotal(charges[..|charges| - 1]) + charges[|charges| - 1].amountCaptured
  }

  /** Sum of the fees of the charges that have a balance transaction; `None` when
      the lookup of one of those balance transactions fails. */
  function FeeTotal(charges: seq<Charge>, fees: map<string, int>): Option<int>
  {
    if charges == [] then Some(0)
    else
      var before := FeeTotal(charges[..|charges| - 1], fees);
      var c := charges[|charges| - 1];
      if before.None? then None
      else if !NonEmpty(c.balanceTransaction) then before
      else if c.balanceTransaction.value in fees then Some(before.value + fees[c.balanceTransaction.value])
      else None
  }

  datatype Totals = Totals(paymentTotal: int, feeTotal: int, netTotal: int)

  /** The route's answer: the totals, or `None` for its 500 answer. */
  function TotalsOf(charges: seq<Charge>, fees: map<string, int>): Option<Totals>
  {
    var fee := FeeTotal(charges, fees);
    if fee.None? then None
    else Some(Totals(PaymentTotal(charges), fee.value, PaymentTotal(charges) - fee.value))
  }

  lemma {:induction false} PaymentTotalAppend(a: seq<Charge>, b: seq<Charge>)
    ensures PaymentTotal(a + b) == PaymentTotal(a) + PaymentTotal(b)
    decreases |b|
  {
    if b == [] {
      assert a + b == a;
    } else {
      assert (a + b)[..|a + b| - 1] == a + b[..|b| - 1];
      PaymentTotalAppend(a, b[..|b| - 1]);
    }
  }

  /** A failed fee lookup fails the whole sum, whatever is listed after it. */
  lemma {:induction false} FeeTotalFailureSticks(a: seq<Charge>, b: seq<Charge>, fees: map<string, int>)
    requires FeeTotal(a, fees).None?
    ensures FeeTotal(a + b, fees).None?
    decreases |b|
  {
    if b == [] {
      assert a + b == a;
    } else {
      assert (a + b)[..|a + b| - 1] == a + b[..|b| - 1];
      FeeTotalFailureSticks(a, b[..|b| - 1], fees);
    }
  }

  function WithBalanceTransaction(charges: seq<Charge>): (r: seq<Charge>)
    ensures forall c :: c in r ==> c in charges && NonEmpty(c.balanceTransaction)
  {
    if charges == [] then []
    else
      var c := charges[|charges| - 1];
      WithBalanceTransaction(charges[..|charges| - 1]) + (if NonEmpty(c.balanceTransaction) then [c] else [])
  }

  /** Charges without a balance transaction contribute no fee and need no lookup:
      the fee total is that of the charges that have one. */
  lemma {:induction false} FeesOnlyFromBalanceTransactions(charges: seq<Charge>, fees: map<string, int>)
    ensures FeeTotal(charges, fees) == FeeTotal(WithBalanceTransaction(charges), fees)
  {
    if charges != [] {
      var init := charges[..|charges| - 1];
      var c := charges[|charges| - 1];
      var w := WithBalanceTransaction(init);
      FeesOnlyFromBalanceTransactions(init, fees);
      if NonEmpty(c.balanceTransaction) {
        assert (w + [c])[..|w + [c]| - 1] == w;
      } else {
        assert w + [] == w;
      }
    }
  }

  /** The totals of a listing split anywhere are the sums of the totals of its
      parts, so the page boundaries do not matter. */
  lemma TotalsAdd(a: seq<Charge>, b: seq<Charge>, fees: map<string, int>)
    requires TotalsOf(a, fees).Some? && TotalsOf(b, fees).Some?
    ensures TotalsOf(a + b, fees).Some?
    ensures TotalsOf(a + b, fees).value.paymentTotal == TotalsOf(a, fees).value.paymentTotal + TotalsOf(b, fees).value.paymentTotal
    ensures TotalsOf(a + b, fees).value.feeTotal == TotalsOf(a, fees).value.feeTotal + TotalsOf(b, fees).value.feeTotal
  {
    PaymentTotalAppend(a, b);
    FeeTotalAppend(a, b, fees);
  }

  lemma {:induction false} FeeTotalAppend(a: seq<Charge>, b: seq<Charge>, fees: map<string, int>)
    requires FeeTotal(a, fees).Some? && FeeTotal(b, fees).Some?
    ensures FeeTotal(a + b, fees) == Some(FeeTotal(a, fees).value + FeeTotal(b, fees).value)
    decreases |b|
  {
    if b == [] {
      assert a + b == a;
    } else {
      assert (a + b)[..|a + b| - 1] == a + b[..|b| - 1];
      FeeTotalAppend(a, b[..|b| - 1], fees);
    }
  }

  /** Adds the charges of one page to the running totals; `ok` is false when a
      balance transaction lookup fails (the route then answers 500). */
  method TallyPage(data: seq<Charge>, fees: map<string, int>, ghost before: seq<Charge>, payment: int, fee: int)
    returns (ok: bool, payment': int, fee': int)
    requires PaymentTotal(before) == payment && FeeTotal(before, fees) == Some(fee)
    ensures ok <==> FeeTotal(before + data, fees).Some?
    ensures ok ==> payment' == PaymentTotal(before + data) && FeeTotal(before + data, fees) == Some(fee')
  {
    payment', fee' := payment, fee;
    var j := 0;
    assert before + data[..0] == before;
    while j < |data|
      invariant 0 <= j <= |data|
      invariant payment' == PaymentTotal(before + data[..j])
      invariant FeeTotal(before + data[..j], fees) == Some(fee')
    {
      var charge := data[j];
      assert before + data[..j + 1] == (before + data[..j]) + [charge];
      assert (before + data[..j + 1])[..|before + data[..j]|] == before + data[..j];
      payment' := payment' + charge.amountCaptured;
      if NonEmpty(charge.balanceTransaction) {
        if charge.balanceTransaction.value !in fees {
          FeeTotalFailureSticks(before + data[..j + 1], data[j + 1..], fees);
          assert (before + data[..j + 1]) + data[j + 1..] == before + data;
          return false, payment', fee';
        }
        fee' := fee' + fees[charge.balanceTransaction.value];
      }
      j := j + 1;
    }
    assert data[..|data|] == data;
    return true, payment', fee';
  }

  method CalculateLessonTotal(nowMs: int, pages: seq<Page<Charge>>, fees: map<string, int>)
    returns (since: int, cursors: seq<Option<string>>, r: Option<Totals>)
    requires Ends(pages)
    ensures since == WindowStart(nowMs)
    ensures r == TotalsOf(Listed(pages), fees)
    ensures r.Some? ==> |cursors| == FetchCount(pages)
    ensures r.Some? ==> forall k :: 0 <= k < |cursors| ==> cursors[k] == CursorBefore(pages, k, ChargeId)
  {
    since := WindowStart(nowMs);
    var paymentTotal, feeTotal := 0, 0;
    var hasMore := true;
    var startingAfter: Option<string> := None;
    var i := 0;
    cursors := [];
    ghost var n := FetchCount(pages);
    ghost var seen: seq<Charge> := [];
    while hasMore
      invariant 0 <= i <= n
      invariant hasMore <==> i < n
      invariant seen == Items(pages[..i])
      invariant paymentTotal == PaymentTotal(seen) && FeeTotal(seen, fees) == Some(feeTotal)
      invariant cursors == Cursors(pages, i, ChargeId)
      invariant startingAfter == CursorBefore(pages, i, ChargeId)
      decreases n - i
    {
      var page := pages[i];
      PageStep(pages, i, ChargeId);
      cursors := cursors + [startingAfter];
      var ok;
      ok, paymentTotal, feeTotal := TallyPage(page.data, fees, seen, paymentTotal, feeTotal);
      seen := seen + page.data;
      if !ok {
        FailedLookupFailsListing(pages, i + 1, fees);
        return since, cursors, None;
      }
      hasMore := page.hasMore;
      if hasMore && |page.data| > 0 {
        startingAfter := Some(ChargeId(page.data[|page.data| - 1]));
      }
      i := i + 1;
    }
    assert Listed(pages) == seen;
    return since, cursors, Some(Totals(paymentTotal, feeTotal, paymentTotal - feeTotal));
  }

  lemma FailedLookupFailsListing(pages: seq<Page<Charge>>, i: nat, fees: map<string, int>)
    requires Ends(pages) && i <= FetchCount(pages)
    requires FeeTotal(Items(pages[..i]), fees).None?
    ensures FeeTotal(Listed(pages), fees).None?
  {
    ListedExtends(pages, i);
    FeeTotalFailureSticks(Items(pages[..i]), Listed(pages)[|Items(pages[..i])|..], fees);
  }

  /** What the loop has seen after `i` pages is a prefix of the whole listing. */
  lemma {:induction false} ListedExtends<T>(pages: seq<Page<T>>, i: nat)
    requires Ends(pages) && i <= FetchCount(pages)
    ensures |Items(pages[..i])| <= |Listed(pages)|
    ensures Listed(pages) == Items(pages[..i]) + Listed(pages)[|Items(pages[..i])|..]
    decreases FetchCount(pages) - i
  {
    var n := FetchCount(pages);
    if i < n {
      ListedExtends(pages, i + 1);
      ItemsSnoc(pages, i);
    }
  }

  // ---------------------------------------------------------------------------
  // Latest intent per customer

  datatype PaymentError = PaymentError(
    declineCode: Option<string>,
    code: Option<string>,
    last4: Option<string>,   // last_payment_error.payment_method.card.last4
    brand: Option<string>)   // last_payment_error.payment_method.card.brand

  datatype PaymentIntent = PaymentIntent(
    id: string,
    created: int,
    customer: Option<string>,  // the id, whether given as a string or an object
    description: Option<string>,
    lastPaymentError: Option<PaymentError>)

  function IntentId(pi: PaymentIntent): string
  {
    pi.id
  }

  /** The customer an intent counts for: `if (pi.customer)`. */
  function Owner(pi: PaymentIntent): (r: Option<string>)
    ensures r.Some? <==> NonEmpty(pi.customer)
    ensures r.Some? ==> r == pi.customer
  {
    if NonEmpty(pi.customer) then pi.customer else None
  }

  /** `customerLatestPayment`: a map, and the order in which its keys were first
      set (the order in which a `Map` is iterated). */
  datatype Latest = Latest(order: seq<string>, byCustomer: map<string, PaymentIntent>)

  function Record(acc: Latest, pi: PaymentIntent): Latest
  {
    match Owner(pi)
    case None => acc
    case Some(c) =>
      if c !in acc.byCustomer then Latest(acc.order + [c], acc.byCustomer[c := pi])
      else if pi.created > acc.byCustomer[c].created then Latest(acc.order, acc.byCustomer[c := pi])
      else acc
  }

  function LatestOf(intents: seq<PaymentIntent>): Latest
  {
    if intents == [] then Latest([], map[])
    else Record(LatestOf(intents[..|intents| - 1]), intents[|intents| - 1])
  }

  ghost predicate WellFormed(l: Latest)
  {
    && (forall c :: c in l.order <==> c in l.byCustomer)
    && (forall i, j :: 0 <= i < j < |l.order| ==> l.order[i] != l.order[j])
  }

  /** Every customer is listed once, and exactly the customers of some listed
      intent are keys. */
  lemma {:induction false} LatestKeys(intents: seq<PaymentIntent>)
    ensures WellFormed(LatestOf(intents))
    ensures forall c :: c in LatestOf(intents).byCustomer <==>
      exists i :: 0 <= i < |intents| && Owner(intents[i]) == Some(c)
  {
    if intents != [] {
      var init := intents[..|intents| - 1];
      LatestKeys(init);
      var last := intents[|intents| - 1];
      forall c ensures c in LatestOf(intents).byCustomer <==>
        exists i :: 0 <= i < |intents| && Owner(intents[i]) == Some(c)
      {
        if c in LatestOf(init).byCustomer {
          var i :| 0 <= i < |init| && Owner(init[i]) == Some(c);
          assert intents[i] == init[i];
        }
        if exists i :: 0 <= i < |intents| && Owner(intents[i]) == Some(c) {
          var i :| 0 <= i < |intents| && Owner(intents[i]) == Some(c);
          if i < |init| {
            assert init[i] == intents[i];
          }
        }
      }
    }
  }

  /** `intents[i]` is an intent of customer `c` whose `created` is the greatest
      among theirs, and no earlier intent of theirs has the same `created`. */
  ghost predicate ChosenAt(intents: seq<PaymentIntent>, c: string, i: int)
  {
    && 0 <= i < |intents|
    && Owner(intents[i]) == Some(c)
    && (forall j :: 0 <= j < i && Owner(intents[j]) == Some(c) ==> intents[j].created < intents[i].created)
    && (forall j :: i < j < |intents| && Owner(intents[j]) == Some(c) ==> intents[j].created <= intents[i].created)
  }

  lemma ChosenStays(intents: seq<PaymentIntent>, c: string, i: int)
    requires |intents| > 0 && ChosenAt(intents[..|intents| - 1], c, i)
    requires Owner(intents[|intents| - 1]) != Some(c) || intents[|intents| - 1].created <= intents[i].created
    ensures ChosenAt(intents, c, i)
  {
    var init := intents[..|intents| - 1];
    assert forall j :: 0 <= j < |init| ==> intents[j] == init[j];
  }

  lemma ChosenMoves(intents: seq<PaymentIntent>, c: string, i: int)
    requires |intents| > 0 && ChosenAt(intents[..|intents| - 1], c, i)
    requires Owner(intents[|intents| - 1]) == Some(c) && intents[|intents| - 1].created > intents[i].created
    ensures ChosenAt(intents, c, |intents| - 1)
  {
    var init := intents[..|intents| - 1];
    assert forall j :: 0 <= j < |init| ==> intents[j] == init[j];
  }

  lemma ChosenFirst(intents: seq<PaymentIntent>, c: string)
    requires |intents| > 0 && Owner(intents[|intents| - 1]) == Some(c)
    requires forall j :: 0 <= j < |intents| - 1 ==> Owner(intents[j]) != Some(c)
    ensures ChosenAt(intents, c, |intents| - 1)
  {
  }

  /** The intent kept for a customer is one of theirs with the greatest `created`;
      on a tie the one listed first stays. */
  lemma {:induction false} LatestChoice(intents: seq<PaymentIntent>, c: string)
    requires c in LatestOf(intents).byCustomer
    ensures exists i :: ChosenAt(intents, c, i) && intents[i] == LatestOf(intents).byCustomer[c]
  {
    var init := intents[..|intents| - 1];
    var last := intents[|intents| - 1];
    var before := LatestOf(init).byCustomer;
    var m := LatestOf(intents).byCustomer;
    if c in before {
      LatestChoice(init, c);
      var i :| ChosenAt(init, c, i) && init[i] == before[c];
      assert intents[i] == init[i];
      if Owner(last) == Some(c) && last.created > before[c].created {
        ChosenMoves(intents, c, i);
        assert m[c] == last;
      } else {
        ChosenStays(intents, c, i);
        assert m[c] == before[c];
      }
    } else {
      LatestKeys(init);
      assert Owner(last) == Some(c) && m[c] == last;
      forall j | 0 <= j < |intents| - 1 ensures Owner(intents[j]) != Some(c) {
        assert intents[j] == init[j];
      }
      ChosenFirst(intents, c);
    }
  }

  // ---------------------------------------------------------------------------
  // Failed payments

  datatype Customer = Customer(id: string, email: Option<string>, name: Option<string>, deleted: bool)

  datatype CustomerInfo = CustomerInfo(id: string, email: string, name: string)
  datatype IntentInfo = IntentInfo(created: int, description: string, status: string, error: string)
  datatype CardInfo = CardInfo(last4: string, brand: string)
  /** The `FailedPayment` record of the reporting route. */
  datatype FailedPayment = FailedPayment(customer: CustomerInfo, paymentIntent: IntentInfo, paymentMethod: CardInfo)

  /** `decline_code || code || "generic_decline"` */
  function ErrorCode(e: PaymentError): (r: string)
    ensures NonEmpty(e.declineCode) ==> r == e.declineCode.value
    ensures !NonEmpty(e.declineCode) && NonEmpty(e.code) ==> r == e.code.value
    ensures !NonEmpty(e.declineCode) && !NonEmpty(e.code) ==> r == "generic_decline"
  {
    OrElse(e.declineCode, OrElse(e.code, "generic_decline"))
  }

  function FailedRecord(customer: Customer, pi: PaymentIntent): FailedPayment
    requires pi.lastPaymentError.Some?
  {
    var e := pi.lastPaymentError.value;
    FailedPayment(
      CustomerInfo(customer.id, OrElse(customer.email, ""), OrElse(customer.name, "")),
      IntentInfo(pi.created, OrElse(pi.description, ""), "failed", ErrorCode(e)),
      CardInfo(OrElse(e.last4, ""), OrElse(e.brand, "")))
  }

  /** A customer of the map is reported when their latest intent carries a
      payment error, their lookup succeeds (a key of `customers`) and they are
      not deleted. */
  predicate IsReported(byCustomer: map<string, PaymentIntent>, customers: map<string, Customer>, c: string)
  {
    c in byCustomer && byCustomer[c].lastPaymentError.Some? && c in customers && !customers[c].deleted
  }

  function Report(order: seq<string>, byCustomer: map<string, PaymentIntent>, customers: map<string, Customer>): seq<FailedPayment>
    requires forall c :: c in order ==> c in byCustomer
  {
    if order == [] then []
    else
      var c := order[|order| - 1];
      Report(order[..|order| - 1], byCustomer, customers)
        + (if IsReported(byCustomer, customers, c) then [FailedRecord(customers[c], byCustomer[c])] else [])
  }

  /** Every record has status "failed" and the fallback strings of the route. */
  lemma {:induction false} ReportRecordsShape(order: seq<string>, byCustomer: map<string, PaymentIntent>,
                                              customers: map<string, Customer>, k: nat)
    requires forall c :: c in order ==> c in byCustomer
    requires k < |Report(order, byCustomer, customers)|
    ensures var r := Report(order, byCustomer, customers)[k];
      exists c :: c in order && IsReported(byCustomer, customers, c)
        && r == FailedRecord(customers[c], byCustomer[c])
        && r.paymentIntent.status == "failed"
        && r.paymentIntent.error == ErrorCode(byCustomer[c].lastPaymentError.value)
  {
    var init := order[..|order| - 1];
    var c := order[|order| - 1];
    var prev := Report(init, byCustomer, customers);
    if k < |prev| {
      ReportRecordsShape(init, byCustomer, customers, k);
      var c' :| c' in init && IsReported(byCustomer, customers, c')
        && prev[k] == FailedRecord(customers[c'], byCustomer[c']);
      assert c' in order;
    }
  }

  /** Every customer that passes `IsReported` gets a record. */
  lemma {:induction false} ReportedCustomerListed(order: seq<string>, byCustomer: map<string, PaymentIntent>,
                                                  customers: map<string, Customer>, c: string)
    requires forall d :: d in order ==> d in byCustomer
    requires c in order && IsReported(byCustomer, customers, c)
    ensures FailedRecord(customers[c], byCustomer[c]) in Report(order, byCustomer, customers)
  {
    var init := order[..|order| - 1];
    var last := order[|order| - 1];
    assert order == init + [last];
    if c != last {
      ReportedCustomerListed(init, byCustomer, customers, c);
    }
  }

  /** With a processor that returns the customer asked for, a customer is
      reported iff they are a key of the map and `IsReported` holds. */
  lemma ReportedIff(order: seq<string>, byCustomer: map<string, PaymentIntent>,
                    customers: map<string, Customer>, c: string)
    requires forall d :: d in order ==> d in byCustomer
    requires forall d :: d in customers ==> customers[d].id == d
    ensures (exists k :: 0 <= k < |Report(order, byCustomer, customers)|
               && Report(order, byCustomer, customers)[k].customer.id == c)
            <==> c in order && IsReported(byCustomer, customers, c)
  {
    var r := Report(order, byCustomer, customers);
    if exists k :: 0 <= k < |r| && r[k].customer.id == c {
      var k :| 0 <= k < |r| && r[k].customer.id == c;
      ReportRecordsShape(order, byCustomer, customers, k);
    }
    if c in order && IsReported(byCustomer, customers, c) {
      ReportedCustomerListed(order, byCustomer, customers, c);
    }
  }

  /** The failed-payments answer for a listing of intents. */
  function FailedPayments(intents: seq<PaymentIntent>, customers: map<string, Customer>): seq<FailedPayment>
  {
    var l := LatestOf(intents);
    LatestKeys(intents);
    Report(l.order, l.byCustomer, customers)
  }

  /** A failure followed by a later intent of the same customer that did not
      fail is not reported. */
  lemma LaterSuccessHidesFailure(intents: seq<PaymentIntent>, customers: map<string, Customer>, j: nat, c: string)
    requires forall d :: d in customers ==> customers[d].id == d
    requires j < |intents| && Owner(intents[j]) == Some(c) && intents[j].lastPaymentError.None?
    requires forall k :: 0 <= k < |intents| && k != j && Owner(intents[k]) == Some(c) ==> intents[k].created < intents[j].created
    ensures forall k :: 0 <= k < |FailedPayments(intents, customers)| ==> FailedPayments(intents, customers)[k].customer.id != c
  {
    var l := LatestOf(intents);
    LatestKeys(intents);
    assert c in l.byCustomer;
    LatestChoice(intents, c);
    var i :| ChosenAt(intents, c, i) && intents[i] == l.byCustomer[c];
    // any other intent of `c` is older than `intents[j]`, so it is the one kept
    assert i == j;
    assert !IsReported(l.byCustomer, customers, c);
    ReportedIff(l.order, l.byCustomer, customers, c);
    assert FailedPayments(intents, customers) == Report(l.order, l.byCustomer, customers);
  }

  /** Records one page of intents in the per-customer map. */
  method RecordPage(data: seq<PaymentIntent>, ghost before: seq<PaymentIntent>, order: seq<string>, latest: map<string, PaymentIntent>)
    returns (order': seq<string>, latest': map<string, PaymentIntent>)
    requires Latest(order, latest) == LatestOf(before)
    ensures Latest(order', latest') == LatestOf(before + data)
  {
    order', latest' := order, latest;
    var j := 0;
    assert before + data[..0] == before;
    while j < |data|
      invariant 0 <= j <= |data|
      invariant Latest(order', latest') == LatestOf(before + data[..j])
    {
      var pi := data[j];
      assert before + data[..j + 1] == (before + data[..j]) + [pi];
      assert (before + data[..j + 1])[..|before + data[..j]|] == before + data[..j];
      if NonEmpty(pi.customer) {
        var customerId := pi.customer.value;
        if customerId !in latest' {
          order' := order' + [customerId];
          latest' := latest'[customerId := pi];
        } else if pi.created > latest'[customerId].created {
          latest' := latest'[customerId := pi];
        }
      }
      j := j + 1;
    }
    assert data[..|data|] == data;
  }

  /** Looks up each customer in map order and keeps the failed, live ones. */
  method ReportCustomers(order: seq<string>, latest: map<string, PaymentIntent>, customers: map<string, Customer>)
    returns (failed: seq<FailedPayment>)
    requires forall c :: c in order ==> c in latest
    ensures failed == Report(order, latest, customers)
  {
    failed := [];
    var k := 0;
    while k < |order|
      invariant 0 <= k <= |order|
      invariant failed == Report(order[..k], latest, customers)
    {
      var customerId := order[k];
      assert order[..k + 1][..k] == order[..k];
      var pi := latest[customerId];
      if pi.lastPaymentError.Some? {
        if customerId in customers {       // otherwise the lookup throws and the customer is skipped
          var customer := customers[customerId];
          if !customer.deleted {
            failed := failed + [FailedRecord(customer, pi)];
          }
        }
      }
      k := k + 1;
    }
    assert order[..k] == order;
  }

  method FindCustomersWithFailedPayments(nowMs: int, pages: seq<Page<PaymentIntent>>, customers: map<string, Customer>)
    returns (since: int, cursors: seq<Option<string>>, failed: seq<FailedPayment>)
    requires Ends(pages)
    ensures since == WindowStart(nowMs)
    ensures failed == FailedPayments(Listed(pages), customers)
    ensures |cursors| == FetchCount(pages)
    ensures forall k :: 0 <= k < |cursors| ==> cursors[k] == CursorBefore(pages, k, IntentId)
  {
    since := WindowStart(nowMs);
    var order: seq<string> := [];
    var latest: map<string, PaymentIntent> := map[];
    var hasMore := true;
    var startingAfter: Option<string> := None;
    var i := 0;
    cursors := [];
    ghost var n := FetchCount(pages);
    while hasMore
      invariant 0 <= i <= n
      invariant hasMore <==> i < n
      invariant Latest(order, latest) == LatestOf(Items(pages[..i]))
      invariant cursors == Cursors(pages, i, IntentId)
      invariant startingAfter == CursorBefore(pages, i, IntentId)
      decreases n - i
    {
      var page := pages[i];
      PageStep(pages, i, IntentId);
      cursors := cursors + [startingAfter];
      order, latest := RecordPage(page.data, Items(pages[..i]), order, latest);
      hasMore := page.hasMore;
      if hasMore && |page.data| > 0 {
        startingAfter := Some(IntentId(page.data[|page.data| - 1]));
      }
      i := i + 1;
    }
    LatestKeys(Listed(pages));
    failed := ReportCustomers(order, latest, customers);
  }
}
