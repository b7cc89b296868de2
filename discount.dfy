/**
 * The discount calculator of the lessons router: `/apply-discount` looks a code
 * up case-insensitively in a fixed table and applies a percentage or a fixed
 * amount to an order amount in integer cents; `/available-discounts` lists the
 * table.
 */
module Discounts {
  import opened Common

  /** A table entry: a percentage or a fixed amount off (either may be absent). */
  datatype Rule = Rule(percentage: Option<int>, fixedAmount: Option<int>, description: string)

  datatype Entry = Entry(code: string, rule: Rule)

  /** The code table, in declaration order (the order `Object.entries` lists it). */
  const Codes: seq<Entry> := [
    Entry("SAVE10", Rule(Some(10), None, "10% off")),
    Entry("SAVE20", Rule(Some(20), None, "20% off")),
    Entry("FLAT500", Rule(None, Some(500), "$5.00 off")),
    Entry("WELCOME15", Rule(Some(15), None, "Welcome discount 15% off")),
    Entry("FIRST25", Rule(Some(25), None, "First time customer 25% off"))
  ]

  const DefaultOriginalAmount: int := 6099
  const CodeRequiredMessage: string := "Discount code is required"
  const InvalidCodeMessage: string := "Invalid discount code"
  /** Stands for the engine's TypeError when `toUpperCase` is called on a value
      that is not a string. */
  const NotAStringMessage: string := "discountCode.toUpperCase is not a function"

  /** `if (x)` on an optional number. */
  predicate IsSet(x: Option<int>)
  {
    x.Some? && x.value != 0
  }

  // ---------------------------------------------------------------------------
  // Case folding and lookup

  /** Upper-casing of one character; only the ASCII letters are mapped. */
  function UpperChar(c: char): char
  {
    if 'a' <= c <= 'z' then (c as int - 'a' as int + 'A' as int) as char else c
  }

  function ToUpper(s: string): (r: string)
    ensures |r| == |s|
  {
    seq(|s|, i requires 0 <= i < |s| => UpperChar(s[i]))
  }

  /** Upper-casing twice is upper-casing once. */
  lemma ToUpperIdempotent(s: string)
    ensures ToUpper(ToUpper(s)) == ToUpper(s)
  {
    var u := ToUpper(s);
    assert forall i :: 0 <= i < |s| ==> UpperChar(u[i]) == u[i];
  }

  function Lookup(table: seq<Entry>, code: string): (r: Option<Rule>)
    ensures r.Some? <==> exists i :: 0 <= i < |table| && table[i].code == code
    ensures r.Some? ==> exists i :: 0 <= i < |table| && table[i] == Entry(code, r.value)
  {
    if table == [] then None
    else if table[0].code == code then Some(table[0].rule)
    else
      var r := Lookup(table[1..], code);
      assert forall i :: 1 <= i < |table| ==> table[i] == table[1..][i - 1];
      r
  }

  // ---------------------------------------------------------------------------
  // Arithmetic

  /** `Math.round(x * p / 100)`: the nearest integer, halves rounded up. */
  function RoundedPercent(x: int, p: int): (r: int)
    ensures x * p - 50 < 100 * r <= x * p + 50
  {
    (x * p + 50) / 100
  }

  datatype Amounts = Amounts(discountAmount: int, discountedAmount: int)

  function Discounted(rule: Rule, originalAmount: int): Amounts
  {
    if IsSet(rule.percentage) then
      var d := RoundedPercent(originalAmount, rule.percentage.value);
      Amounts(d, originalAmount - d)
    else if IsSet(rule.fixedAmount) then
      Amounts(rule.fixedAmount.value, Max(originalAmount - rule.fixedAmount.value, 0))
    else
      Amounts(0, originalAmount)
  }

  // ---------------------------------------------------------------------------
  // /apply-discount

  datatype DiscountReply =
    | Applied(discountCode: string, description: string, originalAmount: int, discountAmount: int,
              discountedAmount: int, percentageOff: Option<int>, fixedAmountOff: Option<int>)
    | Rejected(status: int, message: string, valid: Option<bool>)  // `valid: false` only on 404

  /** `discountCode` is the body field as sent; `originalAmount` the body's
      number, if any (6099 when undefined). */
  function ApplyDiscount(discountCode: Option<Value>, originalAmount: Option<int>): DiscountReply
  {
    var original := if originalAmount.Some? then originalAmount.value else DefaultOriginalAmount;
    if !TruthyField(discountCode) then Rejected(400, CodeRequiredMessage, None)
    else if !discountCode.value.JString? then Rejected(400, NotAStringMessage, None)
    else
      var normalized := ToUpper(discountCode.value.s);
      match Lookup(Codes, normalized)
      case None => Rejected(404, InvalidCodeMessage, Some(false))
      case Some(rule) =>
        var a := Discounted(rule, original);
        Applied(normalized, rule.description, original, a.discountAmount, a.discountedAmount,
                rule.percentage, rule.fixedAmount)
  }

  /** A missing, empty or otherwise falsy code is answered 400 "Discount code is
      required", and nothing else is. */
  lemma CodeRequiredIff(discountCode: Option<Value>, originalAmount: Option<int>)
    ensures ApplyDiscount(discountCode, originalAmount) == Rejected(400, CodeRequiredMessage, None)
            <==> !TruthyField(discountCode)
  {
  }

  /** A string code is answered 404 with `valid: false` iff its upper-cased form
      is not in the table; otherwise the reply carries the upper-cased code. */
  lemma UnknownCodeIff(code: string, originalAmount: Option<int>)
    requires code != ""
    ensures ApplyDiscount(Some(JString(code)), originalAmount).Rejected? <==>
      forall i :: 0 <= i < |Codes| ==> Codes[i].code != ToUpper(code)
    ensures ApplyDiscount(Some(JString(code)), originalAmount).Rejected? ==>
      ApplyDiscount(Some(JString(code)), originalAmount) == Rejected(404, InvalidCodeMessage, Some(false))
    ensures ApplyDiscount(Some(JString(code)), originalAmount).Applied? ==>
      ApplyDiscount(Some(JString(code)), originalAmount).discountCode == ToUpper(code)
  {
  }

  /** Lookup is case-insensitive: a code and its upper-cased form get the same
      answer. */
  lemma CaseInsensitive(code: string, originalAmount: Option<int>)
    requires code != ""
    ensures ApplyDiscount(Some(JString(code)), originalAmount) == ApplyDiscount(Some(JString(ToUpper(code))), originalAmount)
  {
    ToUpperIdempotent(code);
  }

  /** Percentage codes: the discount is the rounded percentage and the two
      amounts add up to the original. */
  lemma PercentageSplitsOriginal(rule: Rule, originalAmount: int)
    requires IsSet(rule.percentage)
    ensures var a := Discounted(rule, originalAmount);
      && a.discountAmount + a.discountedAmount == originalAmount
      && originalAmount * rule.percentage.value - 50 < 100 * a.discountAmount <= originalAmount * rule.percentage.value + 50
  {
  }

  /** Fixed codes: the discounted amount is floored at 0, while the discount
      amount stays the full fixed value (so the two need not add up). */
  lemma FixedFloorsAtZero(rule: Rule, originalAmount: int)
    requires !IsSet(rule.percentage) && IsSet(rule.fixedAmount)
    ensures var a := Discounted(rule, originalAmount);
      && a.discountAmount == rule.fixedAmount.value
      && a.discountedAmount >= 0
      && (originalAmount >= rule.fixedAmount.value ==> a.discountAmount + a.discountedAmount == originalAmount)
      && (originalAmount < rule.fixedAmount.value ==> a.discountedAmount == 0)
  {
  }

  /** For the table's codes and a non-negative order amount, the discounted
      amount lies between 0 and the original. */
  lemma TableDiscountWithinOriginal(i: int, originalAmount: int)
    requires 0 <= i < |Codes| && originalAmount >= 0
    ensures 0 <= Discounted(Codes[i].rule, originalAmount).discountedAmount <= originalAmount
  {
    var rule := Codes[i].rule;
    if IsSet(rule.percentage) {
      var p := rule.percentage.value;
      assert 0 < p <= 100;
      assert originalAmount * p <= originalAmount * 100;
      var d := RoundedPercent(originalAmount, p);
      assert 100 * d <= originalAmount * 100 + 50;
      assert 0 <= originalAmount * p;
    }
  }

  /** An order of 300 with FLAT500: discount 500, discounted 0. */
  lemma FlatCodeOnSmallOrder()
    ensures ApplyDiscount(Some(JString("flat500")), Some(300)) ==
      Applied("FLAT500", "$5.00 off", 300, 500, 0, None, Some(500))
  {
    assert ToUpper("flat500") == "FLAT500";
    CodesDistinct();
    LookupFindsEntry(Codes, 2);
  }

  /** A request without `originalAmount` is priced as an order of 6099, and the
      amounts it gets are those of the code's rule on that order. */
  lemma MissingOriginalAmountDefaults(code: string)
    requires code != ""
    ensures var r := ApplyDiscount(Some(JString(code)), None);
      r.Applied? ==>
        && r.originalAmount == 6099
        && exists i :: 0 <= i < |Codes| && Codes[i].code == ToUpper(code)
             && r.discountAmount == Discounted(Codes[i].rule, 6099).discountAmount
             && r.discountedAmount == Discounted(Codes[i].rule, 6099).discountedAmount
  {
  }

  // ---------------------------------------------------------------------------
  // /available-discounts

  datatype Offer = Offer(code: string, description: string, kind: string, value: Option<int>)

  /** `type: percentage ? "percentage" : "fixed"`, `value: percentage || fixedAmount` */
  function OfferOf(e: Entry): Offer
  {
    Offer(e.code, e.rule.description,
          if IsSet(e.rule.percentage) then "percentage" else "fixed",
          if IsSet(e.rule.percentage) then e.rule.percentage else e.rule.fixedAmount)
  }

  function Offers(table: seq<Entry>): (r: seq<Offer>)
    ensures |r| == |table|
    ensures forall i :: 0 <= i < |table| ==> r[i] == OfferOf(table[i])
  {
    if table == [] then [] else [OfferOf(table[0])] + Offers(table[1..])
  }

  /** The listing follows the table, entry by entry, with the kind "percentage"
      exactly for percentage codes. */
  lemma OffersFollowTable(i: int)
    requires 0 <= i < |Codes|
    ensures var o := Offers(Codes)[i];
      && o.code == Codes[i].code && o.description == Codes[i].rule.description
      && (o.kind == "percentage" <==> IsSet(Codes[i].rule.percentage))
      && (o.kind == "percentage" ==> o.value == Codes[i].rule.percentage)
      && (o.kind == "fixed" ==> o.value == Codes[i].rule.fixedAmount)
  {
  }

  /** In a table with distinct codes, looking up an entry's code finds that entry. */
  lemma {:induction false} LookupFindsEntry(table: seq<Entry>, i: int)
    requires 0 <= i < |table|
    requires forall j, k :: 0 <= j < k < |table| ==> table[j].code != table[k].code
    ensures Lookup(table, table[i].code) == Some(table[i].rule)
  {
    if i > 0 {
      assert table[1..][i - 1] == table[i];
      LookupFindsEntry(table[1..], i - 1);
    }
  }

  /** A string without lower-case ASCII letters is its own upper-cased form. */
  lemma ToUpperFixes(s: string)
    requires forall k :: 0 <= k < |s| ==> !('a' <= s[k] <= 'z')
    ensures ToUpper(s) == s
  {
  }

  /** The table's codes are distinct. */
  lemma CodesDistinct()
    ensures forall j, k :: 0 <= j < k < |Codes| ==> Codes[j].code != Codes[k].code
  {
  }

  /** The table's codes are already upper-case. */
  lemma CodesUpper(i: int)
    requires 0 <= i < |Codes|
    ensures forall k :: 0 <= k < |Codes[i].code| ==> !('a' <= Codes[i].code[k] <= 'z')
  {
  }

  /** A code whose upper-cased form is in the table is applied with its rule. */
  lemma FoundCodeApplies(code: string, originalAmount: Option<int>, rule: Rule)
    requires code != "" && Lookup(Codes, ToUpper(code)) == Some(rule)
    ensures var r := ApplyDiscount(Some(JString(code)), originalAmount);
      r.Applied? && r.description == rule.description && r.discountCode == ToUpper(code)
  {
  }

  /** Every listed code is accepted by `/apply-discount`, with the listed
      description. */
  lemma OfferedCodesApply(i: int, originalAmount: Option<int>)
    requires 0 <= i < |Codes|
    ensures var r := ApplyDiscount(Some(JString(Offers(Codes)[i].code)), originalAmount);
      r.Applied? && r.description == Offers(Codes)[i].description && r.discountCode == Offers(Codes)[i].code
  {
    var code := Codes[i].code;
    assert Offers(Codes)[i] == OfferOf(Codes[i]);
    assert code != "";
    CodesUpper(i);
    ToUpperFixes(code);
    CodesDistinct();
    LookupFindsEntry(Codes, i);
    FoundCodeApplies(code, originalAmount, Codes[i].rule);
  }
}
