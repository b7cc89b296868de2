/**
 * The checkout screen of the client (app/index.tsx): the order amount is taken
 * from the clock, the customer may apply part of a fixed store credit of 5000
 * cents, and the payment form is given the amount left to pay, the credit
 * applied and the order total.
 */
module HomeScreen {
  import opened Common
  import opened ConfirmHandler

  /** The store credit available to every customer, in cents. */
  const StoreCredit: int := 5000

  /** `hours * 100 + minutes`: the clock read as an amount in cents (12:34 is
      1234), between 0 and 2359. */
  function MoneyAmount(hours: int, minutes: int): (r: int)
    requires 0 <= hours < 24 && 0 <= minutes < 60
    ensures 0 <= r <= 2359
    ensures r / 100 == hours && r % 100 == minutes
  {
    hours * 100 + minutes
  }

  /** `Math.round(parseFloat(text || "0") * 100)`: an empty input counts as 0;
      `parsedCents` is what the number parser makes of a non-empty input. */
  function RequestedCents(text: string, parsedCents: int): (r: int)
    ensures text == "" ==> r == 0
    ensures text != "" ==> r == parsedCents
  {
    if text == "" then 0 else parsedCents
  }

  /** `min(creditAmount, min(storeCredit, moneyAmount))`: the largest credit
      that is at most the request, the store credit and the order amount. */
  function AppliedCredit(requested: int, moneyAmount: int): (r: int)
    ensures r <= requested && r <= StoreCredit && r <= moneyAmount
    ensures r == requested || r == StoreCredit || r == moneyAmount
  {
    Min(requested, Min(StoreCredit, moneyAmount))
  }

  /** The applied credit is not floored at zero: a negative request is applied
      as it is, and raises the amount left to pay above the order amount. */
  lemma NegativeRequestApplied(requested: int, moneyAmount: int)
    requires requested < 0 && moneyAmount >= 0
    ensures AppliedCredit(requested, moneyAmount) == requested
    ensures moneyAmount - AppliedCredit(requested, moneyAmount) > moneyAmount
  {
  }

  /** A request within both bounds is applied in full; one above a bound is
      cut to that bound. */
  lemma AppliedCreditExact(requested: int, moneyAmount: int)
    ensures requested <= StoreCredit && requested <= moneyAmount ==> AppliedCredit(requested, moneyAmount) == requested
    ensures requested >= StoreCredit && moneyAmount >= StoreCredit ==> AppliedCredit(requested, moneyAmount) == StoreCredit
    ensures requested >= moneyAmount && StoreCredit >= moneyAmount ==> AppliedCredit(requested, moneyAmount) == moneyAmount
  {
  }

  /** `amount = moneyAmount - applied`, `storeCredit = applied`, `total = moneyAmount`. */
  function PropsFor(moneyAmount: int, applied: int): (r: FormProps)
    ensures r.amount + r.storeCredit == r.total
    ensures r.total == moneyAmount && r.storeCredit == applied
  {
    FormProps(moneyAmount - applied, applied, moneyAmount)
  }

  /** The screen's state. `moneyAmount` is fixed when the screen is created;
      the three others are its React state. */
  class Screen {
    const moneyAmount: int
    var isStoreCreditApplied: bool
    var storeCreditInput: string
    var appliedStoreCredit: int

    /** The applied credit never exceeds the store credit or the order amount. */
    ghost predicate Valid()
      reads this
    {
      0 <= moneyAmount <= 2359 && appliedStoreCredit <= StoreCredit && appliedStoreCredit <= moneyAmount
    }

    /** The initial state: switch off, empty input, nothing applied. */
    constructor (hours: int, minutes: int)
      requires 0 <= hours < 24 && 0 <= minutes < 60
      ensures moneyAmount == MoneyAmount(hours, minutes)
      ensures !isStoreCreditApplied && storeCreditInput == "" && appliedStoreCredit == 0
      ensures Valid()
    {
      moneyAmount := MoneyAmount(hours, minutes);
      isStoreCreditApplied := false;
      storeCreditInput := "";
      appliedStoreCredit := 0;
    }

    /** The switch flips `isStoreCreditApplied` and nothing else: the input and
        the credit already applied are kept, also when the switch goes off. */
    method Toggle()
      requires Valid()
      modifies this
      ensures isStoreCreditApplied == !old(isStoreCreditApplied)
      ensures storeCreditInput == old(storeCreditInput) && appliedStoreCredit == old(appliedStoreCredit)
      ensures Valid()
    {
      isStoreCreditApplied := !isStoreCreditApplied;
    }

    /** Editing the credit input (shown only while the switch is on) stores the
        text and applies the clamped request. */
    method OnChangeText(text: string, parsedCents: int)
      requires Valid() && isStoreCreditApplied
      modifies this
      ensures storeCreditInput == text
      ensures appliedStoreCredit == AppliedCredit(RequestedCents(text, parsedCents), moneyAmount)
      ensures isStoreCreditApplied
      ensures Valid()
    {
      storeCreditInput := text;
      var creditAmount := RequestedCents(text, parsedCents);
      var maxCredit := Min(StoreCredit, moneyAmount);
      appliedStoreCredit := Min(creditAmount, maxCredit);
    }

    /** What the payment form is given in this state. */
    function Props(): (r: FormProps)
      reads this
      requires Valid()
      ensures r.amount + r.storeCredit == r.total == moneyAmount
      ensures r.storeCredit <= StoreCredit && r.storeCredit <= r.total
      ensures r.storeCredit == appliedStoreCredit
    {
      PropsFor(moneyAmount, appliedStoreCredit)
    }
  }

  /** Whatever the edits, the form's `amount` never goes below 0 as long as no
      negative credit was requested: a non-negative request is applied as at
      most the order amount. */
  lemma AmountLeftNonNegative(text: string, parsedCents: int, moneyAmount: int)
    requires RequestedCents(text, parsedCents) >= 0 && 0 <= moneyAmount
    ensures 0 <= AppliedCredit(RequestedCents(text, parsedCents), moneyAmount)
    ensures 0 <= PropsFor(moneyAmount, AppliedCredit(RequestedCents(text, parsedCents), moneyAmount)).amount
  {
  }
}
