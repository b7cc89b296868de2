# Checkout gateway and clients: a Dafny model

This project models the business rules of a mobile checkout demo. A backend
gateway relays tokenized payment data to a payment processor. A client app lets
the customer apply part of a store credit before paying. The model covers:

- the gateway's `/create-intent` routing (`pm_` payment method vs `ctoken_`
  confirmation token, attach-before-create, best-effort follow-up attach),
  over an abstract processor: a map from payment-method id to its customer, plus
  a log of calls;
- the store-credit variant of `/create-intent`, which skips the processor when
  `total === storeCreditApplied`. The gateway's entry point does not mount it
  (server/server.ts:71-73), so it is modelled as a handler on its own;
- the discount calculator (`/apply-discount`, `/available-discounts`), the
  lesson body validators and the split-payment mapping;
- the reporting folds: charge and fee totals over paged listings, the latest
  intent per customer, and the failed-payment report;
- the account guards: body validators, the email-conflict rule, the
  uncaptured-payment deletion guard and the customer-key branch;
- the client's credit handling. The screen clamps the requested credit, the
  store-credit form keeps the credit and the amount left as state, and the
  screen's form builds the request and decides when to update the amount the
  payment element shows. Both forms map the gateway's answer to the payment
  element's callback.

Imperative parts are classes with `modifies` clauses. The route handler is
`IntentRouter.HandleCreateIntent` over `IntentRouter.Processor`. The screen's
state is `HomeScreen.Screen` and the form's state is
`PaymentFormComponent.CreditForm`. The reporting loops are methods with loop
invariants, each proved equal to a specification function (`Route`,
`TotalsOf`, `FailedPayments`, …). The lemmas about those functions state what
the routes promise.

Points worth knowing about the code:

- The screen's clamp (app/index.tsx:73-75) is not floored at zero.
- No store-credit ledger exists: no route keeps or debits a balance, and the
  "deduct store credit" step of the store-credit handler is empty.
- The screen uses the form in utils/PaymentForm.tsx. That form posts
  `paymentMethodId` without `confirmation_token_id`, so the `/create-intent`
  the gateway mounts answers every one of its requests with 400
  (`CheckoutFlow.FormRequestRejectedByMountedRoute`).

## Model

| member | source | states |
|---|---|---|
| Common.StatusOf | server/routes/lessons.ts:346 | `err.statusCode \|\| 400`: the error's code when present and non-zero, else 400; never 0 |
| Common.IntToStringRoundTrip | server/routes/stripe.ts:45-46 | the decimal `toString` of any integer parses back to that integer |
| Common.IntToStringInjective | server/routes/stripe.ts:45-46 | different numbers render as different strings |
| Common.ParseNatOfNatToString | server/routes/lessons.ts:384 | the decimal rendering of a natural number parses back to it |
| IntentRouter.PrefixesExclusive | server/routes/lessons.ts:226-227 | no identifier starts with both `pm_` and `ctoken_` |
| IntentRouter.Classify | server/routes/lessons.ts:226-227 | payment method iff a string starting with `pm_`; token iff a string starting with `ctoken_`; the id is the string sent; `startsWith` throws exactly for a present non-string, non-null value |
| IntentRouter.Processor.constructor | server/routes/lessons.ts:239-251 | the processor starts with the given attachments and an empty call log |
| IntentRouter.Processor.RetrieveMethod | server/routes/lessons.ts:239 | logs the retrieve; answers the method's customer, or the unknown-method error; attachments unchanged |
| IntentRouter.Processor.AttachMethod | server/routes/lessons.ts:249-251 | logs the attach; a known method gets the customer when the processor accepts, otherwise the processor's error (or the unknown-method error) is returned with nothing changed |
| IntentRouter.Processor.CreateIntent | server/routes/lessons.ts:291 | logs the create with its arguments and returns the processor's reply |
| IntentRouter.HandleCreateIntent | server/routes/lessons.ts:212-348 | the step-by-step handler gives the response, the new attachments and exactly the calls of `Route`, in order, for every processor answer to the attach and create calls |
| IntentRouter.CreateAndSave | server/routes/lessons.ts:290-343 | the create call and, after a successful token payment to be saved, the follow-up: the answer, the attachments and the calls are those of `AfterCreate`, a failed create answering its status and message |
| IntentRouter.SaveAfterConfirm | server/routes/lessons.ts:308-337 | the follow-up retrieves the method and attaches it when it has no customer; its calls and the new attachments are those of `FollowUpAttach`, a failed attach changing nothing |
| IntentRouter.RejectedReferenceMakesNoCall | server/routes/lessons.ts:286-288 | a missing, null or unprefixed id (or a non-string) gets 400 with no processor call and no change; the unprefixed case says "Invalid payment method or confirmation token" |
| IntentRouter.CreatesAtMostOnce | server/routes/lessons.ts:239-291 | exactly one create for a token, or for a known `pm_` method whose attach (when one is needed) succeeds; none otherwise |
| IntentRouter.CreateCarriesFixedFields | server/routes/lessons.ts:213-235 | every create is confirmed, for the fixed customer and return URL; amount 1099 and currency "usd" only when the body leaves them out |
| IntentRouter.NewMethodAttachedBeforeCreate | server/routes/lessons.ts:241-255 | unattached `pm_` method to be saved: retrieve, then attach; when the attach succeeds, a create with `payment_method` and `setup_future_usage` and the method now belongs to the customer; when it fails, the attach's error is the answer, with those two calls only and nothing changed |
| IntentRouter.PreCreateAttachFailureStops | server/routes/lessons.ts:249-346 | a failed attach before the create makes no create, answers the attach's status (400 when absent) and message, and leaves the method without a customer |
| IntentRouter.ExistingOrUnsavedMethodNotAttached | server/routes/lessons.ts:256-268 | attached method: `payment_method` with `off_session`; unattached and not saved: `payment_method` only; neither is attached, and neither carries `setup_future_usage` |
| IntentRouter.TokenArgsShape | server/routes/lessons.ts:269-285 | token: `confirmation_token` with automatic payment methods, never `payment_method` or `off_session`; `setup_future_usage` iff requested |
| IntentRouter.FollowUpAttachIff | server/routes/lessons.ts:302-330 | the follow-up attach happens iff saving was asked, the intent succeeded with a payment method, and that method is known and unattached; it is the third call and attaches to the fixed customer; the method then belongs to the customer iff the attach succeeded, and otherwise nothing changes |
| IntentRouter.TokenAnswerIgnoresFollowUp | server/routes/lessons.ts:302-343 | a token request's answer depends only on the create reply, whatever the attachments and the follow-up attach's answer; success returns the client secret |
| IntentRouter.FollowUpAttachFailureSwallowed | server/routes/lessons.ts:324-337 | a failed follow-up attach is swallowed: the answer is still the client secret, the calls are create, retrieve, attach, and the method stays without a customer |
| IntentRouter.CreateErrorPropagates | server/routes/lessons.ts:344-346 | a failed create is answered with its status code (400 when absent) and its message |
| StoreCreditRoute.ToStringOf | server/routes/stripe.ts:44-47 | `toString` throws exactly on null; otherwise it agrees with string concatenation, a number's text reads back as that number, a string is itself and a boolean its name |
| StoreCreditRoute.ShortCircuitIff | server/routes/stripe.ts:20-31 | the processor is skipped iff `total === storeCreditApplied`; the answer then reports the applied credit as used |
| StoreCreditRoute.OmittedCreditAndTotalSkipProcessor | server/routes/stripe.ts:14-20 | a body without credit and total is "paid with store credit" (credit 0) with no call |
| StoreCreditRoute.ForwardsAmountUnchanged | server/routes/stripe.ts:33-61 | a credit and a total that are not `===` and neither null: exactly one create, carrying the client's `amount` unreduced, confirmed, for the fixed customer, with `payment_method = paymentMethodId`; success answers the secret, failure its status (400 default) and message |
| StoreCreditRoute.MetadataReadsBack | server/routes/stripe.ts:41-47 | the credit and total metadata parse back to the numbers sent, and the description ends with the credit |
| StoreCreditRoute.NullCreditOrTotalRejected | server/routes/stripe.ts:44-61 | a null credit or total not matched by the other throws before any call: 400 |
| Reporting.WindowStart | server/routes/reporting.ts:9 | the result is `floor(now_ms / 1000)` minus 36 hours in seconds |
| Reporting.FetchCount | server/routes/reporting.ts:17-42 | the loop requests pages up to and including the first with `has_more` false, and no further |
| Reporting.PaymentTotalAppend | server/routes/reporting.ts:25-26 | the payment total of two runs of charges is the sum of their totals |
| Reporting.FeeTotalFailureSticks | server/routes/reporting.ts:28-35 | once a fee lookup fails, the whole fee sum fails, whatever follows |
| Reporting.FeeTotalAppend | server/routes/reporting.ts:28-35 | fee totals of two successful runs add up |
| Reporting.FeesOnlyFromBalanceTransactions | server/routes/reporting.ts:28-35 | only charges with a balance transaction contribute a fee or need a lookup |
| Reporting.TotalsAdd | server/routes/reporting.ts:44-48 | payment and fee totals of a listing split anywhere are the sums of the parts' totals |
| Reporting.TallyPage | server/routes/reporting.ts:25-36 | one page added to running totals gives the totals of the longer prefix, or reports the failed lookup |
| Reporting.CalculateLessonTotal | server/routes/reporting.ts:7-56 | the loop's answer is the totals (payment, fee, net = payment − fee) of everything listed since the window start, or the failure; each request's cursor is the id of the previous page's last charge |
| Reporting.FailedLookupFailsListing | server/routes/reporting.ts:49-56 | a failed lookup in the pages read so far fails the route's answer |
| Reporting.LatestKeys | server/routes/reporting.ts:78-88 | the map holds each customer once, in first-seen order, and exactly the customers of some listed intent |
| Reporting.ChosenStays | server/routes/reporting.ts:84-85 | a kept intent stays when the next one is another customer's or not strictly later |
| Reporting.ChosenMoves | server/routes/reporting.ts:84-85 | a strictly later intent of the same customer replaces the kept one |
| Reporting.ChosenFirst | server/routes/reporting.ts:82-85 | a customer's first intent is kept |
| Reporting.LatestChoice | server/routes/reporting.ts:78-88 | the intent kept for a customer is theirs, has the greatest `created`, and is the first such on a tie |
| Reporting.ErrorCode | server/routes/reporting.ts:110-113 | `decline_code`, else `code`, else "generic_decline" |
| Reporting.ReportRecordsShape | server/routes/reporting.ts:110-134 | every record is the record built from a reported customer and their latest intent, with status "failed" and the fallback error code |
| Reporting.ReportedCustomerListed | server/routes/reporting.ts:99-134 | every customer whose latest intent failed, and who exists and is not deleted, gets a record |
| Reporting.ReportedIff | server/routes/reporting.ts:99-108 | a customer appears in the report iff their latest intent has `last_payment_error` and the lookup finds them not deleted |
| Reporting.LaterSuccessHidesFailure | server/routes/reporting.ts:84-100 | a customer whose strictly latest intent has no error is not reported, whatever earlier intents failed |
| Reporting.RecordPage | server/routes/reporting.ts:78-88 | one page recorded in the map gives the map of the longer prefix |
| Reporting.ReportCustomers | server/routes/reporting.ts:97-142 | the report loop yields exactly the report of the map, in map order |
| Reporting.FindCustomersWithFailedPayments | server/routes/reporting.ts:59-144 | the route's answer is the failed-payment report of everything listed since the window start; cursors as for the totals |
| Account.UpdateDetailsInvalidBodyIff | server/routes/account.ts:38-54 | 400 `invalid_body` iff `email` or `name` is not a string, and then no processor call |
| Account.EmailConflictIff | server/routes/account.ts:64-89 | 400 `email_exists` iff the search finds a customer whose id differs from the path id; otherwise the update and the setup intent follow |
| Account.AccountUpdateIff | server/routes/account.ts:93-129 | 400 `invalid_body` iff one of the six fields is not a string; otherwise update then detach, with no answer sent |
| Account.AccountUpdateIgnoresOldValues | server/routes/account.ts:121-127 | the old name and email are validated but never used |
| Account.UncapturedIdsMembers | server/routes/account.ts:141-147 | an id is listed iff an intent with that id is `requires_capture` |
| Account.NoneUncaptured | server/routes/account.ts:145 | the list is empty iff no intent is `requires_capture` |
| Account.UncapturedIdsAppend | server/routes/account.ts:141-147 | the filter keeps listed order |
| Account.DeleteAccountIff | server/routes/account.ts:137-152 | the customer is deleted iff none of the first 100 intents awaits capture; otherwise 400 with exactly those ids |
| Account.LaterUncapturedIntentIgnored | server/routes/account.ts:137-140 | an uncaptured intent beyond the first 100 does not block deletion |
| Account.PaymentSheetKeyIff | server/routes/account.ts:172-198 | a customer session iff `customer_key_type` is "customer_session", an ephemeral key otherwise; the answer carries that secret |
| Discounts.Lookup | server/routes/lessons.ts:456 | a rule is found iff some table entry has the code, and it is that entry's rule |
| Discounts.ToUpperIdempotent | server/routes/lessons.ts:455 | upper-casing twice is upper-casing once |
| Discounts.RoundedPercent | server/routes/lessons.ts:470 | the result is the nearest integer to `x*p/100`, halves up |
| Discounts.CodeRequiredIff | server/routes/lessons.ts:448-452 | 400 "Discount code is required" iff the code is missing or falsy |
| Discounts.UnknownCodeIff | server/routes/lessons.ts:455-463 | 404 with `valid: false` iff the upper-cased code is not in the table; otherwise the reply carries the upper-cased code |
| Discounts.CaseInsensitive | server/routes/lessons.ts:454-456 | a code and its upper-cased form get the same answer |
| Discounts.PercentageSplitsOriginal | server/routes/lessons.ts:469-471 | percentage codes: discount is the rounded percentage and discount + discounted = original |
| Discounts.FixedFloorsAtZero | server/routes/lessons.ts:472-475 | fixed codes: discount stays the full fixed value; the discounted amount is `max(original − fixed, 0)` |
| Discounts.TableDiscountWithinOriginal | server/routes/lessons.ts:436-475 | for the table's codes and a non-negative order, 0 ≤ discounted ≤ original |
| Discounts.MissingOriginalAmountDefaults | server/routes/lessons.ts:446-475 | without `originalAmount` the order is priced at 6099, with the amounts of the code's rule on 6099 |
| Discounts.FlatCodeOnSmallOrder | server/routes/lessons.ts:472-475 | "flat500" on 300: code FLAT500, discount 500, discounted 0 |
| Discounts.Offers | server/routes/lessons.ts:532-537 | one offer per table entry, in table order |
| Discounts.OffersFollowTable | server/routes/lessons.ts:532-537 | an offer's kind is "percentage" iff its entry has a percentage, and its value is that percentage or the fixed amount |
| Discounts.LookupFindsEntry | server/routes/lessons.ts:456 | in a table of distinct codes, an entry's code finds that entry |
| Discounts.FoundCodeApplies | server/routes/lessons.ts:454-475 | a code whose upper-cased form is in the table is applied with that entry's description, and the reply carries the upper-cased code |
| Discounts.OfferedCodesApply | server/routes/lessons.ts:530-537 | every listed code is accepted by `/apply-discount` with the listed description |
| LessonRoutes.LessonValidatorsGuard | server/routes/lessons.ts:77-174 | each lesson route answers 400 `invalid_body` with no call iff its validator fails; otherwise its calls carry the body's fields unchanged |
| LessonRoutes.StringAmountRefused | server/routes/lessons.ts:148-165 | an amount sent as a string is refused |
| LessonRoutes.CollectOk | server/routes/lessons.ts:376-396 | the answers are collected iff every create succeeds, numbered from 1 in order |
| LessonRoutes.CollectFirstFailure | server/routes/lessons.ts:376-400 | otherwise the error is that of the first failing portion |
| LessonRoutes.SplitCreatesEveryPortion | server/routes/lessons.ts:377-387 | one create per portion with its amount, the currency ("usd" default), the request metadata, its `portion_k_of_n` label and the bill total |
| LessonRoutes.SplitReplyIff | server/routes/lessons.ts:389-398 | the reply lists every portion in order iff every create succeeds |
| LessonRoutes.SplitFailureIsFirst | server/routes/lessons.ts:399-400 | a failing create makes the reply 400 with the first failure's message |
| LessonRoutes.LabelsDistinct | server/routes/lessons.ts:384 | two portions of one split never share a label |
| IntentCallback.ServerErrorMessage | components/payment-form.tsx:85 | "Server error: " followed by the status, which parses back |
| IntentCallback.Failure | components/payment-form.tsx:106-115 | code "Failed", message = localized message, never empty: the error's message when it has one, exactly "Unknown error occurred" when it is empty |
| IntentCallback.SecretIff | components/payment-form.tsx:100-115 | the callback carries a secret iff the answer is 2xx with a truthy `clientSecret`; otherwise a "Failed" error with a non-empty message |
| IntentCallback.HttpErrorReported | components/payment-form.tsx:83-86 | a non-2xx answer is "Server error: <status>", whatever its body |
| IntentCallback.MissingSecretReported | components/payment-form.tsx:100-102 | a 2xx answer without a truthy secret is "No client secret returned from server" |
| HomeScreen.MoneyAmount | app/index.tsx:15-20 | the amount is between 0 and 2359, with the hours as hundreds and the minutes as the rest |
| HomeScreen.AppliedCredit | app/index.tsx:73-77 | the applied credit is the least of the request, 5000 and the order amount |
| HomeScreen.NegativeRequestApplied | app/index.tsx:73-75 | a negative request is applied as it is, raising the amount left above the order |
| HomeScreen.AppliedCreditExact | app/index.tsx:74-75 | a request within both bounds is applied in full; otherwise it is cut to the bound it exceeds |
| HomeScreen.PropsFor | app/index.tsx:45-51 | the form's `amount + storeCredit == total == moneyAmount` |
| HomeScreen.Screen.constructor | app/index.tsx:26-28 | switch off, empty input, 0 applied |
| HomeScreen.Screen.Toggle | app/index.tsx:57 | flips the switch; the input and the applied credit are kept |
| HomeScreen.Screen.OnChangeText | app/index.tsx:71-78 | stores the text and applies the clamped request; the credit stays within 5000 and the order |
| HomeScreen.Screen.Props | app/index.tsx:45-51 | the form gets the amount left, the applied credit and the order amount, which add up |
| HomeScreen.AmountLeftNonNegative | app/index.tsx:46 | with a non-negative request, the amount passed to the form is not negative |
| PaymentFormComponent.ApplyCredit | components/payment-form.tsx:124-128 | the credit is `min(storeCredit, amount)`; the amount left is never negative and credit + left = amount (the floor never takes effect) |
| PaymentFormComponent.CoveredIff | components/payment-form.tsx:125-127 | with non-negative inputs, nothing is left to pay iff the credit reaches the amount |
| PaymentFormComponent.ConfirmBody | components/payment-form.tsx:72-80 | the body carries the token, `finalAmount`, "usd" and `appliedCredit`; `setup_future_usage` is "off_session" iff saving, and absent otherwise |
| PaymentFormComponent.CallbackUnlessPaidWithCredit | components/payment-form.tsx:90-98 | at most one callback; none exactly when a 2xx answer says `paidWithStoreCredit`, and then the alert shows the applied credit |
| PaymentFormComponent.CallbackOutcome | components/payment-form.tsx:83-115 | otherwise exactly one callback: the secret, "Server error: <status>", or "No client secret returned from server" |
| PaymentFormComponent.CreditForm.constructor | components/payment-form.tsx:37-38 | nothing applied; the amount left is the whole amount |
| PaymentFormComponent.CreditForm.ApplyStoreCredit | components/payment-form.tsx:124-135 | the state becomes `ApplyCredit` of the properties; credit + amount left = amount |
| PaymentFormComponent.InitialRequest | components/payment-form.tsx:72-80 | before any credit is applied, the request charges the whole amount with credit 0 |
| PaymentFormComponent.RequestAfterApplying | components/payment-form.tsx:124-128 | after applying, the charge is not negative and charge + credit = the form's amount |
| ConfirmHandler.ConfirmRequest | utils/PaymentForm.tsx:59-71 | charge + `storeCreditApplied` = `total` = the `amount` property; no `confirmation_token_id`; `isUpdated` iff the credit is non-zero; `setup_future_usage` iff saving |
| ConfirmHandler.ChargeNotClamped | utils/PaymentForm.tsx:60-63 | a credit above the amount is sent as a negative charge |
| ConfirmHandler.PaidWithStoreCreditIsAnError | utils/PaymentForm.tsx:73-75 | this form has no store-credit case: a "paid with store credit" answer becomes "No client secret returned from server" |
| ConfirmHandler.ModeUpdate | utils/PaymentForm.tsx:110-126 | the element is updated iff credit > 0, no loading error, `update` present, loaded and `amount − storeCredit` > 0; the new amount is that difference, between 0 and the amount |
| ConfirmHandler.UpdateMatchesCharge | utils/PaymentForm.tsx:119-125 | an update shows the amount the handler charges for the same properties |
| ConfirmHandler.ClearedOnEveryPath | utils/PaymentForm.tsx:180-203 | for each modelled outcome of `confirm` (completed, failed, canceled, or a throw from `confirm` itself) the selection is cleared exactly once; last when `confirm` settles, before the error log when it throws |
| CheckoutFlow.FormRequestRejectedByMountedRoute | utils/PaymentForm.tsx:61-71 | the screen's form's requests get 400 "Invalid payment method or confirmation token" from the mounted route with no processor call, and the form reports "Server error: 400" |
| CheckoutFlow.ComponentRequestOnMountedRoute | components/payment-form.tsx:72-80 | with a `ctoken_` token, the store-credit form's request is first of all a create for its `finalAmount` with that token, saving iff asked; the credit it sends does not change the outcome |
| CheckoutFlow.ComponentReceivesSecret | components/payment-form.tsx:100-105 | a created intent's secret reaches the store-credit form's callback, exactly once |
| CheckoutFlow.FormRequestOnCreditRoute | server/routes/stripe.ts:9-31 | the store-credit handler skips the processor iff the form's amount equals its credit, and otherwise charges `amount − storeCredit`; its "paid" answer is an error for the screen's form and only an alert for the store-credit form |
| CheckoutFlow.DoubleDeduction | utils/PaymentForm.tsx:60 | as written, the element shows the double-deducted amount; a request built from the same properties charges `moneyAmount − 2·applied`, falls short of the order by the credit, sends `total` net, and the store-credit handler would skip the processor iff the order is twice the credit |
| CheckoutFlow.DoubleDeductionExample | app/index.tsx:46-49 | 1000 with 300 applied: the element shows 400 and a request from those properties asks for 400; 1000 with 500 applied would be "paid with store credit" with no call |
| CheckoutFlow.CorrectedProps | app/index.tsx:46 | the corrected properties carry the order amount; the form's difference is the amount left |
| CheckoutFlow.CorrectedChargeCoversOrder | utils/PaymentForm.tsx:60-70 | corrected: charge + credit = order and `total` = order; the element shows the charge; the store-credit handler skips the processor iff nothing is left, and otherwise charges exactly what is left |
| CheckoutFlow.SessionAsWritten | utils/PaymentForm.tsx:52-93 | as written, credit applied after the form appears changes the amount shown (to the order minus twice the credit) but not the request, which charges the whole order with credit 0 |
| CheckoutFlow.Session | utils/PaymentForm.tsx:52-93 | corrected: the request charges the order less the credit, reports the credit and the order total, and matches the amount shown |

## Findings

| source | as written | input that shows it | evidently intended | confidence | as-written member | corrected member |
|---|---|---|---|---|---|---|
| utils/PaymentForm.tsx:60 | The form subtracts `storeCredit` from `amount`. The screen has already passed `amount` net of the same credit (app/index.tsx:46). The same subtraction sets the element's amount (line 119). | Order 1000 with 300 applied: the element shows 400 instead of 700. The request would ask for 400 as well once the handler reads the current properties (row 2). Sent to the store-credit handler, which the gateway does not mount, a request with 500 applied would be declared paid although 500 is unpaid. | The credit is deducted once: charge + credit = order total. | not executed | CheckoutFlow.DoubleDeduction | CheckoutFlow.CorrectedChargeCoversOrder |
| utils/PaymentForm.tsx:92 | The confirm handler is memoized with no dependencies, so it keeps the properties of the form's first render, when no credit is applied yet. | Order 1000, then 300 applied: the element shows 400, but the request charges 1000 and reports credit 0. | The handler reads the current properties. | not executed | CheckoutFlow.SessionAsWritten | CheckoutFlow.Session |

## Left out

- Processor calls are left out: the SDK, the network and the processor's own behaviour. The processor is reduced to what the routes read from it. That is a payment-method → customer map and the replies to create calls, given as parameters. For listings it is the pages, the fee of each balance transaction and the customers.
- Concurrency and timing are left out. `Promise.all` in the split payment is modelled as a sequential, order-preserving map that makes every create and reports the first failure in portion order. Which failure JavaScript reports first depends on timing.
- Clocks are parameters: `Date.now` in reporting and the hour and minute read by the screen.
- Floating point is left out. `parseFloat` and `Math.round` of the typed credit are not modelled. The screen receives the parsed cents as a parameter (`HomeScreen.RequestedCents`), so NaN from non-numeric text is not modelled. `toFixed` display formatting and the alert's text are not modelled.
- Discounts.ToUpper: upper-cases ASCII letters only; JavaScript's full Unicode case mapping is not modelled.
- JSON bodies are maps from keys to integers, strings, booleans, null or opaque objects. Fractional amounts, arrays' contents and non-object top-level JSON are not modelled, and neither are bodies that fail to parse.
- Engine error texts: the messages of the `TypeError`s thrown by `startsWith`, `toUpperCase`, `portions.map` and `null.toString()` are stand-ins. The status those errors lead to (400) is modelled.
- Coupon and promotion-code creation in `/apply-discount` (server/routes/lessons.ts:477-510) is left out. It is best-effort, its failures are swallowed, and its only visible effect is an optional `promotionCodeId` in the answer.
- IntentRouter.UnknownMethodError: a `pm_` id the processor does not know is answered with a fixed 404 and message, a stand-in for the processor's own error. Other failures of the retrieve calls (network, authentication) are not modelled.
- Discounts.ApplyDiscount: `originalAmount` is an integer or absent; other JSON values and their coercion (`null` prices as 0, a numeric string is coerced and echoed as sent) are not modelled.
- ConfirmHandler.ClearedOnEveryPath: a `clearPaymentOption` that itself throws inside the `try`, and statuses other than completed, failed and canceled, are not modelled.
- Reporting: the 500 answer is modelled as the absence of a result, without its message.
- Account routes: processor failures are not modelled. The update, account-update and delete routes have no `try`, so Express's default error handling applies. The payment-sheet route's catch (400 with the error's message) is not modelled either.
- Account routes: the `/payment-method/:customer_id` read-through route is not modelled. It has no rule of its own.
- Other routes are plain processor relays or pages and are not part of this model: `/lessons`, `/create-payment-intent`, `/create-setup-intent`, `/payment-intent-for-payment-sheet`, the second and third `/payment-sheet` handlers (server/routes/lessons.ts:546, server/routes/stripe.ts:64; the account router's handler is mounted first), `/config`, the `/debug` routes and the account router's GET routes. So are webhook verification and the Express wiring.
- Client screens and hooks without rules of their own are not part of this model. These are the confirmation and pickup screens, the stepper, the layout, the fetch hooks and the API helpers.
- React plumbing is left out. The store-credit form's `intentConfig` is initialised once with the first `handleConfirm`, and `initialize` is never called. Its "apply store credit" button is commented out. `CreditForm` models the state and its transitions, not which closure the payment element ends up calling.
- Component unmounting, the screen's loading state and the console output are not modelled. The one exception is the button's log/clear ordering (`ConfirmHandler.PressEffects`).
- A store-credit ledger is not modelled: the code has none, and no route changes a balance.
