# Calevid payment-to-credit ledger, modelled in Dafny

Calevid sells video-generation credits on a WordPress site. Payments go through
Paystack. Each credit costs 150 shillings (`CALEVID_CREDIT_PRICE`). Paystack reports
amounts in kobo, the minor unit. So a payment of `a` kobo buys `floor(a / 100 / 150)`
credits. The ledger is the per-user WordPress meta record:

- `calevid_credits`: the balance.
- `calevid_tx_<reference>`: a lock in one user's meta that marks a payment reference as
  processed for that user.
- `calevid_pending_purchase`: the purchase intent saved before checkout.
- `calevid_plan`, `calevid_limit`, `calevid_used`, `calevid_plan_start`: the optional plan keys.

This project models the four places that read or write that record:

- `verify.php` (module `VerifyPhp`). The payment verification endpoint. It validates
  the request, checks Paystack's verify answer and guards against duplicates with the
  lock key. It then converts the amount, adds the credits and applies an optional plan
  (starter/standard/pro → 15/25/50). Last, it writes the lock and deletes the intent.
- `paystack-webhook.js` (module `PaystackWebhook`). The same ledger update, driven by
  Paystack's webhook and keyed by the customer's email. It has no plan handling.
- `index.js` (module `Backend`). The Node.js front end. It authenticates the webhook,
  answers 200 at once, and for a `charge.success` builds the credit-apply request for
  WordPress. It also normalises `WP_SITE_URL`.
- `ai-video-generator.php` (module `Plugin`). Two AJAX handlers. One stores the purchase
  intent. The other marks a reference as seen.

Shared modules:

- `Meta`: the meta values, the key names, PHP's and JavaScript's truthiness, and the
  `Store` class (users → meta map, plus the email index).
- `Pricing`: the credit conversion.
- `Paystack`: the webhook payload.
- `Text`: the two `trim`s and decimal rendering.
- `Js`: JavaScript numbers, including NaN.

The imperative handlers are methods on a `Store`. They call `Update`/`Delete` in the
source's order. Each method is proved equal to a pure step function, which returns the
reply and the new store. The properties are proved about those step functions:

- error paths leave the store unchanged;
- the new balance is the old balance plus the converted amount;
- only the named keys of one user change;
- a reference locked in a user's meta is never credited to that user again.

The credit conversion is proved equal to the floor of the exact quotient
`amount / 100 / 150`.

Behaviours of the code worth knowing, each proved:

- `index.js` keys the HMAC with `""` when `PAYSTACK_SECRET_KEY` is unset, so the
  signature check fails open (`Backend.UnsetSecretAcceptsEmptyKeySignature`).
- The AJAX handler `calevid_verify_payment` writes the same `calevid_tx_<reference>` key
  that the credit flows use as their lock, before any credit is applied. A webhook or a
  `verify.php` call that arrives afterwards for that user and reference then credits nothing
  (`Plugin.MarkerPreemptsCredit`).
- `WP_SITE_URL` normalisation can keep trailing whitespace when it stands before slashes:
  `"a /"` becomes `"a "` (`Backend.NormalisedUrlMayEndInSpace`).
- `verify.php` tests the reference for emptiness before trimming it. A reference made
  only of spaces therefore passes and is used as `""` (`VerifyPhp.BlankReferenceIsUsedEmpty`).
- `verify.php` keeps the lock in the meta of the user named by the request's `user_id`,
  which the request itself supplies. The same reference and the same Paystack answer
  therefore credit a second user (`VerifyPhp.ReferenceCreditedToTwoUsers`; see Findings).

## Model

| member | source | states |
|---|---|---|
| `Text.TrimStart` | index.js:16 | the result is a suffix of the input, everything dropped is whitespace, and it does not start with whitespace |
| `Text.TrimEnd` | index.js:71 | the result is a prefix of the input, everything dropped is whitespace, and it does not end with whitespace |
| `Text.Trim` | verify.php:36 | the result is a contiguous slice of the input, whitespace on both sides of it, and neither of its ends is whitespace (PHP's and JavaScript's character sets) |
| `Text.DecimalString` | index.js:86 | `String(credits)` is non-empty, all digits, without leading zeros, and reads back as the number |
| `Pricing.FloorOfQuotient` | verify.php:142 | the floor of an exact quotient by a positive divisor is integer division |
| `Pricing.Credits` | verify.php:135-142 | credits equal `floor(amount/100/150)` computed exactly, and `15000·c <= amount < 15000·(c+1)` |
| `Pricing.CreditsPositiveIff` | verify.php:144-152 | a payment earns a credit exactly when it is at least 15000 kobo |
| `Pricing.ChargeKobo` | calevid.js:6-21 | defines the checkout charge as `qty·150·100` kobo; its contract only says it is never negative, and `Pricing.ChargeConvertsBack` carries its property |
| `Pricing.JsCredits` | index.js:72 | `Math.floor(amount/100/150)` is NaN exactly when the amount is missing, otherwise the credit count within the 15000-kobo bounds; the test `credits <= 0` lets through exactly a missing amount or one of at least 15000 kobo |
| `Pricing.ChargeConvertsBack` | index.js:72 | the amount charged for `qty` credits converts back to exactly `qty` credits |
| `Meta.TxKeyDistinct` | verify.php:122 | lock keys never equal the fixed meta keys, and distinct references give distinct lock keys |
| `VerifyPhp.PlanLimit` | verify.php:170-174 | the plan table has exactly starter, standard and pro, and pairs them with 15, 25 and 50 respectively (each pair as an if-and-only-if) |
| `VerifyPhp.ApplyPlan` | verify.php:167-182 | an intent naming a tabled plan sets plan, its limit, usage 0 and the start time; any other intent leaves the meta as it was; keys other than the four plan keys never change |
| `VerifyPhp.Credited` | verify.php:158-194 | the credited meta holds the new balance and the lock record (time, amount in shillings, credits), has no intent, has plan keys as the plan rule gives them, and agrees with the old meta elsewhere |
| `VerifyPhp.Settle` | verify.php:122-205 | a locked reference yields "already processed" with nothing changed. Otherwise credits are applied exactly when the amount buys one: the new balance is the old one (missing reads as 0) plus the credits and is what is stored and returned, the lock record holds the credits, the intent is gone, and only the balance, lock, intent and plan keys of that user change. A too-small amount gives 400 with no lock written |
| `VerifyPhp.VerifyStep` | verify.php:15-116 | success and "already processed" are answered with HTTP 200 and every rejection with a 4xx or 5xx status; non-POST gives 405, an undecodable body 400 "Invalid JSON payload", a missing field 400 "Missing reference or user", then in order an unknown user 404, an unset secret 500, an unreachable Paystack 502 and an unconfirmed answer 400 "Payment verification failed"; every reply other than "applied" leaves the store unchanged, only a request passing all checks (user exists, secret set, Paystack `status === true` and `data.status === 'success'`) reaches the ledger step, and it always does |
| `VerifyPhp.BlankReferenceIsUsedEmpty` | verify.php:30-36 | a non-empty reference made only of PHP-trimmed characters passes the `empty()` check, and the reference then used is "" |
| `VerifyPhp.ReferenceCreditedToTwoUsers` | verify.php:122-129 | as written, one reference "r1" and one confirmed 15000-kobo answer credit user 7 and then user 8, one credit each |
| `VerifyPhp.VerifyStepOnce` | verify.php:118-129 | with the duplicate guard consulting every user's meta, a reference locked for any user is never applied and changes nothing; otherwise it is `VerifyStep` |
| `VerifyPhp.ReferenceCreditsOnlyOnce` | verify.php:118-129 | with that guard, once a reference has been credited, no later request with that reference credits anyone, whatever `user_id` it names |
| `VerifyPhp.VerifyPlanHandling` | verify.php:167-182 | on success, an intent naming a tabled plan sets plan, its limit, usage 0 and start time; otherwise those four keys are untouched |
| `VerifyPhp.LockedReferenceNeverCreditsAgain` | verify.php:122-129 | after a reference has been credited, no later request for that user and reference credits again or changes the store, whatever Paystack then answers |
| `VerifyPhp.ApplyPendingPlan` | verify.php:167-182 | the plan-handling statements change the user's meta exactly as the plan rule says |
| `VerifyPhp.ApplyVerifiedPayment` | verify.php:158-194 | the balance update, plan handling, lock write and intent deletion produce the credited meta and return the new balance |
| `VerifyPhp.SettlePayment` | verify.php:122-205 | the statements from the duplicate guard on agree with `Settle` |
| `VerifyPhp.Verify` | verify.php:15-116 | the whole script agrees with `VerifyStep` and keeps the store's email index valid |
| `PaystackWebhook.WebhookStep` | paystack-webhook.js:26-113 | a bad signature gives 401 and other events "Event ignored" with no change; a missing `data` or `customer` throws before replying; an unknown email gives "User not found"; a locked reference gives "Already processed" before the amount is looked at; an unlocked one with no amount or too small an amount gives "Payment insufficient"; any reply other than "processed" changes nothing; the reply is "processed" if and only if the delivery is authentic, addressed to a user, unlocked and buys a credit; then the balance becomes old (missing reads as 0) plus credits, the lock record is written, the intent deleted, and no other key or user changes |
| `PaystackWebhook.ReplayAfterCreditIsNoOp` | paystack-webhook.js:71-77 | once credited, any later delivery for the same user and reference answers "Already processed" and changes nothing |
| `PaystackWebhook.OneCreditScenario` | paystack-webhook.js:79-112 | 15000 kobo for "abc123" adds exactly one credit and a lock; the identical replay changes nothing |
| `PaystackWebhook.MissingAmountStoresNaN` | paystack-webhook.js:80-96 | as written, a `charge.success` without an amount passes the `<= 0` guard and NaN is stored as the balance |
| `PaystackWebhook.CreditsWrittenAsWritten` | paystack-webhook.js:80-96 | as written, the handler stops exactly when an amount is present and below 15000 kobo, writes NaN exactly when the amount is missing, and otherwise writes the old balance plus the credits |
| `PaystackWebhook.HandleWebhook` | paystack-webhook.js:26-113 | the handler's statements agree with `WebhookStep`; its amount guard is the corrected one from the Findings row (a finite, positive credit count), not `creditsToAdd <= 0` |
| `Backend.StripTrailingSlashes` | index.js:17 | removes exactly the maximal run of trailing slashes |
| `Backend.NormaliseSiteUrl` | index.js:15-17 | the URL never ends in '/' nor starts with whitespace, and it is the trimmed variable up to its final run of slashes |
| `Backend.NormalisedUrlMayEndInSpace` | index.js:15-17 | trailing whitespace before the slashes survives: "a /" becomes "a " |
| `Backend.DecideWith` | index.js:41-90 | for any forwarding guard: 401 for a bad signature and 400 for an unparseable body, both without a request, and 200 otherwise; a request exists exactly for an authentic `charge.success` with data that the guard accepts, and it carries the normalised endpoint, the trimmed secret, the trimmed email, `String(credits)` and the reference |
| `Backend.DecideAsWritten` | index.js:41-90 | the handler with its guard as written: the same statuses, and a request exists exactly for a `charge.success` with a non-empty trimmed email whose amount is missing or at least 15000 kobo; a missing amount is forwarded as credits "NaN" |
| `Backend.Decide` | index.js:41-90 | a signature mismatch, a missing header included, gives 401 and an unparseable body 400, both without a request; every authenticated parseable body gets 200; a request exists exactly for a `charge.success` with a non-empty trimmed email and an amount buying at least one credit, and it carries the normalised endpoint, the trimmed secret, the trimmed email, the credits as decimal digits and the reference |
| `Backend.PurchaseRequestsExactlyQty` | index.js:72-90 | paying for `qty` credits at checkout yields a request whose credits read back as `qty` |
| `Backend.UnsetSecretAcceptsEmptyKeySignature` | index.js:47-55 | with PAYSTACK_SECRET_KEY unset, a body signed with the empty key is accepted |
| `Backend.MissingAmountForwardsNaN` | index.js:68-74 | as written, a `charge.success` without an amount yields a request with credits "NaN"; the intended guard drops it |
| `Js.NumberText` | index.js:86 | `String(n)` is "NaN" exactly for NaN, the decimal digits of a non-negative integer, and '-' followed by the digits of a negative one, each reading back as the number |
| `Meta.Store.Update` | verify.php:161 | `update_user_meta` replaces one key of one user and changes nothing else |
| `Meta.Store.Delete` | verify.php:194 | `delete_user_meta` removes one key of one user and changes nothing else |
| `Plugin.SetIntentStep` | ai-video-generator.php:108-117 | not logged in, or an intent that is not a non-empty array, gives an error and stores nothing; otherwise only the current user's pending purchase changes, to the intent |
| `Plugin.MarkPaymentStep` | ai-video-generator.php:122-140 | not logged in or an empty reference gives an error with no change; a seen reference answers "already processed" with no change; a new one stores the time under its lock key and answers "pending credit application"; no balance ever changes |
| `Plugin.MarkPaymentTwice` | ai-video-generator.php:133-139 | a repeated call for a reference answers "already processed" and keeps the first marker |
| `Plugin.MarkerPreemptsCredit` | ai-video-generator.php:130-136 | after the marker is written, a webhook for that user and reference answers "Already processed" with no change, and `verify.php` does not credit |
| `Plugin.SetIntent` | ai-video-generator.php:108-117 | the handler's statements agree with `SetIntentStep` |
| `Plugin.MarkPayment` | ai-video-generator.php:122-140 | the handler's statements agree with `MarkPaymentStep` |

## Left out

- HMAC-SHA512 and `crypto.timingSafeEqual` are not modelled. In `paystack-webhook.js` the comparison is a boolean input. In `index.js` the HMAC is a function parameter. `timingSafeEqual` throws on a length mismatch instead of answering 401, and that throw is not modelled.
- Network and file I/O are not modelled: the Paystack `curl` call, the verify log file, the `fetch` to WordPress and its logging. The Paystack answer is an input (`VerifyPhp.Gateway`). A failed delegate call is only logged, with no retry. In the model, `Backend.Decide`'s reply does not depend on that call.
- The `setTimeout` scheduling and all concurrency are not modelled. The duplicate guards are check-then-set and not atomic. Idempotence is proved for sequential calls only, never for concurrent deliveries.
- Floating point is not modelled. `amount / 100 / 150` is taken as exact division, and amounts are integers. A fractional or string amount, and `String(n)` for numbers of 10^21 or more, are not modelled.
- JSON decoding, `sanitize_text_field` and `stripslashes` are not modelled: their outputs are inputs. A `reference` is its PHP string cast. A `user_id` that is not an integer is not modelled. A decoded intent is a map from keys to scalars, without nested arrays.
- Meta.PhpInt: WordPress's storage of scalars as strings is not modelled. Values are read back as written, and a text value cast to int reads as 0 rather than its numeric prefix.
- Meta.JsNumberOr0: a truthy non-number balance, which JavaScript would concatenate as a string, is read as 0.
- The dynamic import of `wp-load.php` and its 500 reply are not modelled, and neither is a missing `global.wp` bridge. `createHmac` throwing on an unset secret is not modelled either.
- `verify.php` calls `time()` twice (plan start, lock time). Both calls are one `now` input.
- The query-string encoding of the credit request (`URLSearchParams`) is not modelled: the request is a record of its fields.
- Not modelled: the video generation via fal.ai, the dashboard shortcode, asset enqueueing and the Paystack popup in `calevid.js`. Only `calevid.js`'s charge formula is used.
- VerifyPhp.Verify: the imperative endpoint keeps the duplicate guard as written, per user. The cross-user guard of the Findings row exists only as the function `VerifyPhp.VerifyStepOnce`, because the endpoint is modelled as the code stands.

## Findings

| source | as written | input that shows it | evidently intended | confidence | as-written member | corrected member |
|---|---|---|---|---|---|---|
| index.js:72-74 | `Math.floor(amount / 100 / 150)` is NaN when `amount` is absent, and `NaN <= 0` is false, so the guard lets it through | an authentic `{event:"charge.success", data:{reference:"ref", customer:{email:"x"}}}` yields a credit request with `credits=NaN` | drop the event unless the credit count is a positive number | medium, not executed | `Backend.MissingAmountForwardsNaN` | `Backend.Decide` |
| paystack-webhook.js:80-96 | the same NaN passes `creditsToAdd <= 0`, then `currentCredits + NaN` is stored as the balance and the reference is locked | an authentic `charge.success` for a known email without `data.amount` | answer "Payment insufficient" and change nothing | medium, not executed | `PaystackWebhook.MissingAmountStoresNaN` | `PaystackWebhook.WebhookStep` |
| verify.php:122-123 | the duplicate guard reads the lock from the meta of the user named by the request's `user_id`, so a reference credited to one user is not locked for another | `{reference:"r1", user_id:7}` then `{reference:"r1", user_id:8}`, each with a confirmed 15000-kobo Paystack answer, credit both users | a payment reference is credited once, to one user | medium, not executed | `VerifyPhp.ReferenceCreditedToTwoUsers` | `VerifyPhp.VerifyStepOnce` |
