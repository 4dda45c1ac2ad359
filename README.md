# Stripe subscriptions behind Supabase: a Dafny model

This project models the payment core of an iOS app that sells subscriptions. Payment runs through Stripe, and the user's entitlement lives in Supabase. The core has five parts:

- **Webhook reconciler** (`supabase/functions/stripe-webhook/index.ts`).
  - It checks the `stripe-signature` header and has Stripe verify the event.
  - It projects the subscription of a `checkout.session.completed` or `customer.subscription.updated` event onto a row of the `user_entitlements` table.
  - It blanks the plan columns of every row that holds the subscription of a `customer.subscription.deleted` event.
  - The table is the `EntitlementTable` class. It holds a map from user id to row, plus the order in which the database returns rows.
  - Its methods `Handle` and `UpdateEntitlement` follow the handler step by step. Each is proved equal to a function on values (`Reconcile`, `ApplyUpdateEntitlement`), and the properties are proved about those functions.
- **Checkout-session function** (`supabase/functions/create-checkout-session/index.ts`). A ladder of guards:
  - the method must be POST;
  - an Authorization header must be present;
  - the client must be created;
  - the entitlement select must succeed and return a row;
  - the user must have an email;
  - the JSON body's `price_id` must not be exactly `null` (an absent one passes).
  
  The guards lead to `stripe.checkout.sessions.create` with a subscription-mode session for the user.
- **Error response** (`supabase/functions/_shared/utils.ts`). `buildErrorResponse` derives a message from any thrown or returned value and answers `{"error": message}` with the given status.

  The JavaScript semantics the error path relies on are modelled explicitly in module `JsValues`: truthiness, `typeof`, `String()`, property access and `JSON.stringify`, string escaping included.
- **Checkout view** (`CheckoutView.swift`). It defines the two callback URLs Stripe redirects to. Its navigation decider refuses every navigation under the callback scheme and reports success and cancellation independently.
- **Product catalogue** (`SubscriptionProduct.swift`). A constant list of products keyed by price id, and the failable lookup `init?(priceId:)`.

External services are parameters:
- the signature check, `subscriptions.retrieve`, the entitlement select, `auth.getUser`, `createClient` and `checkout.sessions.create` are oracle fields of a `Backend` value;
- an exception that escapes a Deno handler is `Http.UncaughtException`, the runtime's plain-text 500.

## Model

| member | source | states |
|---|---|---|
| Webhook.EntitlementTable.Handle | supabase/functions/stripe-webhook/index.ts:20-110 | The handler as written, step by step. It keeps the table well formed. Its response and the new table are exactly `Reconcile` of the old table. |
| Webhook.EntitlementTable.UpdateEntitlement | supabase/functions/stripe-webhook/index.ts:118-166 | updateEntitlement as written, step by step. It keeps the table well formed. The new table and whether it threw are exactly `ApplyUpdateEntitlement` of the old table. |
| Webhook.Reconcile | supabase/functions/stripe-webhook/index.ts:20-38 | A missing or empty signature gives 401 "Unauthorized" and a failed verification gives an empty 400, with the table untouched in both cases. A verified event is handled as `Dispatch` says. Any non-200 answer leaves the table as it was. No row is added, removed or re-keyed. |
| Webhook.Dispatch | supabase/functions/stripe-webhook/index.ts:43-109 | A verified event is acknowledged with an empty 200 or escapes as a 500 with the table untouched. An unhandled event type is acknowledged and changes nothing. The 500 happens exactly in two cases. (1) A checkout with a reference and a subscription whose retrieve fails, or whose subscription has a usable first item with a period outside a Date's range. (2) An updated event whose select succeeds and finds a row, for a subscription with such a period. |
| Webhook.IdOf | supabase/functions/stripe-webhook/index.ts:51-54 | Only a bare-string reference survives, as its id. An expanded object or null becomes null. |
| Webhook.TimeStampToISO | supabase/functions/stripe-webhook/index.ts:112-116 | Seconds become the Date at seconds × 1000 ms. Outside ±8.64e15 ms the Date is invalid and toISOString throws. |
| Webhook.ResolveCustomer | supabase/functions/stripe-webhook/index.ts:123-126 | A customer id passed in is used as is. Without one, the subscription's customer is used when it is a bare id. The result is null exactly when neither is available. |
| Webhook.SessionSubscription | supabase/functions/stripe-webhook/index.ts:63-65 | An expanded subscription is used as it is. A bare id is replaced by what `subscriptions.retrieve` answers for it, None when that throws. |
| Webhook.ApplyUpdateEntitlement | supabase/functions/stripe-webhook/index.ts:118-166 | Throws exactly when the first item is usable and a period is outside a Date's range. A throw or an unusable item list leaves the table unchanged. No key is added or removed, and rows of other users are untouched. Otherwise every row of the user gets the subscription id, the resolved customer, the plan's price and product, the status and both periods in milliseconds. |
| Webhook.Project | supabase/functions/stripe-webhook/index.ts:123-164 | Skips exactly when `items.data` is missing, is not a non-empty array, or its first item lacks plan or a period. Otherwise the patch holds the subscription id, the resolved customer, the plan's id and product, the status, and both periods × 1000. |
| Webhook.UpdateById | supabase/functions/stripe-webhook/index.ts:152-165 | Only rows whose id is userId change. They take exactly the seven columns and keep their id. All keys are kept. |
| Webhook.SelectBySubscription | supabase/functions/stripe-webhook/index.ts:78-81 | Lists exactly the ids of the rows holding the subscription, as a subsequence of the table order, so in that order. Without repeated ids in the order there are none in the result. Its head is the first such row. |
| Webhook.ClearSubscription | supabase/functions/stripe-webhook/index.ts:94-102 | Every row holding the subscription loses its subscription and all plan columns, and keeps its id and customer. Other rows are unchanged, and nothing changes when no row matches. |
| WebhookProperties.CheckoutWithoutReferenceOrSubscriptionIsIgnored | supabase/functions/stripe-webhook/index.ts:46-61 | A session with no (or an empty) client_reference_id, or with a null subscription, is acknowledged and changes nothing. |
| WebhookProperties.CheckoutProjectsSessionSubscription | supabase/functions/stripe-webhook/index.ts:56-73 | A bare subscription id is replaced by the retrieved object before projection, and a failed retrieve is an uncaught 500. The projection runs on that object, with the session's string customer, for the referenced user. |
| WebhookProperties.CheckoutCustomerChoice | supabase/functions/stripe-webhook/index.ts:123-126 | The customer id a checkout writes: the session's customer if it is a string; else the subscription's customer if it is a string; else null. |
| WebhookProperties.ExpandedCustomerErasesStoredCustomerId | supabase/functions/stripe-webhook/index.ts:51-54 | A concrete delivery in which an expanded customer object erases the stored stripe_customer_id. |
| WebhookProperties.UpdateEntitlementSkipsMalformedItems | supabase/functions/stripe-webhook/index.ts:131-147 | No `data`, a `data` that is not a non-empty array, or a first item without plan or either period gives no write. |
| WebhookProperties.UpdateEntitlementWritesOneRow | supabase/functions/stripe-webhook/index.ts:152-165 | On a well-formed table, only the row stored under userId changes, to exactly the projected row. It throws exactly when a period is out of a Date's range. |
| WebhookProperties.UpdateByIdIdempotent | supabase/functions/stripe-webhook/index.ts:152-165 | Writing the same patch twice gives the table that writing it once gives. |
| WebhookProperties.ApplyUpdateEntitlementIdempotent | supabase/functions/stripe-webhook/index.ts:118-165 | updateEntitlement applied twice with the same arguments is the same as applied once. |
| WebhookProperties.UpdatedWithoutMatchIsIgnored | supabase/functions/stripe-webhook/index.ts:78-88 | An updated event is acknowledged and writes nothing when the select fails or no row holds the subscription. |
| WebhookProperties.FirstMatchUnique | supabase/functions/stripe-webhook/index.ts:86-89 | `data[0]` is well defined: the first matching row in table order is unique. |
| WebhookProperties.UpdatedProjectsOntoFirstMatch | supabase/functions/stripe-webhook/index.ts:86-89 | Otherwise the event is projected, with a null customer, onto the first row in table order holding the subscription. |
| WebhookProperties.DeletedClearsEveryMatchingRow | supabase/functions/stripe-webhook/index.ts:92-103 | A deleted event is acknowledged. It nulls the six plan/status/period columns of every row holding the subscription, keeps their customer ids, and leaves the other rows alone. |
| WebhookProperties.ClearSubscriptionIdempotent | supabase/functions/stripe-webhook/index.ts:94-102 | Clearing a subscription twice is clearing it once. |
| WebhookProperties.SelectDependsOnMatchesOnly | supabase/functions/stripe-webhook/index.ts:78-81 | The select's answer depends only on which rows hold the subscription. |
| WebhookProperties.ReconcileIdempotent | supabase/functions/stripe-webhook/index.ts:20-110 | A redelivered request, handled on the table the first delivery produced, gives the same response and the same table. |
| WebhookProperties.ReconcileKeepsPlansConsistent | supabase/functions/stripe-webhook/index.ts:94-101 | Every request preserves, for every row: no subscription exactly when no plan column is set. |
| WebhookProperties.ReconcileKeepsTableValid | supabase/functions/stripe-webhook/index.ts:20-110 | On a well-formed table: no row is added, removed or re-keyed, and the row order still lists every row once. |
| WebhookProperties.UpdatedAfterCheckoutFindsUser | supabase/functions/stripe-webhook/index.ts:69-89 | After a checkout has linked a user to a subscription no other row holds, a later updated event's select finds that user first. |
| WebhookProperties.LifecycleScenario | supabase/functions/stripe-webhook/index.ts:43-109 | Checkout for u1 with sub_1 on price_premium over [1700000000, 1702592000] fills the row with periods 1700000000000/1702592000000 ms. A past_due update changes only the status. A deletion of an unknown subscription changes nothing. |
| CreateCheckoutSession.Admit | supabase/functions/create-checkout-session/index.ts:11-57 | The request is admitted exactly when it is a POST, the header is present, the client is created, the select returns at least one row, and the user has a non-empty email; admission carries the first row and that email. Each refusal is named in guard order. Non-POST gives 405 "Method Not Allowed". A missing header gives 401 "Unauthorized". A client that fails to be created gives 500 with what it threw. A failed select gives 500 with the select's error. No visible row gives 400 "Unknwon User". A failed getUser gives 500 with its error. A missing email gives 500 with the "Email required." Error. Every refusal is a JSON error with status 400, 401, 405 or 500. |
| CreateCheckoutSession.OrUndefined | supabase/functions/create-checkout-session/index.ts:116-118 | `x ?? undefined`: null and undefined become undefined; every other value passes unchanged. |
| CreateCheckoutSession.Params | supabase/functions/create-checkout-session/index.ts:95-120 | Subscription mode, expanding "subscription". client_reference_id is the user's id, with one line item of the price at quantity 1. Exactly one of customer and customer_email is set: the stored customer id if there is one, else the email. Null URLs are sent as undefined. |
| CreateCheckoutSession.SessionResponse | supabase/functions/create-checkout-session/index.ts:76-79 | A 200 with a JSON content type and `JSON.stringify(session)` as its body. A session that cannot be serialised escapes as an uncaught 500. |
| CreateCheckoutSession.HandleRequest | supabase/functions/create-checkout-session/index.ts:11-80 | A refused admission is answered as `Admit` says. A body that is not JSON, or is null, makes the handler throw. A null `price_id` gives 400 "Price ID is required". Any other body leads to `checkout.sessions.create` with the parameters built from the admitted user, email, price and URLs. The answer is that session serialised, or an uncaught 500 when the call rejects. Conversely a 200 happens only on that path with a created session. The status is always one of 200, 400, 401, 405, 500. |
| CreateCheckoutSession.EarlyGuardsIgnoreBackend | supabase/functions/create-checkout-session/index.ts:12-18 | The 405 and 401 answers come before any service is called or the body is read, so they do not depend on either. |
| CreateCheckoutSession.RefusalMessages | supabase/functions/create-checkout-session/index.ts:12-62 | Every 400, 401 or 405 is JSON whose `error` decodes to one of "Method Not Allowed", "Unauthorized", "Unknwon User", "Price ID is required". |
| CreateCheckoutSession.UnknownUserRefused | supabase/functions/create-checkout-session/index.ts:46-48 | No visible entitlement row gives 400 "Unknwon User". |
| CreateCheckoutSession.MissingEmailIsServerError | supabase/functions/create-checkout-session/index.ts:51-57 | A signed-in user without an email gives 500 with error "Email required.", before the body is read. |
| CreateCheckoutSession.NullPriceRefused | supabase/functions/create-checkout-session/index.ts:59-62 | A `price_id` that is exactly null gives 400 "Price ID is required". |
| CreateCheckoutSession.AbsentPriceReachesStripe | supabase/functions/create-checkout-session/index.ts:59-74 | A body without `price_id` is not refused: the session is requested with an undefined price. |
| CreateCheckoutSession.SuccessNamesOneCustomer | supabase/functions/create-checkout-session/index.ts:103-110 | A 200 comes from a session created for the first visible row's user. That session names that row's customer or the user's email, never both. |
| ErrorResponse.BuildErrorResponse | supabase/functions/_shared/utils.ts:1-25 | The handler as written (the message overwritten step by step, a throw from JSON.stringify swallowed) gives exactly `ErrorResponseFor`. |
| ErrorResponse.ErrorMessage | supabase/functions/_shared/utils.ts:2-19 | A non-object is reported as String() of it, so a string verbatim. An Error with a non-empty message is reported by that message. An object with a truthy `message` is reported as String() of it, and one without as its JSON text when that serialises. |
| ErrorResponse.ErrorResponseFor | supabase/functions/_shared/utils.ts:21-24 | The status is the argument and the content type is application/json. The body decodes as a one-member object whose `error` is the derived message. |
| ErrorResponse.ParseErrorBodyRoundTrip | supabase/functions/_shared/utils.ts:22 | The `{"error": …}` body decodes back to exactly the message, whatever characters it holds. |
| ErrorResponse.ErrorBodyIsStringified | supabase/functions/_shared/utils.ts:22 | `JSON.stringify({ error: message })` is exactly `{"error":` + the quoted message + `}`. |
| ErrorResponse.MessageOfString | supabase/functions/_shared/utils.ts:2 | A string is reported verbatim. |
| ErrorResponse.MessageOfNull | supabase/functions/_shared/utils.ts:6-15 | null, an object by typeof that is falsy, is reported as "null". |
| ErrorResponse.MessageOfError | supabase/functions/_shared/utils.ts:3-13 | An Error with a non-empty message is reported by its message. |
| ErrorResponse.MessageOfErrorWithoutMessage | supabase/functions/_shared/utils.ts:3-18 | An Error with an empty message is reported as its JSON text, or as the empty message when serialising throws. |
| ErrorResponse.MessageOfObjectWithMessage | supabase/functions/_shared/utils.ts:6-13 | An object with a truthy `message` is reported as String() of it. |
| ErrorResponse.MessageOfObjectWithoutMessage | supabase/functions/_shared/utils.ts:6-18 | An object without a truthy `message` is reported as its JSON text, or as "[object Object]" (from the first step) when serialising throws. |
| JsValues.Lookup | supabase/functions/_shared/utils.ts:8-11 | `error["message"]` is the value of the first property under that key, or undefined when there is none. |
| JsValues.Get | supabase/functions/create-checkout-session/index.ts:60-65 | Property access: an object answers from its properties and an Error answers `message` and `name` from its own state. Other values answer undefined. |
| JsValues.TypeOf | supabase/functions/_shared/utils.ts:6 | `typeof` is "object" exactly for null, plain objects and Errors, and "undefined" exactly for undefined. |
| JsValues.Truthy | supabase/functions/_shared/utils.ts:8 | The falsy values are exactly undefined, null, false, 0, 0n and the empty string. |
| JsValues.StringOf | supabase/functions/_shared/utils.ts:2 | undefined, null, true and false print as "undefined", "null", "true" and "false". A string prints as itself and a plain object as "[object Object]". A number or BigInt prints as its canonical numeral: a '-' exactly when negative, then digits with no leading zero whose decimal value is the magnitude. An Error prints as name, ": " and message; when one of the two is empty, the other alone. |
| JsValues.Stringify | supabase/functions/_shared/utils.ts:14-18 | JSON.stringify gives undefined exactly for undefined, and throws exactly when a BigInt occurs in the value. |
| JsValues.UnescapeEscape | supabase/functions/_shared/utils.ts:22 | JSON string escaping has a left inverse: decoding the escaped text gives the string back. |
| CheckoutNavigation.DecidePolicy | StripeSupabasePaymentApp/StripeSupabasePayment/Views/CheckoutView.swift:92-112 | No URL means allow, with no callback. A URL is cancelled exactly when it contains the callback scheme, ignoring case. An allowed navigation fires nothing. onSuccess fires iff it is cancelled and contains "success"; onCancel fires iff it is cancelled and contains "cancelled". |
| CheckoutNavigation.SchemeAnywhereIsCancelled | StripeSupabasePaymentApp/StripeSupabasePayment/Views/CheckoutView.swift:99-109 | Any URL with the scheme anywhere in it is cancelled, whatever surrounds it. |
| CheckoutNavigation.DecisionIgnoresCase | StripeSupabasePaymentApp/StripeSupabasePayment/Views/CheckoutView.swift:99-106 | Two URLs that differ only in letter case get the same decision. |
| CheckoutNavigation.SuccessURL | StripeSupabasePaymentApp/StripeSupabasePayment/Views/CheckoutView.swift:15-17 | successURL is the callback scheme, then "?", then "success", and nothing else. |
| CheckoutNavigation.CancelledURL | StripeSupabasePaymentApp/StripeSupabasePayment/Views/CheckoutView.swift:19-21 | cancelledURL is the callback scheme, then "?", then "cancelled", and nothing else. |
| CheckoutNavigation.SuccessURLDecision | StripeSupabasePaymentApp/StripeSupabasePayment/Views/CheckoutView.swift:12-17 | successURL (scheme + "?success") is cancelled and fires onSuccess only. |
| CheckoutNavigation.CancelledURLDecision | StripeSupabasePaymentApp/StripeSupabasePayment/Views/CheckoutView.swift:19-21 | cancelledURL (scheme + "?cancelled") is cancelled and fires onCancel only. |
| CheckoutNavigation.BothMarkersDecision | StripeSupabasePaymentApp/StripeSupabasePayment/Views/CheckoutView.swift:101-106 | The two callbacks are independent: a URL with both markers fires both. |
| CheckoutNavigation.SchemeAloneDecision | StripeSupabasePaymentApp/StripeSupabasePayment/Views/CheckoutView.swift:99-108 | The bare scheme is cancelled and fires neither callback. |
| SubscriptionCatalog.SubscriptionProduct.Id | StripeSupabasePaymentApp/StripeSupabasePayment/Models/SubscriptionProduct.swift:11-13 | The id is always the price id. |
| SubscriptionCatalog.FirstWithPrice | StripeSupabasePaymentApp/StripeSupabasePayment/Models/SubscriptionProduct.swift:31-40 | nil exactly when no product has the price id. Otherwise the result is the first product in list order that has it, so its price id equals the argument. |
| SubscriptionCatalog.CatalogueHasDistinctPrices | StripeSupabasePaymentApp/StripeSupabasePayment/Models/SubscriptionProduct.swift:18-24 | No two catalogue products share a price id. |
| SubscriptionCatalog.FindsEveryProduct | StripeSupabasePaymentApp/StripeSupabasePayment/Models/SubscriptionProduct.swift:33-35 | In any list without repeated price ids, the search finds each product from its own price id. |
| SubscriptionCatalog.FromPriceId | StripeSupabasePaymentApp/StripeSupabasePayment/Models/SubscriptionProduct.swift:31-40 | `init?(priceId:)` is nil exactly when no catalogue product has the price id. Otherwise it gives a catalogue product with that price id. |
| SubscriptionCatalog.FromPriceIdRoundTrip | StripeSupabasePaymentApp/StripeSupabasePayment/Models/SubscriptionProduct.swift:31-40 | For every catalogue product p, `init?(priceId: p.priceId)` and `init?(priceId: p.id)` give back p. |
| SubscriptionCatalog.UnknownPriceHasNoProduct | StripeSupabasePaymentApp/StripeSupabasePayment/Models/SubscriptionProduct.swift:31-38 | A price id outside the catalogue maps to no product. |

## Behaviour of the code

The properties below describe what the code does, including some behaviour a reader might not expect.

- **Customer id.** A projection writes the customer id it resolves, and that id is null when neither the session nor the subscription names the customer as a bare string. So an expanded customer object erases a stored id (`ExpandedCustomerErasesStoredCustomerId`).
- **Uncaught exceptions in the webhook.** Two failures are not caught by the handler: a failed `subscriptions.retrieve`, and a period that `toISOString` cannot format (outside a Date's range). Either one escapes, and the Deno runtime answers 500 with the table untouched (`Dispatch`). Every other verified event is answered 200.
- **Failed lookups.** A failed `subscription_id` lookup in the updated branch is acknowledged with 200. A malformed item list is silently skipped.
- **Rows touched.** The deleted branch clears every row holding the subscription, not only one (`DeletedClearsEveryMatchingRow`).
- **Event ordering.** An updated event that arrives before the checkout finds no row holding the subscription, and writes nothing (`UpdatedWithoutMatchIsIgnored`).
- **Checkout errors.** Only a `price_id` that is exactly null is refused with 400. A missing one goes on to Stripe (`AbsentPriceReachesStripe`). A body that is not JSON, or is null, makes the handler throw: an uncaught 500.
- **Error message text.** The zero-rows message is spelt "Unknwon User" in the code. The model keeps that spelling.
- **Endpoint secret.** The webhook reads its secret from the environment variable `STRPIE_ENDPOINT_SECRET`, misspelt, at `supabase/functions/stripe-webhook/index.ts:33`, and falls back to "". A deployment that sets the correctly spelt name verifies every event against the empty secret, so every event fails verification and gets 400. The secret is inside the `constructEvent` oracle, so the model does not distinguish the two names.

## Left out

- Signature verification (HMAC) is an oracle `constructEvent(raw, signature)`: None means it threw. The endpoint secret is part of that oracle.
- The Supabase and Stripe transports are oracles fixed per request:
  - row-level security deciding which rows the checkout function sees;
  - `auth.getUser`;
  - `createClient`;
  - `checkout.sessions.create`;
  - `subscriptions.retrieve`;
  - the select's error.
  
  The checkout function's Backend does not depend on the Authorization header's contents.
- Errors returned by the webhook's `update(...)` calls are ignored by the code. The model assumes every write succeeds.
- Webhook.TimeStampToISO: gives the instant in epoch milliseconds, not its ISO-8601 spelling. Calendar formatting is the runtime's.
- Webhook.Project: `plan.product` is taken as a string or null. An expanded product object, which the code would store as is, is not modelled.
- Webhook.EntitlementTable: the row order `order` is fixed for the table's lifetime. A database that reorders rows between selects is not modelled.
- Concurrent and duplicate webhook deliveries racing each other are not modelled. Sequential redelivery is covered by `ReconcileIdempotent`.
- JSON parsing of request bodies and of Stripe payloads is not modelled. Bodies are already-parsed values, and a body that fails to parse is None.
- JsValues.Stringify: numbers are integers. Floating point, NaN/Infinity (serialised as null), functions and symbols, cycles, and user-defined `toJSON`/`toString` are not modelled. Consequently a BigInt is the only way serialisation throws. Members are written in list order; `JSON.stringify` writes integer-like keys first, in ascending numeric order, then the others in insertion order, so for an object with such a key the modelled text (an error message from `JSON.stringify(error)`, or a session body) can differ in member order.
- JsValues.JsValue has no arrays. Request bodies and errors are modelled as objects, strings and primitives only.
- JsValues.Lookup: takes the first property with the key. An object built by `JSON.parse` from text with a duplicate key keeps the last one; such bodies are not modelled.
- JsValues.StringOf: a number prints as its plain decimal digits. `String()` switches to exponent form from 1e21 upwards, and that form is not modelled.
- JsValues.Get: the properties primitives inherit from their prototypes (e.g. `"abc".length`) are not modelled. Such an access gives undefined.
- CheckoutNavigation.DecidePolicy: `localizedCaseInsensitiveContains` is modelled as ASCII case folding plus substring search. Locale-specific folding and Unicode normalisation are not modelled. `URL.absoluteString` normalisation is not modelled either: the URL is taken as the string the request carries.
- The SwiftUI views and `UserManager.swift` are not part of this model: UI, async listeners, realtime channel and sign-in. That includes the body of `CheckoutView` and the `dismiss` the callbacks perform. The callbacks are reported as two flags.
- `Entitlement.swift`, `CreateCheckoutSessionRequest.swift` and `SupabaseError.swift` are used only as data shapes.
- Logging (`console.log`, `console.error`, `print`) is not modelled.
