# Create-and-confirm order orchestrator, modelled in Dafny

This project models the create-and-confirm orchestration of `lambda-orchestrator/src/handler.ts`. A caller posts an order request. The handler does the following, in order:

1. It parses the request and validates it (`isPositiveInt`, `validateBody`).
2. It picks a correlation id and checks that four settings are present: CUSTOMERS_BASE, ORDERS_BASE, SERVICE_TOKEN and JWT_SECRET.
3. It checks the customer against the customer service, using the static service token.
4. It mints a short-lived service JWT.
5. It creates the order and then confirms it against the order service. The confirm call forwards the caller's idempotency key.
6. It refreshes the customer on a best-effort basis.
7. It answers with a JSON envelope (`jsonResponse`).

Files:

- `js_value.dfy` (module `JsValue`): the JavaScript values the handler works on. It covers truthiness, `typeof … === 'object'`, property reads, the `String(x)` / template-literal coercion (including the TypeError it throws for an object with its own `toString` key, directly or inside an array) and `String.prototype.trim`.
- `validator.dfy` (module `Validator`): the validator. It is a function, with a second, declarative statement of its five rules. Lemmas prove that the validator reports an error exactly for the payloads that break a rule, that it reports the first rule violated, and that a payload meeting every rule is accepted unless converting its `correlation_id` throws.
- `orchestrator.dfy` (module `Orchestrator`): the handler, as the method `Handle` and its helper `CallUpstreams`.
  - The methods do not perform HTTP. They append each outbound call to a trace: method, structured URL, `X-Correlation-Id`, bearer credential, `X-Idempotency-Key` and JSON body.
  - Each upstream outcome is an input: a reply with status and decoded body, or a fault.
  - `JSON.parse` is a function parameter. `randomUUID()` is a non-empty `freshId` parameter.
  - The methods are proved against `Plan` (the four calls, in order), `CallsIssued` (where a run stops) and `Respond` (the outcome, read off the last call made).

Behaviour worth noting:

- Validation happens before the configuration check.
- A body that is not valid JSON, or that fails validation, gets a 400 without a correlation id.
- A fetch that rejects (a transport error, or the timeout's abort) is not turned into a 502. It rejects the handler's promise. This also applies to the best-effort refresh: a refresh that times out rejects the whole request, although the order is already confirmed. Only a refresh that *replies* with a non-2xx status is degraded to an absent customer.
- A create call that answers 2xx with an empty or `null` body makes the handler throw when it reads `.id`. In that case no confirm call is made.
- `res.ok` is derived from the status: 200 to 299.
- `fetchJson` logs each call's URL and request options, including the `Authorization` header. That puts the static SERVICE_TOKEN (customer calls) and the minted JWT (order calls) in the log.
- A truthy `correlation_id` is kept as `String(correlation_id)`. An empty array is truthy but coerces to `""`, so the handler then uses a fresh id.
- `String()` throws for a JSON object with its own `toString` key, because neither `toString` nor the inherited `valueOf` yields a primitive. Such a `correlation_id` (or an array holding such an object) makes `validateBody` throw, so the handler rejects without a call. Such an order id in the create reply makes the confirm URL's template literal throw, so the handler rejects before the confirm call.

## Model

| member | source | states |
|---|---|---|
| JsValue.TrimStart | lambda-orchestrator/src/handler.ts:67 | the result is a suffix of the input, everything dropped is white space, and the result does not start with white space |
| JsValue.TrimEnd | lambda-orchestrator/src/handler.ts:67 | the result is a prefix of the input, everything dropped is white space, and the result does not end with white space |
| JsValue.TrimEmptyIffAllWhitespace | lambda-orchestrator/src/handler.ts:67 | `!s.trim()` holds exactly when every character of `s` is white space |
| JsValue.NatToDecimal | lambda-orchestrator/src/handler.ts:76 | a natural number renders as at least one decimal digit, with no leading zero, and the digits denote the number |
| JsValue.NumberToString | lambda-orchestrator/src/handler.ts:76 | `String(n)` of an integer is its decimal digits, at least one and with no leading zero, preceded by `-` when negative, and they read back as the integer |
| JsValue.ToJsString | lambda-orchestrator/src/handler.ts:76 | `String(v)` keeps a string unchanged; only an object or an array can make it throw; an object makes it throw exactly when it has its own `toString` key |
| JsValue.JoinThrowsIffElementThrows | lambda-orchestrator/src/handler.ts:76 | converting an array throws exactly when converting one of its elements that is neither null nor undefined throws |
| Validator.AllItemsValidIff | lambda-orchestrator/src/handler.ts:62-66 | the early-return item loop accepts exactly when every item has positive integer product_id and qty |
| Validator.NormaliseItems | lambda-orchestrator/src/handler.ts:74 | the normalised items have the input's length and order, and each keeps its element's product_id and qty |
| Validator.IsPositiveInt | lambda-orchestrator/src/handler.ts:55 | only an integral number above zero qualifies, never a numeric string, boolean or null; a qualifying value is truthy and converts to unsigned decimal digits denoting at least 1 |
| Validator.ValidateBody | lambda-orchestrator/src/handler.ts:57-79 | a missing or non-object payload gets "Body must be a JSON object"; an accepted request is well formed; it keeps customer_id, the items (length, order, values) and idempotency_key verbatim; correlation_id is present exactly when truthy, its value is `String(correlation_id)`, and a string is kept unchanged; the validator throws only for a truthy correlation_id whose conversion throws |
| Validator.RulesAgree | lambda-orchestrator/src/handler.ts:59-69 | the object test, the item loop and the trim test each agree with the declarative statement of their rule |
| Validator.ValidateBodyAcceptsIff | lambda-orchestrator/src/handler.ts:57-79 | the validator reports an error exactly for the payloads that break one of the five rules; of the others it accepts exactly those whose correlation_id is falsy or converts, and throws for the rest |
| Validator.ValidateBodyReportsFirstViolation | lambda-orchestrator/src/handler.ts:59-69 | when rule k is the first rule violated, the error is rule k's message, whatever the later rules say |
| Validator.OneBadItemRejects | lambda-orchestrator/src/handler.ts:62-66 | one bad item anywhere fails validation with the item message, whatever the other items are |
| Validator.RulesIgnoreCorrelation | lambda-orchestrator/src/handler.ts:59-69 | replacing correlation_id does not change whether a payload satisfies the five rules |
| Validator.OwnToStringCorrelationThrows | lambda-orchestrator/src/handler.ts:76 | a payload satisfying every rule makes the validator throw when its correlation_id is an object with its own `toString` key; with a string correlation_id `s` it is accepted, keeping `s` when non-empty and dropping the falsy `""` |
| Orchestrator.JsonResponse | lambda-orchestrator/src/handler.ts:46-53 | the envelope keeps the status and body; the headers are the JSON content type merged with the extra headers, and the extra headers win |
| Orchestrator.MissingFlagsExact | lambda-orchestrator/src/handler.ts:110-121 | the configuration error flags all four settings, true exactly for the absent ones, and it arises exactly when at least one setting is absent |
| Orchestrator.MintServiceToken | lambda-orchestrator/src/handler.ts:145-149 | the order-service token carries sub lambda-orchestrator, role service, aud orders-api, a 300-second lifetime, and is signed with JWT_SECRET (a definition without a contract) |
| Orchestrator.Plan | lambda-orchestrator/src/handler.ts:123-192 | a complete run has four calls: a GET pre-check of the request's customer at CUSTOMERS_BASE, a POST create at ORDERS_BASE carrying the request's customer_id and items, a POST confirm of the id of the order just created (once the create succeeded with a usable id), and a refresh identical to the pre-check; every call carries the correlation id |
| Orchestrator.CallsIssued | lambda-orchestrator/src/handler.ts:133-186 | a run issues one to four calls; every call before the last succeeded; a run that stops early does so because its last call did not succeed, or because the order id of a successful create cannot be read or converted; the confirm call is only made with a usable order id |
| Orchestrator.PlanCarriesHeaders | lambda-orchestrator/src/handler.ts:124-192 | every planned call carries the correlation id; the customer calls use the static SERVICE_TOKEN; the order calls use the JWT with claims lambda-orchestrator / service / orders-api, five minutes, signed with JWT_SECRET; only the confirm call carries the idempotency key, and it is the request's key; the refresh repeats the pre-check |
| Orchestrator.CorrelationId | lambda-orchestrator/src/handler.ts:98 | the correlation id is the caller's non-empty string when there is one, and the fresh id otherwise; it is never empty when the fresh id is not |
| Orchestrator.CorrelationFromCaller | lambda-orchestrator/src/handler.ts:98 | the correlation id is the caller's correlation_id when that is a non-empty string, the fresh id when it is absent or falsy, and never empty |
| Orchestrator.EmptyArrayCorrelationFallsBack | lambda-orchestrator/src/handler.ts:76-98 | any truthy `correlation_id` whose `String()` is `""` (such as `[]`, `[null]` or `[[]]`) is kept as `""`, and the fresh id is used |
| Orchestrator.Respond | lambda-orchestrator/src/handler.ts:133-202 | every response is the plain JSON envelope; the handler rejects exactly when the last call issued faulted or when the create call succeeded but its order id cannot be used; a transport failure is always a faulted call |
| Orchestrator.RespondStatus | lambda-orchestrator/src/handler.ts:133-202 | a run with complete configuration answers only 201, 400 or 502. 201 means every step got through to a refresh reply. 400 means the pre-check replied non-2xx. 502 means the create or confirm call replied non-2xx. Every error relays the failing call's status, its body and the correlation id |
| Orchestrator.FailedPrecheckStops | lambda-orchestrator/src/handler.ts:133-140 | a failed pre-check issues no order call and answers 400 with the upstream status and details |
| Orchestrator.FailedCreateStops | lambda-orchestrator/src/handler.ts:159-166 | a failed create issues no confirm call and answers 502 |
| Orchestrator.FailedConfirmStops | lambda-orchestrator/src/handler.ts:179-186 | a failed confirm issues no refresh call and answers 502 |
| Orchestrator.UnconvertibleOrderIdStops | lambda-orchestrator/src/handler.ts:168-170 | after a successful pre-check and create, any order id that is an object with its own `toString` key, or an array holding one, stops the run after two calls and rejects the handler |
| Orchestrator.RefreshIsBestEffort | lambda-orchestrator/src/handler.ts:188-202 | once the order is confirmed, any refresh reply gives 201 with `success: true`, `correlationId` equal to the correlation id in use and `order` equal to the confirm body; the customer is the refresh body when the refresh succeeded, and undefined otherwise |
| Orchestrator.CallUpstreams | lambda-orchestrator/src/handler.ts:123-202 | the calls made are the plan's, in order, up to the first call that does not succeed (or, after the create call, up to an order id that cannot be read or converted); the outcome is the one `Respond` reads off the last call; every call carries the correlation id |
| Orchestrator.Handle | lambda-orchestrator/src/handler.ts:84-203 | a body that does not parse gets 400 "Invalid JSON body", and a body that fails validation gets 400 with the validator's error, both without a call; a correlation_id whose conversion throws rejects the handler without a call; missing settings get 500 with the flags and no call; otherwise the calls and the outcome are those of the plan; calls are made exactly when the request is valid and the configuration complete; every call carries the same non-empty correlation id |

## Left out

- `fetchJson` (network I/O via `fetch`, the `AbortController` timeout and `REQUEST_TIMEOUT_MS`): each call's outcome is an input. It is either a reply (status and decoded body, with a body that is not JSON as `{raw: text}`) or a fault. The timeout's duration is timing behaviour.
- `jwt.sign`: a foreign signing library. The token is the value of its fixed claims, its five-minute lifetime and the secret. The issue time and the signature bytes are not modelled.
- `randomUUID`: platform randomness. It is the parameter `freshId`, assumed non-empty.
- `JSON.parse` and `JSON.stringify`: parsing is a function parameter that yields a value or fails. A response body is the value handed to `JSON.stringify`, and a property that is `undefined` is omitted when serialised.
- URLs are kept structured (base, customer id, order id) rather than concatenated into strings. The outbound `Content-Type: application/json` header, which every call carries, is not recorded in the trace.
- Numbers: `String(n)` of an integral number is rendered in plain decimal. JavaScript switches to exponent notation from 1e21, which is not modelled. Integers are unbounded, so double-precision rounding is not modelled either.
- `console.log` calls: logging only (what they reveal is noted under "Behaviour worth noting").
- `event.headers`: never read by the handler.
- `lambda-orchestrator/src/server.ts`, `lambda-orchestrator/src/docs.ts`, `orders-api/src/app.ts` and `customers-api/src/app.ts`: routing, process bootstrap and documentation mounting. Their mapping of a rejected handler promise to a 500 is not part of this model. The handler's own outcome is `Threw`.
