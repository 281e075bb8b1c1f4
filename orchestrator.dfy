/**
 * The create-and-confirm orchestration of `handler`: parse and validate the request, pick the
 * correlation id, check the four required settings, pre-check the customer, mint the service
 * token, create the order, confirm it, refresh the customer (best effort) and build the response.
 *
 * The outbound HTTP calls are not performed: `Handle` records each call it issues in a trace and
 * takes the upstream outcome of each step as an input, so that the order of calls, the headers
 * they carry and the mapping of outcomes to responses can be stated and proved.
 */
module Orchestrator {
  import opened Wrappers
  import opened JsValue
  import opened Validator

  // ---------------------------------------------------------------------------------------
  // Configuration
  // ---------------------------------------------------------------------------------------

  /** CUSTOMERS_BASE, ORDERS_BASE, SERVICE_TOKEN and JWT_SECRET as read from the environment. */
  datatype Env = Env(
    customersBase: Option<string>,
    ordersBase: Option<string>,
    serviceToken: Option<string>,
    jwtSecret: Option<string>)

  /** A setting passes the handler's `!x` test when it is defined and not the empty string. */
  predicate IsSet(o: Option<string>) {
    o.Some? && o.value != ""
  }

  predicate Complete(env: Env) {
    IsSet(env.customersBase) && IsSet(env.ordersBase) && IsSet(env.serviceToken) && IsSet(env.jwtSecret)
  }

  /** The names the configuration error reports, one per setting. */
  const SettingNames: set<string> := {"CUSTOMERS_API_BASE", "ORDERS_API_BASE", "SERVICE_TOKEN", "JWT_SECRET"}

  /** The settings that are absent, under the names the configuration error reports them by. */
  function AbsentSettings(env: Env): set<string> {
    (if IsSet(env.customersBase) then {} else {"CUSTOMERS_API_BASE"})
    + (if IsSet(env.ordersBase) then {} else {"ORDERS_API_BASE"})
    + (if IsSet(env.serviceToken) then {} else {"SERVICE_TOKEN"})
    + (if IsSet(env.jwtSecret) then {} else {"JWT_SECRET"})
  }

  // ---------------------------------------------------------------------------------------
  // Outbound calls and their outcomes
  // ---------------------------------------------------------------------------------------

  /** What `fetchJson` resolves to (a response's status and decoded body), or `Fault` when the
      request rejects: a transport error, or the abort fired by the per-call timeout. */
  datatype Fetch = Reply(status: int, json: Value) | Fault

  /** `res.ok`: the call resolved with a 2xx status. */
  predicate Succeeded(f: Fetch) {
    f.Reply? && 200 <= f.status <= 299
  }

  /** The outcome of each upstream call, in the order the handler would issue them. */
  datatype Upstreams = Upstreams(precheck: Fetch, create: Fetch, confirm: Fetch, refresh: Fetch)

  datatype HttpMethod = GET | POST

  /** The URL of a call, kept structured: `{base}/internal/customers/{id}`, `{base}/orders`
      and `{base}/orders/{id}/confirm`. */
  datatype Endpoint =
    | CustomerById(customersBase: string, customerId: int)
    | Orders(ordersBase: string)
    | ConfirmById(confirmBase: string, orderId: string)

  /** The short-lived token `jwt.sign` produces: its claims, its lifetime and the secret it is
      signed with (the issue time and the signature bytes are not modelled). */
  datatype ServiceJwt = ServiceJwt(sub: string, role: string, aud: string, expiresInSeconds: nat, secret: string)

  /** The `Authorization: Bearer ...` credential of a call. */
  datatype Credential = StaticToken(token: string) | SignedToken(jwt: ServiceJwt)

  /** The JSON body of the create call. */
  datatype OrderDraft = OrderDraft(customerId: int, items: seq<Item>)

  /** One outbound call: method, URL, `X-Correlation-Id`, bearer credential,
      `X-Idempotency-Key` (when sent) and JSON body (when sent). */
  datatype Call = Call(
    verb: HttpMethod,
    endpoint: Endpoint,
    correlationId: string,
    bearer: Credential,
    idempotencyKey: Option<string>,
    payload: Option<OrderDraft>)

  /** The token minted for the order calls: fixed claims, five minutes, signed with JWT_SECRET. */
  function MintServiceToken(secret: string): ServiceJwt {
    ServiceJwt("lambda-orchestrator", "service", "orders-api", 300, secret)
  }

  /** Reading `.id` of the create response body throws when that body is undefined or null. */
  predicate OrderIdReadable(json: Value) {
    !(json.Undefined? || json.Null?)
  }

  /** The `${orderCreated.id}` path segment of the confirm URL; `None` when the template literal
      throws converting the id. */
  function OrderIdSegment(json: Value): Option<string> {
    ToJsString(Get(json, "id"))
  }

  /** The confirm URL can be built from the create response body: reading `.id` does not throw,
      and neither does converting it. */
  predicate OrderIdUsable(json: Value) {
    OrderIdReadable(json) && OrderIdSegment(json).Some?
  }

  function CustomerLookup(env: Env, b: Body, cid: string): Call
    requires Complete(env)
  {
    Call(GET, CustomerById(env.customersBase.value, b.customerId), cid,
         StaticToken(env.serviceToken.value), None, None)
  }

  function CreateOrderCall(env: Env, b: Body, cid: string): Call
    requires Complete(env)
  {
    Call(POST, Orders(env.ordersBase.value), cid,
         SignedToken(MintServiceToken(env.jwtSecret.value)), None, Some(OrderDraft(b.customerId, b.items)))
  }

  function ConfirmOrderCall(env: Env, b: Body, cid: string, orderId: string): Call
    requires Complete(env)
  {
    Call(POST, ConfirmById(env.ordersBase.value, orderId), cid,
         SignedToken(MintServiceToken(env.jwtSecret.value)), Some(b.idempotencyKey), None)
  }

  /** The order id the confirm call targets; it is only consulted once the create call succeeded
      and the id converted. */
  function ConfirmTarget(net: Upstreams): string {
    if net.create.Reply? && OrderIdSegment(net.create.json).Some? then OrderIdSegment(net.create.json).value else ""
  }

  /** The four calls of a complete run, in order: the refresh repeats the pre-check, and every
      call carries the correlation id. */
  function Plan(env: Env, b: Body, cid: string, net: Upstreams): (r: seq<Call>)
    requires Complete(env)
    ensures |r| == 4 && r[3] == r[0]
    ensures forall i | 0 <= i < 4 :: r[i].correlationId == cid
    ensures r[0].verb == GET && r[1].verb == POST && r[2].verb == POST
    // the pre-check looks up the request's customer; the create posts the request's order
    ensures r[0].endpoint == CustomerById(env.customersBase.value, b.customerId)
    ensures r[1].endpoint == Orders(env.ordersBase.value) && r[1].payload == Some(OrderDraft(b.customerId, b.items))
    // the confirm targets the id of the order just created
    ensures Succeeded(net.create) && OrderIdUsable(net.create.json) ==>
      r[2].endpoint == ConfirmById(env.ordersBase.value, OrderIdSegment(net.create.json).value)
  {
    [CustomerLookup(env, b, cid), CreateOrderCall(env, b, cid),
     ConfirmOrderCall(env, b, cid, ConfirmTarget(net)), CustomerLookup(env, b, cid)]
  }

  /** The upstream outcome consumed by the `i`-th call. */
  function OutcomeOf(net: Upstreams, i: nat): Fetch
    requires i < 4
  {
    [net.precheck, net.create, net.confirm, net.refresh][i]
  }

  /** How many calls a run with complete configuration issues: it stops after the first call
      that does not succeed, and before the confirm call when the order id cannot be read or
      converted. */
  function CallsIssued(net: Upstreams): (r: nat)
    ensures 1 <= r <= 4
    // every call before the last one succeeded
    ensures forall i | 0 <= i < r - 1 :: Succeeded(OutcomeOf(net, i))
    // the run stopped early because the last call did not succeed, or the order id was unusable
    ensures r < 4 ==>
      !Succeeded(OutcomeOf(net, r - 1)) || (r == 2 && Succeeded(net.create) && !OrderIdUsable(net.create.json))
    ensures r >= 3 ==> Succeeded(net.create) && OrderIdUsable(net.create.json)
  {
    if !Succeeded(net.precheck) then 1
    else if !Succeeded(net.create) || !OrderIdUsable(net.create.json) then 2
    else if !Succeeded(net.confirm) then 3
    else 4
  }

  /** Every call of the plan carries the correlation id; the customer calls authenticate with the
      static SERVICE_TOKEN and the order calls with the minted token; only the confirm call carries
      the idempotency key, which is the request's own; the refresh repeats the pre-check. */
  lemma PlanCarriesHeaders(env: Env, b: Body, cid: string, net: Upstreams)
    requires Complete(env)
    ensures var p := Plan(env, b, cid, net);
      && |p| == 4
      && p[3] == p[0]
      && (forall i | 0 <= i < 4 :: p[i].correlationId == cid)
      && (forall i | 0 <= i < 4 :: p[i].endpoint.CustomerById? <==> p[i].bearer.StaticToken?)
      && (forall i | 0 <= i < 4 :: p[i].bearer.StaticToken? ==> p[i].bearer.token == env.serviceToken.value)
      && (forall i | 0 <= i < 4 :: p[i].bearer.SignedToken? ==>
            var t := p[i].bearer.jwt;
            t.sub == "lambda-orchestrator" && t.role == "service" && t.aud == "orders-api"
            && t.expiresInSeconds == 300 && t.secret == env.jwtSecret.value)
      && (forall i | 0 <= i < 4 :: p[i].idempotencyKey.Some? <==> p[i].endpoint.ConfirmById?)
      && (forall i | 0 <= i < 4 :: p[i].idempotencyKey.Some? ==> p[i].idempotencyKey.value == b.idempotencyKey)
  {
  }

  // ---------------------------------------------------------------------------------------
  // Responses
  // ---------------------------------------------------------------------------------------

  /** The returned envelope; `body` is the value handed to `JSON.stringify`, in which an
      `undefined` property is left out of the serialised text. */
  datatype Response = Response(statusCode: int, headers: map<string, string>, body: Value)

  /** Why the handler's promise rejects instead of returning a response. */
  datatype Step = CustomerCheck | OrderCreation | OrderConfirmation | CustomerRefresh
  datatype Failure =
    | Transport(step: Step)           // the call's fetch rejected
    | UnconvertibleCorrelationId      // `String(b.correlation_id)` threw in the validator
    | UnreadableOrderId               // `.id` of an undefined or null create body
    | UnconvertibleOrderId            // `${orderCreated.id}` threw

  datatype Outcome = Returned(response: Response) | Threw(failure: Failure)

  /** `jsonResponse`: JSON content type, overridable and extendable by the extra headers. */
  function JsonResponse(statusCode: int, body: Value, extraHeaders: Option<map<string, string>>): (r: Response)
    ensures r.statusCode == statusCode && r.body == body
    ensures extraHeaders.None? ==> r.headers == map["Content-Type" := "application/json"]
    ensures extraHeaders.Some? ==> r.headers.Keys == {"Content-Type"} + extraHeaders.value.Keys
    ensures extraHeaders.Some? ==> forall k | k in extraHeaders.value :: r.headers[k] == extraHeaders.value[k]
    ensures extraHeaders.Some? && "Content-Type" !in extraHeaders.value ==>
      r.headers["Content-Type"] == "application/json"
  {
    var extra := if extraHeaders.Some? then extraHeaders.value else map[];
    Response(statusCode, map["Content-Type" := "application/json"] + extra, body)
  }

  const ErrInvalidJson := "Invalid JSON body"
  const ErrMissingEnv := "Missing required env variables"
  const ErrInvalidCustomer := "Invalid customer (internal check failed)"
  const ErrCreateFailed := "Failed to create order"
  const ErrConfirmFailed := "Failed to confirm order"

  function ErrorBody(error: string): Value {
    Obj(map["error" := Str(error)])
  }

  /** `{CUSTOMERS_API_BASE: !CUSTOMERS_BASE, ...}`. */
  function MissingFlags(env: Env): Value {
    Obj(map[
      "CUSTOMERS_API_BASE" := Bool(!IsSet(env.customersBase)),
      "ORDERS_API_BASE" := Bool(!IsSet(env.ordersBase)),
      "SERVICE_TOKEN" := Bool(!IsSet(env.serviceToken)),
      "JWT_SECRET" := Bool(!IsSet(env.jwtSecret))])
  }

  function MissingEnvBody(env: Env, cid: string): Value {
    Obj(map["error" := Str(ErrMissingEnv), "missing" := MissingFlags(env), "correlation_id" := Str(cid)])
  }

  /** The configuration error names every setting and flags exactly the absent ones, and it is
      raised exactly when at least one setting is absent. */
  lemma MissingFlagsExact(env: Env)
    ensures MissingFlags(env).fields.Keys == SettingNames
    ensures forall k | k in SettingNames :: MissingFlags(env).fields[k] == Bool(k in AbsentSettings(env))
    ensures !Complete(env) <==> AbsentSettings(env) != {}
  {
  }

  /** An upstream failure relayed with its status and body verbatim. */
  function UpstreamErrorBody(error: string, cid: string, f: Fetch): Value
    requires f.Reply?
  {
    Obj(map["error" := Str(error), "correlation_id" := Str(cid),
            "upstream_status" := Number(Int(f.status)), "details" := f.json])
  }

  function CreatedBody(cid: string, customer: Value, order: Value): Value {
    Obj(map["success" := Bool(true), "correlationId" := Str(cid),
            "data" := Obj(map["customer" := customer, "order" := order])])
  }

  // ---------------------------------------------------------------------------------------
  // The handler
  // ---------------------------------------------------------------------------------------

  /** The payload the validator sees: a string body goes through `JSON.parse` (`None` when it
      throws), any other body is taken as it is. */
  function Payload(eventBody: Value, jsonParse: string -> Option<Value>): Option<Value> {
    if eventBody.Str? then jsonParse(eventBody.s) else Some(eventBody)
  }

  /** Parsing then validation: a parse failure is reported like a validation error. */
  function Admit(eventBody: Value, jsonParse: string -> Option<Value>): Validation {
    match Payload(eventBody, jsonParse)
    case None => Invalid(ErrInvalidJson)
    case Some(raw) => ValidateBody(raw)
  }

  /** `body.correlation_id || randomUUID()`: the caller's id when it is a non-empty string, the
      fresh id otherwise, so never empty. */
  function CorrelationId(b: Body, freshId: string): (r: string)
    ensures freshId != "" ==> r != ""
    ensures r == freshId || (b.correlationId == Some(r) && r != "")
    ensures b.correlationId.Some? && b.correlationId.value != "" ==> r == b.correlationId.value
  {
    if b.correlationId.Some? && b.correlationId.value != "" then b.correlationId.value else freshId
  }

  /** The correlation id is the caller's `correlation_id` when it is a non-empty string, the fresh
      id when it is absent or falsy, and never empty. */
  lemma CorrelationFromCaller(raw: Value, freshId: string)
    requires ValidateBody(raw).Valid? && freshId != ""
    ensures var cid := CorrelationId(ValidateBody(raw).data, freshId);
      && cid != ""
      && (Get(raw, "correlation_id").Str? && Get(raw, "correlation_id").s != "" ==> cid == Get(raw, "correlation_id").s)
      && (!Truthy(Get(raw, "correlation_id")) ==> cid == freshId)
  {
  }

  /** A truthy `correlation_id` can still coerce to the empty string (an empty array, `[null]` or
      `[[]]`, say): the validator keeps it as `""`, and the handler then falls back to the fresh id. */
  lemma EmptyArrayCorrelationFallsBack(raw: Value, freshId: string)
    requires ValidateBody(raw).Valid?
    requires Truthy(Get(raw, "correlation_id")) && ToJsString(Get(raw, "correlation_id")) == Some("")
    ensures ToJsString(Arr([])) == Some("") && ToJsString(Arr([Null])) == Some("")
    ensures ToJsString(Arr([Arr([])])) == Some("")
    ensures ValidateBody(raw).data.correlationId == Some("")
    ensures CorrelationId(ValidateBody(raw).data, freshId) == freshId
  {
  }

  /** The step whose call is the `i`-th of the plan. */
  function StepAt(i: nat): Step
    requires i < 4
  {
    [CustomerCheck, OrderCreation, OrderConfirmation, CustomerRefresh][i]
  }

  /** A rejected pre-check is the caller's fault (400); a rejected order call is a gateway
      failure (502). */
  function FailureStatus(step: Step): int {
    if step == CustomerCheck then 400 else 502
  }

  function FailureMessage(step: Step): string {
    match step
    case CustomerCheck => ErrInvalidCustomer
    case OrderCreation => ErrCreateFailed
    case _ => ErrConfirmFailed
  }

  /** The outcome of a run with a valid request and complete configuration, read off the last
      call it issues: a call that faults rejects the handler; a non-2xx reply to a fail-fast call
      is relayed under that step's status; a run that gets through the confirm call answers 201
      with the confirmed order, and with the customer only when the refresh succeeded. */
  function Respond(cid: string, net: Upstreams): (r: Outcome)
    // a response is always the plain JSON envelope
    ensures r.Returned? ==> r.response.headers == map["Content-Type" := "application/json"]
    // the handler rejects only for a call that faulted or a create reply whose id is unusable
    ensures r.Threw? <==>
      OutcomeOf(net, CallsIssued(net) - 1).Fault? || (CallsIssued(net) == 2 && Succeeded(net.create))
    ensures r.Threw? && r.failure.Transport? ==> OutcomeOf(net, CallsIssued(net) - 1).Fault?
  {
    var n := CallsIssued(net);
    var last := OutcomeOf(net, n - 1);
    if last.Fault? then Threw(Transport(StepAt(n - 1)))
    else if n == 4 then
      Returned(JsonResponse(201, CreatedBody(cid, if Succeeded(last) then last.json else Undefined, net.confirm.json), None))
    else if Succeeded(last) then Threw(if OrderIdReadable(last.json) then UnconvertibleOrderId else UnreadableOrderId)
    else Returned(JsonResponse(FailureStatus(StepAt(n - 1)), UpstreamErrorBody(FailureMessage(StepAt(n - 1)), cid, last), None))
  }

  /** The status codes a run with complete configuration answers with, and for each, which
      upstream outcome caused it; every error response relays the failing call's status and body. */
  lemma RespondStatus(cid: string, net: Upstreams)
    ensures var out := Respond(cid, net);
      && (out.Returned? ==> out.response.statusCode in {201, 400, 502})
      && (out.Returned? && out.response.statusCode == 201 <==> CallsIssued(net) == 4 && net.refresh.Reply?)
      && (out.Returned? && out.response.statusCode == 400 <==> net.precheck.Reply? && !Succeeded(net.precheck))
      && (out.Returned? && out.response.statusCode == 502 <==>
            Succeeded(net.precheck)
            && ((net.create.Reply? && !Succeeded(net.create))
                || (CallsIssued(net) >= 3 && net.confirm.Reply? && !Succeeded(net.confirm))))
      && (out.Returned? && out.response.statusCode != 201 ==>
            var failed := OutcomeOf(net, CallsIssued(net) - 1);
            failed.Reply? && !Succeeded(failed)
            && out.response.body.fields["upstream_status"] == Number(Int(failed.status))
            && out.response.body.fields["details"] == failed.json
            && out.response.body.fields["correlation_id"] == Str(cid))
  {
  }

  /** A failed customer pre-check stops the run before any order call and answers 400. */
  lemma FailedPrecheckStops(cid: string, net: Upstreams)
    requires !Succeeded(net.precheck)
    ensures CallsIssued(net) == 1
    ensures net.precheck.Reply? ==>
      Respond(cid, net) == Returned(JsonResponse(400, UpstreamErrorBody(ErrInvalidCustomer, cid, net.precheck), None))
  {
  }

  /** A failed create stops the run before the confirm call and answers 502. */
  lemma FailedCreateStops(cid: string, net: Upstreams)
    requires Succeeded(net.precheck) && !Succeeded(net.create)
    ensures CallsIssued(net) == 2
    ensures net.create.Reply? ==>
      Respond(cid, net) == Returned(JsonResponse(502, UpstreamErrorBody(ErrCreateFailed, cid, net.create), None))
  {
  }

  /** A failed confirm answers 502 without the order: the refresh is not attempted. */
  lemma FailedConfirmStops(cid: string, net: Upstreams)
    requires Succeeded(net.precheck) && Succeeded(net.create) && OrderIdUsable(net.create.json)
    requires !Succeeded(net.confirm)
    ensures CallsIssued(net) == 3
    ensures net.confirm.Reply? ==>
      Respond(cid, net) == Returned(JsonResponse(502, UpstreamErrorBody(ErrConfirmFailed, cid, net.confirm), None))
  {
  }

  /** A created order whose id cannot be converted into the confirm URL rejects the handler
      before the confirm call: any id that is an object with its own `toString` key, or an array
      holding one. */
  lemma UnconvertibleOrderIdStops(cid: string, net: Upstreams)
    requires Succeeded(net.precheck) && Succeeded(net.create)
    requires var id := Get(net.create.json, "id");
      || (id.Obj? && "toString" in id.fields)
      || (id.Arr? && exists i | 0 <= i < |id.elems| :: id.elems[i].Obj? && "toString" in id.elems[i].fields)
    ensures CallsIssued(net) == 2
    ensures Respond(cid, net) == Threw(UnconvertibleOrderId)
  {
    var id := Get(net.create.json, "id");
    if id.Arr? {
      var i :| 0 <= i < |id.elems| && id.elems[i].Obj? && "toString" in id.elems[i].fields;
      assert ElementThrows(id.elems[i]);
      JoinThrowsIffElementThrows(id.elems);
    }
  }

  /** Once the order is confirmed, any reply to the refresh gives 201 with the confirmed order;
      the reply only decides whether the customer is present. */
  lemma RefreshIsBestEffort(cid: string, net: Upstreams)
    requires CallsIssued(net) == 4 && net.refresh.Reply?
    ensures Respond(cid, net).Returned?
    ensures Respond(cid, net).response.statusCode == 201
    ensures Respond(cid, net).response.body.fields["success"] == Bool(true)
    ensures Respond(cid, net).response.body.fields["correlationId"] == Str(cid)
    ensures Respond(cid, net).response.body.fields["data"].fields["order"] == net.confirm.json
    ensures Respond(cid, net).response.body.fields["data"].fields["customer"]
            == if Succeeded(net.refresh) then net.refresh.json else Undefined
  {
  }

  /** Steps 3 to 7 of `handler`: the upstream calls of a valid request under complete configuration. */
  method CallUpstreams(env: Env, body: Body, cid: string, net: Upstreams) returns (out: Outcome, trace: seq<Call>)
    requires Complete(env)
    ensures out == Respond(cid, net)
    ensures trace == Plan(env, body, cid, net)[..CallsIssued(net)]
    ensures 1 <= |trace| <= 4
    ensures forall i | 0 <= i < |trace| :: trace[i].correlationId == cid
  {
    trace := [];
    ghost var plan := Plan(env, body, cid, net);

    // 3) customer pre-check with the static service token
    var lookup := CustomerLookup(env, body, cid);
    trace := trace + [lookup];
    assert trace == plan[..1];
    if net.precheck.Fault? {
      out := Threw(Transport(CustomerCheck));
      return;
    }
    if !Succeeded(net.precheck) {
      out := Returned(JsonResponse(400, UpstreamErrorBody(ErrInvalidCustomer, cid, net.precheck), None));
      return;
    }

    // 4) short-lived token for the order service; 5) create the order
    trace := trace + [CreateOrderCall(env, body, cid)];
    assert trace == plan[..2];
    if net.create.Fault? {
      out := Threw(Transport(OrderCreation));
      return;
    }
    if !Succeeded(net.create) {
      out := Returned(JsonResponse(502, UpstreamErrorBody(ErrCreateFailed, cid, net.create), None));
      return;
    }
    var created := net.create.json;
    if !OrderIdReadable(created) {
      out := Threw(UnreadableOrderId);
      return;
    }
    var orderId := OrderIdSegment(created);
    if orderId.None? {
      out := Threw(UnconvertibleOrderId);
      return;
    }

    // confirm it, forwarding the caller's idempotency key
    trace := trace + [ConfirmOrderCall(env, body, cid, orderId.value)];
    assert trace == plan[..3];
    if net.confirm.Fault? {
      out := Threw(Transport(OrderConfirmation));
      return;
    }
    if !Succeeded(net.confirm) {
      out := Returned(JsonResponse(502, UpstreamErrorBody(ErrConfirmFailed, cid, net.confirm), None));
      return;
    }
    var confirmed := net.confirm.json;

    // refresh the customer: a non-2xx reply leaves the customer out, it does not fail the order
    trace := trace + [lookup];
    assert trace == plan;
    if net.refresh.Fault? {
      out := Threw(Transport(CustomerRefresh));
      return;
    }
    var customer := if Succeeded(net.refresh) then net.refresh.json else Undefined;
    out := Returned(JsonResponse(201, CreatedBody(cid, customer, confirmed), None));
  }

  /** `handler`. Returns the outcome and the calls issued, in order. */
  method Handle(eventBody: Value, env: Env, jsonParse: string -> Option<Value>, freshId: string, net: Upstreams)
    returns (out: Outcome, trace: seq<Call>)
    requires freshId != ""
    // a body that does not parse, or does not validate, is a 400 with no call made
    ensures Payload(eventBody, jsonParse).None? ==>
      out == Returned(JsonResponse(400, ErrorBody(ErrInvalidJson), None)) && trace == []
    ensures Admit(eventBody, jsonParse).Invalid? ==>
      out == Returned(JsonResponse(400, ErrorBody(Admit(eventBody, jsonParse).error), None)) && trace == []
    // a correlation_id that `String()` cannot convert rejects the handler, with no call made
    ensures Admit(eventBody, jsonParse).CorrelationIdThrows? ==> out == Threw(UnconvertibleCorrelationId) && trace == []
    // missing configuration is a 500 with no call made
    ensures Admit(eventBody, jsonParse).Valid? && !Complete(env) ==>
      out == Returned(JsonResponse(500, MissingEnvBody(env, CorrelationId(Admit(eventBody, jsonParse).data, freshId)), None))
      && trace == []
    // otherwise the plan's calls are made in order up to the first that does not succeed,
    // and the outcome is read off the last of them
    ensures Admit(eventBody, jsonParse).Valid? && Complete(env) ==>
      var b := Admit(eventBody, jsonParse).data;
      var cid := CorrelationId(b, freshId);
      out == Respond(cid, net) && trace == Plan(env, b, cid, net)[..CallsIssued(net)]
    ensures trace != [] <==> Admit(eventBody, jsonParse).Valid? && Complete(env)
    // every call carries the same, non-empty, correlation id
    ensures Admit(eventBody, jsonParse).Valid? ==>
      forall i | 0 <= i < |trace| ::
        trace[i].correlationId == CorrelationId(Admit(eventBody, jsonParse).data, freshId) != ""
  {
    trace := [];

    // 0) parse the body, then validate it
    var raw: Value;
    if eventBody.Str? {
      var parsed := jsonParse(eventBody.s);
      if parsed.None? {
        out := Returned(JsonResponse(400, ErrorBody(ErrInvalidJson), None));
        return;
      }
      raw := parsed.value;
    } else {
      raw := eventBody;
    }
    var validated := ValidateBody(raw);
    if validated.Invalid? {
      out := Returned(JsonResponse(400, ErrorBody(validated.error), None));
      return;
    }
    if validated.CorrelationIdThrows? {
      out := Threw(UnconvertibleCorrelationId);
      return;
    }
    var body := validated.data;

    // 1) correlation id
    var cid := CorrelationId(body, freshId);

    // 2) required settings
    if !Complete(env) {
      out := Returned(JsonResponse(500, MissingEnvBody(env, cid), None));
      return;
    }
    out, trace := CallUpstreams(env, body, cid, net);
  }
}
