/**
 * The request validator of the create-and-confirm orchestrator (`isPositiveInt` and
 * `validateBody`): a check over an untyped payload that applies five rules in a fixed order,
 * stops at the first one violated and reports that rule's message, or else returns the
 * normalised order request; building that request throws when a truthy `correlation_id`
 * cannot be converted by `String()`.
 */
module Validator {
  import opened Wrappers
  import opened JsValue

  /** A validated line item. */
  datatype Item = Item(productId: int, qty: int)

  /** A validated order request. */
  datatype Body = Body(customerId: int, items: seq<Item>, idempotencyKey: string, correlationId: Option<string>)

  /** The validator's answer: the normalised request, the message of the first rule violated,
      or the TypeError thrown by `String(b.correlation_id)`. */
  datatype Validation = Valid(data: Body) | Invalid(error: string) | CorrelationIdThrows

  const ErrNotObject := "Body must be a JSON object"
  const ErrCustomerId := "customer_id must be a positive integer"
  const ErrItems := "items must be a non-empty array"
  const ErrItem := "each item must have positive integer product_id and qty"
  const ErrIdempotencyKey := "idempotency_key is required"

  /** `Number.isInteger(v) && v > 0`: only a number value qualifies, never a numeric string,
      and a qualifying value is truthy and renders as digits without a sign. */
  predicate IsPositiveInt(v: Value)
    ensures IsPositiveInt(v) ==> Truthy(v) && !TypeofObject(v)
    ensures IsPositiveInt(v) ==>
      ToJsString(v).Some? && AllDigits(ToJsString(v).value) && DecimalValue(ToJsString(v).value) >= 1
    ensures v.Str? || v.Bool? || v.Null? || v.Undefined? ==> !IsPositiveInt(v)
  {
    v.Number? && v.n.Int? && v.n.v > 0
  }

  /** The loop body's test: `it?.product_id` and `it?.qty` are both positive integers. */
  predicate ItemValid(it: Value) {
    IsPositiveInt(Get(it, "product_id")) && IsPositiveInt(Get(it, "qty"))
  }

  /** The `for (const it of b.items)` loop, which returns early on the first bad item. */
  predicate AllItemsValid(items: seq<Value>) {
    items == [] || (ItemValid(items[0]) && AllItemsValid(items[1..]))
  }

  lemma {:induction false} AllItemsValidIff(items: seq<Value>)
    ensures AllItemsValid(items) <==> forall i | 0 <= i < |items| :: ItemValid(items[i])
  {
    if items != [] {
      AllItemsValidIff(items[1..]);
      assert forall i | 1 <= i < |items| :: items[i] == items[1..][i - 1];
    }
  }

  /** `b.items.map(i => ({ product_id: Number(i.product_id), qty: Number(i.qty) }))`:
      one item per element, in order, each carrying the element's two integers. */
  function NormaliseItems(items: seq<Value>): (r: seq<Item>)
    requires AllItemsValid(items)
    ensures |r| == |items|
    ensures forall i | 0 <= i < |items| ::
      Get(items[i], "product_id") == Number(Int(r[i].productId)) && Get(items[i], "qty") == Number(Int(r[i].qty))
  {
    if items == [] then []
    else
      [Item(Get(items[0], "product_id").n.v, Get(items[0], "qty").n.v)] + NormaliseItems(items[1..])
  }

  /** The invariant of a validated request: positive ids and quantities, at least one item,
      and an idempotency key that is not blank. */
  predicate WellFormed(body: Body) {
    && body.customerId > 0
    && |body.items| > 0
    && (forall i | 0 <= i < |body.items| :: body.items[i].productId > 0 && body.items[i].qty > 0)
    && Trim(body.idempotencyKey) != ""
  }

  /** `validateBody`. */
  function ValidateBody(b: Value): (r: Validation)
    // a missing or non-object payload is rejected before any other rule is looked at
    ensures !(Truthy(b) && TypeofObject(b)) ==> r == Invalid(ErrNotObject)
    ensures r.Valid? ==> WellFormed(r.data)
    // customer_id and the items are kept: same integers, same length, same order
    ensures r.Valid? ==> Get(b, "customer_id") == Number(Int(r.data.customerId))
    ensures r.Valid? ==>
      && Get(b, "items").Arr?
      && |r.data.items| == |Get(b, "items").elems|
      && forall i | 0 <= i < |r.data.items| ::
           && Get(Get(b, "items").elems[i], "product_id") == Number(Int(r.data.items[i].productId))
           && Get(Get(b, "items").elems[i], "qty") == Number(Int(r.data.items[i].qty))
    // the idempotency key is kept verbatim (not trimmed)
    ensures r.Valid? ==> Get(b, "idempotency_key") == Str(r.data.idempotencyKey)
    // correlation_id is kept when truthy, as its string form, and is absent otherwise
    ensures r.Valid? ==> (r.data.correlationId.Some? <==> Truthy(Get(b, "correlation_id")))
    ensures r.Valid? && r.data.correlationId.Some? ==> ToJsString(Get(b, "correlation_id")) == r.data.correlationId
    ensures r.Valid? && Get(b, "correlation_id").Str? && Truthy(Get(b, "correlation_id")) ==>
      r.data.correlationId == Some(Get(b, "correlation_id").s)
    // the conversion throws only for a truthy correlation_id that String() cannot convert
    ensures r.CorrelationIdThrows? ==>
      Truthy(Get(b, "correlation_id")) && ToJsString(Get(b, "correlation_id")).None?
  {
    if !(Truthy(b) && TypeofObject(b)) then Invalid(ErrNotObject)
    else if !IsPositiveInt(Get(b, "customer_id")) then Invalid(ErrCustomerId)
    else if !(Get(b, "items").Arr? && |Get(b, "items").elems| > 0) then Invalid(ErrItems)
    else if !AllItemsValid(Get(b, "items").elems) then Invalid(ErrItem)
    else if !(Get(b, "idempotency_key").Str? && Trim(Get(b, "idempotency_key").s) != "") then
      Invalid(ErrIdempotencyKey)
    else
      var items := Get(b, "items").elems;
      var correlation := Get(b, "correlation_id");
      AllItemsValidIff(items);
      if Truthy(correlation) && ToJsString(correlation).None? then CorrelationIdThrows
      else
        Valid(Body(
          Get(b, "customer_id").n.v,
          NormaliseItems(items),
          Get(b, "idempotency_key").s,
          if Truthy(correlation) then ToJsString(correlation) else None))
  }

  // ---------------------------------------------------------------------------------------
  // An independent statement of the rules, each on its own, in the order they are applied.
  // ---------------------------------------------------------------------------------------

  const RuleCount: nat := 5

  /** Rule `k` of the request schema, stated declaratively:
      0 the payload is an object (an array counts), 1 customer_id is a positive integer,
      2 items is a non-empty array, 3 every item has positive integer product_id and qty,
      4 idempotency_key is a string with at least one character that is not white space. */
  predicate Rule(k: nat, b: Value)
    requires k < RuleCount
  {
    if k == 0 then b.Arr? || b.Obj?
    else if k == 1 then IsPositiveInt(Get(b, "customer_id"))
    else if k == 2 then Get(b, "items").Arr? && Get(b, "items").elems != []
    else if k == 3 then
      Get(b, "items").Arr? && forall i | 0 <= i < |Get(b, "items").elems| :: ItemValid(Get(b, "items").elems[i])
    else
      Get(b, "idempotency_key").Str?
      && exists i | 0 <= i < |Get(b, "idempotency_key").s| :: !IsJsWhitespace(Get(b, "idempotency_key").s[i])
  }

  /** The message reported when rule `k` is the first one violated. */
  function RuleError(k: nat): string
    requires k < RuleCount
  {
    [ErrNotObject, ErrCustomerId, ErrItems, ErrItem, ErrIdempotencyKey][k]
  }

  /** Each rule of the validator agrees with its declarative statement. */
  lemma RulesAgree(b: Value)
    ensures (Truthy(b) && TypeofObject(b)) <==> Rule(0, b)
    ensures Get(b, "items").Arr? ==> (AllItemsValid(Get(b, "items").elems) <==> Rule(3, b))
    ensures Get(b, "idempotency_key").Str? ==>
      ((Trim(Get(b, "idempotency_key").s) != "") <==> Rule(4, b))
  {
    if Get(b, "items").Arr? {
      AllItemsValidIff(Get(b, "items").elems);
    }
    if Get(b, "idempotency_key").Str? {
      TrimEmptyIffAllWhitespace(Get(b, "idempotency_key").s);
    }
  }

  /** The payload satisfies every rule. */
  predicate AllRules(b: Value) {
    forall k | 0 <= k < RuleCount :: Rule(k, b)
  }

  /** Whether building the validated request converts `correlation_id` without throwing. */
  predicate CorrelationConverts(b: Value) {
    !Truthy(Get(b, "correlation_id")) || ToJsString(Get(b, "correlation_id")).Some?
  }

  /** The validator reports an error exactly for the payloads that violate a rule; of the others it
      accepts exactly those whose correlation_id converts, and throws for the rest. */
  lemma ValidateBodyAcceptsIff(b: Value)
    ensures ValidateBody(b).Invalid? <==> !AllRules(b)
    ensures ValidateBody(b).Valid? <==> AllRules(b) && CorrelationConverts(b)
    ensures ValidateBody(b).CorrelationIdThrows? <==> AllRules(b) && !CorrelationConverts(b)
  {
    if AllRules(b) {
      PassesEveryCheck(b);
    } else {
      var k: nat := if !Rule(0, b) then 0 else if !Rule(1, b) then 1 else if !Rule(2, b) then 2
                    else if !Rule(3, b) then 3 else 4;
      ValidateBodyReportsFirstViolation(b, k);
    }
  }

  /** A payload meeting every rule passes each of the validator's tests in turn. */
  lemma PassesEveryCheck(b: Value)
    requires AllRules(b)
    ensures Truthy(b) && TypeofObject(b) && IsPositiveInt(Get(b, "customer_id"))
    ensures Get(b, "items").Arr? && |Get(b, "items").elems| > 0 && AllItemsValid(Get(b, "items").elems)
    ensures Get(b, "idempotency_key").Str? && Trim(Get(b, "idempotency_key").s) != ""
  {
    assert Rule(0, b) && Rule(1, b) && Rule(2, b) && Rule(3, b) && Rule(4, b);
    RulesAgree(b);
  }

  /** The error reported is that of the first rule violated, whatever the later rules say. */
  lemma ValidateBodyReportsFirstViolation(b: Value, k: nat)
    requires k < RuleCount && !Rule(k, b)
    requires forall j | 0 <= j < k :: Rule(j, b)
    ensures ValidateBody(b) == Invalid(RuleError(k))
  {
    RulesAgree(b);
    if k == 1 {
      assert Rule(0, b);
    } else if k == 2 {
      assert Rule(0, b) && Rule(1, b);
    } else if k == 3 {
      assert Rule(0, b) && Rule(1, b) && Rule(2, b);
    } else if k == 4 {
      assert Rule(0, b) && Rule(1, b) && Rule(2, b) && Rule(3, b);
    }
  }

  /** One bad item anywhere in a non-empty items array fails validation with the item message,
      whatever the other items are, once the payload is an object with a valid customer_id. */
  lemma OneBadItemRejects(b: Value, i: nat)
    requires b.Obj? && IsPositiveInt(Get(b, "customer_id")) && Get(b, "items").Arr?
    requires i < |Get(b, "items").elems| && !ItemValid(Get(b, "items").elems[i])
    ensures ValidateBody(b) == Invalid(ErrItem)
  {
    assert !Rule(3, b);
    ValidateBodyReportsFirstViolation(b, 3);
  }

  /** The rules look only at the payload's kind and at customer_id, items and idempotency_key. */
  lemma RulesIgnoreCorrelation(b: Value, v: Value)
    requires b.Obj?
    ensures AllRules(Obj(b.fields["correlation_id" := v])) <==> AllRules(b)
  {
    var b' := Obj(b.fields["correlation_id" := v]);
    assert Get(b', "customer_id") == Get(b, "customer_id");
    assert Get(b', "items") == Get(b, "items");
    assert Get(b', "idempotency_key") == Get(b, "idempotency_key");
    assert forall k | 0 <= k < RuleCount :: Rule(k, b') == Rule(k, b);
  }

  /** A valid request whose correlation_id is an object with its own `toString` key makes the
      validator throw, while the same request with a string correlation_id `s` is accepted,
      keeping `s` when it is not empty and dropping the falsy `""`. */
  lemma OwnToStringCorrelationThrows(b: Value, v: Value, s: string)
    requires b.Obj? && AllRules(b)
    requires v.Obj? && "toString" in v.fields
    ensures ValidateBody(Obj(b.fields["correlation_id" := v])) == CorrelationIdThrows
    ensures ValidateBody(Obj(b.fields["correlation_id" := Str(s)])).Valid?
    ensures ValidateBody(Obj(b.fields["correlation_id" := Str(s)])).data.correlationId
            == if s != "" then Some(s) else None
  {
    RulesIgnoreCorrelation(b, v);
    RulesIgnoreCorrelation(b, Str(s));
    ValidateBodyAcceptsIff(Obj(b.fields["correlation_id" := v]));
    ValidateBodyAcceptsIff(Obj(b.fields["correlation_id" := Str(s)]));
  }
}
