/**
 * The data carried to and from ECommPay (the `Models` folder) and the payment page model the
 * storefront renders. A reference-typed property that may be null is an `Option`.
 */
module Models {
  import opened Wrappers
  import opened Text
  import opened Dictionaries
  import opened Json

  // ---------------------------------------------------------------------------
  // Webhook callback

  /** `sum_initial`: an amount in minor units and its currency. */
  datatype TransactionSum = TransactionSum(amount: Int32, currency: Option<string>)

  /** `operation`. */
  datatype WebHookOperationPayload = WebHookOperationPayload(
    operationType: Option<string>,
    status: Option<string>,
    code: Option<string>,
    message: Option<string>,
    initialSum: Option<TransactionSum>)

  /** `payment`. */
  datatype WebHookPaymentPayload = WebHookPaymentPayload(id: Option<string>, status: Option<string>)

  datatype WebHookRequest = WebHookRequest(
    payment: Option<WebHookPaymentPayload>,
    operation: Option<WebHookOperationPayload>)

  // ---------------------------------------------------------------------------
  // Refund request

  /** `general`. */
  datatype RefundGeneralPayload = RefundGeneralPayload(
    projectId: Int32,
    paymentId: Option<string>,
    signature: Option<string>)

  /** `payment`; `amount` and `currency` are absent for a full refund. */
  datatype RefundPaymentPayload = RefundPaymentPayload(
    amount: Option<Int32>,
    currency: Option<string>,
    description: Option<string>)

  datatype CreateRefundRequest = CreateRefundRequest(
    general: Option<RefundGeneralPayload>,
    payment: Option<RefundPaymentPayload>)

  datatype CreateRefundResponse = CreateRefundResponse(status: Option<string>)

  datatype ApiError = ApiError(status: Option<string>, code: Option<string>, message: Option<string>)

  /** A property `name` with an optional value, as the serialiser writes it when nulls are ignored. */
  function Property(name: string, value: Option<Json>): seq<(string, Json)> {
    if value.Some? then [(name, value.value)] else []
  }

  function Integer(n: int): Json {
    JText(IntegerToken, IntToString(n))
  }

  function OptionalString(s: Option<string>): Option<Json> {
    if s.Some? then Some(Str(s.value)) else None
  }

  function GeneralJson(g: RefundGeneralPayload): Json {
    JObject([("project_id", Integer(g.projectId as int))]
            + Property("payment_id", OptionalString(g.paymentId))
            + Property("signature", OptionalString(g.signature)))
  }

  function PaymentJson(p: RefundPaymentPayload): Json {
    JObject(Property("amount", if p.amount.Some? then Some(Integer(p.amount.value as int)) else None)
            + Property("currency", OptionalString(p.currency))
            + Property("description", OptionalString(p.description)))
  }

  /**
   * The JSON tree `JsonConvert.SerializeObject` writes for a refund request with
   * `NullValueHandling.Ignore`: properties in declaration order, null ones left out.
   */
  function RefundRequestJson(r: CreateRefundRequest): (j: Json)
    ensures j.JObject?
    ensures r.general.Some? ==> |j.members| > 0 && j.members[0] == ("general", GeneralJson(r.general.value))
    ensures r.general.None? && r.payment.None? ==> j.members == []
  {
    JObject(Property("general", if r.general.Some? then Some(GeneralJson(r.general.value)) else None)
            + Property("payment", if r.payment.Some? then Some(PaymentJson(r.payment.value)) else None))
  }

  // ---------------------------------------------------------------------------
  // Payment page model

  /** `CreatePaymentPageModel`: the errors met while building it, the base URL and the query. */
  class CreatePaymentPageModel {
    /** `Errors`; `None` stands for a null list. */
    var errors: Option<seq<string>>
    var baseUrl: Option<string>
    /** `Query`, a dictionary in insertion order. */
    var query: seq<Entry>

    /** Each query parameter name carries one value. */
    ghost predicate Valid()
      reads this
    {
      NoDupKeys(query)
    }

    /** `Success`: no error list, or an empty one. */
    predicate Success()
      reads this
    {
      errors.None? || |errors.value| == 0
    }

    constructor ()
      ensures errors == Some([]) && baseUrl.None? && query == []
      ensures Valid() && Success()
    {
      errors := Some([]);
      baseUrl := None;
      query := [];
    }

    /** `Errors.Add(error)`: afterwards the model no longer succeeds. */
    method AddError(error: string)
      requires errors.Some?
      modifies this
      ensures errors == Some(old(errors.value) + [error])
      ensures baseUrl == old(baseUrl) && query == old(query)
      ensures !Success()
    {
      errors := Some(errors.value + [error]);
    }

    /** `Query.Add(new(name, value))`; `Dictionary.Add` throws on a name already present. */
    method AddQueryParameter(name: string, value: string)
      requires Valid() && name !in Keys(query)
      modifies this
      ensures Valid()
      ensures query == old(query) + [(name, value)]
      ensures Keys(query) == Keys(old(query)) + {name}
      ensures errors == old(errors) && baseUrl == old(baseUrl)
    {
      PutAbsent(query, name, value);
      PutNoDup(query, name, value);
      PutKeys(query, name, value);
      query := query + [(name, value)];
    }
  }
}
