/** The payment callback route of app/api/payment/verify/route.ts: a presence
    check on the five body fields, delegation to `verifyPayment`, and the
    mapping of its result (or of any exception) to an HTTP response.
    `verifyPayment` itself is an oracle: the model receives it as a function
    from its five arguments to what its promise settles with. */
module PaymentVerifyRoute {
  import opened JsValues

  /** The five arguments of `verifyPayment`, in the order the route passes them. */
  datatype VerifyCall = VerifyCall(orderId: Json, paymentId: Json, signature: Json, userId: Json, courseId: Json)

  /** How the `verifyPayment` promise settles: resolved with a result whose
      `error` property is given, or rejected. */
  datatype VerifyOutcome = Resolved(error: Option<string>) | Threw

  datatype Payload = ErrorBody(error: string) | SuccessBody

  datatype Response = Response(status: int, payload: Payload)

  /** The response, and the calls made to `verifyPayment` (none or one). */
  datatype Handled = Handled(response: Response, calls: seq<VerifyCall>)

  const MissingFields := Response(400, ErrorBody("Missing required fields."))
  const InternalError := Response(500, ErrorBody("Internal server error"))
  const Verified := Response(200, SuccessBody)

  /** The arguments taken from the destructured body. */
  function CallFrom(body: Json): VerifyCall {
    VerifyCall(
      Get(body, "razorpay_order_id"),
      Get(body, "razorpay_payment_id"),
      Get(body, "razorpay_signature"),
      Get(body, "userId"),
      Get(body, "courseId"))
  }

  /** All five fields are truthy. */
  predicate AllPresent(c: VerifyCall) {
    Truthy(c.orderId) && Truthy(c.paymentId) && Truthy(c.signature) && Truthy(c.userId) && Truthy(c.courseId)
  }

  /** A result's `error` is truthy: present and not the empty string. */
  predicate HasError(o: VerifyOutcome)
    requires o.Resolved?
  {
    TruthyText(o.error)
  }

  /** `POST(req)`. `body` is what `req.json()` yields, `None` when it throws. */
  function Post(body: Option<Json>, verify: VerifyCall -> VerifyOutcome): (h: Handled)
    // a body that cannot be read or destructured is an internal error
    ensures body.None? || !Readable(body.value) ==> h == Handled(InternalError, [])
    // a falsy field (absent, null, "", 0, false) stops the request before verification
    ensures body.Some? && Readable(body.value) && !AllPresent(CallFrom(body.value)) ==>
      h == Handled(MissingFields, [])
    // otherwise verifyPayment is called exactly once, with the fields in order
    ensures body.Some? && Readable(body.value) && AllPresent(CallFrom(body.value)) ==>
      h.calls == [CallFrom(body.value)]
    ensures |h.calls| == 1 ==> verify(h.calls[0]).Threw? ==> h.response == InternalError
    ensures |h.calls| == 1 ==> verify(h.calls[0]).Resolved? && HasError(verify(h.calls[0])) ==>
      h.response == Response(400, ErrorBody(verify(h.calls[0]).error.value))
    ensures |h.calls| == 1 ==> verify(h.calls[0]).Resolved? && !HasError(verify(h.calls[0])) ==>
      h.response == Verified
  {
    if body.None? || !Readable(body.value) then Handled(InternalError, [])
    else
      var call := CallFrom(body.value);
      if !AllPresent(call) then Handled(MissingFields, [])
      else
        match verify(call)
        case Threw => Handled(InternalError, [call])
        case Resolved(error) =>
          if TruthyText(error) then Handled(Response(400, ErrorBody(error.value)), [call])
          else Handled(Verified, [call])
  }

  /** The response is always one of four kinds, with status 200, 400 or 500. */
  lemma StatusCodes(body: Option<Json>, verify: VerifyCall -> VerifyOutcome)
    ensures var r := Post(body, verify).response;
      (r.status == 200 && r.payload == SuccessBody)
      || (r.status == 400 && r.payload.ErrorBody?)
      || r == InternalError
  {
  }

  /** A 200 response means `verifyPayment` was called with all five fields
      present and resolved without an error. */
  lemma {:induction false} SuccessOnlyAfterVerification(body: Option<Json>, verify: VerifyCall -> VerifyOutcome)
    ensures Post(body, verify).response.status == 200 ==>
      body.Some? && Readable(body.value) && AllPresent(CallFrom(body.value))
      && Post(body, verify).calls == [CallFrom(body.value)]
      && verify(CallFrom(body.value)).Resolved? && !HasError(verify(CallFrom(body.value)))
  {
  }

  /** With a field missing, the answer does not depend on `verifyPayment` at all. */
  lemma {:induction false} MissingFieldIgnoresVerifier(body: Json, v1: VerifyCall -> VerifyOutcome, v2: VerifyCall -> VerifyOutcome)
    requires Readable(body) && !AllPresent(CallFrom(body))
    ensures Post(Some(body), v1) == Post(Some(body), v2) == Handled(MissingFields, [])
  {
  }

  /** An empty-string field counts as missing, as do absent and null ones. */
  lemma EmptyStringIsMissing(fields: map<string, Json>, key: string)
    requires key in {"razorpay_order_id", "razorpay_payment_id", "razorpay_signature", "userId", "courseId"}
    ensures !AllPresent(CallFrom(Obj(fields[key := Str("")])))
    ensures !AllPresent(CallFrom(Obj(fields[key := Null])))
    ensures !AllPresent(CallFrom(Obj(fields - {key})))
  {
  }
}
