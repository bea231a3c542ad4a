/** The checkout endpoint (`POST /api/checkout`): picks the product for the
    requested reading type, describes the payment session to create, and maps
    the payment provider's outcome to a JSON response. */
module CheckoutRoute {
  import opened Wrappers

  datatype Product = Product(price: string, name: string)

  const PriceId := "price_1RCWmoQQsGCeoHVdTz7Lzsvq"
  const SingleProduct := Product(PriceId, "Single Card Tarot Reading")
  const Universal6Product := Product(PriceId, "Universal 6 Card Tarot Reading")
  const UnknownError := "An unknown error occurred"

  /** `READING_PRODUCTS[readingType] || READING_PRODUCTS.single`. */
  function ProductFor(readingType: string): (p: Product)
    ensures readingType == "universal6" ==> p == Universal6Product
    ensures readingType != "universal6" ==> p == SingleProduct
  {
    if readingType == "single" then SingleProduct
    else if readingType == "universal6" then Universal6Product
    else SingleProduct
  }

  /** Both products currently charge the same price. */
  lemma SamePrice(readingType: string)
    ensures ProductFor(readingType).price == PriceId
  {
  }

  /** The parsed request body; `readingType` is None when absent. */
  datatype CheckoutBody = CheckoutBody(readingType: Option<string>)

  datatype LineItem = LineItem(price: string, quantity: nat, adjustableQuantity: bool)

  /** The arguments of `stripe.checkout.sessions.create`. */
  datatype SessionParams = SessionParams(
    lineItems: seq<LineItem>,
    mode: string,
    successUrl: string,
    cancelUrl: string,
    metadataReadingType: string)

  /** What session creation produced: a session (whose `url` may be null), a
      payment-provider error (with its optional status code), or another error. */
  datatype StripeOutcome =
    | Created(url: Option<string>)
    | StripeError(message: string, statusCode: Option<nat>)
    | OtherError

  datatype Response = UrlResponse(url: Option<string>) | ErrorResponse(status: nat, error: string)

  /** The response, and the session requested (None when none was requested). */
  datatype Handled = Handled(response: Response, session: Option<SessionParams>)

  /** `${origin}`: a missing Origin header renders as "null". */
  function OriginText(origin: Option<string>): string
  {
    if origin.Some? then origin.value else "null"
  }

  /** The session requested for a reading type. */
  function SessionFor(origin: Option<string>, readingType: string): (p: SessionParams)
    ensures p.lineItems == [LineItem(ProductFor(readingType).price, 1, false)]
    ensures p.mode == "payment"
    ensures p.successUrl == OriginText(origin) + "/success?session_id={CHECKOUT_SESSION_ID}"
    ensures p.cancelUrl == OriginText(origin) + "/canceled"
    ensures p.metadataReadingType == readingType
  {
    var product := ProductFor(readingType);
    SessionParams(
      [LineItem(product.price, 1, false)],
      "payment",
      OriginText(origin) + "/success?session_id={CHECKOUT_SESSION_ID}",
      OriginText(origin) + "/canceled",
      readingType)
  }

  /** The response for an outcome of session creation. */
  function Reply(outcome: StripeOutcome): (r: Response)
    ensures outcome.Created? ==> r == UrlResponse(outcome.url)
    ensures outcome.StripeError? ==>
      r.ErrorResponse? && r.error == outcome.message &&
      r.status == (if outcome.statusCode.Some? && outcome.statusCode.value != 0
                   then outcome.statusCode.value else 500)
    ensures outcome.OtherError? ==> r == ErrorResponse(500, UnknownError)
    ensures r.ErrorResponse? ==> r.status != 0
  {
    match outcome
    case Created(url) => UrlResponse(url)
    case StripeError(message, code) =>
      ErrorResponse(if code.Some? && code.value != 0 then code.value else 500, message)
    case OtherError => ErrorResponse(500, UnknownError)
  }

  /** `POST`. `body` is None when the request body does not parse or is
      null; any other JSON value without a `readingType` field gives
      `CheckoutBody(None)`. */
  function Post(origin: Option<string>, body: Option<CheckoutBody>, outcome: StripeOutcome): (h: Handled)
    ensures body.None? ==> h == Handled(ErrorResponse(500, UnknownError), None)
    ensures body.Some? ==>
      var readingType := if body.value.readingType.Some? then body.value.readingType.value else "single";
      h.session == Some(SessionFor(origin, readingType)) && h.response == Reply(outcome)
  {
    if body.None? then
      Handled(ErrorResponse(500, UnknownError), None)
    else
      var readingType := if body.value.readingType.Some? then body.value.readingType.value else "single";
      Handled(Reply(outcome), Some(SessionFor(origin, readingType)))
  }

  /** An unknown reading type is charged as a single reading, yet the
      metadata still records the type exactly as sent. */
  lemma UnknownTypeFallsBack(origin: Option<string>, readingType: string, outcome: StripeOutcome)
    requires readingType != "single" && readingType != "universal6"
    ensures var s := Post(origin, Some(CheckoutBody(Some(readingType))), outcome).session.value;
      ProductFor(readingType) == SingleProduct &&
      s.lineItems[0].price == SingleProduct.price && s.metadataReadingType == readingType
  {
  }
}
