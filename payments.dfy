/** `createPaymentIntent` (functions/index.js): the required-field check,
    the creation request sent to the payments backend, and the response.
    The backend is a parameter: a function from the creation request to
    the created intent or the backend's error message. */
module Payments {
  import opened Wrappers
  import opened Requests

  /** The request body; a field missing from the JSON is `None`. */
  datatype PaymentRequest = PaymentRequest(
    amount: Option<int>,
    currency: Option<string>,
    badgeId: Option<string>,
    buyerId: Option<string>,
    sellerId: Option<string>)

  datatype Metadata = Metadata(badge_id: string, buyer_id: string, seller_id: string)

  /** What `paymentIntents.create` is called with. */
  datatype CreateParams = CreateParams(amount: int, currency: string, metadata: Metadata)

  /** The created intent, of which only the client secret is passed on. */
  datatype PaymentIntent = PaymentIntent(id: string, amount: int, currency: string, client_secret: string)

  datatype PaymentBody = ClientSecret(clientSecret: string) | ErrorBody(error: string)

  /** The HTTP response and the creation calls made while producing it. */
  datatype PaymentOutcome = PaymentOutcome(status: int, body: PaymentBody, created: seq<CreateParams>)

  const MISSING_FIELDS := "Missing required fields"

  /** JavaScript truthiness of a present-or-absent number or string. */
  predicate TruthyNumber(x: Option<int>) {
    x.Some? && x.value != 0
  }

  predicate Complete(req: PaymentRequest) {
    && TruthyNumber(req.amount)
    && TruthyString(req.currency)
    && TruthyString(req.badgeId)
    && TruthyString(req.buyerId)
    && TruthyString(req.sellerId)
  }

  function CreatePaymentIntent(req: PaymentRequest, backend: CreateParams -> Result<PaymentIntent, string>)
    : (out: PaymentOutcome)
    ensures !Complete(req) <==> out.status == 400
    ensures !Complete(req) ==> out.created == [] && out.body == ErrorBody(MISSING_FIELDS)
    ensures Complete(req) ==>
      && |out.created| == 1
      && out.created[0].amount == req.amount.value
      && out.created[0].currency == req.currency.value
      && out.created[0].metadata
           == Metadata(req.badgeId.value, req.buyerId.value, req.sellerId.value)
    ensures Complete(req) ==>
      match backend(out.created[0])
      case Success(intent) => out.status == 200 && out.body == ClientSecret(intent.client_secret)
      case Failure(message) => out.status == 500 && out.body == ErrorBody(message)
    ensures out.status in {200, 400, 500}
  {
    if !Complete(req) then
      PaymentOutcome(400, ErrorBody(MISSING_FIELDS), [])
    else
      var params := CreateParams(
        req.amount.value, req.currency.value,
        Metadata(req.badgeId.value, req.buyerId.value, req.sellerId.value));
      match backend(params)
      case Success(intent) => PaymentOutcome(200, ClientSecret(intent.client_secret), [params])
      case Failure(message) => PaymentOutcome(500, ErrorBody(message), [params])
  }
}
