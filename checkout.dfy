/**
  The create-checkout server function. Given the cart lines posted by the
  client, it authenticates the caller, opens a Stripe checkout session for
  the lines, records a pending order and its line rows, and answers with the
  session's URL. Any failing step ends the request with status 500 and the
  step's message, and no later step runs.

  Stripe, the auth service and the database are not modelled: their answers
  are inputs, and the calls the function makes are returned as a trace.
 */
module Checkout {
  import opened Seqs
  import opened Types
  import Cart
  import Orders

  // ---------------------------------------------------------------------------
  // The order total

  /** `items.reduce((sum, item) => sum + price * quantity, acc)`. */
  function SumFrom(acc: int, items: seq<Cart.CartItem>): int
    decreases |items|
  {
    if items == [] then acc else SumFrom(acc + Cart.LineTotal(items[0]), items[1..])
  }

  lemma {:induction false} SumFromIsTotal(acc: int, items: seq<Cart.CartItem>)
    ensures SumFrom(acc, items) == acc + Cart.Total(items)
    decreases |items|
  {
    if items != [] {
      SumFromIsTotal(acc + Cart.LineTotal(items[0]), items[1..]);
    }
  }

  /** `totalAmount`, in cents: computed exactly as the cart's own total. */
  function TotalAmount(items: seq<Cart.CartItem>): (r: int)
    ensures r == Cart.Total(items)
  {
    SumFromIsTotal(0, items);
    SumFrom(0, items)
  }

  // ---------------------------------------------------------------------------
  // Stripe line items

  /** One entry of `line_items`: `price_data` (currency, product data, unit amount) and the quantity. */
  datatype LineItem = LineItem(
    currency: string,
    name: string,
    description: string,
    images: seq<string>,
    unitAmount: int,
    quantity: int)

  /** The line item for one cart line; with prices in cents, `Math.round(price * 100)` is the price itself. */
  function LineItemFor(item: Cart.CartItem): LineItem
  {
    LineItem("usd", item.product.title, item.product.description, [item.product.imageSrc],
             item.product.priceCents, item.quantity)
  }

  /** `lineItems`: one entry per cart line, in cart order. */
  function LineItems(items: seq<Cart.CartItem>): (r: seq<LineItem>)
    ensures |r| == |items|
    ensures forall i :: 0 <= i < |items| ==> r[i] == LineItemFor(items[i])
    decreases |items|
  {
    if items == [] then [] else [LineItemFor(items[0])] + LineItems(items[1..])
  }

  /** What Stripe charges for a list of line items. */
  function Charged(lines: seq<LineItem>): int
    decreases |lines|
  {
    if lines == [] then 0 else lines[0].unitAmount * lines[0].quantity + Charged(lines[1..])
  }

  /** The session charges exactly the order total. */
  lemma {:induction false} ChargedIsTotal(items: seq<Cart.CartItem>)
    ensures Charged(LineItems(items)) == TotalAmount(items)
    decreases |items|
  {
    if items != [] {
      ChargedIsTotal(items[1..]);
      SumFromIsTotal(0, items);
      SumFromIsTotal(0, items[1..]);
      assert LineItems(items)[1..] == LineItems(items[1..]);
    }
  }

  // ---------------------------------------------------------------------------
  // order_items rows

  /** A row of `order_items` as inserted: the order's id and the line's product id, quantity and price. */
  datatype OrderItemRow = OrderItemRow(orderId: string, item: Orders.OrderItem)

  function RowFor(orderId: string, item: Cart.CartItem): OrderItemRow
  {
    OrderItemRow(orderId, Orders.OrderItem(item.product.id, item.quantity, item.product.priceCents))
  }

  /** `orderItems`: one row per cart line, in cart order, all under the same order. */
  function OrderItemRows(orderId: string, items: seq<Cart.CartItem>): (r: seq<OrderItemRow>)
    ensures |r| == |items|
    ensures forall i :: 0 <= i < |items| ==> r[i] == RowFor(orderId, items[i])
    decreases |items|
  {
    if items == [] then [] else [RowFor(orderId, items[0])] + OrderItemRows(orderId, items[1..])
  }

  /** The sum of price times quantity over the rows. */
  function RowsTotal(rows: seq<OrderItemRow>): int
    decreases |rows|
  {
    if rows == [] then 0 else rows[0].item.price * rows[0].item.quantity + RowsTotal(rows[1..])
  }

  /** The recorded rows add up to the recorded order total. */
  lemma {:induction false} RowsTotalIsTotal(orderId: string, items: seq<Cart.CartItem>)
    ensures RowsTotal(OrderItemRows(orderId, items)) == TotalAmount(items)
    decreases |items|
  {
    if items != [] {
      RowsTotalIsTotal(orderId, items[1..]);
      SumFromIsTotal(0, items);
      SumFromIsTotal(0, items[1..]);
      assert OrderItemRows(orderId, items)[1..] == OrderItemRows(orderId, items[1..]);
    }
  }

  // ---------------------------------------------------------------------------
  // The bearer token

  const BearerPrefix: string := "Bearer "

  /** The prefix occurs in `header` at index `k`. */
  predicate BearerAt(header: string, k: nat)
  {
    k + |BearerPrefix| <= |header| && header[k..k + |BearerPrefix|] == BearerPrefix
  }

  /** `k` is the first index at which the prefix occurs. */
  predicate FirstBearerAt(header: string, k: nat)
  {
    BearerAt(header, k) && forall j: nat :: j < k ==> !BearerAt(header, j)
  }

  /**
    `authHeader.replace("Bearer ", "")`: a header without the prefix is passed
    on unchanged; otherwise its first occurrence is cut out, wherever it is.
   */
  function StripBearer(header: string): (r: string)
    ensures (forall k: nat :: !BearerAt(header, k)) ==> r == header
    ensures forall k: nat :: FirstBearerAt(header, k) ==>
      r == header[..k] + header[k + |BearerPrefix|..]
    decreases |header|
  {
    if |header| < |BearerPrefix| then header
    else if header[..|BearerPrefix|] == BearerPrefix then
      assert BearerAt(header, 0);
      header[|BearerPrefix|..]
    else
      var rest := StripBearer(header[1..]);
      StripBearerStep(header, rest);
      [header[0]] + rest
  }

  /** Keeping a head that does not start the prefix carries both cases of the contract from the tail to the header. */
  lemma StripBearerStep(header: string, rest: string)
    requires |header| >= |BearerPrefix| && header[..|BearerPrefix|] != BearerPrefix
    requires (forall k: nat :: !BearerAt(header[1..], k)) ==> rest == header[1..]
    requires forall k: nat :: FirstBearerAt(header[1..], k) ==>
      rest == header[1..][..k] + header[1..][k + |BearerPrefix|..]
    ensures (forall k: nat :: !BearerAt(header, k)) ==> [header[0]] + rest == header
    ensures forall k: nat :: FirstBearerAt(header, k) ==>
      [header[0]] + rest == header[..k] + header[k + |BearerPrefix|..]
  {
    ShiftedBearer(header);
    assert !BearerAt(header, 0);
    if forall k: nat :: !BearerAt(header, k) {
      forall k: nat
        ensures !BearerAt(header[1..], k)
      {
        assert !BearerAt(header, k + 1);
      }
      assert header == [header[0]] + header[1..];
    }
    forall k: nat | FirstBearerAt(header, k)
      ensures [header[0]] + rest == header[..k] + header[k + |BearerPrefix|..]
    {
      assert k >= 1;
      forall j: nat | j < k - 1
        ensures !BearerAt(header[1..], j)
      {
        assert !BearerAt(header, j + 1);
      }
      assert FirstBearerAt(header[1..], k - 1);
      assert header[..k] == [header[0]] + header[1..][..k - 1];
      assert header[k + |BearerPrefix|..] == header[1..][k - 1 + |BearerPrefix|..];
    }
  }

  /** An occurrence in the tail is an occurrence in the header one index later. */
  lemma ShiftedBearer(header: string)
    requires |header| >= 1
    ensures forall k: nat :: BearerAt(header[1..], k) <==> BearerAt(header, k + 1)
  {
    forall k: nat
      ensures BearerAt(header[1..], k) <==> BearerAt(header, k + 1)
    {
      if k + 1 + |BearerPrefix| <= |header| {
        assert header[1..][k..k + |BearerPrefix|] == header[k + 1..k + 1 + |BearerPrefix|];
      }
    }
  }

  /** The usual header `Bearer <token>` yields the token. */
  lemma StripBearerToken(token: string)
    ensures StripBearer(BearerPrefix + token) == token
  {
    assert (BearerPrefix + token)[..|BearerPrefix|] == BearerPrefix;
    assert (BearerPrefix + token)[|BearerPrefix|..] == token;
  }

  /** A header with no space in it is passed on unchanged. */
  lemma {:induction false} StripBearerNoSpace(header: string)
    requires forall i :: 0 <= i < |header| ==> header[i] != ' '
    ensures StripBearer(header) == header
    decreases |header|
  {
    if |header| >= |BearerPrefix| {
      assert header[..|BearerPrefix|][6] != BearerPrefix[6];
      StripBearerNoSpace(header[1..]);
      assert header == [header[0]] + header[1..];
    }
  }

  // ---------------------------------------------------------------------------
  // The request

  /** The posted body: the parsed `items`, or the message of the failed `req.json()`. */
  datatype Body = Items(items: seq<Cart.CartItem>) | Unparsable(message: string)

  /** The parts of the request the function reads; headers are absent or text. */
  datatype Request = Request(httpMethod: string, body: Body, authorization: Option<string>, origin: Option<string>)

  /** Stripe's answer to the session request. */
  datatype StripeOutcome = SessionCreated(url: string) | StripeFailed(message: string)

  /** The calls into other services, in the order made. */
  datatype Call =
    | GetUser(token: string)
    | CreateSession(lineItems: seq<LineItem>, successUrl: string, cancelUrl: string, userId: string)
    | InsertOrder(userId: string, totalAmount: int, status: string)
    | InsertOrderItems(rows: seq<OrderItemRow>)

  datatype ResponseBody = NoBody | Url(url: string) | ErrorMessage(message: string)

  /** A response; every response carries the CORS headers, all but the preflight one a JSON content type. */
  datatype HttpResponse = HttpResponse(status: int, body: ResponseBody, json: bool)

  const Preflight: HttpResponse := HttpResponse(200, NoBody, false)

  function Failure(message: string): HttpResponse
  {
    HttpResponse(500, ErrorMessage(message), true)
  }

  /** `${req.headers.get("origin")}`: a missing header prints as "null". */
  function OriginText(origin: Option<string>): string
  {
    if origin.Some? then origin.value else "null"
  }

  function SuccessUrl(origin: Option<string>): string
  {
    OriginText(origin) + "/payment-success?session_id={CHECKOUT_SESSION_ID}"
  }

  function CancelUrl(origin: Option<string>): string
  {
    OriginText(origin) + "/cart"
  }

  /** `if (!authHeader)` fails for a missing or empty header. */
  predicate HasAuthorization(req: Request)
  {
    req.authorization.Some? && req.authorization.value != ""
  }

  /** The user `auth.getUser` reports for the request's token, if the request has one. */
  function CallerOf(req: Request, users: string -> Option<string>): Option<string>
  {
    if HasAuthorization(req) then users(StripBearer(req.authorization.value)) else None
  }

  /**
    The handler. `users` answers `auth.getUser` for a token (none for an error
    or no user), `stripe` answers the session request, `orderId` answers the
    order insert (none for an error or no row), and `itemsFailed` says whether
    the rows insert failed.
   */
  method HandleCheckout(req: Request, users: string -> Option<string>, stripe: StripeOutcome,
                        orderId: Option<string>, itemsFailed: bool)
    returns (resp: HttpResponse, calls: seq<Call>)
    ensures req.httpMethod == "OPTIONS" ==> resp == Preflight && calls == []
    ensures req.httpMethod != "OPTIONS" && req.body.Unparsable? ==>
      resp == Failure(req.body.message) && calls == []
    ensures req.httpMethod != "OPTIONS" && req.body.Items? && !HasAuthorization(req) ==>
      resp == Failure("No authorization header") && calls == []
    ensures req.httpMethod != "OPTIONS" && req.body.Items? && HasAuthorization(req) ==>
      |calls| >= 1 && calls[0] == GetUser(StripBearer(req.authorization.value))
    ensures |calls| >= 1 && CallerOf(req, users).None? ==>
      resp == Failure("Invalid user token") && |calls| == 1
    ensures |calls| >= 2 ==>
      req.body.Items? && CallerOf(req, users).Some? &&
      calls[1] == CreateSession(LineItems(req.body.items), SuccessUrl(req.origin), CancelUrl(req.origin),
                                CallerOf(req, users).value)
    ensures |calls| >= 2 && stripe.StripeFailed? ==>
      resp == Failure(stripe.message) && |calls| == 2
    ensures |calls| >= 3 ==>
      req.body.Items? && CallerOf(req, users).Some? && stripe.SessionCreated? &&
      calls[2] == InsertOrder(CallerOf(req, users).value, TotalAmount(req.body.items), "pending")
    ensures |calls| >= 3 && orderId.None? ==>
      resp == Failure("Failed to create order") && |calls| == 3
    ensures |calls| >= 4 ==>
      req.body.Items? && orderId.Some? &&
      calls[3] == InsertOrderItems(OrderItemRows(orderId.value, req.body.items))
    ensures |calls| >= 4 && itemsFailed ==>
      resp == Failure("Failed to create order items")
    ensures |calls| <= 4
    ensures resp.status == 200 <==> req.httpMethod == "OPTIONS" || (|calls| == 4 && !itemsFailed)
    ensures resp.status == 200 && req.httpMethod != "OPTIONS" ==>
      stripe.SessionCreated? && resp == HttpResponse(200, Url(stripe.url), true)
    ensures resp.status != 200 ==> resp.status == 500 && resp.body.ErrorMessage?
    ensures req.httpMethod != "OPTIONS" && req.body.Items? && CallerOf(req, users).Some? ==> |calls| >= 2
    ensures |calls| >= 2 && stripe.SessionCreated? ==> |calls| >= 3
    ensures |calls| >= 3 && orderId.Some? ==> |calls| == 4
    ensures req.httpMethod != "OPTIONS" && req.body.Items? && CallerOf(req, users).Some? &&
            stripe.SessionCreated? && orderId.Some? && !itemsFailed ==>
      resp == HttpResponse(200, Url(stripe.url), true) && |calls| == 4
  {
    if req.httpMethod == "OPTIONS" {
      return Preflight, [];
    }
    calls := [];
    if req.body.Unparsable? {
      return Failure(req.body.message), calls;
    }
    var items := req.body.items;
    if !HasAuthorization(req) {
      return Failure("No authorization header"), calls;
    }
    var token := StripBearer(req.authorization.value);
    calls := calls + [GetUser(token)];
    var user := users(token);
    if user.None? {
      return Failure("Invalid user token"), calls;
    }
    var totalAmount := TotalAmount(items);
    var lineItems := LineItems(items);
    calls := calls + [CreateSession(lineItems, SuccessUrl(req.origin), CancelUrl(req.origin), user.value)];
    if stripe.StripeFailed? {
      return Failure(stripe.message), calls;
    }
    calls := calls + [InsertOrder(user.value, totalAmount, "pending")];
    if orderId.None? {
      return Failure("Failed to create order"), calls;
    }
    var rows := OrderItemRows(orderId.value, items);
    calls := calls + [InsertOrderItems(rows)];
    if itemsFailed {
      return Failure("Failed to create order items"), calls;
    }
    resp := HttpResponse(200, Url(stripe.url), true);
  }

  /**
    On success the order recorded and the session charged agree: the order's
    total is the cart's total, and its rows and the session's lines add up to it.
   */
  lemma CheckoutAmountsAgree(items: seq<Cart.CartItem>, orderId: string)
    ensures TotalAmount(items) == Cart.Total(items)
    ensures Charged(LineItems(items)) == TotalAmount(items)
    ensures RowsTotal(OrderItemRows(orderId, items)) == TotalAmount(items)
  {
    ChargedIsTotal(items);
    RowsTotalIsTotal(orderId, items);
  }
}
