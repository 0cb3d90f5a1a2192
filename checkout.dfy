/**
  The checkout request handler: CORS headers first, then the method gate, body
  normalisation, the cart check, the redirect origin, the line items and the single call
  to the payment provider, ending in exactly one response.

  The handler is a total function of the configuration, the request, the engine built-ins
  the model leaves abstract, and the provider (a function from the session parameters it
  is sent to what it answers). The response records the header map, the status, the JSON
  body, and the session parameters sent to the provider, if any were.
 */
module Checkout {
  import opened Wrappers
  import opened JsValue
  import Cors

  /** The environment the handler reads: ALLOWED_ORIGINS and DOMAIN, absent or present,
      and the outcome of constructing the payment client from STRIPE_SECRET_KEY: the
      message of the error it throws, or None when it is built. */
  datatype Config = Config(allowedOrigins: Option<string>, domain: Option<string>, clientError: Option<string>)

  /** Method, the Origin header (absent or present), and the body as the platform hands it
      over: undefined when absent, a string when it was not decoded, otherwise decoded. */
  datatype Request = Request(httpMethod: string, origin: Option<string>, body: Value)

  /** Engine built-ins the model does not define: `JSON.parse` (None when it throws), the
      engine's number-to-string conversion, and `Math.round(price * 100)` in floating point. */
  datatype Engine = Engine(parse: string -> Option<Value>, numeral: real -> string, minorUnits: Value -> Value)

  /** One provider line item: `price_data.currency`, `price_data.unit_amount`,
      `price_data.product_data.name` and `quantity`. */
  datatype LineItem = LineItem(currency: string, unitAmount: Value, productName: string, quantity: Value)

  /** The argument of the session-creation call. */
  datatype SessionParams = SessionParams(
    mode: string, locale: string, billingAddressCollection: string,
    lineItems: seq<LineItem>, successUrl: string, cancelUrl: string)

  /** What the provider answers: a session carrying its `url`, or an error with a message. */
  datatype SessionOutcome = Created(url: Value) | Failed(message: string)

  datatype Body = NoBody | Json(value: Value)

  /** `sent` is the session-creation call made, if one was made. */
  datatype Response = Response(headers: map<string, string>, status: int, body: Body, sent: Option<SessionParams>)

  const LocalFallback := "http://localhost:5500"
  /** Written as "/" + the rest so that the cancel URL, origin + "/", is seen to be a prefix
      of the success URL. */
  const SuccessPath := "/" + "success.html?session_id={CHECKOUT_SESSION_ID}"
  const Currency := "mxn"
  const OptionSeparator := " \U{00B7} "

  function ErrorBody(message: string): Body {
    Json(Obj(map["error" := Str(message)]))
  }

  function NullishName(isNull: bool): string {
    if isNull then "null" else "undefined"
  }

  /** V8's message for `const { cart } = body` when `body` is null or undefined. */
  function DestructureMessage(isNull: bool): string {
    "Cannot destructure property 'cart' of 'body' as it is " + NullishName(isNull) + "."
  }

  /** V8's message for reading `key` of null or undefined. */
  function ReadMessage(isNull: bool, key: string): string {
    "Cannot read properties of " + NullishName(isNull) + " (reading '" + key + "')"
  }

  /** The body after normalisation: a string is parsed, falling back to `{}` when parsing
      throws; any other falsy body becomes `{}`; any other body is kept. Only a string that
      parses to null (or undefined) can leave a body that is null or undefined. */
  function NormalizeBody(eng: Engine, body: Value): (b: Value)
    ensures !body.Str? ==> Truthy(b)
    ensures !body.Str? && Truthy(body) ==> b == body
    ensures !body.Str? && !Truthy(body) ==> b == EmptyObject
    ensures body.Str? && eng.parse(body.s).None? ==> b == EmptyObject
    ensures body.Str? && eng.parse(body.s).Some? ==> b == eng.parse(body.s).value
    ensures Nullish(b) ==> body.Str? && eng.parse(body.s) == Some(b)
  {
    match body
    case Str(s) => (match eng.parse(s) case Some(v) => v case None => EmptyObject)
    case _ => if Truthy(body) then body else EmptyObject
  }

  /** `const { cart } = body`: a TypeError when the body is null or undefined. */
  function CartOf(body: Value): (r: Result<Value, string>)
    ensures r.Err? <==> Nullish(body)
    ensures r.Err? ==> r.error == DestructureMessage(body.Null?)
    ensures r.Ok? && r.value != Undefined ==> body.Obj? && "cart" in body.props && body.props["cart"] == r.value
    ensures r.Ok? ==> r.value == (if body.Obj? && "cart" in body.props then body.props["cart"] else Undefined)
  {
    match GetProperty(body, "cart")
    case NullishBase(isNull) => Err(DestructureMessage(isNull))
    case Found(cart) => Ok(cart)
  }

  /** The redirect base before stripping: the first non-empty of DOMAIN, the request's
      Origin header and the local fallback. */
  function PreferredOrigin(domain: Option<string>, requestOrigin: Option<string>): (chosen: string)
    ensures chosen != ""
    ensures Cors.OrEmpty(domain) != "" ==> chosen == domain.value
    ensures Cors.OrEmpty(domain) == "" && Cors.OrEmpty(requestOrigin) != "" ==> chosen == requestOrigin.value
    ensures Cors.OrEmpty(domain) == "" && Cors.OrEmpty(requestOrigin) == "" ==> chosen == LocalFallback
  {
    if Cors.OrEmpty(domain) != "" then domain.value
    else if Cors.OrEmpty(requestOrigin) != "" then requestOrigin.value
    else LocalFallback
  }

  predicate EndsWithSlash(s: string) {
    |s| > 0 && s[|s| - 1] == '/'
  }

  /** `s.replace(/\/$/, "")`: removes one `/` at the very end, if there is one. */
  function StripTrailingSlash(s: string): (r: string)
    ensures EndsWithSlash(s) <==> s == r + "/"
    ensures !EndsWithSlash(s) <==> s == r
  {
    if EndsWithSlash(s) then s[..|s| - 1] else s
  }

  /** `(DOMAIN || origin || fallback).replace(/\/$/, "")`: the preferred origin, less one
      trailing slash when it ends in one. */
  function RedirectOrigin(domain: Option<string>, requestOrigin: Option<string>): (origin: string)
    ensures var chosen := PreferredOrigin(domain, requestOrigin);
      && (EndsWithSlash(chosen) ==> origin + "/" == chosen)
      && (!EndsWithSlash(chosen) ==> origin == chosen)
  {
    StripTrailingSlash(PreferredOrigin(domain, requestOrigin))
  }

  function SuccessUrl(origin: string): string {
    origin + SuccessPath
  }

  function CancelUrl(origin: string): string {
    origin + "/"
  }

  /** A property of a cart item that is known not to be null or undefined. */
  function Field(item: Value, key: string): Value
    requires key in HandlerKeys && !Nullish(item)
  {
    GetProperty(item, key).value
  }

  /** `${name}${option ? " · " + option : ""}`: the name's string, followed by the separator
      and the option's string when the option is truthy. Converting either one throws where
      `Convertible` says it does; a falsy option is never converted. */
  function ProductName(eng: Engine, name: Value, option: Value): (r: Result<string, string>)
    ensures r.Ok? <==> Convertible(name) && (Truthy(option) ==> Convertible(option))
    ensures r.Err? ==> r.error == ConvertMessage
    ensures r.Ok? && !Truthy(option) ==> r.value == ToStr(name, eng.numeral).value
    ensures r.Ok? && Truthy(option) ==>
      r.value == ToStr(name, eng.numeral).value + OptionSeparator + ToStr(option, eng.numeral).value
  {
    match ToStr(name, eng.numeral)
    case Err(message) => Err(message)
    case Ok(n) =>
      if !Truthy(option) then Ok(n)
      else
        match ToStr(option, eng.numeral)
        case Err(message) => Err(message)
        case Ok(o) => Ok(n + OptionSeparator + o)
  }

  /** Whether building the line item for a cart entry gets through: the entry is not null
      or undefined, its `price` converts to a number, its `name` to a string, and its
      `option`, when truthy, to a string. */
  predicate Buildable(item: Value) {
    && !Nullish(item)
    && Convertible(Field(item, "price"))
    && Convertible(Field(item, "name"))
    && (Truthy(Field(item, "option")) ==> Convertible(Field(item, "option")))
  }

  /** The line item for one cart entry. Reading `price` of a null or undefined entry throws,
      and so does `price * 100`, or the product name, on a value that does not convert. */
  function MakeLineItem(eng: Engine, item: Value): (r: Result<LineItem, string>)
    ensures r.Ok? <==> Buildable(item)
    ensures Nullish(item) ==> r == Err(ReadMessage(item.Null?, "price"))
    ensures !Nullish(item) && r.Err? ==> r.error == ConvertMessage
    ensures r.Ok? ==>
      && r.value.currency == Currency
      && r.value.quantity == Field(item, "qty")
      && r.value.unitAmount == eng.minorUnits(Field(item, "price"))
      && ProductName(eng, Field(item, "name"), Field(item, "option")) == Ok(r.value.productName)
  {
    match GetProperty(item, "price")
    case NullishBase(isNull) => Err(ReadMessage(isNull, "price"))
    case Found(price) =>
      if !Convertible(price) then Err(ConvertMessage)
      else
        match ProductName(eng, Field(item, "name"), Field(item, "option"))
        case Err(message) => Err(message)
        case Ok(name) => Ok(LineItem(Currency, eng.minorUnits(price), name, Field(item, "qty")))
  }

  /** The index of the first entry whose line item cannot be built, or `|cart|` when there
      is none. */
  function FirstUnbuildable(cart: seq<Value>): (i: nat)
    ensures i <= |cart|
    ensures forall j :: 0 <= j < i ==> Buildable(cart[j])
    ensures i < |cart| ==> !Buildable(cart[i])
  {
    if cart == [] || !Buildable(cart[0]) then 0 else 1 + FirstUnbuildable(cart[1..])
  }

  /** `cart.map(...)`: one line item per entry, in order, each in the currency `mxn`, with
      the entry's `qty` as quantity, its `price` scaled to minor units and its product name
      built from `name` and `option`. The map throws at the first entry that cannot be
      built: with the read-`price` message for a null or undefined entry, otherwise with
      the failed conversion's message. */
  function LineItems(eng: Engine, cart: seq<Value>): (r: Result<seq<LineItem>, string>)
    ensures r.Ok? <==> FirstUnbuildable(cart) == |cart|
    ensures r.Err? ==> var i := FirstUnbuildable(cart);
      r.error == if Nullish(cart[i]) then ReadMessage(cart[i].Null?, "price") else ConvertMessage
    ensures r.Ok? ==> |r.value| == |cart|
    ensures r.Ok? ==> forall i :: 0 <= i < |cart| ==>
      && r.value[i].currency == Currency
      && r.value[i].quantity == Field(cart[i], "qty")
      && r.value[i].unitAmount == eng.minorUnits(Field(cart[i], "price"))
      && ProductName(eng, Field(cart[i], "name"), Field(cart[i], "option")) == Ok(r.value[i].productName)
  {
    if cart == [] then Ok([])
    else
      match MakeLineItem(eng, cart[0])
      case Err(message) => Err(message)
      case Ok(item) =>
        match LineItems(eng, cart[1..])
        case Err(message) => Err(message)
        case Ok(rest) => Ok([item] + rest)
  }

  /** The session parameters for a cart whose line items were built. */
  function Session(items: seq<LineItem>, origin: string): (params: SessionParams)
    ensures params.mode == "payment" && params.locale == "es-419" && params.billingAddressCollection == "auto"
    ensures params.lineItems == items
    ensures params.successUrl == origin + "/" + "success.html?session_id={CHECKOUT_SESSION_ID}"
    ensures params.cancelUrl == origin + "/"
    ensures params.cancelUrl <= params.successUrl
  {
    SessionParams("payment", "es-419", "auto", items, SuccessUrl(origin), CancelUrl(origin))
  }

  /** Steps after the cart check: build the line items, send the session request, and
      answer from the provider's outcome. */
  function CreateSession(headers: map<string, string>, eng: Engine, origin: string, cart: seq<Value>,
                         provider: SessionParams -> SessionOutcome): (r: Response)
    ensures r.headers == headers
    ensures r.status in {200, 500}
    ensures r.body.Json?
    ensures r.sent.Some? <==> FirstUnbuildable(cart) == |cart|
    ensures r.status == 200 <==> r.sent.Some? && provider(r.sent.value).Created?
  {
    match LineItems(eng, cart)
    case Err(message) => Response(headers, 500, ErrorBody(message), None)
    case Ok(items) =>
      var params := Session(items, origin);
      match provider(params)
      case Created(url) => Response(headers, 200, Json(Obj(map["url" := url])), Some(params))
      case Failed(message) => Response(headers, 500, ErrorBody(message), Some(params))
  }

  /** A POST: normalise the body, destructure `cart`, check it, construct the payment
      client, and go on to the session. */
  function HandlePost(headers: map<string, string>, cfg: Config, eng: Engine, req: Request,
                      provider: SessionParams -> SessionOutcome): (r: Response)
    ensures r.headers == headers
    ensures r.status in {200, 400, 500}
    ensures r.body.Json?
    ensures r.status == 400 ==> r.body == ErrorBody("Cart empty") && r.sent == None
    ensures r.sent.Some? ==> cfg.clientError.None?
  {
    var body := NormalizeBody(eng, req.body);
    match CartOf(body)
    case Err(message) => Response(headers, 500, ErrorBody(message), None)
    case Ok(cart) =>
      if !cart.Arr? || |cart.elems| == 0 then Response(headers, 400, ErrorBody("Cart empty"), None)
      else if cfg.clientError.Some? then Response(headers, 500, ErrorBody(cfg.clientError.value), None)
      else CreateSession(headers, eng, RedirectOrigin(cfg.domain, req.origin), cart.elems, provider)
  }

  /** The whole handler. Every response carries the CORS headers, whatever the path, and
      the provider is called only for a POST. */
  function Handle(cfg: Config, eng: Engine, req: Request, provider: SessionParams -> SessionOutcome): (r: Response)
    ensures r.headers == Cors.SetCors(cfg.allowedOrigins, req.origin, map[])
    ensures r.status in {200, 204, 400, 405, 500}
    ensures r.sent.Some? ==> req.httpMethod == "POST"
    ensures r.body == NoBody <==> r.status == 204
  {
    var headers := Cors.SetCors(cfg.allowedOrigins, req.origin, map[]);
    if req.httpMethod == "OPTIONS" then Response(headers, 204, NoBody, None)
    else if req.httpMethod != "POST" then Response(headers, 405, ErrorBody("Method not allowed"), None)
    else HandlePost(headers, cfg, eng, req, provider)
  }
}
