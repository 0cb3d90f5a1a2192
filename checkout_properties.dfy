/**
  What the checkout handler promises, stated over `Checkout.Handle` for every
  configuration, request, engine and provider.
 */
module CheckoutProperties {
  import opened Wrappers
  import opened JsValue
  import opened Checkout
  import Cors

  /** The `cart` member of a normalised body that is an object; undefined otherwise. */
  function CartField(b: Value): Value {
    if b.Obj? && "cart" in b.props then b.props["cart"] else Undefined
  }

  predicate NonEmptyArray(v: Value) {
    v.Arr? && |v.elems| > 0
  }

  predicate AllBuildable(cart: seq<Value>) {
    forall i :: 0 <= i < |cart| ==> Buildable(cart[i])
  }

  function CorsHeaders(cfg: Config, req: Request): map<string, string> {
    Cors.SetCors(cfg.allowedOrigins, req.origin, map[])
  }

  /** A preflight is answered 204 with no body and no provider call, and neither the body,
      the engine nor the provider has any say in it. */
  lemma PreflightShortCircuits(cfg: Config, eng: Engine, req: Request, provider: SessionParams -> SessionOutcome,
                               eng': Engine, body': Value, provider': SessionParams -> SessionOutcome)
    requires req.httpMethod == "OPTIONS"
    ensures Handle(cfg, eng, req, provider) == Response(CorsHeaders(cfg, req), 204, NoBody, None)
    ensures Handle(cfg, eng, req, provider) == Handle(cfg, eng', req.(body := body'), provider')
  {
  }

  /** Any method other than OPTIONS and POST is answered 405 before the body is looked at. */
  lemma OtherMethodsRejected(cfg: Config, eng: Engine, req: Request, provider: SessionParams -> SessionOutcome,
                             eng': Engine, body': Value, provider': SessionParams -> SessionOutcome)
    requires req.httpMethod != "OPTIONS" && req.httpMethod != "POST"
    ensures Handle(cfg, eng, req, provider) == Response(CorsHeaders(cfg, req), 405, ErrorBody("Method not allowed"), None)
    ensures Handle(cfg, eng, req, provider) == Handle(cfg, eng', req.(body := body'), provider')
  {
  }

  /** A POST is answered 400 "Cart empty", with no provider call, exactly when the
      normalised body is an object-like value whose `cart` is not a non-empty array. */
  lemma CartEmptyRejected(cfg: Config, eng: Engine, req: Request, provider: SessionParams -> SessionOutcome)
    requires req.httpMethod == "POST"
    ensures var b := NormalizeBody(eng, req.body);
      Handle(cfg, eng, req, provider).status == 400 <==> !Nullish(b) && !NonEmptyArray(CartField(b))
    ensures Handle(cfg, eng, req, provider).status == 400 ==>
      Handle(cfg, eng, req, provider) == Response(CorsHeaders(cfg, req), 400, ErrorBody("Cart empty"), None)
  {
    var headers := CorsHeaders(cfg, req);
    var b := NormalizeBody(eng, req.body);
    assert Handle(cfg, eng, req, provider) == HandlePost(headers, cfg, eng, req, provider);
    if Nullish(b) {
      assert CartOf(b).Err?;
      assert HandlePost(headers, cfg, eng, req, provider).status == 500;
    } else {
      assert CartOf(b) == Ok(CartField(b));
      if NonEmptyArray(CartField(b)) && cfg.clientError.Some? {
        assert HandlePost(headers, cfg, eng, req, provider).status == 500;
      } else if NonEmptyArray(CartField(b)) {
        assert HandlePost(headers, cfg, eng, req, provider)
            == CreateSession(headers, eng, RedirectOrigin(cfg.domain, req.origin), CartField(b).elems, provider);
      } else {
        assert HandlePost(headers, cfg, eng, req, provider) == Response(headers, 400, ErrorBody("Cart empty"), None);
      }
    }
  }

  /** An absent body, a falsy body and a string that does not parse all end as
      400 "Cart empty": normalisation never fails a request on its own. */
  lemma MissingOrMalformedBodyIsCartEmpty(cfg: Config, eng: Engine, req: Request, provider: SessionParams -> SessionOutcome)
    requires req.httpMethod == "POST"
    requires (!req.body.Str? && !Truthy(req.body)) || (req.body.Str? && eng.parse(req.body.s).None?)
    ensures Handle(cfg, eng, req, provider) == Response(CorsHeaders(cfg, req), 400, ErrorBody("Cart empty"), None)
  {
    assert NormalizeBody(eng, req.body) == EmptyObject;
    CartEmptyRejected(cfg, eng, req, provider);
  }

  /** A string body that parses to JSON null is not replaced by `{}`; destructuring `cart`
      from it throws, and the handler answers 500 with the TypeError's message. */
  lemma NullJsonBodyIsServerError(cfg: Config, eng: Engine, req: Request, provider: SessionParams -> SessionOutcome)
    requires req.httpMethod == "POST" && req.body.Str? && eng.parse(req.body.s) == Some(Null)
    ensures Handle(cfg, eng, req, provider) ==
      Response(CorsHeaders(cfg, req), 500,
               ErrorBody("Cannot destructure property 'cart' of 'body' as it is null."), None)
  {
    assert DestructureMessage(true) == "Cannot destructure property 'cart' of 'body' as it is null.";
  }

  /** A string body that parses to a value is handled exactly as that value sent already
      decoded, unless the value is itself a string (which would be parsed again) or null
      (which a decoded body turns into `{}`). */
  lemma StringBodyLikeDecoded(cfg: Config, eng: Engine, req: Request, provider: SessionParams -> SessionOutcome,
                              s: string, v: Value)
    requires eng.parse(s) == Some(v) && !v.Str? && !Nullish(v)
    ensures Handle(cfg, eng, req.(body := Str(s)), provider) == Handle(cfg, eng, req.(body := v), provider)
  {
    var r1, r2 := req.(body := Str(s)), req.(body := v);
    var b1 := NormalizeBody(eng, r1.body);
    var b2 := NormalizeBody(eng, r2.body);
    assert b1 == v;
    assert CartOf(b1) == CartOf(b2) by {
      if !Truthy(v) {
        assert b2 == EmptyObject;
        assert !v.Obj?;
      }
    }
    HandlePostSeesOnlyCart(Cors.SetCors(cfg.allowedOrigins, req.origin, map[]), cfg, eng, r1, r2, provider);
  }

  /** After the method gate, the body matters only through the `cart` it yields. */
  lemma HandlePostSeesOnlyCart(headers: map<string, string>, cfg: Config, eng: Engine, r1: Request, r2: Request,
                               provider: SessionParams -> SessionOutcome)
    requires r1.origin == r2.origin
    requires CartOf(NormalizeBody(eng, r1.body)) == CartOf(NormalizeBody(eng, r2.body))
    ensures HandlePost(headers, cfg, eng, r1, provider) == HandlePost(headers, cfg, eng, r2, provider)
  {
  }

  /** The provider is called exactly for a POST whose normalised body holds a non-empty
      `cart` array each of whose entries yields a line item, once the payment client was
      constructed. */
  lemma ProviderCalledExactlyWhen(cfg: Config, eng: Engine, req: Request, provider: SessionParams -> SessionOutcome)
    ensures var b := NormalizeBody(eng, req.body);
      Handle(cfg, eng, req, provider).sent.Some? <==>
        && req.httpMethod == "POST" && !Nullish(b) && NonEmptyArray(CartField(b))
        && cfg.clientError.None? && AllBuildable(CartField(b).elems)
  {
    var b := NormalizeBody(eng, req.body);
    if req.httpMethod == "POST" && !Nullish(b) {
      var cart := CartField(b);
      if NonEmptyArray(cart) {
        var i := FirstUnbuildable(cart.elems);
        if i < |cart.elems| {
          assert !Buildable(cart.elems[i]);
        }
      }
    }
  }

  /** When constructing the payment client throws, a POST with a non-empty cart is answered
      500 with that error's message before any cart entry is looked at, and no request is
      sent. */
  lemma ClientErrorIsServerError(cfg: Config, eng: Engine, req: Request, provider: SessionParams -> SessionOutcome)
    requires req.httpMethod == "POST" && cfg.clientError.Some?
    requires var b := NormalizeBody(eng, req.body);
      !Nullish(b) && NonEmptyArray(CartField(b))
    ensures Handle(cfg, eng, req, provider) ==
      Response(CorsHeaders(cfg, req), 500, ErrorBody(cfg.clientError.value), None)
  {
    var b := NormalizeBody(eng, req.body);
    assert CartOf(b) == Ok(CartField(b));
  }

  /** When the first entry that cannot be built is null or undefined, building the line
      items throws there: 500 with the read-`price` TypeError's message and no provider call. */
  lemma NullishEntryIsServerError(cfg: Config, eng: Engine, req: Request, provider: SessionParams -> SessionOutcome, i: nat)
    requires req.httpMethod == "POST"
    requires cfg.clientError.None?
    requires var b := NormalizeBody(eng, req.body);
      !Nullish(b) && NonEmptyArray(CartField(b)) && i < |CartField(b).elems| &&
      Nullish(CartField(b).elems[i]) && AllBuildable(CartField(b).elems[..i])
    ensures var cart := CartField(NormalizeBody(eng, req.body)).elems;
      Handle(cfg, eng, req, provider) ==
        Response(CorsHeaders(cfg, req), 500, ErrorBody(ReadMessage(cart[i].Null?, "price")), None)
  {
    var b := NormalizeBody(eng, req.body);
    var cart := CartField(b).elems;
    assert forall j :: 0 <= j < i ==> cart[..i][j] == cart[j];
    assert FirstUnbuildable(cart) == i;
  }

  /** When the first entry that cannot be built is an object whose `price`, `name` or
      truthy `option` does not convert to a primitive, the answer is 500 with the
      conversion's TypeError message, and the provider is not called. */
  lemma ConversionFailureIsServerError(cfg: Config, eng: Engine, req: Request, provider: SessionParams -> SessionOutcome, i: nat)
    requires req.httpMethod == "POST"
    requires cfg.clientError.None?
    requires var b := NormalizeBody(eng, req.body);
      !Nullish(b) && NonEmptyArray(CartField(b)) && i < |CartField(b).elems| &&
      !Nullish(CartField(b).elems[i]) && !Buildable(CartField(b).elems[i]) && AllBuildable(CartField(b).elems[..i])
    ensures Handle(cfg, eng, req, provider) == Response(CorsHeaders(cfg, req), 500, ErrorBody(ConvertMessage), None)
  {
    var b := NormalizeBody(eng, req.body);
    var cart := CartField(b).elems;
    assert forall j :: 0 <= j < i ==> cart[..i][j] == cart[j];
    assert FirstUnbuildable(cart) == i;
  }

  /** A cart entry whose `name` is an object with its own `toString` key: the template
      literal cannot convert the name, so the handler answers 500 without calling the
      provider. */
  lemma ShadowedToStringName(cfg: Config, eng: Engine, req: Request, provider: SessionParams -> SessionOutcome,
                             item: Value)
    requires item == Obj(map["name" := Obj(map["toString" := Num(1.0)]), "price" := Num(1.0), "qty" := Num(1.0)])
    requires req.httpMethod == "POST" && req.body == Obj(map["cart" := Arr([item])])
    requires cfg.clientError.None?
    ensures Handle(cfg, eng, req, provider) == Response(CorsHeaders(cfg, req), 500, ErrorBody(ConvertMessage), None)
  {
    assert NormalizeBody(eng, req.body) == req.body;
    assert CartField(req.body) == Arr([item]);
    assert !Convertible(Field(item, "name"));
    assert [item][..0] == [];
    ConversionFailureIsServerError(cfg, eng, req, provider, 0);
  }

  /** When the provider is called, the session is a payment session in locale es-419 with
      automatic billing-address collection; its line items follow the cart entry by entry;
      its URLs are built from the redirect origin; and the response is 200 with the
      session's `url` when the provider creates the session, 500 with the provider's message
      when it fails. */
  lemma ProviderCallShape(cfg: Config, eng: Engine, req: Request, provider: SessionParams -> SessionOutcome)
    requires req.httpMethod == "POST"
    requires cfg.clientError.None?
    requires var b := NormalizeBody(eng, req.body);
      !Nullish(b) && NonEmptyArray(CartField(b)) && AllBuildable(CartField(b).elems)
    ensures var r := Handle(cfg, eng, req, provider);
      && r.sent.Some?
      && var params := r.sent.value;
      var cart := CartField(NormalizeBody(eng, req.body));
      var origin := RedirectOrigin(cfg.domain, req.origin);
      && cart.Arr?
      && params.mode == "payment" && params.locale == "es-419" && params.billingAddressCollection == "auto"
      && params.successUrl == origin + "/" + "success.html?session_id={CHECKOUT_SESSION_ID}"
      && params.cancelUrl == origin + "/"
      && |params.lineItems| == |cart.elems|
      && (forall i :: 0 <= i < |cart.elems| ==>
            && Buildable(cart.elems[i])
            && params.lineItems[i].currency == "mxn"
            && params.lineItems[i].quantity == Field(cart.elems[i], "qty")
            && params.lineItems[i].unitAmount == eng.minorUnits(Field(cart.elems[i], "price"))
            && ProductName(eng, Field(cart.elems[i], "name"), Field(cart.elems[i], "option"))
                 == Ok(params.lineItems[i].productName))
      && (provider(params).Created? ==> r.status == 200 && r.body == Json(Obj(map["url" := provider(params).url])))
      && (provider(params).Failed? ==> r.status == 500 && r.body == ErrorBody(provider(params).message))
  {
    var headers := CorsHeaders(cfg, req);
    var b := NormalizeBody(eng, req.body);
    var cart := CartField(b).elems;
    var origin := RedirectOrigin(cfg.domain, req.origin);
    assert CartOf(b) == Ok(CartField(b));
    assert Handle(cfg, eng, req, provider) == CreateSession(headers, eng, origin, cart, provider);
    SessionSent(headers, eng, origin, cart, provider);
  }

  /** With every entry buildable, the session is built from the cart's line items and the
      answer follows the provider's outcome. */
  lemma SessionSent(headers: map<string, string>, eng: Engine, origin: string, cart: seq<Value>,
                    provider: SessionParams -> SessionOutcome)
    requires AllBuildable(cart)
    ensures LineItems(eng, cart).Ok?
    ensures var r := CreateSession(headers, eng, origin, cart, provider);
      && r.sent == Some(Session(LineItems(eng, cart).value, origin))
      && (provider(r.sent.value).Created? ==> r.status == 200 && r.body == Json(Obj(map["url" := provider(r.sent.value).url])))
      && (provider(r.sent.value).Failed? ==> r.status == 500 && r.body == ErrorBody(provider(r.sent.value).message))
  {
    assert FirstUnbuildable(cart) == |cart|;
  }

  /** Status 200 is given exactly when the provider was called and created the session. */
  lemma OkOnlyOnCreatedSession(cfg: Config, eng: Engine, req: Request, provider: SessionParams -> SessionOutcome)
    ensures var r := Handle(cfg, eng, req, provider);
      r.status == 200 <==> r.sent.Some? && provider(r.sent.value).Created?
  {
  }

  /** The redirect origin is DOMAIN when it is set and non-empty, else the Origin header
      when that is non-empty, else the local fallback, with at most one trailing slash
      removed. */
  lemma RedirectOriginChoice(domain: Option<string>, requestOrigin: Option<string>)
    ensures var chosen := if domain.Some? && domain.value != "" then domain.value
                          else if requestOrigin.Some? && requestOrigin.value != "" then requestOrigin.value
                          else "http://localhost:5500";
      var r := RedirectOrigin(domain, requestOrigin);
      (r == chosen || r + "/" == chosen) && (r + "/" == chosen <==> chosen[|chosen| - 1] == '/')
  {
  }

  /** Only one slash is removed, never more. */
  lemma OneSlashStripped()
    ensures RedirectOrigin(Some("https://gohan.mx//"), None) == "https://gohan.mx/"
    ensures RedirectOrigin(None, Some("https://gohan.mx")) == "https://gohan.mx"
    ensures RedirectOrigin(Some(""), None) == "http://localhost:5500"
  {
  }

  /** The browser that sent a non-empty Origin may read the response, whatever the method or
      outcome, exactly when the allowlist permits that origin; a credentialed request is
      never admitted. */
  lemma BrowserAdmission(cfg: Config, eng: Engine, req: Request, provider: SessionParams -> SessionOutcome)
    requires req.origin.Some? && req.origin.value != ""
    ensures var h := Handle(cfg, eng, req, provider).headers;
      && (Cors.CorsCheck(h, req.origin.value, false) <==> Cors.Permits(Cors.GetAllowed(cfg.allowedOrigins), req.origin.value))
      && !Cors.CorsCheck(h, req.origin.value, true)
  {
    Cors.BrowserAdmitsExactlyPermitted(cfg.allowedOrigins, req.origin.value);
    Cors.CredentialedNeverAdmitted(cfg.allowedOrigins, req.origin.value);
  }

  const CoffeeItem: Value :=
    Obj(map["name" := Str("Coffee"), "option" := Str("Large"), "price" := Num(19.99), "qty" := Num(2.0)])

  function CoffeeLine(eng: Engine): LineItem {
    LineItem("mxn", eng.minorUnits(Num(19.99)), "Coffee \U{00B7} Large", Num(2.0))
  }

  lemma CoffeeLineItems(eng: Engine)
    ensures LineItems(eng, [CoffeeItem]) == Ok([CoffeeLine(eng)])
  {
    var item := CoffeeItem;
    assert Field(item, "name") == Str("Coffee");
    assert Field(item, "option") == Str("Large");
    assert Field(item, "price") == Num(19.99);
    assert Field(item, "qty") == Num(2.0);
    ProductNameOfStrings(eng, "Coffee", Str("Large"));
    assert FirstUnbuildable([item]) == 1 by { assert [item][1..] == []; }
    var items := LineItems(eng, [item]);
    assert items.Ok? && |items.value| == 1;
    assert items.value[0] == CoffeeLine(eng);
    assert items.value == [CoffeeLine(eng)];
  }

  /** A worked example: one "Coffee" with option "Large", price 19.99, quantity 2, sent
      from a shop page while DOMAIN is set to a value ending in a slash. */
  lemma CoffeeExample(cfg: Config, eng: Engine, req: Request, provider: SessionParams -> SessionOutcome)
    requires cfg == Config(None, Some("https://gohan.mx/"), None)
    requires req == Request("POST", Some("https://shop.example"), Obj(map["cart" := Arr([CoffeeItem])]))
    requires provider(Session([CoffeeLine(eng)], "https://gohan.mx")) == Created(Str("https://pay.example/s1"))
    ensures var r := Handle(cfg, eng, req, provider);
      && r.status == 200
      && r.body == Json(Obj(map["url" := Str("https://pay.example/s1")]))
      && r.sent == Some(Session([CoffeeLine(eng)], "https://gohan.mx"))
      && r.headers[Cors.AllowOriginHeader] == "https://shop.example"
  {
    assert NormalizeBody(eng, req.body) == req.body;
    assert CartOf(req.body) == Ok(Arr([CoffeeItem]));
    assert RedirectOrigin(cfg.domain, req.origin) == "https://gohan.mx";
    CoffeeLineItems(eng);
  }

  /** For a string name, a falsy option (absent, null, false, 0 or empty) leaves the product
      name as the name alone, and a non-empty string option is appended after " · ". An
      absent name prints as "undefined". */
  lemma ProductNameOfStrings(eng: Engine, name: string, option: Value)
    ensures !Truthy(option) ==> ProductName(eng, Str(name), option) == Ok(name)
    ensures option.Str? && option.s != "" ==>
      ProductName(eng, Str(name), option) == Ok(name + " \U{00B7} " + option.s)
    ensures ProductName(eng, Undefined, Undefined) == Ok("undefined")
  {
  }
}
