# Checkout handler of gohan-pay-api, modelled in Dafny

gohan-pay-api has one HTTP endpoint. It turns a shopping cart into a hosted payment
checkout session at a payment provider (Stripe) and answers with the session's redirect URL.
This project models the handler in `checkout.js` as a total function:

- It takes the configuration (`ALLOWED_ORIGINS`, `DOMAIN`, and whether constructing the
  payment client from `STRIPE_SECRET_KEY` throws), the request (method, `Origin`
  header, body), the engine built-ins the model leaves abstract, and the provider.
- The provider is a function from the session parameters it is sent to its answer.
- It returns a response record: the header map, the status, the JSON body, and the session
  parameters sent to the provider, if a call was made.

Modules:

- `Wrappers` (`wrappers.dfy`): `Option` and `Result`.
- `JsString` (`js_string.dfy`): `String.prototype.trim` and `split(",")` as ECMA-262 defines
  them. The whitespace set is that of ECMA-262 sections 12.2 (White Space) and 12.3 (Line
  Terminators). `Trim` is characterised in both directions. `Split` and `Join` are proved to be
  each other's inverse.
- `JsValue` (`js_value.dfy`): the JavaScript values a body can hold, plus truthiness, property
  reads that throw on null and undefined, and template-literal string conversion.
- `Cors` (`cors.dfy`): `getAllowed` and `setCORS`. It also holds, as an independent reference,
  the CORS check a browser runs under the CORS protocol of the WHATWG Fetch Standard. Section
  3.2 of that standard describes the protocol's headers.
- `Checkout` (`checkout.dfy`): body normalisation, the cart lookup, the redirect origin, the
  line items, and `Handle`, the whole handler.
- `CheckoutProperties` (`checkout_properties.dfy`): what the handler promises, for every input.

Behaviour worth knowing, as the code has it:

- A preflight `OPTIONS` is answered with 204.
- The redirect URLs are not validated, so there is no "Bad URL" 400 answer.
- The redirect origin is not trimmed of white space.
- `quantity` is the item's `qty` as sent, with no default of 1.
- `Access-Control-Allow-Methods` is `POST,OPTIONS` and `Access-Control-Allow-Headers` is
  `Content-Type`.
- A string body that parses to JSON `null` is not replaced by `{}`. Destructuring `cart` from
  it throws, so the answer is 500, not 400 "Cart empty" (`NullJsonBodyIsServerError`).
- A cart entry that is `null` makes reading its `price` throw. The answer is 500 with the
  TypeError's message, and the provider is not called (`NullishEntryIsServerError`).
- A cart entry whose `price`, `name` or truthy `option` is an object with its own `toString`
  key (JSON can express `{"toString": 1}`) cannot be converted to a primitive. The TypeError
  "Cannot convert object to primitive value" gives 500, and the provider is not called
  (`ConversionFailureIsServerError`, `ShadowedToStringName`).

## Model

| member | source | states |
|---|---|---|
| JsString.Trim | checkout.js:7 | the trimmed string has no white space at either end and is no longer than the input |
| JsString.TrimRemovesOnlySpace | checkout.js:7 | the trimmed string is a slice of the input whose surroundings are all white space |
| JsString.TrimOfPadded | checkout.js:7 | padding a trimmed string with white space on both sides and trimming gives it back (uniqueness half of the characterisation) |
| JsString.TrimIdempotent | checkout.js:7 | trimming twice equals trimming once |
| JsString.Split | checkout.js:6 | splitting always yields at least one piece, even for the empty string |
| JsString.SplitPiecesCommaFree | checkout.js:6 | no piece of the split contains a comma |
| JsString.JoinSplit | checkout.js:6 | joining the pieces with commas gives back the raw text |
| JsString.SplitJoin | checkout.js:6 | splitting comma-joined comma-free pieces gives back the pieces |
| JsString.SplitConcat | checkout.js:6 | splitting `a,b` gives the pieces of `a` followed by the pieces of `b` |
| JsValue.Truthy | checkout.js:30 | a value is falsy exactly when it is undefined, null, false, 0 or the empty string; arrays and objects are truthy even when empty |
| JsValue.GetProperty | checkout.js:35 | a property read throws exactly on null and undefined, saying which; on an object it gives the own property's value, or undefined when there is none; on any other value it gives undefined |
| JsValue.ToStr | checkout.js:51 | converting a value to a string succeeds iff no object it reaches has its own `toString` (arrays convert their elements), otherwise it fails with "Cannot convert object to primitive value"; undefined, null and booleans print as their names, a number through the engine's formatting, a string as itself, an array as its element strings joined with commas (empty for no elements), and an object as "[object Object]" |
| JsValue.ArrayOfStringsSplits | checkout.js:51 | an array of comma-free strings converts to their comma-joined text: splitting it at commas gives the strings back |
| Cors.TrimEach | checkout.js:7 | one piece per piece, in order, each the trim of its piece: trimmed and no longer than it |
| Cors.DropEmpty | checkout.js:8 | the filter keeps exactly the non-empty entries and never grows the list |
| Cors.AllowList | checkout.js:4-8 | every allowlist entry is non-empty and trimmed |
| Cors.GetAllowed | checkout.js:4-8 | an absent or empty ALLOWED_ORIGINS gives the empty allowlist; every entry is non-empty and trimmed |
| Cors.AllowListMembership | checkout.js:4-8 | an entry is on the allowlist iff it is non-empty and is the trim of some comma-separated piece |
| Cors.AllowListConcat | checkout.js:4-8 | entries keep input order: the allowlist of `a,b` is that of `a` followed by that of `b` |
| Cors.AllowListOfJoined | checkout.js:4-8 | comma-joining non-empty, trimmed, comma-free origins and parsing the text gives the same list back |
| Cors.Permits | checkout.js:13 | the origin is permitted iff the allowlist is empty or some entry is `*` or equals the origin |
| Cors.SetCors | checkout.js:10-19 | the allow-origin header is written when the allowlist is empty, holds `*` or holds the request origin, with the origin or `*` for an empty origin; if not permitted, that header is left as it was; Vary, Allow-Methods and Allow-Headers are always written; no other header changes |
| Cors.BrowserAdmitsExactlyPermitted | checkout.js:13-14 | the Fetch Standard's CORS check, run on these headers for a non-empty origin, passes iff the allowlist permits that origin |
| Cors.CredentialedNeverAdmitted | checkout.js:13-18 | a credentialed request never passes the CORS check, since no allow-credentials header is sent |
| Checkout.NormalizeBody | checkout.js:27-32 | a non-string body becomes truthy (falsy becomes `{}`, truthy is kept); a string becomes its parse, or `{}` if parsing fails; only a string that parses to null or undefined leaves a nullish body |
| Checkout.CartOf | checkout.js:35 | destructuring `cart` throws iff the body is null or undefined, with V8's message; otherwise it gives the object's own `cart` member, or undefined when there is none |
| Checkout.PreferredOrigin | checkout.js:43 | the redirect base is DOMAIN if it is non-empty, else the Origin header if it is non-empty, else `http://localhost:5500`, and never empty |
| Checkout.StripTrailingSlash | checkout.js:44 | exactly one trailing `/` is removed when present; otherwise the string is unchanged |
| Checkout.RedirectOrigin | checkout.js:43-44 | the redirect origin is the preferred origin less its trailing `/` when it ends in one, and the preferred origin itself otherwise |
| Checkout.ProductName | checkout.js:51 | building the product name fails iff the name, or the option when truthy, does not convert to a primitive, with the conversion's message; otherwise it is the name's string alone for any falsy option (undefined, null, false, 0, empty), and the name's string + " · " + the option's string for a truthy one |
| Checkout.MakeLineItem | checkout.js:47-54 | building one line item succeeds iff the entry is not nullish and its `price`, `name` and truthy `option` convert; a nullish entry gives the message for reading `price`, any other failure the conversion's message; on success the item has currency `mxn`, quantity `qty`, unit amount from `price` and the product name |
| Checkout.FirstUnbuildable | checkout.js:47-54 | the index where `cart.map` throws: every earlier entry can be built and the entry there cannot; the length when every entry can be built |
| Checkout.LineItems | checkout.js:47-54 | the map succeeds iff every entry can be built, and otherwise fails with the message of the first entry that cannot (read-`price` for a nullish one, the conversion's otherwise); on success there is one item per entry, in order, each with currency `mxn`, quantity `qty`, unit amount from `price` and product name from `name` and `option` |
| Checkout.Session | checkout.js:56-63 | the session is a payment in locale `es-419` with automatic billing-address collection and the given line items; the success URL is the origin + `/success.html?session_id={CHECKOUT_SESSION_ID}` and the cancel URL the origin + `/`, so the cancel URL is a prefix of the success URL |
| Checkout.CreateSession | checkout.js:47-68 | the session request is sent iff every cart entry can be built; the status is 200 or 500, and 200 exactly when a request was sent and the provider created the session; the headers are passed through |
| Checkout.HandlePost | checkout.js:27-68 | a POST ends in 200, 400 or 500; a 400 is always `{error:"Cart empty"}` with no provider call; the provider is called only when the payment client was constructed; the headers are passed through |
| Checkout.Handle | checkout.js:21-70 | every response carries the CORS headers; the status is one of 200, 204, 400, 405 and 500; the provider is called only for POST; there is no body exactly when the status is 204 |
| CheckoutProperties.PreflightShortCircuits | checkout.js:22-23 | OPTIONS gives 204 with no body and no provider call, and the outcome does not depend on the body, the engine or the provider |
| CheckoutProperties.OtherMethodsRejected | checkout.js:24 | any method other than OPTIONS and POST gives 405 `{error:"Method not allowed"}` and does not depend on the body, the engine or the provider |
| CheckoutProperties.CartEmptyRejected | checkout.js:35-38 | a POST gets 400 iff the normalised body is not nullish and its `cart` is not a non-empty array; that 400 is `{error:"Cart empty"}` with no provider call |
| CheckoutProperties.MissingOrMalformedBodyIsCartEmpty | checkout.js:27-38 | an absent or falsy body, or a string that does not parse, gives 400 "Cart empty": normalisation never fails a request on its own |
| CheckoutProperties.NullJsonBodyIsServerError | checkout.js:29-68 | a string body that parses to null gives 500 with the destructuring TypeError's message and no provider call |
| CheckoutProperties.StringBodyLikeDecoded | checkout.js:27-32 | a string body parsing to a value that is neither a string nor nullish is handled exactly like that value sent already decoded |
| CheckoutProperties.ProviderCalledExactlyWhen | checkout.js:35-63 | the provider is called iff the request is a POST whose normalised body holds a non-empty `cart` array, the payment client was constructed, and every cart entry can be built |
| CheckoutProperties.ClientErrorIsServerError | checkout.js:36-40 | when constructing the payment client throws, a POST with a non-empty cart gives 500 with that error's message before any entry is converted, and no provider call |
| CheckoutProperties.NullishEntryIsServerError | checkout.js:47-68 | once the payment client is constructed, when the first entry that cannot be built is nullish, at index i, the answer is 500 with that entry's read-`price` message and there is no provider call |
| CheckoutProperties.ConversionFailureIsServerError | checkout.js:47-68 | once the payment client is constructed, when the first entry that cannot be built is not nullish, the answer is 500 "Cannot convert object to primitive value" and there is no provider call |
| CheckoutProperties.ShadowedToStringName | checkout.js:47-68 | once the payment client is constructed, the cart `[{"name":{"toString":1},"price":1,"qty":1}]` gives 500 "Cannot convert object to primitive value" with no provider call |
| CheckoutProperties.ProviderCallShape | checkout.js:43-68 | for a POST whose normalised body holds a non-empty `cart` each of whose entries can be built, once the payment client is constructed, the provider is called with mode `payment`, locale `es-419`, billing `auto`, success URL origin + `/success.html?session_id={CHECKOUT_SESSION_ID}`, cancel URL origin + `/`, and line items matching the cart entry by entry; the answer is 200 `{url}` if the session is created, 500 `{error: message}` if it fails |
| CheckoutProperties.OkOnlyOnCreatedSession | checkout.js:56-68 | the status is 200 iff the provider was called and created the session |
| CheckoutProperties.RedirectOriginChoice | checkout.js:43-44 | the redirect origin is the first non-empty of DOMAIN, Origin and the fallback, minus a trailing slash iff it ends with one |
| CheckoutProperties.OneSlashStripped | checkout.js:43-44 | `https://gohan.mx//` becomes `https://gohan.mx/`, an empty DOMAIN falls through to the fallback, and an origin without a slash is kept |
| CheckoutProperties.BrowserAdmission | checkout.js:10-22 | on every response, a browser with a non-empty origin may read it iff the allowlist permits that origin, and never with credentials |
| CheckoutProperties.CoffeeLineItems | checkout.js:47-54 | the entry {name "Coffee", option "Large", price 19.99, qty 2} becomes one `mxn` line item named "Coffee · Large" with quantity 2 |
| CheckoutProperties.CoffeeExample | checkout.js:21-65 | a POST of that cart with DOMAIN `https://gohan.mx/` and a succeeding provider gives 200 with the session URL; the session is built on `https://gohan.mx`, and the shop's origin is echoed in the allow-origin header |
| CheckoutProperties.ProductNameOfStrings | checkout.js:51 | for every string name, a falsy option (absent, null, false, 0 or empty) gives the name alone and a non-empty string option gives name + " · " + option; an absent name prints as "undefined" |

## Left out

- api/checkout.js (another variant, whose `setCORS` writes four constant headers and always allows `*`) is not part of this model.
- Constructing the Stripe client from STRIPE_SECRET_KEY (checkout.js:40) is reduced to its outcome, `Config.clientError`: the message it throws, or none. The key itself and the client object are not modelled.
- `stripe.checkout.sessions.create` (checkout.js:56-63) is a network call. It is the `provider` parameter, which answers each session request with a created session or a failure message.
- `Math.round(it.price * 100)` (checkout.js:50) is floating-point arithmetic. It is the abstract `Engine.minorUnits`, so the model does not show that price 19.99 gives unit amount 1999.
- `JSON.parse` (checkout.js:29) is the abstract `Engine.parse`, which returns a value or nothing when it would throw.
- Number-to-string conversion inside template literals is the abstract `Engine.numeral`.
- `console.error` (checkout.js:67) is logging with no effect on the response.
- `async`/`await` and the platform's mutable `req`/`res` objects are replaced by a request value and a returned response record.
- Not modelled on the platform side: case-insensitive header names, the `Content-Type` header that `res.json` adds, and the JSON serialisation of the body (for example, an undefined `url` is dropped from the wire format).
- The TypeError messages are V8's wording; other engines word them differently.
- Body values are what JSON can express, plus `undefined`, with numbers as finite reals. Strings are sequences of Unicode scalar values: a JSON string with an unpaired surrogate escape such as `\ud800` is not represented; the handler only tests such strings for emptiness and concatenates them. Decoded JSON can also hold negative zero and the infinities (`-0`, `1e400`), which the model does not represent: a body, `price`, `qty` or `option` of -0 or an infinity is not covered. Decoded JSON never holds functions or getters, and an own key such as `toString`, `valueOf` or `__proto__` is an ordinary own property; an own `toString` makes conversion throw, which is modelled.
