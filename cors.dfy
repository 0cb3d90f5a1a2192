/**
  The CORS half of checkout.js: the allowlist read from ALLOWED_ORIGINS (`getAllowed`),
  the response headers `setCORS` writes, and, as the reference those headers answer to,
  the CORS check a browser applies to a response under the CORS protocol of the WHATWG
  Fetch Standard.
 */
module Cors {
  import opened Wrappers
  import opened JsString

  const AllowOriginHeader := "Access-Control-Allow-Origin"
  const VaryHeader := "Vary"
  const AllowMethodsHeader := "Access-Control-Allow-Methods"
  const AllowHeadersHeader := "Access-Control-Allow-Headers"
  const AllowCredentialsHeader := "Access-Control-Allow-Credentials"

  /** The headers `setCORS` may write. */
  const CorsHeaderNames: set<string> := {AllowOriginHeader, VaryHeader, AllowMethodsHeader, AllowHeadersHeader}

  /** `x || ""` for an optional string: absent becomes empty, a present string stays as is. */
  function OrEmpty(x: Option<string>): string {
    if x.Some? then x.value else ""
  }

  /** `parts.map(s => s.trim())`: one trimmed piece per piece, in order. */
  function TrimEach(parts: seq<string>): (r: seq<string>)
    ensures |r| == |parts|
    ensures forall k :: 0 <= k < |r| ==> r[k] == Trim(parts[k])
    ensures forall k :: 0 <= k < |r| ==> IsTrimmed(r[k]) && |r[k]| <= |parts[k]|
  {
    seq(|parts|, k requires 0 <= k < |parts| => Trim(parts[k]))
  }

  /** `xs.filter(Boolean)` on strings: keeps the non-empty ones, in order. */
  function DropEmpty(xs: seq<string>): (r: seq<string>)
    ensures |r| <= |xs|
    ensures forall e :: e in r <==> e in xs && e != []
  {
    if xs == [] then []
    else (if xs[0] == [] then [] else [xs[0]]) + DropEmpty(xs[1..])
  }

  /** The allowlist parsed from the raw ALLOWED_ORIGINS text. */
  function AllowList(raw: string): (allowed: seq<string>)
    ensures forall k :: 0 <= k < |allowed| ==> allowed[k] != [] && IsTrimmed(allowed[k])
  {
    var trimmed := TrimEach(Split(raw));
    assert forall e :: e in trimmed ==> IsTrimmed(e);
    var allowed := DropEmpty(trimmed);
    assert forall k :: 0 <= k < |allowed| ==> allowed[k] in allowed;
    allowed
  }

  /** `getAllowed()`: an absent or empty ALLOWED_ORIGINS gives the empty allowlist. */
  function GetAllowed(allowedOrigins: Option<string>): (allowed: seq<string>)
    ensures allowedOrigins == None || allowedOrigins == Some("") ==> allowed == []
    ensures forall k :: 0 <= k < |allowed| ==> allowed[k] != [] && IsTrimmed(allowed[k])
  {
    AllowList(OrEmpty(allowedOrigins))
  }

  /** An entry is on the allowlist exactly when it is the trimmed, non-empty form of one of
      the comma-separated pieces of the raw text. */
  lemma AllowListMembership(raw: string, e: string)
    ensures e in AllowList(raw) <==> e != [] && exists p :: p in Split(raw) && Trim(p) == e
  {
    var parts := Split(raw);
    var trimmed := TrimEach(parts);
    if e in trimmed {
      var k :| 0 <= k < |trimmed| && trimmed[k] == e;
      assert parts[k] in parts && Trim(parts[k]) == e;
    }
    if exists p :: p in parts && Trim(p) == e {
      var p :| p in parts && Trim(p) == e;
      var k :| 0 <= k < |parts| && parts[k] == p;
      assert trimmed[k] == e;
    }
  }

  lemma {:induction false} DropEmptyConcat(a: seq<string>, b: seq<string>)
    ensures DropEmpty(a + b) == DropEmpty(a) + DropEmpty(b)
  {
    if a != [] {
      assert (a + b)[0] == a[0] && (a + b)[1..] == a[1..] + b;
      DropEmptyConcat(a[1..], b);
    } else {
      assert a + b == b;
    }
  }

  /** Entries keep the order of the raw text: the allowlist of two comma-joined texts is
      the first one's allowlist followed by the second one's. */
  lemma AllowListConcat(a: string, b: string)
    ensures AllowList(a + [','] + b) == AllowList(a) + AllowList(b)
  {
    SplitConcat(a, b);
    TrimEachConcat(Split(a), Split(b));
    DropEmptyConcat(TrimEach(Split(a)), TrimEach(Split(b)));
  }

  lemma TrimEachConcat(a: seq<string>, b: seq<string>)
    ensures TrimEach(a + b) == TrimEach(a) + TrimEach(b)
  {
    var l, r := TrimEach(a + b), TrimEach(a) + TrimEach(b);
    assert |l| == |r|;
    forall k | 0 <= k < |l|
      ensures l[k] == r[k]
    {
      if k < |a| {
        assert (a + b)[k] == a[k];
      } else {
        assert (a + b)[k] == b[k - |a|];
      }
    }
  }

  lemma {:induction false} DropEmptyKeepsNonEmpty(xs: seq<string>)
    requires forall k :: 0 <= k < |xs| ==> xs[k] != []
    ensures DropEmpty(xs) == xs
  {
    if xs != [] {
      DropEmptyKeepsNonEmpty(xs[1..]);
      assert [xs[0]] + xs[1..] == xs;
    }
  }

  /** Nothing is lost or reordered: comma-joining a list of non-empty, trimmed, comma-free
      origins and parsing the text gives the list back. */
  lemma AllowListOfJoined(origins: seq<string>)
    requires |origins| >= 1
    requires forall k :: 0 <= k < |origins| ==> origins[k] != [] && IsTrimmed(origins[k]) && CommaFree(origins[k])
    ensures AllowList(Join(origins)) == origins
  {
    SplitJoin(origins);
    forall k | 0 <= k < |origins|
      ensures Trim(origins[k]) == origins[k]
    {
      assert [] + origins[k] + [] == origins[k];
      TrimOfPadded([], origins[k], []);
    }
    assert TrimEach(origins) == origins;
    DropEmptyKeepsNonEmpty(origins);
  }

  /** The test in `setCORS`: an empty allowlist, a wildcard entry or the request's own origin. */
  predicate Permits(allowed: seq<string>, origin: string): (ok: bool)
    ensures ok <==> |allowed| == 0 || exists k :: 0 <= k < |allowed| && (allowed[k] == "*" || allowed[k] == origin)
  {
    |allowed| == 0 || "*" in allowed || origin in allowed
  }

  /** `setCORS(req, res)` applied to the header map `h`. The allow-origin header is written
      when the allowlist permits the request origin, with the origin itself or `*` when the
      request carried no origin; the other three headers are written unconditionally; no
      other header changes. */
  function SetCors(allowedOrigins: Option<string>, requestOrigin: Option<string>, h: map<string, string>): (h': map<string, string>)
    ensures var origin := OrEmpty(requestOrigin);
      Permits(GetAllowed(allowedOrigins), origin) ==>
        AllowOriginHeader in h' && h'[AllowOriginHeader] == (if origin == "" then "*" else origin)
    ensures !Permits(GetAllowed(allowedOrigins), OrEmpty(requestOrigin)) ==>
      (AllowOriginHeader in h' <==> AllowOriginHeader in h) &&
      (AllowOriginHeader in h ==> h'[AllowOriginHeader] == h[AllowOriginHeader])
    ensures VaryHeader in h' && h'[VaryHeader] == "Origin"
    ensures AllowMethodsHeader in h' && h'[AllowMethodsHeader] == "POST,OPTIONS"
    ensures AllowHeadersHeader in h' && h'[AllowHeadersHeader] == "Content-Type"
    ensures forall k :: k !in CorsHeaderNames ==> (k in h' <==> k in h) && (k in h ==> h'[k] == h[k])
  {
    var allowed := GetAllowed(allowedOrigins);
    var origin := OrEmpty(requestOrigin);
    var h1 := if Permits(allowed, origin) then h[AllowOriginHeader := if origin != "" then origin else "*"] else h;
    h1[VaryHeader := "Origin"][AllowMethodsHeader := "POST,OPTIONS"][AllowHeadersHeader := "Content-Type"]
  }

  /** The CORS check of the Fetch Standard, run by a browser on the response to a
      cross-origin request whose serialised origin is `requestOrigin`; `includeCredentials`
      says whether the request's credentials mode is "include". */
  predicate CorsCheck(h: map<string, string>, requestOrigin: string, includeCredentials: bool) {
    if AllowOriginHeader !in h then false
    else if !includeCredentials && h[AllowOriginHeader] == "*" then true
    else if h[AllowOriginHeader] != requestOrigin then false
    else if !includeCredentials then true
    else AllowCredentialsHeader in h && h[AllowCredentialsHeader] == "true"
  }

  /** A browser lets a page read the response exactly when the allowlist permits the page's
      origin. A browser always sends a non-empty Origin header on a cross-origin request. */
  lemma BrowserAdmitsExactlyPermitted(allowedOrigins: Option<string>, origin: string)
    requires origin != ""
    ensures CorsCheck(SetCors(allowedOrigins, Some(origin), map[]), origin, false)
            <==> Permits(GetAllowed(allowedOrigins), origin)
  {
  }

  /** No credentialed request is ever admitted: the allow-credentials header is never sent. */
  lemma CredentialedNeverAdmitted(allowedOrigins: Option<string>, origin: string)
    requires origin != ""
    ensures !CorsCheck(SetCors(allowedOrigins, Some(origin), map[]), origin, true)
  {
    assert AllowCredentialsHeader !in CorsHeaderNames;
  }
}
