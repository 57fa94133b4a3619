/** The decision logic of the SSO header reflector: the root-computing
    middleware and the `GET /` handler, as functions from what a request
    carries to the response the client receives. The handler's three
    redirects are modelled here as mutually exclusive, in source order;
    the source has no `return` after `res.redirect`, and module Server
    models what the code as written does after each redirect. */
module Reflector {
  import Strings

  datatype Option<T> = None | Some(value: T)

  /** A JavaScript object whose properties are strings: request headers,
      query parameters, parsed cookies, reply maps. */
  type Fields = map<string, string>

  const CookieName := "sso-redir"
  const CookieMaxAgeMs := 3600000
  const CookiePath := "/"
  const DefaultSignin := "signmein"
  const DefaultSignout := "signmeout"
  const ExpiresValue := "Sat, 26 Jul 1997 05:00:00 GMT"
  const CacheControlValue := "no-cache, must-revalidate"
  const JsonContentType := "application/json; charset=UTF-8"
  const ForwardedProto := "x-forwarded-proto"

  /** What the server reads of one request: its headers (names lower-case,
      as Node delivers them), whether the connection is TLS, the parsed
      query string, and what `cookie.parse` made of its Cookie header. */
  datatype Snapshot = Snapshot(headers: Fields, encrypted: bool, query: Fields, cookies: Fields)

  /** The request after the middleware: its headers as rewritten and `req.root`. */
  datatype Prepared = Prepared(headers: Fields, root: string)

  /** A Set-Cookie the response carries: `res.cookie(name, value, {path, maxAge})`
      or `res.clearCookie(name, {path})`. */
  datatype CookieAction =
    | SetCookie(name: string, value: string, path: string, maxAgeMs: nat)
    | ClearCookie(name: string, path: string)

  /** `reply.links`; `inLink` and `outLink` are the keys `in` and `out`. */
  datatype Links = Links(self: string, signin: string, signout: string, inLink: string, outLink: string)

  /** The JSON reply of a reflection. */
  datatype Reply = Reply(cookies: Fields, headers: Fields, otherheaders: Fields, links: Links)

  /** The response the client receives. */
  datatype Outcome =
    | Redirect(location: string, cookie: CookieAction)
    | Reflect(reply: Reply)
    | HostMissing  // `req.get('host')` is undefined and the middleware throws

  /** JavaScript truthiness of `m[k]`: present and not the empty string. */
  predicate Truthy(m: Fields, k: string) {
    k in m && m[k] != ""
  }

  /** `m[k] || d`. */
  function OrDefault(m: Fields, k: string, d: string): (r: string)
    ensures Truthy(m, k) ==> r == m[k]
    ensures !Truthy(m, k) ==> r == d
  {
    if Truthy(m, k) then m[k] else d
  }

  /** Whether the Host header names a local host: `host.indexOf('localhost') != -1`. */
  predicate IsLocal(host: string) {
    Strings.Contains(host, "localhost")
  }

  /** Express's `req.protocol` with `trust proxy` enabled: the first
      comma-separated entry of X-Forwarded-Proto, trimmed, or the
      connection's own scheme when that header is absent or empty. */
  function ProtocolOf(headers: Fields, encrypted: bool): string {
    var scheme := if encrypted then "https" else "http";
    Strings.Trim(Strings.BeforeComma(OrDefault(headers, ForwardedProto, scheme)))
  }

  /** The middleware: away from localhost it overwrites X-Forwarded-Proto
      with `https`, then sets `req.root` to protocol + `://` + host. It
      throws when the request has no Host header. */
  function Prepare(headers: Fields, encrypted: bool): (p: Option<Prepared>)
    ensures p.None? <==> "host" !in headers
    ensures p.Some? ==> p.value.headers.Keys >= headers.Keys
  {
    if "host" !in headers then None
    else
      var host := headers["host"];
      var rewritten := if IsLocal(host) then headers else headers[ForwardedProto := "https"];
      Some(Prepared(rewritten, ProtocolOf(rewritten, encrypted) + "://" + host))
  }

  /** `root + '?' + (headers[name] || fallback)`: where the SSO layer is sent. */
  function SignUrl(root: string, headers: Fields, name: string, fallback: string): string {
    root + "?" + OrDefault(headers, name, fallback)
  }

  function Signin(p: Prepared): string {
    SignUrl(p.root, p.headers, "policy-signin", DefaultSignin)
  }

  function Signout(p: Prepared): string {
    SignUrl(p.root, p.headers, "policy-signout", DefaultSignout)
  }

  /** Whether a header is an SSO policy header: `/policy/.test(key)`. */
  predicate IsPolicy(name: string) {
    Strings.Contains(name, "policy")
  }

  /** The headers of `h` named in `names` that are (`policy`) or are not
      (`!policy`) policy headers. */
  function HeadersAmong(h: Fields, names: set<string>, policy: bool): Fields {
    map k | k in names && k in h && IsPolicy(k) == policy :: h[k]
  }

  /** The headers of `h` that go to `reply.headers`. */
  function PolicyHeaders(h: Fields): Fields {
    HeadersAmong(h, h.Keys, true)
  }

  /** The headers of `h` that go to `reply.otherheaders`. */
  function OtherHeaders(h: Fields): Fields {
    HeadersAmong(h, h.Keys, false)
  }

  /** Taking one more header into account adds it to its own side and
      leaves the other side as it was. */
  lemma HeadersAmongStep(h: Fields, names: set<string>, name: string)
    requires name in h
    ensures HeadersAmong(h, names + {name}, IsPolicy(name)) == HeadersAmong(h, names, IsPolicy(name))[name := h[name]]
    ensures HeadersAmong(h, names + {name}, !IsPolicy(name)) == HeadersAmong(h, names, !IsPolicy(name))
  {
  }

  function MakeLinks(root: string, signin: string, signout: string, enc: string -> string): Links {
    Links(root, signin, signout, root + "?in=" + enc(root), root + "?out=" + enc(root))
  }

  /** The Set-Cookie that stashes a bounce target. */
  function Stash(target: string): CookieAction {
    SetCookie(CookieName, target, CookiePath, CookieMaxAgeMs)
  }

  /** The `GET /` handler on a prepared request, its redirects taken as
      exclusive in source order; `enc` stands for `encodeURIComponent`. */
  function Respond(p: Prepared, query: Fields, cookies: Fields, enc: string -> string): Outcome {
    if Truthy(query, "in") then Redirect(Signin(p), Stash(query["in"]))
    else if Truthy(query, "out") then Redirect(Signout(p), Stash(query["out"]))
    else if Truthy(cookies, CookieName) then Redirect(cookies[CookieName], ClearCookie(CookieName, CookiePath))
    else Reflect(Reply(cookies, PolicyHeaders(p.headers), OtherHeaders(p.headers),
                       MakeLinks(p.root, Signin(p), Signout(p), enc)))
  }

  /** Middleware then handler. The request fails exactly when it has no
      Host header. */
  function Handle(s: Snapshot, enc: string -> string): (o: Outcome)
    ensures o.HostMissing? <==> "host" !in s.headers
  {
    match Prepare(s.headers, s.encrypted)
    case None => HostMissing
    case Some(p) => Respond(p, s.query, s.cookies, enc)
  }

  /** With a Host header, the outcome is the handler's on the prepared request. */
  lemma HandleIsRespond(s: Snapshot, enc: string -> string)
    requires "host" in s.headers
    ensures Prepare(s.headers, s.encrypted).Some?
    ensures Handle(s, enc) == Respond(Prepare(s.headers, s.encrypted).value, s.query, s.cookies, enc)
  {
  }

  /** The response headers set before any branch is taken. */
  function FixedHeaders(): Fields {
    map["Expires" := ExpiresValue, "Cache-Control" := CacheControlValue]
  }

  /** The response headers the application sets for an outcome. */
  function HeadersOf(o: Outcome): Fields {
    match o
    case Redirect(_, _) => FixedHeaders()
    case Reflect(reply) => (FixedHeaders() + reply.headers)["Content-Type" := JsonContentType]
    case HostMissing => map[]
  }

  // ---------------------------------------------------------------------
  // Root and protocol

  /** Away from localhost the root is always `https://` + host, whatever
      the client or the proxy sent as X-Forwarded-Proto. */
  lemma RootIsHttpsAwayFromLocalhost(headers: Fields, encrypted: bool)
    requires "host" in headers && !IsLocal(headers["host"])
    ensures Prepare(headers, encrypted).Some?
    ensures Prepare(headers, encrypted).value.root == "https://" + headers["host"]
    ensures Prepare(headers, encrypted).value.headers == headers[ForwardedProto := "https"]
  {
    ForcedProtocol(headers, encrypted);
  }

  /** Once X-Forwarded-Proto is `https`, so is `req.protocol`. */
  lemma ForcedProtocol(headers: Fields, encrypted: bool)
    ensures ProtocolOf(headers[ForwardedProto := "https"], encrypted) == "https"
  {
    SchemesAreTokens();
    var forwarded := OrDefault(headers[ForwardedProto := "https"], ForwardedProto, if encrypted then "https" else "http");
    assert forwarded == "https";
  }

  /** The two schemes read back unchanged from X-Forwarded-Proto. */
  lemma SchemesAreTokens()
    ensures Strings.Trim(Strings.BeforeComma("https")) == "https"
    ensures Strings.Trim(Strings.BeforeComma("http")) == "http"
  {
    Strings.SingleToken("https");
    Strings.SingleToken("http");
  }

  /** On localhost the headers are untouched and the root takes the
      protocol from the request; with no X-Forwarded-Proto that is the
      connection's own scheme. */
  lemma RootOnLocalhost(headers: Fields, encrypted: bool)
    requires "host" in headers && IsLocal(headers["host"])
    ensures Prepare(headers, encrypted) == Some(Prepared(headers, ProtocolOf(headers, encrypted) + "://" + headers["host"]))
    ensures !Truthy(headers, ForwardedProto) ==>
      Prepare(headers, encrypted).value.root == (if encrypted then "https" else "http") + "://" + headers["host"]
  {
    SchemesAreTokens();
  }

  // ---------------------------------------------------------------------
  // Branches of the handler

  /** A sign-in or sign-out URL is the root, a `?`, and the header's value,
      or the fallback when the header is absent or empty. */
  lemma SignUrlShape(p: Prepared)
    ensures Signin(p) == p.root + "?" + (if Truthy(p.headers, "policy-signin") then p.headers["policy-signin"] else DefaultSignin)
    ensures Signout(p) == p.root + "?" + (if Truthy(p.headers, "policy-signout") then p.headers["policy-signout"] else DefaultSignout)
  {
  }

  /** A non-empty `in` stashes exactly its value for an hour on path `/` and
      sends the client to sign in, whatever else the request carries. */
  lemma InStartsSignin(p: Prepared, query: Fields, cookies: Fields, enc: string -> string)
    requires Truthy(query, "in")
    ensures Respond(p, query, cookies, enc) ==
      Redirect(Signin(p), SetCookie("sso-redir", query["in"], "/", 3600000))
  {
  }

  /** A non-empty `out`, with no `in`, stashes its value and sends the
      client to sign out. */
  lemma OutStartsSignout(p: Prepared, query: Fields, cookies: Fields, enc: string -> string)
    requires !Truthy(query, "in") && Truthy(query, "out")
    ensures Respond(p, query, cookies, enc) ==
      Redirect(Signout(p), SetCookie("sso-redir", query["out"], "/", 3600000))
  {
  }

  /** With neither `in` nor `out`, a stashed target sends the client there
      and the same response clears the stash. */
  lemma CookieBouncesBack(p: Prepared, query: Fields, cookies: Fields, enc: string -> string)
    requires !Truthy(query, "in") && !Truthy(query, "out") && Truthy(cookies, "sso-redir")
    ensures Respond(p, query, cookies, enc) ==
      Redirect(cookies["sso-redir"], ClearCookie("sso-redir", "/"))
  {
  }

  /** The handler redirects exactly when one of the three triggers is
      present, and otherwise reflects. */
  lemma RedirectsExactlyOnTrigger(p: Prepared, query: Fields, cookies: Fields, enc: string -> string)
    ensures Respond(p, query, cookies, enc).Redirect? <==>
      Truthy(query, "in") || Truthy(query, "out") || Truthy(cookies, CookieName)
    ensures !Respond(p, query, cookies, enc).Redirect? ==> Respond(p, query, cookies, enc).Reflect?
  {
  }

  // ---------------------------------------------------------------------
  // Reflection

  /** Every request header lands in exactly one of `headers` and
      `otherheaders`, with its value unchanged, and in `headers` exactly
      when its name contains `policy` somewhere. */
  lemma PartitionIsExact(h: Fields)
    ensures PolicyHeaders(h).Keys !! OtherHeaders(h).Keys
    ensures PolicyHeaders(h).Keys + OtherHeaders(h).Keys == h.Keys
    ensures forall k :: k in PolicyHeaders(h) <==> k in h && IsPolicy(k)
    ensures forall k :: k in PolicyHeaders(h) ==> PolicyHeaders(h)[k] == h[k]
    ensures forall k :: k in OtherHeaders(h) ==> OtherHeaders(h)[k] == h[k]
  {
  }

  /** The reflection's reply carries the parsed cookies unchanged, the
      middleware's headers split by policy, and the links built from the root. */
  lemma ReflectReply(p: Prepared, query: Fields, cookies: Fields, enc: string -> string)
    requires !Truthy(query, "in") && !Truthy(query, "out") && !Truthy(cookies, CookieName)
    ensures var o := Respond(p, query, cookies, enc);
      && o.Reflect?
      && o.reply.cookies == cookies
      && o.reply.headers == PolicyHeaders(p.headers)
      && o.reply.otherheaders == OtherHeaders(p.headers)
      && o.reply.links.self == p.root
      && o.reply.links.signin == Signin(p)
      && o.reply.links.signout == Signout(p)
      && o.reply.links.inLink == p.root + "?in=" + enc(p.root)
      && o.reply.links.outLink == p.root + "?out=" + enc(p.root)
  {
  }

  /** Away from localhost the headers a reflection splits hold
      X-Forwarded-Proto as `https`, whatever the client sent, and it lands
      among the other headers. */
  lemma ReflectShowsForcedProto(headers: Fields, encrypted: bool)
    requires "host" in headers && !IsLocal(headers["host"])
    ensures Prepare(headers, encrypted).Some?
    ensures var others := OtherHeaders(Prepare(headers, encrypted).value.headers);
      ForwardedProto in others && others[ForwardedProto] == "https"
  {
    RootIsHttpsAwayFromLocalhost(headers, encrypted);
    ForwardedProtoIsNotPolicy();
  }

  /** A reflection echoes every policy header of the request as a response
      header with the same value. */
  lemma EchoesPolicyHeaders(h: Fields, reply: Reply)
    requires reply.headers == PolicyHeaders(h)
    ensures forall k :: k in h && IsPolicy(k) ==> k in HeadersOf(Reflect(reply)) && HeadersOf(Reflect(reply))[k] == h[k]
  {
    ContentTypeIsNotPolicy();
    var out := HeadersOf(Reflect(reply));
    var p := PolicyHeaders(h);
    assert out == (FixedHeaders() + p)["Content-Type" := JsonContentType];
    forall k | k in h && IsPolicy(k) ensures k in out && out[k] == h[k] {
      assert k in p && p[k] == h[k];
      assert k != "Content-Type";
    }
  }

  /** A reflection echoes no other request header: besides Expires,
      Cache-Control and Content-Type, every response header is a policy
      header of the request, with its value. */
  lemma EchoesNothingElse(h: Fields, reply: Reply)
    requires reply.headers == PolicyHeaders(h)
    ensures forall k :: k in HeadersOf(Reflect(reply)) && k !in {"Expires", "Cache-Control", "Content-Type"} ==>
      k in h && IsPolicy(k) && HeadersOf(Reflect(reply))[k] == h[k]
  {
    var out := HeadersOf(Reflect(reply));
    var p := PolicyHeaders(h);
    assert out == (FixedHeaders() + p)["Content-Type" := JsonContentType];
    forall k | k in out && k !in {"Expires", "Cache-Control", "Content-Type"}
      ensures k in h && IsPolicy(k) && out[k] == h[k]
    {
      assert k in p;
    }
  }

  lemma ForwardedProtoIsNotPolicy()
    ensures !IsPolicy(ForwardedProto)
  {
    Strings.MissingChar(ForwardedProto, "policy", 'y');
  }

  lemma ContentTypeIsNotPolicy()
    ensures !IsPolicy("Content-Type")
  {
    Strings.MissingChar("Content-Type", "policy", 'l');
  }
}
