/** The middleware and the `GET /` handler as the code is written: one
    statement after another on the request and response objects. The
    handler has no `return` after any of its three `res.redirect` calls,
    so after a redirect it goes on, and its next header change (a
    `res.cookie`, `res.clearCookie` or `res.setHeader`) throws, because
    the redirect has already sent the head of the response. What the client
    receives is still the response of Reflector.Respond, whose redirects are
    exclusive. */
module Server {
  import opened Reflector
  import opened Express
  import Strings

  /** How a request's processing ends. */
  datatype Fate =
    | Finished          // the handler ran to its end
    | HandlerThrew      // ERR_HTTP_HEADERS_SENT out of the handler, after a redirect went out
    | MiddlewareThrew   // TypeError: the request has no Host header

  /** The middleware of `app.use`. Without a Host header `req.get('host')`
      is undefined and reading `indexOf` on it throws (`ok == false`). */
  method RootMiddleware(req: Request) returns (ok: bool)
    modifies req
    ensures ok == ("host" in old(req.headers))
    ensures ok ==> req.root.Some? && Prepare(old(req.headers), req.encrypted) == Some(Prepared(req.headers, req.root.value))
    ensures !ok ==> req.headers == old(req.headers) && req.root == old(req.root)
  {
    if "host" !in req.headers {
      return false;
    }
    var host := req.headers["host"];
    if !Strings.Contains(host, "localhost") {
      // the proxy in front keeps losing X-Forwarded-Proto
      req.headers := req.headers[ForwardedProto := "https"];
    }
    req.root := Some(ProtocolOf(req.headers, req.encrypted) + "://" + host);
    return true;
  }

  /** The `GET /` handler, statement by statement. `threw` is whether it
      ended in ERR_HTTP_HEADERS_SENT: it does exactly when it redirected,
      and in every case the response holds what Reflector.Respond says. */
  method HandleRoot(req: Request, res: Response, enc: string -> string) returns (threw: bool)
    requires req.root.Some?
    requires res.Pristine()
    modifies res
    ensures var o := Respond(Prepared(req.headers, req.root.value), req.query, req.cookies, enc);
      res.Delivered(o) && (threw <==> o.Redirect?)
  {
    var signin := req.root.value + "?" + OrDefault(req.headers, "policy-signin", DefaultSignin);
    var signout := req.root.value + "?" + OrDefault(req.headers, "policy-signout", DefaultSignout);
    var ok := res.SetHeader("Expires", ExpiresValue);
    ok := res.SetHeader("Cache-Control", CacheControlValue);
    assert res.headers == FixedHeaders();
    threw := StashOrBounce(req, res, signin, signout, enc);
    if threw {
      return;
    }
    threw := ReflectRequest(req, res, signin, signout, enc);
  }

  /** The three redirects of the handler, none followed by a `return`:
      `in`, then `out`, then the stashed cookie. A redirect that is followed
      by a second one throws at the second one's Set-Cookie (`threw`); a
      redirect that is the last one leaves the response ended. */
  method StashOrBounce(req: Request, res: Response, signin: string, signout: string, ghost enc: string -> string)
    returns (threw: bool)
    requires req.root.Some?
    requires signin == Signin(Prepared(req.headers, req.root.value))
    requires signout == Signout(Prepared(req.headers, req.root.value))
    requires res.headers == FixedHeaders() && res.setCookies == [] && res.location == None
    requires res.body == None && !res.headersSent
    modifies res
    ensures var o := Respond(Prepared(req.headers, req.root.value), req.query, req.cookies, enc);
      && (res.headersSent <==> o.Redirect?)
      && (o.Redirect? ==> res.Delivered(o))
      && (!o.Redirect? ==> !threw && res.headers == FixedHeaders() && res.setCookies == []
                           && res.location == None && res.body == None)
  {
    ghost var o := Respond(Prepared(req.headers, req.root.value), req.query, req.cookies, enc);
    var ok;
    // save redirect and trigger the SSO sign-in
    if Truthy(req.query, "in") {
      ok := res.Cookie(SetCookie(CookieName, req.query["in"], CookiePath, CookieMaxAgeMs));
      ok := res.Redirect(signin);
      assert res.Delivered(o);
    }
    // save redirect and trigger the SSO sign-out
    if Truthy(req.query, "out") {
      ok := res.Cookie(SetCookie(CookieName, req.query["out"], CookiePath, CookieMaxAgeMs));
      if !ok {
        return true;
      }
      ok := res.Redirect(signout);
      assert res.Delivered(o);
    }
    // detect the stashed target and bounce back to it
    if Truthy(req.cookies, CookieName) {
      ok := res.Cookie(ClearCookie(CookieName, CookiePath));
      if !ok {
        return true;
      }
      ok := res.Redirect(req.cookies[CookieName]);
      assert res.Delivered(o);
    }
    threw := false;
  }

  /** The reflection part of the handler: the reply, the echoed policy
      headers, Content-Type and the end of the response. On a response a
      redirect has already sent, its first header change throws (`threw`). */
  method ReflectRequest(req: Request, res: Response, signin: string, signout: string, enc: string -> string)
    returns (threw: bool)
    requires req.root.Some?
    requires signin == Signin(Prepared(req.headers, req.root.value))
    requires signout == Signout(Prepared(req.headers, req.root.value))
    modifies res
    ensures var o := Respond(Prepared(req.headers, req.root.value), req.query, req.cookies, enc);
      && (old(res.headersSent) ==>
            threw && res.headers == old(res.headers) && res.setCookies == old(res.setCookies)
            && res.location == old(res.location) && res.body == old(res.body) && res.headersSent)
      && ((!old(res.headersSent) && old(res.headers) == FixedHeaders() && old(res.setCookies) == []
           && old(res.location) == None && old(res.body) == None && o.Reflect?) ==>
            !threw && res.Delivered(o))
  {
    var cookies := req.cookies;
    var ok, policy, other := SplitHeaders(req.headers, res);
    if !ok {
      return true;
    }
    var root := req.root.value;
    var reply := Reply(cookies, policy, other,
      Links(root, signin, signout, root + "?in=" + enc(root), root + "?out=" + enc(root)));
    ok := res.SetHeader("Content-Type", JsonContentType);
    if !ok {
      return true;
    }
    res.End(reply);
    return false;
  }

  /** The loop of the handler's reflection: every header goes to `policy`
      or `other`, and each policy header is also set on the response. On a
      response already sent, the first policy header throws (`ok == false`). */
  method SplitHeaders(headers: Fields, res: Response) returns (ok: bool, policy: Fields, other: Fields)
    modifies res
    ensures ok ==> policy == PolicyHeaders(headers) && other == OtherHeaders(headers)
    ensures !old(res.headersSent) ==> ok && res.headers == old(res.headers) + policy
    ensures old(res.headersSent) ==> res.headers == old(res.headers)
    ensures res.setCookies == old(res.setCookies) && res.location == old(res.location)
    ensures res.body == old(res.body) && res.headersSent == old(res.headersSent)
  {
    policy, other := map[], map[];
    var todo := headers.Keys;
    ghost var done: set<string> := {};
    while todo != {}
      invariant todo !! done && todo + done == headers.Keys
      invariant policy == HeadersAmong(headers, done, true)
      invariant other == HeadersAmong(headers, done, false)
      invariant res.headers == old(res.headers) + policy
      invariant old(res.headersSent) ==> policy == map[]
      invariant res.setCookies == old(res.setCookies) && res.location == old(res.location)
      invariant res.body == old(res.body) && res.headersSent == old(res.headersSent)
      decreases todo
    {
      var key :| key in todo;
      HeadersAmongStep(headers, done, key);
      if Strings.Contains(key, "policy") {
        ok := res.SetHeader(key, headers[key]);
        if !ok {
          return;
        }
        policy := policy[key := headers[key]];
      } else {
        other := other[key := headers[key]];
      }
      todo := todo - {key};
      done := done + {key};
    }
    ok := true;
  }

  /** A request through the middleware and, when that succeeds, the handler. */
  method Serve(s: Snapshot, enc: string -> string) returns (res: Response, fate: Fate)
    ensures fresh(res)
    ensures res.Delivered(Handle(s, enc))
    ensures fate == MiddlewareThrew <==> Handle(s, enc).HostMissing?
    ensures fate == HandlerThrew <==> Handle(s, enc).Redirect?
    ensures fate == Finished <==> Handle(s, enc).Reflect?
  {
    var req := new Request(s);
    res := new Response();
    var ok := RootMiddleware(req);
    if !ok {
      return res, MiddlewareThrew;
    }
    HandleIsRespond(s, enc);
    var threw := HandleRoot(req, res, enc);
    fate := if threw then HandlerThrew else Finished;
  }

  /** `GET /?in=<target>` with only a Host header and no cookies. */
  function InQueryRequest(host: string, encrypted: bool, target: string): Snapshot {
    Snapshot(map["host" := host], encrypted, map["in" := target], map[])
  }

  /** Away from localhost, such a request is sent to sign in on the `https`
      root, with its target stashed. */
  lemma InQueryRedirectsToSignin(host: string, encrypted: bool, target: string, enc: string -> string)
    requires !IsLocal(host) && target != ""
    ensures Handle(InQueryRequest(host, encrypted, target), enc) ==
      Redirect("https://" + host + "?" + DefaultSignin, Stash(target))
  {
    var s := InQueryRequest(host, encrypted, target);
    RootIsHttpsAwayFromLocalhost(s.headers, encrypted);
    var p := Prepared(s.headers[ForwardedProto := "https"], "https://" + host);
    HandleIsRespond(s, enc);
    InStartsSignin(p, s.query, s.cookies, enc);
    assert !Truthy(p.headers, "policy-signin");
  }

  /** `app.example.org` is not a local host. */
  lemma ExampleHostIsRemote()
    ensures !IsLocal("app.example.org")
  {
    Strings.MissingChar("app.example.org", "localhost", 'h');
  }

  /** Through the code as written, `GET /?in=https://app.example.org/done`
      with Host `app.example.org` gets its redirect to sign in, and the
      handler then dies on ERR_HTTP_HEADERS_SENT. */
  method InQueryEndsInHeadersSentError(enc: string -> string) returns (fate: Fate, location: Option<string>)
    ensures fate == HandlerThrew
    ensures location == Some("https://" + "app.example.org" + "?" + DefaultSignin)
  {
    var host, target := "app.example.org", "https://app.example.org/done";
    ExampleHostIsRemote();
    InQueryRedirectsToSignin(host, false, target, enc);
    var res;
    res, fate := Serve(InQueryRequest(host, false, target), enc);
    location := res.location;
  }
}
