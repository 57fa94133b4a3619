# rawheaders: the SSO header reflector, in Dafny

`rawheaders` is a small Express application that sits behind a single
sign-on (SSO) layer. It reflects the headers that layer injects.

- A plain `GET /` answers with a JSON reply. The reply holds the request's cookies, its `policy` headers and its other headers, apart, plus a set of links. Every policy header is also echoed as a response header.
- `GET /?in=<url>` stashes `<url>` in the `sso-redir` cookie for an hour. It then redirects to the SSO sign-in URL: the root, `?`, and the `policy-signin` header or `signmein`.
- `GET /?out=<url>` does the same with the sign-out URL: `policy-signout` or `signmeout`.
- The browser's next request still carries the cookie. That request is redirected to the stashed URL, and the cookie is cleared in the same response.

Before the route, a middleware computes `req.root`, which is protocol + `://` + host. Away from `localhost` it first overwrites X-Forwarded-Proto with `https`, so the root is always `https://host` there.

The project has five modules:

- `Strings` (`strings.dfy`) holds the string tests the server relies on:
  - `indexOf` / `/policy/.test` as substring search;
  - Express's `req.protocol` reading of X-Forwarded-Proto: the first comma-separated entry, trimmed.
- `Reflector` (`reflector.dfy`) is the decision logic as functions:
  - `Prepare` is the middleware;
  - `Respond` is the handler, with its three redirects taken as exclusive in source order;
  - `Handle` is both in sequence;
  - the module also holds the lemmas about them.
- `Express` (`express.dfy`) models the request and response objects the code mutates. The response tracks its headers, its Set-Cookie list, its Location, its body, and whether its head was sent. As in Node, any header change after that throws ERR_HTTP_HEADERS_SENT.
- `Server` (`server.dfy`) is the middleware and the handler as written, statement by statement on those objects. The policy-header loop keeps its invariants. The module proves two things:
  - the response the client gets is the one `Reflector.Respond` describes;
  - the handler throws exactly when it redirected (see Findings).
- `Bounce` (`bounce.dfy`) models the browser's cookie jar across three requests. It proves the stash / bounce / land round trip.

Some facts about the server that a reader might expect otherwise:

- the cookie is named `sso-redir`;
- redirects use Express's default status;
- a header is a policy header when `policy` occurs anywhere in its (lower-case) name;
- there is only the `/` route;
- away from localhost the root is `https`, not `http`;
- nothing is redacted and there is no production/non-production classification.

## Model

| member | source | states |
|---|---|---|
| Strings.ContainsMeansOccurs | server.js:22 | the substring test succeeds exactly when `sub` occurs at some index of `s`, both directions |
| Strings.MissingChar | server.js:63 | a string lacking one character of the pattern never contains it |
| Strings.TrimStartDropsLeadingSpaces | server.js:27 | the trimmed start is a suffix of the value, every dropped character is a space, tab or no-break space, and the kept part does not start with one |
| Strings.TrimEndDropsTrailingSpaces | server.js:27 | the trimmed end is a prefix of the value, every dropped character is a space, tab or no-break space, and the kept part does not end with one |
| Strings.TrimUnpadded | server.js:27 | a value with no space at either end is its own trim |
| Strings.BeforeComma | server.js:27 | the result is a comma-free prefix of the value, followed by a comma whenever it is shorter |
| Strings.SingleToken | server.js:27 | a single unpadded token reads back unchanged from X-Forwarded-Proto |
| Reflector.Prepare | server.js:21-29 | the middleware fails exactly when there is no Host header, and it never drops a header |
| Reflector.Handle | server.js:21-31 | the request fails exactly when it has no Host header |
| Reflector.HandleIsRespond | server.js:28-31 | with a Host header, the outcome is the handler's on the prepared request |
| Reflector.RootIsHttpsAwayFromLocalhost | server.js:22-27 | away from localhost the root is `https://` + host, and X-Forwarded-Proto is rewritten to `https`, whatever the request carried |
| Reflector.ForcedProtocol | server.js:24-27 | once X-Forwarded-Proto is `https`, the protocol is `https` on either kind of connection |
| Reflector.SchemesAreTokens | server.js:27 | `https` and `http` read back unchanged as protocols |
| Reflector.RootOnLocalhost | server.js:22-27 | on localhost the headers are untouched; with no X-Forwarded-Proto the root takes the connection's scheme |
| Reflector.SignUrlShape | server.js:32-33 | sign-in and sign-out URLs are root, `?`, then the policy header's value or `signmein` / `signmeout` |
| Reflector.InStartsSignin | server.js:38-41 | a non-empty `in` redirects to sign-in and stashes exactly its value for 3600000 ms on `/`, whatever else the request carries |
| Reflector.OutStartsSignout | server.js:44-47 | a non-empty `out` without `in` redirects to sign-out and stashes its value |
| Reflector.CookieBouncesBack | server.js:49-54 | with neither `in` nor `out`, a stashed `sso-redir` redirects to its value and clears the cookie on `/` |
| Reflector.RedirectsExactlyOnTrigger | server.js:38-54 | the handler redirects if and only if `in`, `out` or the stash is present, and otherwise reflects |
| Reflector.HeadersAmongStep | server.js:62-69 | classifying one more header adds it to its own side only |
| Reflector.PartitionIsExact | server.js:62-69 | every request header lands in exactly one of `headers` / `otherheaders`, value unchanged, in `headers` exactly when its name contains `policy` |
| Reflector.ReflectReply | server.js:56-76 | the reply carries the parsed cookies, the split headers and the five links built from the root |
| Reflector.ReflectShowsForcedProto | server.js:22-25 | away from localhost the reflected `otherheaders` show X-Forwarded-Proto as `https` |
| Reflector.EchoesPolicyHeaders | server.js:62-65 | every policy header of the request is a response header with its value |
| Reflector.EchoesNothingElse | server.js:34-35 | apart from Expires, Cache-Control and Content-Type, every response header is a policy header of the request with its value |
| Reflector.ForwardedProtoIsNotPolicy | server.js:63 | X-Forwarded-Proto is never a policy header |
| Reflector.ContentTypeIsNotPolicy | server.js:78 | no policy header can overwrite the Content-Type the handler sets last |
| Express.Request.constructor | server.js:21 | the request object holds exactly what the request carried, with no root yet |
| Express.Response.constructor | server.js:31 | a new response has no headers, no cookies, no Location and no body, and is not sent |
| Express.Response.SetHeader | server.js:34-35 | sets one header on an unsent response; on a sent one it throws and changes nothing |
| Express.Response.Cookie | server.js:39 | appends one Set-Cookie to an unsent response; on a sent one it throws and changes nothing |
| Express.Response.Redirect | server.js:40 | sets the Location and sends the response; on a sent one it throws |
| Express.Response.End | server.js:79 | sends the body and ends the response |
| Server.RootMiddleware | server.js:21-29 | succeeds exactly when there is a Host header; then the request's headers and root are what `Prepare` computes, otherwise nothing changed |
| Server.HandleRoot | server.js:31-80 | the response holds exactly what `Respond` describes, and the handler throws if and only if that is a redirect |
| Server.StashOrBounce | server.js:37-54 | the response is sent exactly when `Respond` redirects, and it is then that redirect; otherwise it is untouched |
| Server.ReflectRequest | server.js:56-79 | on a fresh response it delivers `Respond`'s reflection; on a sent one it throws and changes nothing |
| Server.SplitHeaders | server.js:62-69 | the loop yields exactly the policy and other headers, and sets every policy header on an unsent response |
| Server.Serve | server.js:21-80 | the response is `Handle`'s outcome; the middleware throws exactly without a Host header and the handler exactly on a redirect |
| Server.InQueryRedirectsToSignin | server.js:38-41 | away from localhost, `?in=<url>` redirects to `https://host?signmein` and stashes `<url>` |
| Server.InQueryEndsInHeadersSentError | server.js:38-47 | the request `?in=...` on `app.example.org` is redirected to sign in, and the handler then throws |
| Bounce.Store | server.js:52 | a Set-Cookie writes its cookie, a clear removes it, and no other cookie changes |
| Bounce.Obeys | server.js:39 | a redirect's cookie writes or removes `sso-redir` in the jar, and nothing else |
| Bounce.Departs | server.js:38-47 | a request with `in` or `out` stashes its target |
| Bounce.Returns | server.js:49-54 | a plain request carrying the stash goes to it and clears it |
| Bounce.Lands | server.js:56-79 | a plain request without the stash is reflected with its cookies |
| Bounce.StashThenReturn | server.js:38-54 | the request after a stash is sent to the stashed target |
| Bounce.ReturnThenLand | server.js:49-79 | the request after the bounce is reflected without the stash |
| Bounce.RoundTrip | server.js:5-8 | across three requests: stash the target, bounce to it and clear the stash, then reflect the original cookies |

## Findings

| source | as written | input that shows it | evidently intended | confidence | as-written member | corrected member |
|---|---|---|---|---|---|---|
| server.js:38-54 | no `return` after `res.redirect`, so the handler goes on. Its next header change (the next `res.cookie`, `res.clearCookie` or `res.setHeader`) throws ERR_HTTP_HEADERS_SENT, and each redirected request ends in an exception | `GET /?in=https://app.example.org/done` with Host `app.example.org` | each redirect ends the handler. The first trigger in source order wins, and the handler redirects if and only if a trigger is present (Reflector.InStartsSignin, Reflector.RedirectsExactlyOnTrigger) | not executed | Server.InQueryEndsInHeadersSentError | Reflector.Respond |

The client still receives the exclusive-branch response, because the
response was already sent before the throw (Server.HandleRoot). What the
missing `return` adds is the exception on every redirect.

## Left out

- Listening on the port, `x-powered-by`, and logging: process plumbing.
- Express's redirect details are left out:
  - the 302 status;
  - the Content-Type, Content-Length and Vary headers and the short body it writes;
  - the Location encoding and the `back` alias.
  The model keeps the target URL as given.
- How Express serialises a Set-Cookie is left out: URL encoding of the value, Max-Age in seconds, and Expires. `Bounce` assumes that `cookie.parse` reads the stashed value back as it was stashed.
- `cookie.parse` itself is left out. The parsed cookies are an input of the request.
- `encodeURIComponent` is the parameter `enc`, uninterpreted.
- `json-stable-stringify` is left out. The body is the reply value, not its JSON text.
- What Express does with the exceptions is not part of this model. After a redirect, its final handler finds the response already sent and closes the connection. For the middleware's TypeError without a Host header, it answers with a 500 error page; the model ends that request at `HostMissing` with the response untouched.
- Header values are arbitrary strings here. Node decodes header bytes as latin1 and refuses control characters other than tab. Within that alphabet, JavaScript's `trim` removes exactly space, tab and U+00A0, the characters `Strings.IsSpace` accepts. Wider whitespace, such as U+2000, cannot reach the protocol reading.
- Query values are strings. Repeated or bracketed parameters, which Express parses to arrays and objects, are left out.
- Response header names are compared exactly, while Node ignores case. No policy header name matches Expires, Cache-Control or Content-Type in any case, so this changes nothing here.
- Node joins repeated request headers. The request headers here are one value per lower-case name, as Node delivers them.
- HEAD requests are left out, as are routes other than `/`.
