/** The two objects the server's code mutates: Node's incoming request,
    with the `root` property the middleware attaches, and the outgoing
    response, with the calls the handler makes on it. Node refuses to
    change the headers of a response whose head has gone out
    (ERR_HTTP_HEADERS_SENT); each mutating call reports that refusal as
    `ok == false`, which stands for the exception it throws. */
module Express {
  import opened Reflector

  class Request {
    /** `req.headers`; the middleware writes X-Forwarded-Proto into it. */
    var headers: Fields
    /** `req.root`, absent until the middleware sets it. */
    var root: Option<string>
    const encrypted: bool
    /** `req.query`. */
    const query: Fields
    /** What `cookie.parse(req.headers.cookie || '')` returns for this request. */
    const cookies: Fields

    constructor (s: Snapshot)
      ensures headers == s.headers && root == None
      ensures encrypted == s.encrypted && query == s.query && cookies == s.cookies
    {
      headers := s.headers;
      root := None;
      encrypted := s.encrypted;
      query := s.query;
      cookies := s.cookies;
    }
  }

  class Response {
    /** Headers set with `setHeader`. */
    var headers: Fields
    /** The Set-Cookie headers added with `cookie` and `clearCookie`, in order. */
    var setCookies: seq<CookieAction>
    /** Where `redirect` sent the client. */
    var location: Option<string>
    /** The JSON reply given to `end`. */
    var body: Option<Reply>
    /** The head of the response has been written. */
    var headersSent: bool

    predicate Pristine()
      reads this
    {
      headers == map[] && setCookies == [] && location == None && body == None && !headersSent
    }

    /** The client received exactly the response `o` describes. */
    predicate Delivered(o: Outcome)
      reads this
    {
      match o
      case Redirect(target, cookie) =>
        headers == HeadersOf(o) && setCookies == [cookie] && location == Some(target) && body == None && headersSent
      case Reflect(reply) =>
        headers == HeadersOf(o) && setCookies == [] && location == None && body == Some(reply) && headersSent
      case HostMissing =>
        Pristine()
    }

    constructor ()
      ensures Pristine()
    {
      headers := map[];
      setCookies := [];
      location := None;
      body := None;
      headersSent := false;
    }

    /** `res.setHeader(name, value)`. */
    method SetHeader(name: string, value: string) returns (ok: bool)
      modifies this
      ensures ok == !old(headersSent)
      ensures headers == if ok then old(headers)[name := value] else old(headers)
      ensures setCookies == old(setCookies) && location == old(location)
      ensures body == old(body) && headersSent == old(headersSent)
    {
      ok := !headersSent;
      if ok {
        headers := headers[name := value];
      }
    }

    /** `res.cookie(...)` or `res.clearCookie(...)`: both append a Set-Cookie header. */
    method Cookie(c: CookieAction) returns (ok: bool)
      modifies this
      ensures ok == !old(headersSent)
      ensures setCookies == if ok then old(setCookies) + [c] else old(setCookies)
      ensures headers == old(headers) && location == old(location)
      ensures body == old(body) && headersSent == old(headersSent)
    {
      ok := !headersSent;
      if ok {
        setCookies := setCookies + [c];
      }
    }

    /** `res.redirect(url)`: sets the Location and ends the response. */
    method Redirect(url: string) returns (ok: bool)
      modifies this
      ensures ok == !old(headersSent)
      ensures location == if ok then Some(url) else old(location)
      ensures headersSent
      ensures headers == old(headers) && setCookies == old(setCookies) && body == old(body)
    {
      ok := !headersSent;
      if ok {
        location := Some(url);
        headersSent := true;
      }
    }

    /** `res.end(stringify(reply))` on a response not yet ended. */
    method End(reply: Reply)
      requires !headersSent
      modifies this
      ensures body == Some(reply) && headersSent
      ensures headers == old(headers) && setCookies == old(setCookies) && location == old(location)
    {
      body := Some(reply);
      headersSent := true;
    }
  }
}
