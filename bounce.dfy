/** The sign-in round trip the server exists for, across three requests
    from one browser: a request with `in` (or `out`) stashes its target
    in the `sso-redir` cookie and goes to the SSO layer; the browser's next
    plain request is bounced back to the target, which clears the cookie;
    and the request after that is reflected. */
module Bounce {
  import opened Reflector

  /** The cookies a browser holds for the server, by name. */
  type Jar = Fields

  /** The browser's jar after it obeys one Set-Cookie. */
  function Store(jar: Jar, c: CookieAction): (r: Jar)
    ensures c.SetCookie? ==> c.name in r && r[c.name] == c.value
    ensures c.ClearCookie? ==> c.name !in r
    ensures forall k :: k != c.name ==> (k in r <==> k in jar)
    ensures forall k :: k != c.name && k in r ==> r[k] == jar[k]
  {
    match c
    case SetCookie(name, value, _, _) => jar[name := value]
    case ClearCookie(name, _) => jar - {name}
  }

  /** The browser's jar after it receives the response `o`. */
  function After(jar: Jar, o: Outcome): Jar {
    if o.Redirect? then Store(jar, o.cookie) else jar
  }

  /** The value of `in`, or of `out` when `in` is absent or empty. */
  function Target(query: Fields): string
    requires Truthy(query, "in") || Truthy(query, "out")
  {
    if Truthy(query, "in") then query["in"] else query["out"]
  }

  /** A redirect's Set-Cookie writes or removes `sso-redir` and no other cookie. */
  lemma Obeys(jar: Jar, o: Outcome)
    requires o.Redirect? && o.cookie.name == CookieName
    ensures o.cookie.SetCookie? ==> After(jar, o) == jar[CookieName := o.cookie.value]
    ensures o.cookie.ClearCookie? ==> After(jar, o) == jar - {CookieName}
  {
  }

  /** A request carrying `in` or `out` stashes its target. */
  lemma Departs(s: Snapshot, enc: string -> string)
    requires "host" in s.headers && (Truthy(s.query, "in") || Truthy(s.query, "out"))
    ensures Handle(s, enc).Redirect? && Handle(s, enc).cookie == Stash(Target(s.query))
  {
    HandleIsRespond(s, enc);
  }

  /** A plain request whose jar holds a stash goes to it and clears it. */
  lemma Returns(s: Snapshot, enc: string -> string)
    requires "host" in s.headers && !Truthy(s.query, "in") && !Truthy(s.query, "out")
    requires Truthy(s.cookies, CookieName)
    ensures Handle(s, enc) == Redirect(s.cookies[CookieName], ClearCookie(CookieName, CookiePath))
  {
    HandleIsRespond(s, enc);
  }

  /** A plain request with no stash is reflected with its cookies. */
  lemma Lands(s: Snapshot, enc: string -> string)
    requires "host" in s.headers && !Truthy(s.query, "in") && !Truthy(s.query, "out")
    requires CookieName !in s.cookies
    ensures Handle(s, enc).Reflect? && Handle(s, enc).reply.cookies == s.cookies
  {
    HandleIsRespond(s, enc);
  }

  /** The first two requests: the stash, then the bounce to it. */
  lemma StashThenReturn(s1: Snapshot, s2: Snapshot, enc: string -> string)
    requires "host" in s1.headers && (Truthy(s1.query, "in") || Truthy(s1.query, "out"))
    requires "host" in s2.headers && !Truthy(s2.query, "in") && !Truthy(s2.query, "out")
    requires s2.cookies == After(s1.cookies, Handle(s1, enc))
    ensures Handle(s1, enc).Redirect? && Handle(s1, enc).cookie == Stash(Target(s1.query))
    ensures s2.cookies == s1.cookies[CookieName := Target(s1.query)]
    ensures Handle(s2, enc) == Redirect(Target(s1.query), ClearCookie(CookieName, CookiePath))
  {
    Departs(s1, enc);
    Obeys(s1.cookies, Handle(s1, enc));
    Returns(s2, enc);
  }

  /** The last two requests: the bounce clears the stash, so the next
      request is reflected with the jar that is left. */
  lemma ReturnThenLand(s2: Snapshot, s3: Snapshot, enc: string -> string)
    requires "host" in s2.headers && !Truthy(s2.query, "in") && !Truthy(s2.query, "out")
    requires Truthy(s2.cookies, CookieName)
    requires "host" in s3.headers && !Truthy(s3.query, "in") && !Truthy(s3.query, "out")
    requires s3.cookies == After(s2.cookies, Handle(s2, enc))
    ensures Handle(s3, enc).Reflect? && Handle(s3, enc).reply.cookies == s2.cookies - {CookieName}
  {
    Returns(s2, enc);
    Obeys(s2.cookies, Handle(s2, enc));
    Lands(s3, enc);
  }

  /** Three requests from one browser: the first carries `in` or `out`; the
      next two carry neither, and the cookies each sends are the jar the
      previous response left. The first response stashes the target, the
      second sends the browser to that target and clears the stash, and
      the third reflects the browser's original cookies without the stash. */
  lemma RoundTrip(s1: Snapshot, s2: Snapshot, s3: Snapshot, enc: string -> string)
    requires "host" in s1.headers && (Truthy(s1.query, "in") || Truthy(s1.query, "out"))
    requires "host" in s2.headers && !Truthy(s2.query, "in") && !Truthy(s2.query, "out")
    requires "host" in s3.headers && !Truthy(s3.query, "in") && !Truthy(s3.query, "out")
    requires s2.cookies == After(s1.cookies, Handle(s1, enc))
    requires s3.cookies == After(s2.cookies, Handle(s2, enc))
    ensures Handle(s1, enc).Redirect? && Handle(s1, enc).cookie == Stash(Target(s1.query))
    ensures Handle(s2, enc) == Redirect(Target(s1.query), ClearCookie(CookieName, CookiePath))
    ensures Handle(s3, enc).Reflect? && Handle(s3, enc).reply.cookies == s1.cookies - {CookieName}
  {
    StashThenReturn(s1, s2, enc);
    ReturnThenLand(s2, s3, enc);
    assert s2.cookies - {CookieName} == s1.cookies - {CookieName};
  }
}
