/**
 * What the two edge route guards (`proxy` and `middleware`) see of an inbound
 * navigation and what they decide. Both read the bearer token the same way:
 * the `auth_token` cookie when it is non-empty, otherwise the `authorization`
 * header with the first `"Bearer "` removed. Neither looks inside the token.
 */
module EdgeRequest {
  import opened Options
  import opened JsStrings

  /** The one path the guards let through without a token, and where they send everybody else. */
  const LoginPath: string := "/login"

  /** `publicRoutes`: looked up with `includes`, that is by exact equality. */
  const PublicRoutes: seq<string> := [LoginPath]

  /** The scheme word the guards strip from the `authorization` header. */
  const BearerPrefix: string := "Bearer "

  /**
   * The parts of a request the guards read: the URL's pathname, the value of
   * the `auth_token` cookie and the `authorization` header (`None` when the
   * request does not carry it).
   */
  datatype Request = Request(pathname: string, authCookie: Option<string>, authorization: Option<string>)

  /** `NextResponse.next()` or `NextResponse.redirect(location)`. */
  datatype Decision = Next | Redirect(location: string)

  /**
   * The token expression shared by both guards:
   * `cookies.get('auth_token')?.value || headers.get('authorization')?.replace('Bearer ', '')`.
   */
  function RequestToken(req: Request): (token: Option<string>)
    ensures IsTruthy(req.authCookie) ==> token == req.authCookie
    ensures !IsTruthy(req.authCookie) && req.authorization.None? ==> token == None
    ensures !IsTruthy(req.authCookie) && req.authorization.Some? ==> token.Some?
    ensures !IsTruthy(req.authCookie) && req.authorization.Some? && StartsWith(req.authorization.value, BearerPrefix) ==>
              token == Some(req.authorization.value[|BearerPrefix|..])
    ensures !IsTruthy(req.authCookie) && req.authorization.Some? && !Contains(req.authorization.value, BearerPrefix) ==>
              token == req.authorization
  {
    var fromHeader :=
      match req.authorization
      case None => None
      case Some(h) =>
        var stripped := ReplaceFirst(h, BearerPrefix, "");
        assert StartsWith(h, BearerPrefix) ==> stripped == h[|BearerPrefix|..];
        Some(stripped);
    OrElse(req.authCookie, fromHeader)
  }

  /**
   * `publicRoutes.includes(pathname)`. The allow-list holds one path, compared
   * for equality, so sub-paths of it are not public.
   */
  predicate IsPublicRoute(pathname: string)
    ensures IsPublicRoute(pathname) <==> pathname == LoginPath
  {
    pathname in PublicRoutes
  }

  /**
   * The header replacement is not anchored to the start: the first
   * `"Bearer "` is removed wherever it stands, so a header such as
   * `"Token Bearer abc"` yields the token `"Token abc"`.
   */
  lemma HeaderReplaceIsNotAnchored(pathname: string, scheme: string, rest: string)
    requires 'B' !in scheme
    ensures RequestToken(Request(pathname, None, Some(scheme + BearerPrefix + rest))) == Some(scheme + rest)
  {
    var h := scheme + BearerPrefix + rest;
    var i := |scheme|;
    assert h[i..i + |BearerPrefix|] == BearerPrefix;
    forall j | 0 <= j < i ensures !OccursAt(h, BearerPrefix, j) {
      assert h[j] == scheme[j];
      FirstCharMismatch(h, BearerPrefix, j);
    }
    ReplaceFirstAt(h, BearerPrefix, "", i);
    assert h[..i] == scheme && h[i + |BearerPrefix|..] == rest;
    assert ReplaceFirst(h, BearerPrefix, "") == scheme + rest;
    assert !IsTruthy(None);
  }

  /** A cookie that is present but empty does not count: the header is used instead. */
  lemma EmptyCookieFallsBackToHeader(pathname: string, header: string)
    ensures RequestToken(Request(pathname, Some(""), Some(BearerPrefix + header))) == Some(header)
  {
    var h := BearerPrefix + header;
    assert h[..|BearerPrefix|] == BearerPrefix;
    assert h[|BearerPrefix|..] == header;
  }

  /**
   * A header that is only the scheme word, without the space, holds no
   * `"Bearer "` to remove, so the word itself is the token. Header values
   * reach the guard with surrounding white space trimmed, so a request sent
   * with `Authorization: Bearer ` and nothing after it arrives in this form.
   */
  lemma BareSchemeWordIsAToken(pathname: string)
    ensures RequestToken(Request(pathname, None, Some("Bearer"))) == Some("Bearer")
    ensures IsTruthy(RequestToken(Request(pathname, None, Some("Bearer"))))
  {
    assert !Contains("Bearer", BearerPrefix);
  }
}
