/**
 * The edge guard of `src/middleware.ts`: the same public-route and token
 * logic as `proxy`, without the static-asset bypass.
 */
module Middleware {
  import opened Options
  import opened JsStrings
  import opened EdgeRequest
  import Proxy

  /** `middleware(request)`. */
  function Middleware(req: Request): (d: Decision)
    ensures d == Next || d == Redirect(LoginPath)
    ensures d.Redirect? <==> req.pathname != LoginPath && !IsTruthy(RequestToken(req))
  {
    var token := RequestToken(req);
    if IsPublicRoute(req.pathname) then Next
    else if !IsTruthy(token) then Redirect(LoginPath)
    else Next
  }

  /** `/login` is let through with or without a token. */
  lemma LoginAlwaysPasses(authCookie: Option<string>, authorization: Option<string>)
    ensures Middleware(Request(LoginPath, authCookie, authorization)) == Next
  {
  }

  /** Every other path without a non-empty token goes to `/login`, a header value of exactly `"Bearer "` included. */
  lemma MissingTokenRedirects(pathname: string, authCookie: Option<string>)
    requires pathname != LoginPath && !IsTruthy(authCookie)
    ensures Middleware(Request(pathname, authCookie, None)) == Redirect(LoginPath)
    ensures Middleware(Request(pathname, authCookie, Some(BearerPrefix))) == Redirect(LoginPath)
  {
    assert StartsWith(BearerPrefix, BearerPrefix);
    assert BearerPrefix[|BearerPrefix|..] == "";
  }

  /** Any non-empty token is accepted without being examined. */
  lemma AnyTokenPasses(req: Request)
    requires IsTruthy(RequestToken(req))
    ensures Middleware(req) == Next
  {
  }

  /** There is no asset bypass here: `/logo.png` without a token is redirected, though `proxy` lets it through. */
  lemma NoAssetBypass()
    ensures Middleware(Request("/logo.png", None, None)) == Redirect(LoginPath)
    ensures Proxy.Proxy(Request("/logo.png", None, None)) == Next
  {
    Proxy.AssetExtensionMatches("/logo", "png");
    assert "/logo" + "." + "png" == "/logo.png";
  }

  /** Off the asset paths, the two guards decide alike for every cookie and header. */
  lemma AgreesWithProxyOffAssets(req: Request)
    requires !Proxy.IsStaticAsset(req.pathname)
    ensures Middleware(req) == Proxy.Proxy(req)
  {
  }

  /** Following a redirect never redirects again. */
  lemma RedirectTargetPasses(req: Request)
    requires Middleware(req).Redirect?
    ensures Middleware(req.(pathname := Middleware(req).location)) == Next
  {
  }

  /** A trimmed `Authorization: Bearer ` header opens every path here too. */
  lemma BareSchemeWordPasses(pathname: string)
    ensures Middleware(Request(pathname, None, Some("Bearer"))) == Next
  {
    BareSchemeWordIsAToken(pathname);
  }
}
