/**
 * The edge guard of `src/proxy.ts`: static assets pass untouched; every other
 * path is public only if it is exactly `/login`, and otherwise needs a
 * non-empty token, whose content is never examined.
 */
module Proxy {
  import opened Options
  import opened JsStrings
  import opened EdgeRequest

  /** The alternatives of `assetExtensionPattern`, each matched after a `.` at the very end of the path. */
  const AssetExtensions: seq<string> := ["png", "jpg", "jpeg", "gif", "svg", "ico", "webp", "css", "js", "txt"]

  /**
   * `.` and then `ext` at the very end of `pathname`, letters compared the way
   * a regular expression with the `i` flag compares them.
   */
  predicate EndsWithExtension(pathname: string, ext: string) {
    |ext| < |pathname|
    && pathname[|pathname| - |ext| - 1] == '.'
    && EqualIgnoringAsciiCase(pathname[|pathname| - |ext|..], ext)
  }

  /**
   * `/\.(?:png|jpg|…|txt)$/i.test(pathname)`, computed by folding the path to
   * lower case; it holds exactly when the path ends in `.` and one of the
   * extensions up to ASCII case.
   */
  predicate HasAssetExtension(pathname: string)
    ensures HasAssetExtension(pathname) <==>
              exists ext | ext in AssetExtensions :: EndsWithExtension(pathname, ext)
  {
    FoldedSuffixesMatch(pathname);
    exists ext | ext in AssetExtensions :: EndsWith(LowerAsciiString(pathname), "." + ext)
  }

  /** Comparing folded suffixes is the case-insensitive comparison, for each listed extension. */
  lemma FoldedSuffixesMatch(pathname: string)
    ensures forall ext | ext in AssetExtensions ::
              EndsWith(LowerAsciiString(pathname), "." + ext) <==> EndsWithExtension(pathname, ext)
  {
    forall ext | ext in AssetExtensions
      ensures EndsWith(LowerAsciiString(pathname), "." + ext) <==> EndsWithExtension(pathname, ext)
    {
      FoldedSuffixMatches(pathname, ext);
    }
  }

  /** One extension written in lower case: the folded path ends in it exactly when the path does up to case. */
  lemma FoldedSuffixMatches(pathname: string, ext: string)
    requires forall i :: 0 <= i < |ext| ==> !('A' <= ext[i] <= 'Z')
    ensures EndsWith(LowerAsciiString(pathname), "." + ext) <==> EndsWithExtension(pathname, ext)
  {
    if |ext| < |pathname| {
      var l := LowerAsciiString(pathname);
      var k := |pathname| - |ext|;
      var tail := pathname[k..];
      assert l[k..] == LowerAsciiString(tail);
      LowerAsciiFixesLowerCase(ext);
      FoldsAgreeIffEqualIgnoringCase(tail, ext);
      assert l[k - 1] == '.' <==> pathname[k - 1] == '.' by {
        assert SameIgnoringAsciiCase(l[k - 1], pathname[k - 1]);
      }
      HeadAndRest(l[k - 1..], '.', ext);
      assert l[k - 1..][1..] == l[k..];
    }
  }

  /** A string is a character followed by a rest exactly when it starts with the one and continues with the other. */
  lemma HeadAndRest(x: string, c: char, y: string)
    requires |x| == |y| + 1
    ensures x == [c] + y <==> x[0] == c && x[1..] == y
  {
    if x[0] == c && x[1..] == y {
      assert x == [x[0]] + x[1..];
    }
  }

  /**
   * The three ways a path counts as a static asset. None of them covers
   * `/login`, so the asset test never hides the public route.
   */
  predicate IsStaticAsset(pathname: string)
    ensures IsStaticAsset(pathname) ==> !IsPublicRoute(pathname)
  {
    assert !HasAssetExtension(LoginPath) by {
      forall ext | ext in AssetExtensions ensures !EndsWithExtension(LoginPath, ext) {
        assert LoginPath[|LoginPath| - 1] == 'n';
      }
    }
    assert LoginPath[1] != "/_next"[1];
    StartsWith(pathname, "/_next") || pathname == "/favicon.ico" || HasAssetExtension(pathname)
  }

  /** `proxy(request)`. */
  function Proxy(req: Request): (d: Decision)
    ensures d == Next || d == Redirect(LoginPath)
    ensures d.Redirect? <==>
              !IsStaticAsset(req.pathname) && req.pathname != LoginPath && !IsTruthy(RequestToken(req))
  {
    if IsStaticAsset(req.pathname) then Next
    else
      var token := RequestToken(req);
      if IsPublicRoute(req.pathname) then Next
      else if !IsTruthy(token) then Redirect(LoginPath)
      else Next
  }

  /** The asset test comes before any token logic: a static asset is let through whatever the cookie and the header say. */
  lemma StaticAssetsAlwaysPass(req: Request)
    requires IsStaticAsset(req.pathname)
    ensures Proxy(req) == Next
  {
  }

  /** A path ending in `.` and one of the listed extensions is an asset, whatever comes before. */
  lemma AssetExtensionMatches(stem: string, ext: string)
    requires ext in AssetExtensions
    ensures HasAssetExtension(stem + "." + ext)
  {
    var suffix := "." + ext;
    LowerAsciiConcat(stem, suffix);
    assert LowerAsciiString(suffix) == suffix;
    var l := LowerAsciiString(stem + suffix);
    assert l[|l| - |suffix|..] == suffix;
  }

  /**
   * The extension test ignores the case of ASCII letters: `/logo.PNG` and
   * `/logo.Png` are assets just as `/logo.png` is.
   */
  lemma AssetExtensionIgnoresCase(stem: string, e: string)
    requires LowerAsciiString(e) in AssetExtensions
    ensures HasAssetExtension(stem + "." + e)
  {
    var ext := LowerAsciiString(e);
    LowerAsciiConcat(stem + ".", e);
    LowerAsciiConcat(stem + ".", ext);
    LowerAsciiFixesLowerCase(ext);
    AssetExtensionMatches(stem, ext);
    assert LowerAsciiString(stem + "." + e) == LowerAsciiString(stem + "." + ext);
  }

  /** Every path that starts with `/_next` passes, whatever follows, with or without a token. */
  lemma NextPrefixBypasses(rest: string, authCookie: Option<string>, authorization: Option<string>)
    ensures Proxy(Request("/_next" + rest, authCookie, authorization)) == Next
  {
    assert ("/_next" + rest)[..|"/_next"|] == "/_next";
  }

  /** The token is the non-empty cookie, otherwise the header with its first `"Bearer "` removed. */
  lemma ProxyReadsTokenAsRequestToken(req: Request)
    requires !IsStaticAsset(req.pathname) && req.pathname != LoginPath
    ensures Proxy(req) == Next <==> IsTruthy(RequestToken(req))
  {
  }

  /** `/login` is let through with or without a token. */
  lemma LoginAlwaysPasses(authCookie: Option<string>, authorization: Option<string>)
    ensures Proxy(Request(LoginPath, authCookie, authorization)) == Next
  {
  }

  /** `/login/x` is not public: without a token it is redirected. */
  lemma LoginSubpathIsProtected()
    ensures Proxy(Request("/login/x", None, None)) == Redirect(LoginPath)
  {
    assert !StartsWith("/login/x", "/_next") by {
      assert "/login/x"[1] != "/_next"[1];
    }
    assert !HasAssetExtension("/login/x") by {
      var l := LowerAsciiString("/login/x");
      assert l[|l| - 1] == 'x';
      forall ext | ext in AssetExtensions ensures !EndsWith(l, "." + ext) {
      }
    }
  }

  /** Without a non-empty token, a protected path is redirected to `/login`; a header value of exactly `"Bearer "` is such a case. */
  lemma MissingTokenRedirects(pathname: string, authCookie: Option<string>)
    requires !IsStaticAsset(pathname) && pathname != LoginPath && !IsTruthy(authCookie)
    ensures Proxy(Request(pathname, authCookie, None)) == Redirect(LoginPath)
    ensures Proxy(Request(pathname, authCookie, Some(BearerPrefix))) == Redirect(LoginPath)
  {
    assert StartsWith(BearerPrefix, BearerPrefix);
    assert BearerPrefix[|BearerPrefix|..] == "";
  }

  /** Any non-empty cookie value, however meaningless, opens every path: presence is all that is checked. */
  lemma AnyTokenPasses(pathname: string, cookie: string, authorization: Option<string>)
    requires cookie != ""
    ensures Proxy(Request(pathname, Some(cookie), authorization)) == Next
  {
  }

  /** Following a redirect never redirects again: the target is always let through. */
  lemma RedirectTargetPasses(req: Request)
    requires Proxy(req).Redirect?
    ensures Proxy(req.(pathname := Proxy(req).location)) == Next
  {
  }

  /** A trimmed `Authorization: Bearer ` header opens every path: the scheme word alone is a non-empty token. */
  lemma BareSchemeWordPasses(pathname: string)
    ensures Proxy(Request(pathname, None, Some("Bearer"))) == Next
  {
    BareSchemeWordIsAToken(pathname);
  }
}
