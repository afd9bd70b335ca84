# Employee portal front end: route guard, session manager and profile-page logic

This project models the decision logic of a small employee self-service
portal built with Next.js, and proves properties of it in Dafny.

- **Edge route guard.** There are two versions, `proxy` and `middleware`.
  Each decides, for a navigation, whether to let it through
  (`NextResponse.next()`) or to redirect it to `/login`. The inputs are the
  pathname, the `auth_token` cookie and the `authorization` header.
  - The token is the non-empty cookie. Otherwise it is the header with its
    first `"Bearer "` removed, wherever that occurrence stands.
  - `/login` is the only public path, matched exactly.
  - Any non-empty token opens every other path. The token is never checked.
  - `proxy` also lets static assets through before it looks at any token.
    These are paths that start with `/_next` (so `/_nextfoo` counts too),
    `/favicon.ico`, and paths that end in `.` and one of ten file extensions,
    with ASCII case ignored.
- **Session manager** (`AuthProvider`). It owns five pieces of state: `user`,
  `token`, `isLoading`, the durable `auth_token` store, and the `auth_token`
  cookie. Its operations are the mount effect, `fetchUserProfile`, `login`
  and `logout`. Each network call is a parameter that says how the call
  turned out.
- **Profile page logic.** This covers:
  - the employee-type label;
  - the contract-details table;
  - the blur clamp and reveal toggle of redacted fields;
  - the payslip fetch and the panel branch it leads to;
  - the payslip download request;
  - the redirect to `/login` for visitors who are not authenticated.

## Files and structure

| file | module | models |
|---|---|---|
| `options.dfy` | `Options` | `null` / `undefined` as `Option` |
| `js_strings.dfy` | `JsStrings` | `startsWith`, `endsWith`, `indexOf`, first-occurrence `replace`, the `i` regex flag on ASCII, string truthiness, `a \|\| b` |
| `edge_request.dfy` | `EdgeRequest` | what both guards read and decide: the request, the decision, the token expression, the public-route list |
| `proxy.dfy` | `Proxy` | `src/proxy.ts` |
| `middleware.dfy` | `Middleware` | `src/middleware.ts` |
| `types.dfy` | `Types` | the records of `src/types/index.ts` that the modelled code reads |
| `auth_context.dfy` | `AuthContext` | `src/contexts/AuthContext.tsx` |
| `profile_page.dfy` | `ProfilePage` | the logic of `src/app/profile/page.tsx` |

The guards are pure functions, so they are Dafny functions.

The session manager and the page's payslip state change step by step, so
each is a class whose fields the methods update in place:
`AuthContext.AuthProvider`, `ProfilePage.PayslipPanel` and
`ProfilePage.RedactedField`. Each method's postcondition says that the new
state is a pure transition function of the old state, for example
`AfterLogin(old(Snapshot()), …)`. The properties are proved as lemmas about
those transition functions.

`Mirrored` is the invariant that the store and the cookie hold the same
token, and that a token in memory is the stored one. It is *preserved* by
every operation (`StepPreservesMirrored`, `RunPreservesMirrored`). It is not
*established* at start-up. The browser may hold any store and cookie when
the page first renders, because the cookie has a one-day lifetime and the
store has none.

Two things the code does that a reader might not expect:
- A rejected `login` does not discard a stored token. It leaves the store,
  the cookie, `token` and `user` as they were.
- A profile fetch that fails after a successful login is not reported to the
  caller. `login` returns normally with the session fully cleared
  (`LoginSuccessOutcomes`).

## Model

| member | source | states |
|---|---|---|
| `JsStrings.IndexOf` | src/proxy.ts:20 | the result is the first position where the pattern occurs (an occurrence, with none before it), or `None` exactly when it occurs nowhere; positions count Unicode scalar values rather than UTF-16 code units |
| `JsStrings.ReplaceFirst` | src/proxy.ts:20 | a string-pattern `replace` with a replacement holding no `$` (here `""`) returns the input unchanged when the pattern does not occur, replaces a leading occurrence, and shortens the input by the pattern's length less the replacement's |
| `JsStrings.ReplaceFirstAt` | src/proxy.ts:20 | a replacement holding no `$` is spliced in at the first occurrence, wherever it stands (not anchored to the start) |
| `JsStrings.LowerAscii` | src/proxy.ts:6 | against an ASCII-only pattern such as the extension list, the `i` flag folds only `A`–`Z`, each to its lower-case letter; every other character is unchanged |
| `JsStrings.LowerAsciiString` | src/proxy.ts:6 | the folded string has the same length, agrees with the input position by position up to ASCII case, and holds no upper-case ASCII letter |
| `JsStrings.LowerAsciiConcat` | src/proxy.ts:6 | folding a concatenation folds each part |
| `JsStrings.FoldsAgreeIffEqualIgnoringCase` | src/proxy.ts:6 | two strings fold to the same string exactly when they are equal up to ASCII case, as the `i` flag compares them |
| `JsStrings.LowerAsciiFixesLowerCase` | src/proxy.ts:6 | folding a string without upper-case ASCII letters leaves it unchanged |
| `JsStrings.OrElse` | src/proxy.ts:18-20 | `a \|\| b` is `a` whenever `a` is truthy and `b` otherwise, so it is truthy exactly when either operand is |
| `JsStrings.OrEmpty` | src/app/profile/page.tsx:529-535 | `x \|\| ''` is empty exactly when `x` is missing or empty, else `x` itself |
| `EdgeRequest.RequestToken` | src/proxy.ts:18-20 | a non-empty cookie is the token; with no cookie and no header there is none; a header that starts with `"Bearer "` gives what follows it; a header without `"Bearer "` is the token as it stands |
| `EdgeRequest.IsPublicRoute` | src/proxy.ts:23-24 | a path is public if and only if it equals `/login`, so sub-paths of it are not |
| `EdgeRequest.HeaderReplaceIsNotAnchored` | src/proxy.ts:20 | for a header `scheme + "Bearer " + rest` with no `B` in `scheme`, the token is `scheme + rest` (e.g. `"Token Bearer abc"` gives `"Token abc"`) |
| `EdgeRequest.EmptyCookieFallsBackToHeader` | src/proxy.ts:18-20 | an empty cookie is ignored and the header is used |
| `EdgeRequest.BareSchemeWordIsAToken` | src/proxy.ts:18-20 | a header that is just `"Bearer"` holds no `"Bearer "` to remove, so the token is the non-empty word `"Bearer"` |
| `Proxy.HasAssetExtension` | src/proxy.ts:6-12 | the regular-expression test holds exactly when the path ends in `.` and one of the ten extensions, compared up to ASCII case (`EndsWithExtension`) |
| `Proxy.FoldedSuffixesMatch` | src/proxy.ts:6 | for each listed extension, the folded path ends in it exactly when the path ends in it up to case |
| `Proxy.FoldedSuffixMatches` | src/proxy.ts:6 | the same for one extension written in lower case |
| `Proxy.IsStaticAsset` | src/proxy.ts:9-12 | no static asset is a public route: the asset test never hides `/login` |
| `Proxy.Proxy` | src/proxy.ts:4-39 | the decision is `Next` or a redirect to `/login`, and it is a redirect exactly when the path is not an asset, not `/login`, and the token is missing or empty |
| `Proxy.StaticAssetsAlwaysPass` | src/proxy.ts:9-15 | the asset check comes first: an asset path is let through whatever the cookie and header are |
| `Proxy.AssetExtensionMatches` | src/proxy.ts:6-12 | any path ending in `.` plus one of the ten listed extensions is an asset |
| `Proxy.AssetExtensionIgnoresCase` | src/proxy.ts:6 | a path ending in `.` and any spelling of a listed extension up to ASCII case (`.PNG`, `.Png`) is an asset |
| `Proxy.NextPrefixBypasses` | src/proxy.ts:10-14 | every path that starts with `/_next`, including `/_nextfoo`, passes with any cookie and header |
| `Proxy.ProxyReadsTokenAsRequestToken` | src/proxy.ts:17-38 | on a protected non-asset path, the guard allows exactly when the extracted token is non-empty |
| `Proxy.LoginAlwaysPasses` | src/proxy.ts:23-29 | `/login` is allowed with any cookie and header |
| `Proxy.LoginSubpathIsProtected` | src/proxy.ts:23-35 | `/login/x` without a token is redirected to `/login` |
| `Proxy.MissingTokenRedirects` | src/proxy.ts:32-35 | a protected path without a cookie is redirected, whether the header is missing or exactly `"Bearer "` |
| `Proxy.AnyTokenPasses` | src/proxy.ts:37-38 | any non-empty cookie opens every path; its content is not inspected |
| `Proxy.RedirectTargetPasses` | src/proxy.ts:23-35 | applying the guard to a redirect's target never redirects again |
| `Proxy.BareSchemeWordPasses` | src/proxy.ts:18-38 | a request whose only credential is the header `"Bearer"` passes on every path |
| `Middleware.Middleware` | src/middleware.ts:4-29 | the decision is `Next` or a redirect to `/login`, and it is a redirect exactly when the path is not `/login` and the token is missing or empty |
| `Middleware.LoginAlwaysPasses` | src/middleware.ts:13-19 | `/login` is allowed with any cookie and header |
| `Middleware.MissingTokenRedirects` | src/middleware.ts:22-25 | any other path without a cookie is redirected, with no header or a bare `"Bearer "` |
| `Middleware.AnyTokenPasses` | src/middleware.ts:27-28 | any non-empty token is accepted as it is |
| `Middleware.NoAssetBypass` | src/middleware.ts:4-29 | `/logo.png` without a token is redirected by `middleware` but let through by `proxy` |
| `Middleware.AgreesWithProxyOffAssets` | src/middleware.ts:7-28 | on every path that is not a static asset, `middleware` and `proxy` decide alike for every cookie and header |
| `Middleware.RedirectTargetPasses` | src/middleware.ts:13-25 | a redirect's target is always allowed |
| `Middleware.BareSchemeWordPasses` | src/middleware.ts:7-28 | a request whose only credential is the header `"Bearer"` passes on every path |
| `AuthContext.Authenticated` | src/contexts/AuthContext.tsx:24 | an authenticated session whose store and cookie are mirrored holds a non-empty token in both |
| `AuthContext.Initial` | src/contexts/AuthContext.tsx:20-22 | the first render has no user and no token, is loading and not authenticated, and holds exactly the store and cookie the browser kept; it is mirrored exactly when those two agree |
| `AuthContext.AfterProfileFetch` | src/contexts/AuthContext.tsx:41-70 | loading has ended after a profile fetch, whatever its outcome |
| `AuthContext.AfterMount` | src/contexts/AuthContext.tsx:26-39 | loading has ended after the mount effect |
| `AuthContext.AfterLogin` | src/contexts/AuthContext.tsx:72-109 | loading has ended after `login`, whatever its outcome |
| `AuthContext.AfterLogout` | src/contexts/AuthContext.tsx:111-119 | `logout` leaves `isLoading` as it was |
| `AuthContext.TokenAloneIsNotAuthenticated` | src/contexts/AuthContext.tsx:24 | authenticated exactly when a user is present and the token is present and non-empty; a token without a user never is |
| `AuthContext.MountWithoutSavedToken` | src/contexts/AuthContext.tsx:29-35 | without a saved token only `isLoading` changes, to false |
| `AuthContext.MountWithSavedToken` | src/contexts/AuthContext.tsx:29-33 | a saved token becomes the in-memory token; a good profile authenticates with it; a failed one leaves every field empty and loading over, with nothing raised |
| `AuthContext.ProfileSuccessKeepsToken` | src/contexts/AuthContext.tsx:55-69 | a good profile replaces `user` wholesale and leaves the token, store and cookie alone; loading ends |
| `AuthContext.ProfileFailureClears` | src/contexts/AuthContext.tsx:57-69 | a failed profile fetch removes the token from store, cookie and memory, drops the user and ends loading |
| `AuthContext.LoginFailureLeavesSession` | src/contexts/AuthContext.tsx:85-108 | a failed login raises the server's message, or `"Login failed"` when that is missing or empty, or an exception's own message; the session is unchanged except that loading ends |
| `AuthContext.InvalidCredentialsScenario` | src/contexts/AuthContext.tsx:85-88 | a 401 whose body says "Invalid credentials" raises exactly that, with nothing stored and nobody authenticated |
| `AuthContext.LoginSuccessOutcomes` | src/contexts/AuthContext.tsx:90-102 | a successful login returns normally; it ends authenticated with `token = store = cookie = jwt` (authenticated unless the jwt is empty), or fully cleared when the profile fetch fails |
| `AuthContext.LogoutClears` | src/contexts/AuthContext.tsx:111-119 | `logout` empties store, cookie, token and user, keeps `isLoading`, and leaves a mirrored, unauthenticated state |
| `AuthContext.LogoutIdempotent` | src/contexts/AuthContext.tsx:111-119 | logging out twice equals logging out once |
| `AuthContext.StepPreservesMirrored` | src/contexts/AuthContext.tsx:26-119 | mount, login and logout each keep the store and cookie equal, and an in-memory token equal to the stored one |
| `AuthContext.RunPreservesMirrored` | src/contexts/AuthContext.tsx:26-119 | any sequence of those operations keeps the invariant |
| `AuthContext.AuthenticatedTokenIsStoredTwice` | src/contexts/AuthContext.tsx:24-119 | from a first render whose store and cookie agree, any authenticated state reached has its token in the store and in the cookie |
| `AuthContext.AuthenticatedSessionPassesEdge` | src/contexts/AuthContext.tsx:95-99 | the cookie of a mirrored, authenticated session gets every path through `proxy` |
| `AuthContext.AuthProvider.IsAuthenticated` | src/contexts/AuthContext.tsx:24 | `isAuthenticated` holds exactly when `user` is present and `token` is present and non-empty |
| `AuthContext.AuthProvider.constructor` | src/contexts/AuthContext.tsx:20-22 | the state starts as `Initial` of what the browser kept |
| `AuthContext.AuthProvider.FetchUserProfile` | src/contexts/AuthContext.tsx:41-70 | the fields move exactly as `AfterProfileFetch` says |
| `AuthContext.AuthProvider.Mount` | src/contexts/AuthContext.tsx:26-39 | the fields move exactly as `AfterMount` says |
| `AuthContext.AuthProvider.Login` | src/contexts/AuthContext.tsx:72-109 | the fields and the raised message are exactly `AfterLogin`'s |
| `AuthContext.AuthProvider.Logout` | src/contexts/AuthContext.tsx:111-119 | the fields move exactly as `AfterLogout` says |
| `ProfilePage.SomeFulltime` | src/app/profile/page.tsx:373 | `some` finds a full-time contract if and only if the list has one |
| `ProfilePage.EmployeeType` | src/app/profile/page.tsx:371-376 | "Not specified" exactly when the contracts are absent or empty; "Fulltime" exactly when some contract is full-time; "Contractual" exactly when there are contracts and all are client staffing |
| `ProfilePage.ContractSectionShown` | src/app/profile/page.tsx:492-494 | a shown section has at least one row, and the employee type beside it is not "Not specified" |
| `ProfilePage.RowOf` | src/app/profile/page.tsx:528-544 | each of the location, extension and duration cells is blank exactly when its field is missing or empty, and otherwise shows that field; the dates are the contract's |
| `ProfilePage.ContractRows` | src/app/profile/page.tsx:522-547 | every client-staffing contract has its row, every row comes from a client-staffing contract, and all-client-staffing lists give one row each |
| `ProfilePage.ContractRowsAppend` | src/app/profile/page.tsx:522-547 | the rows keep the contracts' order: two lists joined give their two tables joined |
| `ProfilePage.ShownSectionStartsWithFirstContract` | src/app/profile/page.tsx:492-494 | when the section is shown, its first row is the first contract's |
| `ProfilePage.FulltimeFirstHidesSection` | src/app/profile/page.tsx:492-494 | a full-time first contract hides the section whatever follows |
| `ProfilePage.BlurStrength` | src/app/profile/page.tsx:129 | the strength is within [0, 100], equals an in-range percentage, and is 0 below the range and 100 above it |
| `ProfilePage.RenderField` | src/app/profile/page.tsx:129-152 | "Not provided" exactly for a missing or empty value; otherwise the value, blurred with the clamped `BlurStrength` of the percentage exactly while not revealed |
| `ProfilePage.DefaultBlurIsHalf` | src/app/profile/page.tsx:122-129 | a field given no percentage is blurred at strength 50 |
| `ProfilePage.ClickSwapsView` | src/app/profile/page.tsx:143-152 | a click turns a blurred view into the revealed view of the same text and back |
| `ProfilePage.RedactedField.constructor` | src/app/profile/page.tsx:128 | a field starts blurred |
| `ProfilePage.RedactedField.Click` | src/app/profile/page.tsx:143 | a click flips `revealed` |
| `ProfilePage.ClickTwice` | src/app/profile/page.tsx:143 | two clicks restore `revealed` and the view |
| `ProfilePage.AfterFetchPayslips` | src/app/profile/page.tsx:298-313 | without a token nothing changes |
| `ProfilePage.FetchSuccessReplacesList` | src/app/profile/page.tsx:301-306 | with a token, success replaces the list, clears the error and ends loading |
| `ProfilePage.FetchFailureKeepsList` | src/app/profile/page.tsx:307-311 | with a token, failure keeps the list, sets "Failed to load payslips" and ends loading |
| `ProfilePage.PanelView` | src/app/profile/page.tsx:877-942 | the panel shows, in priority order, the spinner, the stored error message with retry, the non-empty list, or "No payslips available" |
| `ProfilePage.PanelAfterFetch` | src/app/profile/page.tsx:877-942 | after a fetch with a token the panel shows the retry prompt on failure, else the new list or the empty notice |
| `ProfilePage.InitialPanelIsEmpty` | src/app/profile/page.tsx:281-283 | the first render shows the empty notice |
| `ProfilePage.PayslipPanel.constructor` | src/app/profile/page.tsx:281-283 | the payslip state starts empty, not loading, without error |
| `ProfilePage.PayslipPanel.FetchPayslips` | src/app/profile/page.tsx:298-313 | the fields move exactly as `AfterFetchPayslips` says |
| `ProfilePage.DownloadRequestFor` | src/app/profile/page.tsx:315-325 | a request is made if and only if both a token and a user are present, and it carries the payslip's filename, year, month id, month name and employee id |
| `ProfilePage.DownloadRequestCopiesFiveFields` | src/app/profile/page.tsx:319-325 | with a token and a user the request is exactly those five fields, and two payslips give the same request exactly when they agree on them |
| `ProfilePage.LoginRedirect` | src/app/profile/page.tsx:285-289 | the page stays while loading or authenticated, and otherwise navigates, always to a path the edge guards treat as public |
| `ProfilePage.ShouldFetchPayslips` | src/app/profile/page.tsx:292-296 | the payslip effect runs exactly when the session is authenticated |
| `ProfilePage.StayingOnPageMeansEdgePasses` | src/app/profile/page.tsx:285-289 | in any session started from one saved token, a settled page that does not redirect holds a cookie `proxy` lets through on every path |
| `ProfilePage.LogoutRedirects` | src/app/profile/page.tsx:285-289 | logging out of a settled session sends the page to `/login` |
| `ProfilePage.MountRedirectsUnlessProfileLoads` | src/app/profile/page.tsx:285-289 | after mount the page stays exactly when a saved token was there and its profile loaded; otherwise it goes to `/login` |

## Left out

- HTTP and JSON. The backend calls and `src/utils/payslips.ts` are not part of this model. Each call's result is an outcome parameter.
- `ProfileOk` carries a user: a successful response whose body lacks `data` (which would set `user` to `undefined`) is not modelled.
- Browser side effects are not modelled:
  - the blob URL;
  - the temporary download anchor;
  - `window.open` for documents;
  - `router.push`, which is only the `LoginRedirect` value.
  A failed download is caught and only logged, so it leaves no state to model.
- Concurrency. Each operation runs to completion before the next starts, so these are not modelled:
  - overlapping or stale profile and payslip fetches;
  - the `isLoading = true` a visitor can see while `login` or the mount fetch is in flight;
  - the `payslipsLoading = true` a visitor can see while the payslip fetch is in flight (src/app/profile/page.tsx:301), so no modelled state reaches the panel's spinner branch;
  - React's effect scheduling.
- Floating point and locale formatting are not modelled: `formatFileSize`, the blur pixel value, both `formatDate` helpers, and a `NaN` blur percentage. Numbers are integers.
- Cookie attributes are not modelled: `path`, `max-age`, `SameSite`, `Secure` and expiry. The cookie is an optional string. The model therefore does not capture two ways the cookie and the durable store can drift apart. First, the cookie expires after a day while the store keeps the token. Second, `login` writes the attribute as `Secure=false` on plain http, and a cookie attribute is named by the text before `=` (section 5.2 of RFC 6265), so the cookie is still marked `Secure` and a browser may refuse to store it over http (src/contexts/AuthContext.tsx:97). The model assumes the code runs in a browser, so `typeof window !== 'undefined'`.
- The Next.js `matcher` patterns are not modelled (src/proxy.ts:41-43, src/middleware.ts:31-42). The framework interprets them; the guards are modelled from the point where they are invoked.
- Markup is not modelled: collapsible sections, the other profile sections, icons, and the scroll thresholds on long lists.
- `src/app/login/page.tsx` is not part of this model. It shows the message that `login` raises, which `AfterLogin` gives, and it sends a visitor who is already authenticated to `/profile` (src/app/login/page.tsx:19-24).
- Header parsing is not modelled. A header value reaches the guards with surrounding white space trimmed (section 5.5 of RFC 9110), so `Authorization: Bearer ` with nothing after it arrives as `"Bearer"`. That value holds no `"Bearer "` to remove, so it is itself a non-empty token and the guards let the request through (`BareSchemeWordPasses` in both guards). The model takes the header value as delivered, so the untrimmed `"Bearer "` that `MissingTokenRedirects` shows redirected is a value the guards do not receive over HTTP.
- `User` keeps `contract_details`, which the modelled code reads, and four identifying fields (`id`, `username`, `email`, `fullname`). The other profile fields are only rendered.
