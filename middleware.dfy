/**
 * The request middleware (middleware.ts): classify the client as mobile by its
 * user-agent header, send mobile clients on `/` to `/mobile` and desktop clients on
 * `/mobile` to `/`, and let every other request through.
 *
 * The framework's request and response objects become two datatypes: the request URL
 * (the part the middleware clones and edits) and the decision it returns.
 */
module Middleware {
  import opened Wrappers
  import opened Text

  /** The request URL, split into the part the middleware edits and the rest. */
  datatype Url = Url(origin: string, pathname: string, search: string)

  /** `NextResponse.redirect(url)` or `NextResponse.next()`. */
  datatype Response = Redirect(location: Url) | Next

  /** The nine case-insensitive patterns of `mobilePatterns`, in source order. */
  const MobilePatterns: seq<string> :=
    ["Android", "iPhone", "iPad", "iPod", "BlackBerry", "Windows Phone", "Opera Mini", "Mobile", "Tablet"]

  /** The paths listed in the middleware's `matcher`; the function runs for these only. */
  const Matcher: seq<string> := ["/", "/mobile"]

  /** `request.headers.get('user-agent') || ''`: an absent header reads as the empty string. */
  function UserAgent(header: Option<string>): string {
    header.GetOr("")
  }

  /** `mobilePatterns.some(pattern => pattern.test(userAgent))`. */
  function IsMobile(userAgent: string): bool {
    AnyContainsCI(userAgent, MobilePatterns)
  }

  /** The body of `middleware`: the two guarded redirects, then pass-through. */
  function Decide(url: Url, userAgentHeader: Option<string>): (r: Response)
    ensures r.Redirect? ==> r.location == url.(pathname := r.location.pathname)
    ensures r.Redirect? ==> r.location.pathname in Matcher && r.location.pathname != url.pathname
  {
    var isMobile := IsMobile(UserAgent(userAgentHeader));
    if url.pathname == "/" && isMobile then Redirect(url.(pathname := "/mobile"))
    else if url.pathname == "/mobile" && !isMobile then Redirect(url.(pathname := "/"))
    else Next
  }

  /** What a request meets: the matcher admits `/` and `/mobile` only; other paths are never touched. */
  function Handle(url: Url, userAgentHeader: Option<string>): (r: Response)
    ensures url.pathname !in Matcher ==> r == Next
  {
    if url.pathname in Matcher then Decide(url, userAgentHeader) else Next
  }

  /** A client is mobile exactly when one of the nine tokens occurs in its user agent, ignoring case. */
  lemma IsMobileIff(userAgent: string)
    ensures IsMobile(userAgent) <==>
      exists i, k :: 0 <= i < |MobilePatterns| && 0 <= k <= |userAgent| && StartsAtCI(userAgent, k, MobilePatterns[i])
  {
    AnyContainsCIIff(userAgent, MobilePatterns);
    forall i | 0 <= i < |MobilePatterns| {
      ContainsCIIff(userAgent, MobilePatterns[i]);
    }
  }

  /** Any user agent that contains "mobile" in any mix of cases is classified as mobile. */
  lemma MobileTokenSuffices(userAgent: string, k: int)
    requires StartsAtCI(userAgent, k, "mobile")
    ensures IsMobile(userAgent)
  {
    assert Lower("mobile") == Lower(MobilePatterns[7]);
    assert StartsAtCI(userAgent, k, MobilePatterns[7]);
    IsMobileIff(userAgent);
  }

  /** A missing user-agent header counts as the empty string, which is not mobile. */
  lemma MissingHeaderIsDesktop()
    ensures UserAgent(None) == ""
    ensures !IsMobile(UserAgent(None))
  {
    IsMobileIff("");
  }

  /** `/` with a mobile client is redirected to `/mobile`, with the rest of the URL kept. */
  lemma HomeRedirectsMobile(url: Url, header: Option<string>)
    requires url.pathname == "/" && IsMobile(UserAgent(header))
    ensures Handle(url, header) == Redirect(url.(pathname := "/mobile"))
  {
  }

  /** `/mobile` with a desktop client is redirected to `/`, with the rest of the URL kept. */
  lemma MobileRedirectsDesktop(url: Url, header: Option<string>)
    requires url.pathname == "/mobile" && !IsMobile(UserAgent(header))
    ensures Handle(url, header) == Redirect(url.(pathname := "/"))
  {
  }

  /** Every request that is not one of the two redirect cases passes through unchanged. */
  lemma OtherwisePassThrough(url: Url, header: Option<string>)
    ensures Handle(url, header) == Next <==>
      !(url.pathname == "/" && IsMobile(UserAgent(header))) &&
      !(url.pathname == "/mobile" && !IsMobile(UserAgent(header)))
  {
  }

  /** No redirect loop: the target of a redirect, requested with the same header, passes through. */
  lemma NoRedirectLoop(url: Url, header: Option<string>)
    requires Handle(url, header).Redirect?
    ensures Handle(Handle(url, header).location, header) == Next
  {
  }
}
