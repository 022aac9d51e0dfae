/**
 * The client-side redirect (app/components/DeviceRedirect.tsx): on the home page, a
 * client that looks mobile (by user agent, or by a small touch screen) is pushed to
 * `/mobile`. The effect's `router.push` becomes the returned navigation target.
 */
module DeviceRedirect {
  import opened Wrappers
  import opened Text
  import Middleware
  import MedicalDevice3D

  /** The browser facts the inner `isMobile` reads. */
  datatype ClientEnv = ClientEnv(userAgent: string, innerWidth: int, hasOntouchstart: bool, maxTouchPoints: int)

  /** The alternatives of the regex `/Android|iPhone|iPad|iPod|BlackBerry|IEMobile|Opera Mini/i`. */
  const UserAgentTokens: seq<string> :=
    ["Android", "iPhone", "iPad", "iPod", "BlackBerry", "IEMobile", "Opera Mini"]

  /** The user-agent test of the inner `isMobile`. */
  function UserAgentMobile(userAgent: string): bool {
    AnyContainsCI(userAgent, UserAgentTokens)
  }

  /** `'ontouchstart' in window || navigator.maxTouchPoints > 0`. */
  function HasTouch(env: ClientEnv): bool {
    env.hasOntouchstart || env.maxTouchPoints > 0
  }

  /** The inner `isMobile`; `None` is a missing `window` (server-side rendering). */
  function IsMobileClient(window: Option<ClientEnv>): bool {
    match window
    case None => false
    case Some(env) => UserAgentMobile(env.userAgent) || (env.innerWidth <= 768 && HasTouch(env))
  }

  /** The path guard of the effect. */
  predicate OnHomePage(pathname: string) {
    pathname == "/" || pathname == ""
  }

  /** The navigation the effect issues: `Some("/mobile")` or nothing. */
  function Navigation(pathname: string, window: Option<ClientEnv>): (target: Option<string>)
    ensures target.Some? ==> target.value == "/mobile"
  {
    if OnHomePage(pathname) && IsMobileClient(window) then Some("/mobile") else None
  }

  /** A navigation happens exactly on the home page for a mobile client, and it goes to `/mobile`. */
  lemma NavigationIff(pathname: string, window: Option<ClientEnv>)
    ensures Navigation(pathname, window) == Some("/mobile") <==> OnHomePage(pathname) && IsMobileClient(window)
    ensures Navigation(pathname, window) == None <==> !OnHomePage(pathname) || !IsMobileClient(window)
  {
  }

  /** The client counts as mobile exactly when a token matches, or the width is at most 768 with touch. */
  lemma IsMobileClientIff(env: ClientEnv)
    ensures IsMobileClient(Some(env)) <==>
      (exists i :: 0 <= i < |UserAgentTokens| && ContainsCI(env.userAgent, UserAgentTokens[i])) ||
      (env.innerWidth <= 768 && (env.hasOntouchstart || env.maxTouchPoints > 0))
  {
    AnyContainsCIIff(env.userAgent, UserAgentTokens);
  }

  /** A small screen without touch capability does not make a client mobile by itself. */
  lemma SmallScreenWithoutTouch(env: ClientEnv)
    requires !UserAgentMobile(env.userAgent) && !HasTouch(env)
    ensures !IsMobileClient(Some(env))
    ensures Navigation("/", Some(env)) == None
  {
  }

  /** The width rule here is inclusive: 768 pixels with touch is mobile, while the 3D viewer's `< 768` is not. */
  lemma WidthBoundaryDiffers(userAgent: string, hasOntouchstart: bool)
    requires hasOntouchstart
    ensures IsMobileClient(Some(ClientEnv(userAgent, 768, hasOntouchstart, 0)))
    ensures !MedicalDevice3D.IsMobileWidth(768)
  {
  }

  /** Every token of this regex contains one of the middleware's tokens, so a client this
      component pushes to `/mobile` by its user agent is one the middleware keeps there. */
  lemma {:induction false} UserAgentAgreement(userAgent: string)
    requires UserAgentMobile(userAgent)
    ensures Middleware.IsMobile(userAgent)
  {
    AnyContainsCIIff(userAgent, UserAgentTokens);
    var i :| 0 <= i < |UserAgentTokens| && ContainsCI(userAgent, UserAgentTokens[i]);
    ContainsCIIff(userAgent, UserAgentTokens[i]);
    var k :| 0 <= k <= |userAgent| && StartsAtCI(userAgent, k, UserAgentTokens[i]);
    var m, d := if i == 5 then 7 else if i == 6 then 6 else i, if i == 5 then 2 else 0;
    assert StartsAtCI(UserAgentTokens[i], d, Middleware.MobilePatterns[m]);
    StartsAtCIShift(userAgent, k, UserAgentTokens[i], d, Middleware.MobilePatterns[m]);
    Middleware.IsMobileIff(userAgent);
  }

  /** The converse does not hold: the middleware's "Windows Phone", "Mobile" and "Tablet" patterns are not tokens here,
      and only the width-and-touch rule makes such clients mobile on the client side. */
  lemma MiddlewareOnlyTokens()
    ensures Middleware.IsMobile("Mobile")
    ensures !UserAgentMobile("Mobile")
  {
    assert StartsAtCI("Mobile", 0, "mobile");
    Middleware.MobileTokenSuffices("Mobile", 0);
    AnyContainsCIIff("Mobile", UserAgentTokens);
    forall i | 0 <= i < |UserAgentTokens|
      ensures !ContainsCI("Mobile", UserAgentTokens[i])
    {
      ContainsCIIff("Mobile", UserAgentTokens[i]);
      if |UserAgentTokens[i]| > 6 {
      } else {
        forall k | 0 <= k <= 6 ensures !StartsAtCI("Mobile", k, UserAgentTokens[i]) {
          if k <= 2 {
            assert Lower("Mobile")[k] != Lower(UserAgentTokens[i])[0];
          }
        }
      }
    }
  }

  /** A desktop user agent on a small touch screen is pushed to `/mobile` here, and the
      middleware sends that request back to `/`. */
  lemma SmallTouchDesktopIsBounced(env: ClientEnv, url: Middleware.Url)
    requires !Middleware.IsMobile(env.userAgent) && env.innerWidth <= 768 && HasTouch(env)
    requires url.pathname == "/mobile"
    ensures Navigation("/", Some(env)) == Some("/mobile")
    ensures Middleware.Handle(url, Some(env.userAgent)) == Middleware.Redirect(url.(pathname := "/"))
  {
  }
}
