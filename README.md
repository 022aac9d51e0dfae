# Rollins Wellness website — a verified model of its logic

This Dafny project models the logic behind the Rollins International marketing site, a
Next.js application. The site shows medical wellness devices. It has a desktop home page, a
separate mobile page, an intro sequence, a product catalog, and a 3D viewer driven by
scrolling. The model covers the decisions the site makes, not its markup or animation:

- the edge middleware that sends mobile clients to `/mobile` and desktop clients back to `/`
  (`middleware.dfy`);
- the client-side redirect component and its own mobile test (`device_redirect.dfy`);
- the product catalog with its category filter and id lookup (`products.dfy`);
- the intro sequence with its phases, skip button, dots and "seen" flag in local storage
  (`cinematic_loader.dfy`);
- the desktop home page: scroll progress, the spec highlighted for it, and the device
  switcher (`home_page.dfy`);
- the mobile page: wrap-around carousel, auto-cycling highlights, per-device themes, and
  text labels (`mobile_page.dfy`);
- the 3D viewer: Safari detection, the seven camera stages, the reduced or full rendering
  profile, the model scale, and the component state (`medical_device_3d.dfy`);
- the product showcase: scroll progress and velocity, scroll phases, phase indicators and
  phase texts (`product_showcase.dfy`).

`text.dfy` holds the string matching the others share: ASCII lower-casing, occurrence at a
position, and substring search. `wrappers.dfy` holds `Option`.

Pure code (the middleware, the catalog, the redirect decision) is modelled as functions with
lemmas. Components whose state variables change step by step are classes: each state
variable is a field, and each event handler or effect is a method whose `ensures` gives the
new state. Those components are `CinematicLoader.Loader`, `HomePage.Home`,
`MobilePage.MobileHome`, `MedicalDevice3D.Viewer` and `ProductShowcase.ScrollTracker`.
Browser facts are inputs to the functions and methods. These are the user agent, the window
width, the touch capability, the scroll offsets, the clock, the WebGL probe's answer and the
stored intro flag. Case-insensitive regular expressions over ASCII tokens are modelled by
folding ASCII letters. For patterns written in ASCII, JavaScript's `/i` flag without `u`
gives the same answer. JavaScript numbers are modelled as mathematical reals and integers.
`Math.PI` is the parameter `pi`.

Three facts about the code shape the model:

- The camera pose does not clamp scroll progress. Values outside [0, 1] extrapolate the first
  or last stage (`MedicalDevice3D.NoClamping`).
- The pose is not continuous at the first breakpoint (`MedicalDevice3D.ScaleJumpsAtFirstBreakpoint`).
- The code has no rendering-context registry, no context-loss recovery and no viewer state
  machine, so none is modelled.

## Model

| member | source | states |
|---|---|---|
| Middleware.IsMobileIff | middleware.ts:8-20 | a user agent is mobile exactly when one of the nine patterns (Android … Tablet) occurs in it, ignoring ASCII case |
| Middleware.MobileTokenSuffices | middleware.ts:16 | any user agent containing "mobile" in any mix of cases is mobile |
| Middleware.MissingHeaderIsDesktop | middleware.ts:4 | an absent user-agent header reads as "" and is not mobile |
| Middleware.Decide | middleware.ts:5-34 | a redirect keeps origin and query, changes only the path, and always targets the other matched path (`/` or `/mobile`) |
| Middleware.Handle | middleware.ts:37-39 | paths outside the matcher `['/', '/mobile']` always pass through |
| Middleware.HomeRedirectsMobile | middleware.ts:23-26 | `/` with a mobile client is redirected to `/mobile` with the rest of the URL unchanged |
| Middleware.MobileRedirectsDesktop | middleware.ts:29-32 | `/mobile` with a desktop client is redirected to `/` with the rest of the URL unchanged |
| Middleware.OtherwisePassThrough | middleware.ts:23-34 | `next()` is returned exactly when neither redirect condition holds |
| Middleware.NoRedirectLoop | middleware.ts:23-32 | requesting a redirect's target with the same header passes through, so redirects never loop |
| DeviceRedirect.Navigation | app/components/DeviceRedirect.tsx:29-33 | the only navigation the effect issues is to `/mobile` |
| DeviceRedirect.NavigationIff | app/components/DeviceRedirect.tsx:12-33 | navigation happens exactly on `/` or the empty path for a mobile client, and otherwise never |
| DeviceRedirect.IsMobileClientIff | app/components/DeviceRedirect.tsx:13-26 | a client is mobile exactly when one of seven tokens occurs in its user agent ignoring case, or its width is at most 768 and it has touch input (`ontouchstart` or touch points) |
| DeviceRedirect.SmallScreenWithoutTouch | app/components/DeviceRedirect.tsx:20-25 | a small screen without touch input and without a mobile token is not pushed |
| DeviceRedirect.WidthBoundaryDiffers | app/components/DeviceRedirect.tsx:20 | width 768 with touch counts as mobile here, while the 3D viewer's `< 768` rule says it is not |
| DeviceRedirect.UserAgentAgreement | app/components/DeviceRedirect.tsx:17 | every user agent this component finds mobile is mobile for the middleware too |
| DeviceRedirect.MiddlewareOnlyTokens | app/components/DeviceRedirect.tsx:17 | the converse fails: the user agent "Mobile" is mobile for the middleware only |
| DeviceRedirect.SmallTouchDesktopIsBounced | app/components/DeviceRedirect.tsx:20-31 | a desktop user agent on a small touch screen is pushed to `/mobile`, and the middleware sends that request back to `/` |
| Products.FilterCategory | app/data/products.ts:298 | the filter is no longer than its input, keeps only records of the category, and keeps every such record |
| Products.FindIndex | app/data/products.ts:302 | the index found is the first record with the id, and -1 means no record has it |
| Products.ProductById | app/data/products.ts:301-303 | a found product is in the catalog with that id, and nothing is found exactly when no product has the id |
| Products.MatchPositionsIff | app/data/products.ts:298 | a position is among the recorded match positions exactly when its record has the category |
| Products.FilterIsOrderedSubsequence | app/data/products.ts:298 | the filter is the input restricted to the matching positions, in increasing order |
| Products.FilterWithoutMatch | app/data/products.ts:298 | filtering by a category that no record has gives the empty list |
| Products.AllIsWholeCatalog | app/data/products.ts:297 | `getProductsByCategory('All')` is the whole catalog, in order |
| Products.CategoryFilter | app/data/products.ts:296-299 | for any other category the result holds exactly the catalog's records of that category, as an ordered subsequence no longer than the catalog |
| Products.UnknownCategoryIsEmpty | app/data/products.ts:298 | a category that no product carries gives the empty list |
| Products.IdsDistinct | app/data/products.ts:18-285 | the eight catalog ids are pairwise distinct |
| Products.LookupIsUnique | app/data/products.ts:301-303 | looking up a catalog record's id returns that record |
| Products.LocalizedOnlyThroughAll | app/data/products.ts:86-294 | "Localized Cryotherapy" is not an offered category, so its product appears only under "All" |
| Products.OtherCategoriesOffered | app/data/products.ts:18-294 | every other product's category is offered, and filtering by it shows that product |
| CinematicLoader.ProgressBounds | app/components/CinematicLoader.tsx:75 | the progress bar is never empty or over full, and is full exactly at the last phase |
| CinematicLoader.ProgressIncreasing | app/components/CinematicLoader.tsx:75 | the progress bar grows strictly with the phase |
| CinematicLoader.Loader.constructor | app/components/CinematicLoader.tsx:12-13 | the first render starts at phase 0, not yet hidden, with the stored flag as found |
| CinematicLoader.Loader.Mount | app/components/CinematicLoader.tsx:43-50 | a stored "true" hides the intro and completes once; anything else changes nothing |
| CinematicLoader.Loader.HandleNext | app/components/CinematicLoader.tsx:53-61 | before the last phase it advances one phase; at the last it stores "true" and completes once |
| CinematicLoader.Loader.HandleSkip | app/components/CinematicLoader.tsx:64-67 | from any phase it stores "true" and completes once, leaving the phase as it was |
| CinematicLoader.Loader.SelectPhase | app/components/CinematicLoader.tsx:281-284 | a navigation dot selects its own phase |
| CinematicLoader.Dispatch | app/components/CinematicLoader.tsx:43-284 | whatever the visitor does, the phase stays in range and the stored flag stays unchanged or becomes "true"; once "true", it stays "true" |
| HomePage.ScrollProgress | app/page.tsx:108-111 | progress is at most 1, nonnegative for a nonnegative offset, and is offset divided by height inside the document |
| HomePage.FindActiveFrom | app/page.tsx:117-120 | `findIndex` returns the first spec whose trigger interval holds the progress, or -1 if none does |
| HomePage.ActivationUnique | app/page.tsx:117-120 | with strictly increasing triggers, at most one spec's interval holds a given progress |
| HomePage.ActivationExists | app/page.tsx:117-120 | once the first trigger is reached, some spec is found |
| HomePage.NextActiveSpec | app/page.tsx:122-126 | the new active spec is in range, and is 0 below the first trigger |
| HomePage.NextActiveSpecActivates | app/page.tsx:117-126 | at or beyond the first trigger, the active spec is the one whose interval holds the progress; the old value is never kept |
| HomePage.ActiveSpecIsUnique | app/page.tsx:117-126 | for the page's triggers, the spec whose interval holds the progress is the one highlighted |
| HomePage.TriggersIncreasing | app/page.tsx:31-86 | each device has six strictly increasing spec triggers |
| HomePage.ViewerScales | app/page.tsx:555 | on a wide, non-Safari client the viewer gives the home page's devices scales 1.5, 1.5 and 1.4, because the capitalised "HYPERBARIC CHAMBER" misses the case-sensitive "Hyperbaric" test |
| HomePage.ProgressLineBounds | app/page.tsx:584 | the spec progress line is never empty, reaches 100% exactly at the last spec, and grows with the spec |
| HomePage.Home.LineHeight | app/page.tsx:584 | the current device's spec line is never empty, never over 100%, and is full exactly at its last spec |
| HomePage.Home.constructor | app/page.tsx:92-95 | the page starts loading, on device 0, with progress 0, spec 0 and no scroll to the top requested |
| HomePage.Home.FinishLoading | app/page.tsx:99-102 | the loading timer ends the loading screen |
| HomePage.Home.HandleScroll | app/page.tsx:106-127 | the handler stores the new progress and the spec chosen for it, and keeps the spec index in range |
| HomePage.Home.SwitchDevice | app/page.tsx:142-150 | selecting the current device changes nothing; any other device is selected with spec and progress reset to 0, and the window is asked once more to scroll smoothly to the top |
| HomePage.Home.Previous | app/page.tsx:689-691 | the left arrow steps back one device, with the resets and the scroll to the top of a switch, and stops at the first one without resetting anything |
| HomePage.Home.Next | app/page.tsx:719-721 | the right arrow steps forward one device, with the resets and the scroll to the top of a switch, and stops at the last one without resetting anything |
| MobilePage.DeviceListShapes | app/mobile/page.tsx:13-89 | every device has six benefits and six specs |
| MobilePage.DeviceTheme | app/mobile/page.tsx:104-163 | the three known ids get their own themes |
| MobilePage.ThemeLookup | app/mobile/page.tsx:104-163 | the default theme is returned exactly for an unknown id, and the three themes differ from each other |
| MobilePage.DevicesThemed | app/mobile/page.tsx:104-163 | no device of the page falls back to the default theme |
| MobilePage.WrapPrevious | app/mobile/page.tsx:732 | the left arrow's target is a valid index |
| MobilePage.WrapNext | app/mobile/page.tsx:754 | the right arrow's target is a valid index |
| MobilePage.WrapSteps | app/mobile/page.tsx:732-754 | the arrows move by one, wrap around at both ends, and undo each other |
| MobilePage.CycleNext | app/mobile/page.tsx:170-182 | one auto-cycle step stays below the cycle length |
| MobilePage.CycleSteps | app/mobile/page.tsx:168-184 | n interval firings from a start in range land at `(start + n) % length` |
| MobilePage.CycleReturns | app/mobile/page.tsx:168-184 | after as many firings as the cycle is long, the highlight is back where it began |
| MobilePage.DescriptionPreview | app/mobile/page.tsx:572 | the preview has `min(length, 120)` characters, each the lowercased character at the same position |
| MobilePage.PreviewFacts | app/mobile/page.tsx:572 | the preview is already lowercase, and a description of at most 120 characters is shown whole |
| MobilePage.PreviewsAreCut | app/mobile/page.tsx:572 | every device's preview is cut to exactly 120 characters |
| MobilePage.FirstWord | app/mobile/page.tsx:694-724 | the label is a prefix of the name without a space, ending at the first space or at the end |
| MobilePage.FirstWordUnique | app/mobile/page.tsx:694-724 | any prefix with those properties is the label, so the label is determined by them |
| MobilePage.PillLabels | app/mobile/page.tsx:724 | the pills read "HYPERBARIC", "UBODY" and "CRYO" |
| MobilePage.MobileHome.constructor | app/mobile/page.tsx:92-97 | the page starts on device 0 with both highlights at 0, progress 0, and the benefits tab shown |
| MobilePage.MobileHome.TickBenefit | app/mobile/page.tsx:167-174 | the benefit highlight advances cyclically through the first `min(benefits, 4)` benefits |
| MobilePage.MobileHome.TickSpec | app/mobile/page.tsx:177-184 | the spec highlight advances cyclically through all specs |
| MobilePage.MobileHome.HandleDeviceChange | app/mobile/page.tsx:188-192 | the device is selected and both highlights reset to 0 |
| MobilePage.MobileHome.Previous | app/mobile/page.tsx:732 | the left arrow selects the previous device, wrapping to the last, and resets both highlights |
| MobilePage.MobileHome.Next | app/mobile/page.tsx:754 | the right arrow selects the next device, wrapping to the first, and resets both highlights |
| MobilePage.MobileHome.ShowBenefitsTab | app/mobile/page.tsx:579 | the benefits tab is shown and the specifications tab hidden |
| MobilePage.MobileHome.ShowSpecsTab | app/mobile/page.tsx:589 | the specifications tab is shown and the benefits tab hidden |
| MobilePage.MobileHome.ActiveBenefit | app/mobile/page.tsx:563 | the benefit card shows one of the current device's first four benefits |
| MobilePage.MobileHome.CurrentTheme | app/mobile/page.tsx:165 | the current device always has its own theme, never the default: hyperbaric, collagen and cryotherapy in list order |
| MedicalDevice3D.SafariFromIff | app/components/MedicalDevice3D.tsx:18 | the regex scan from a position succeeds exactly when "safari" occurs at or after it, with no "chrome", "android" or line break before it |
| MedicalDevice3D.IsSafariIff | app/components/MedicalDevice3D.tsx:16-19 | Safari is detected exactly when some occurrence of "safari" has no "chrome", "android" or line break before it (ignoring case) |
| MedicalDevice3D.CompetingEngineFirst | app/components/MedicalDevice3D.tsx:18 | a "chrome" or "android" before every "safari" rules Safari out |
| MedicalDevice3D.Stage | app/components/MedicalDevice3D.tsx:61-119 | exactly one of the seven stages is chosen |
| MedicalDevice3D.StagePartition | app/components/MedicalDevice3D.tsx:64-119 | stage i is chosen exactly when progress lies in its half-open interval of breakpoints |
| MedicalDevice3D.StageMonotone | app/components/MedicalDevice3D.tsx:64-119 | more progress never selects an earlier stage |
| MedicalDevice3D.LocalProgressRange | app/components/MedicalDevice3D.tsx:72-110 | inside stages 2 to 6 the local progress runs over [0, 1) |
| MedicalDevice3D.PoseAtStart | app/components/MedicalDevice3D.tsx:64-70 | at progress 0 the camera is at (0, 0, 4.5) with no rotation, at the base scale |
| MedicalDevice3D.PoseMidStageTwo | app/components/MedicalDevice3D.tsx:72-80 | halfway through stage 2 the camera is 1.5 to the side and turned by 0.15 pi |
| MedicalDevice3D.PoseAtEnd | app/components/MedicalDevice3D.tsx:112-118 | at progress 1 the camera is back at (0, 0, 4.5) with the tilt undone, at base scale + 0.2 |
| MedicalDevice3D.NoClamping | app/components/MedicalDevice3D.tsx:64-119 | progress outside [0, 1] is not clamped: at -0.5 the camera z is 7.85, and at 1.5 the scale is base - 0.8 |
| MedicalDevice3D.ScaleJumpsAtFirstBreakpoint | app/components/MedicalDevice3D.tsx:64-80 | the scale stays under base + 0.045 below 0.15 and jumps to base + 0.3 at 0.15 |
| MedicalDevice3D.ConstrainedProfile | app/components/MedicalDevice3D.tsx:341-436 | on a mobile-width or Safari client, shadows, the soft shadow map, contact shadows and antialiasing are off, the pixel ratio is 1, and the default power preference, reduced rig, city preset, model height -0.1 and 4 s overlay delay are used |
| MedicalDevice3D.FullProfile | app/components/MedicalDevice3D.tsx:341-436 | on a wide non-Safari client, shadows, the soft shadow map, contact shadows and antialiasing are on, the pixel ratio ranges from 1 to 2, and the high-performance preference, field of view 55, filmic tone mapping, no preserved drawing buffer, premium rig, studio preset at intensity 1, height -0.3 and 2 s overlay delay are used |
| MedicalDevice3D.ProfileIsAllOrNothing | app/components/MedicalDevice3D.tsx:345-407 | shadows, antialiasing, the premium rig, the 1–2 pixel-ratio range and contact shadows are all on together or all off together, exactly on a wide non-Safari client |
| MedicalDevice3D.BaseScaleTable | app/components/MedicalDevice3D.tsx:396-400 | the reduced scale is the full scale minus 0.5, and the full scale is 1.3 for "Hyperbaric", otherwise 1.4 for "CRYO", otherwise 1.5 |
| MedicalDevice3D.CapitalNameMissesHyperbaric | app/components/MedicalDevice3D.tsx:398-399 | the name test is case-sensitive: "HYPERBARIC CHAMBER" gets 1.5, "Hyperbaric Oxygen Therapy Chamber" gets 1.3 |
| MedicalDevice3D.ModelMesh | app/components/MedicalDevice3D.tsx:122-141 | the mesh takes the position prop and the pose's scale |
| MedicalDevice3D.PosePositionUnused | app/components/MedicalDevice3D.tsx:122-141 | the pose's camera position never reaches the mesh |
| MedicalDevice3D.Viewer.constructor | app/components/MedicalDevice3D.tsx:252-265 | props get their defaults (placeholder image, progress 0), scroll data starts at that progress, and the first render shows the fallback |
| MedicalDevice3D.Viewer.Mount | app/components/MedicalDevice3D.tsx:269-273 | mounting records the WebGL answer and the Safari test and changes nothing else; afterwards the static image is shown exactly when WebGL is missing or the model URL is missing or empty |
| MedicalDevice3D.Viewer.CheckMobile | app/components/MedicalDevice3D.tsx:276-286 | once mounted, a width under 768 sets mobile; before mounting nothing changes |
| MedicalDevice3D.Viewer.ReceiveScrollProgress | app/components/MedicalDevice3D.tsx:289-294 | a new progress prop is copied into the scroll data, keeping velocity and direction |
| MedicalDevice3D.Viewer.OverlayFaded | app/components/MedicalDevice3D.tsx:436 | the end of the overlay's fade marks the model loaded |
| MedicalDevice3D.Viewer.CanvasError | app/components/MedicalDevice3D.tsx:370-373 | a canvas error marks the model not loaded |
| MedicalDevice3D.Viewer.CurrentSettings | app/components/MedicalDevice3D.tsx:341-407 | the current render's shadows, antialiasing, premium rig, 1–2 pixel ratio and contact shadows are all on exactly when the client is neither mobile-width nor Safari, and the field of view is 70 on mobile and 55 otherwise |
| MedicalDevice3D.Viewer.CurrentPose | app/components/MedicalDevice3D.tsx:394-404 | the model's pose follows the scroll data's progress with the profile's base scale: at progress 0 the camera is at (0, 0, 4.5) with no rotation and that scale, at progress 1 the scale is that scale + 0.2 |
| ProductShowcase.ShowcaseProgress | app/components/ProductShowcase.tsx:23-25 | progress is at most 1, a zero height divides by 1, and inside a positive height progress is the offset divided by the height |
| ProductShowcase.Velocity | app/components/ProductShowcase.tsx:28-34 | a recorded velocity lies in [0, 5]; NaN occurs exactly for no scroll in no time, and scrolling in no time gives the cap 5 |
| ProductShowcase.VelocitySymmetric | app/components/ProductShowcase.tsx:31 | the velocity ignores the direction of scrolling and of the clock |
| ProductShowcase.VelocityBelowCap | app/components/ProductShowcase.tsx:31-34 | below the cap the velocity is ten times the distance per millisecond |
| ProductShowcase.VelocityIndicatorIff | app/components/ProductShowcase.tsx:122 | the fast-scroll effect shows exactly when the scroll exceeds a tenth of the elapsed milliseconds, or on any scroll when no time passed; a NaN velocity never shows it |
| ProductShowcase.ScrollTracker.constructor | app/components/ProductShowcase.tsx:13-20 | tracking starts at offset 0 and the effect's start time, with progress and velocity 0 |
| ProductShowcase.ScrollTracker.HandleScroll | app/components/ProductShowcase.tsx:22-38 | each event records progress and capped velocity against the previous event, then remembers this event's offset and time |
| ProductShowcase.GetScrollPhase | app/components/ProductShowcase.tsx:45-51 | the phase is the one whose lower-inclusive interval of 0.15, 0.35, 0.55 and 0.75 holds the progress |
| ProductShowcase.PhaseMonotone | app/components/ProductShowcase.tsx:45-51 | more progress never moves the phase back |
| ProductShowcase.NamesDistinct | app/components/ProductShowcase.tsx:94 | the five phase names differ, so looking up a name returns its own index |
| ProductShowcase.IndicatorsAgreeAroundActive | app/components/ProductShowcase.tsx:94-96 | every indicator before the active one is passed and none after it |
| ProductShowcase.ActiveNeedNotBePassed | app/components/ProductShowcase.tsx:45-96 | the active indicator itself may be not yet passed (progress 0.15) or already passed (progress 0.3) |
| ProductShowcase.PhaseDescription | app/components/ProductShowcase.tsx:262-271 | the intro text names the device, and any unknown phase gets the default text |
| ProductShowcase.PhaseHasText | app/components/ProductShowcase.tsx:262-271 | every phase the page can show has its own text, never the default |
| ProductShowcase.OnlyIntroNamesDevice | app/components/ProductShowcase.tsx:263-268 | only the intro text depends on the device's name |
| Text.ContainsFrom | app/components/MedicalDevice3D.tsx:398 | the scan finds `t` exactly when it occurs at or after the starting position |
| Text.ContainsCIIff | middleware.ts:20 | a case-insensitive single-token regex matches exactly when the token occurs up to ASCII case |
| Text.AnyContainsCIIff | middleware.ts:20 | `some` over token regexes holds exactly when one token occurs up to ASCII case |

## Left out

- Markup, styling and animation (framer-motion, Tailwind classes) are left out. Only values that decide what is shown are modelled.
- three.js rendering, the GLTF loader, the lighting rigs' light positions and intensities, and `onCreated`'s depth-test toggling are left out. The model records which rig and which settings are chosen.
- `isWebGLAvailable` creates a canvas and asks for a context. Its answer is an input of `MedicalDevice3D.Viewer.Mount`.
- Timers are left out: the 100 ms redirect delay, the 100 ms `onComplete` delay, the 2 s loading timer and the intervals. Each firing is a method call. `CinematicLoader.Loader.Mount` counts the delayed completion at once.
- `router.push`, `NextResponse`, `localStorage`, `Date.now()`, `window.scrollTo` and the window's sizes are modelled as returned values, fields or parameters. Event-listener registration and removal are left out.
- HomePage.Home.SwitchDevice: the smooth scroll to the top is recorded as a request (`scrollResets`). The window's scrolling itself is not modelled; the scroll events it causes reach `HandleScroll` as fresh `scrollY` values.
- Floating point is left out: numbers are mathematical reals, so rounding is not modelled. NaN is modelled only where the code can produce it (`ProductShowcase.Velocity`).
- `toLowerCase` and the `/i` flag are modelled on ASCII letters only. `slice` counts characters rather than UTF-16 code units. The only strings the site lowercases are the device descriptions, which are ASCII apart from the caseless °. Ø and ㎥ occur only in spec values, which are never lowercased.
- `getPhaseDescription` indexes a plain object. A phase string naming an `Object.prototype` member would return that member. Only the five phase names and other strings are modelled.
- MobilePage.MobileHome.TickBenefit: the interval callbacks read the lengths of the device current when they were created. Since every device has six benefits and six specs (`MobilePage.DeviceListShapes`), the model reads the current device's.
- The device lists are modelled only in the parts the logic reads: ids, names, triggers, descriptions, benefits and specs. Ratings, model paths and images are left out, and so is the desktop page's descriptive text.
- The presentational files `app/layout.tsx`, `app/components/Navigation.tsx`, `ProductInfo.tsx`, `ProductSpecs.tsx`, `ProductThumbnails.tsx` and `tailwind.config.js` are not part of this model.
- The viewer's scroll data also holds velocity and direction. Nothing in the code updates them after the initial values, so they stay 0 and 1.
