/**
 * The product showcase (app/components/ProductShowcase.tsx): scroll progress and scroll
 * velocity tracked by a scroll handler, the five scroll phases with their descriptions,
 * and the phase indicators beside the progress line.
 *
 * The handler's closure variables and the component's two state variables are the fields
 * of a `ScrollTracker` object; the clock reading `Date.now()` is a parameter.
 */
module ProductShowcase {
  import opened Wrappers

  // ----- Progress and velocity -----

  /** `Math.min(scrollTop / (docHeight || 1), 1)`: a zero document height divides by 1. */
  function ShowcaseProgress(scrollTop: real, docHeight: real): (p: real)
    ensures p <= 1.0
    ensures docHeight == 0.0 ==> p == if scrollTop < 1.0 then scrollTop else 1.0
    ensures 0.0 < docHeight && 0.0 <= scrollTop ==> 0.0 <= p
    ensures 0.0 < docHeight && scrollTop <= docHeight ==> p * docHeight == scrollTop
  {
    var q := scrollTop / (if docHeight == 0.0 then 1.0 else docHeight);
    if q < 1.0 then q else 1.0
  }

  /** The capped velocity `Math.min(Math.abs(scrollDelta / timeDelta) * 10, 5)`. `None` stands
      for the NaN that `0 / 0` gives when two events share a millisecond without scrolling; a
      non-zero scroll in zero time divides to an infinity, which the cap turns into 5. */
  function Velocity(scrollDelta: real, timeDelta: int): (v: Option<real>)
    ensures v.None? <==> scrollDelta == 0.0 && timeDelta == 0
    ensures v.Some? ==> 0.0 <= v.value <= 5.0
    ensures timeDelta == 0 && scrollDelta != 0.0 ==> v == Some(5.0)
  {
    if timeDelta == 0 then
      (if scrollDelta == 0.0 then None else Some(5.0))
    else
      var rate := scrollDelta / timeDelta as real;
      var speed := (if rate < 0.0 then -rate else rate) * 10.0;
      Some(if speed < 5.0 then speed else 5.0)
  }

  /** The velocity ignores the direction of scrolling and of the clock. */
  lemma VelocitySymmetric(scrollDelta: real, timeDelta: int)
    ensures Velocity(-scrollDelta, timeDelta) == Velocity(scrollDelta, timeDelta)
    ensures Velocity(scrollDelta, -timeDelta) == Velocity(scrollDelta, timeDelta)
  {
    if timeDelta != 0 {
      var t := timeDelta as real;
      assert (-scrollDelta) / t == -(scrollDelta / t);
      assert scrollDelta / (-t) == -(scrollDelta / t);
      assert (-timeDelta) as real == -t;
    }
  }

  /** Below the cap the velocity is ten times the distance scrolled per millisecond. */
  lemma VelocityBelowCap(scrollDelta: real, timeDelta: int)
    requires 0 < timeDelta && 0.0 <= scrollDelta
    requires scrollDelta * 10.0 < 5.0 * timeDelta as real
    ensures Velocity(scrollDelta, timeDelta) == Some(scrollDelta * 10.0 / timeDelta as real)
  {
    var t := timeDelta as real;
    assert scrollDelta / t * 10.0 == scrollDelta * 10.0 / t;
    assert scrollDelta * 10.0 / t < 5.0;
  }

  /** The fast-scrolling indicator (`scrollVelocity > 1`); a NaN velocity compares false. */
  predicate ShowsVelocityIndicator(v: Option<real>) {
    v.Some? && v.value > 1.0
  }

  /** The indicator shows exactly when the scroll covers more than a tenth of the elapsed
      milliseconds (any scroll at all when no time passed); a NaN velocity never shows it. */
  lemma VelocityIndicatorIff(scrollDelta: real, timeDelta: int)
    ensures !ShowsVelocityIndicator(None)
    ensures timeDelta == 0 ==> (ShowsVelocityIndicator(Velocity(scrollDelta, timeDelta)) <==> scrollDelta != 0.0)
    ensures timeDelta != 0 ==> (ShowsVelocityIndicator(Velocity(scrollDelta, timeDelta)) <==>
      Abs(scrollDelta) * 10.0 > Abs(timeDelta as real))
  {
    if timeDelta != 0 {
      var t := timeDelta as real;
      var speed := Abs(scrollDelta / t) * 10.0;
      assert Velocity(scrollDelta, timeDelta) == Some(if speed < 5.0 then speed else 5.0);
      assert ShowsVelocityIndicator(Velocity(scrollDelta, timeDelta)) <==> speed > 1.0;
      assert Abs(scrollDelta / t) * Abs(t) == Abs(scrollDelta);
      assert 0.0 < Abs(t);
      AboveOneScaled(speed, Abs(t), Abs(scrollDelta) * 10.0);
    }
  }

  /** For a positive `b`, `x` exceeds 1 exactly when `y == x * b` exceeds `b`. */
  lemma AboveOneScaled(x: real, b: real, y: real)
    requires 0.0 < b && y == x * b
    ensures x > 1.0 <==> y > b
  {
    assert x * b - b == (x - 1.0) * b;
  }

  function Abs(x: real): (a: real)
    ensures 0.0 <= a && (a == x || a == -x)
  {
    if x < 0.0 then -x else x
  }

  class ScrollTracker {
    var lastScrollY: real
    var lastTime: int
    var scrollProgress: real
    /** The recorded velocity; `None` is NaN. */
    var scrollVelocity: Option<real>

    /** The effect ran at time `now`: both closure variables start there. */
    constructor (now: int)
      ensures lastScrollY == 0.0 && lastTime == now
      ensures scrollProgress == 0.0 && scrollVelocity == Some(0.0)
    {
      lastScrollY := 0.0;
      lastTime := now;
      scrollProgress := 0.0;
      scrollVelocity := Some(0.0);
    }

    /** `handleScroll` at time `now`, with `window.scrollY`, the document's `scrollHeight`
        and `window.innerHeight` as inputs. */
    method HandleScroll(scrollY: real, scrollHeight: real, innerHeight: real, now: int)
      modifies this
      ensures scrollProgress == ShowcaseProgress(scrollY, scrollHeight - innerHeight)
      ensures scrollVelocity == Velocity(scrollY - old(lastScrollY), now - old(lastTime))
      ensures lastScrollY == scrollY && lastTime == now
      ensures scrollProgress <= 1.0
      ensures scrollVelocity.Some? ==> scrollVelocity.value <= 5.0
    {
      var docHeight := scrollHeight - innerHeight;
      var progress := ShowcaseProgress(scrollY, docHeight);
      var timeDelta := now - lastTime;
      var scrollDelta := scrollY - lastScrollY;
      scrollProgress := progress;
      scrollVelocity := Velocity(scrollDelta, timeDelta);
      lastScrollY := scrollY;
      lastTime := now;
    }
  }

  // ----- Scroll phases -----

  datatype ScrollPhase = Intro | Explore | Analyze | Discover | Complete
  {
    /** The phase's name as `getScrollPhase` returns it. */
    function Name(): string {
      match this
      case Intro => "intro"
      case Explore => "explore"
      case Analyze => "analyze"
      case Discover => "discover"
      case Complete => "complete"
    }

    /** Its position in the indicator list (`indexOf` of the name). */
    function Index(): nat {
      match this
      case Intro => 0
      case Explore => 1
      case Analyze => 2
      case Discover => 3
      case Complete => 4
    }
  }

  /** `getScrollPhase`: the thresholds 0.15, 0.35, 0.55 and 0.75, each the lower end of its phase. */
  function GetScrollPhase(progress: real): (phase: ScrollPhase)
    ensures phase.Index() < 4 ==> progress < [0.15, 0.35, 0.55, 0.75][phase.Index()]
    ensures phase.Index() > 0 ==> [0.15, 0.35, 0.55, 0.75][phase.Index() - 1] <= progress
  {
    if progress < 0.15 then Intro
    else if progress < 0.35 then Explore
    else if progress < 0.55 then Analyze
    else if progress < 0.75 then Discover
    else Complete
  }

  /** More progress never moves the phase back. */
  lemma PhaseMonotone(p: real, q: real)
    requires p <= q
    ensures GetScrollPhase(p).Index() <= GetScrollPhase(q).Index()
  {
  }

  /** The five names are distinct, so `indexOf` of a phase's name is its index. */
  lemma NamesDistinct(a: ScrollPhase, b: ScrollPhase)
    ensures a.Name() == b.Name() <==> a == b
  {
  }

  // ----- Phase indicators -----

  /** Indicator `index` counts as passed once progress is strictly beyond `index * 0.2`. */
  predicate IsPassed(index: nat, progress: real) {
    progress > index as real * 0.2
  }

  /** Indicator `index` is the active one. */
  predicate IsActive(index: nat, progress: real) {
    index == GetScrollPhase(progress).Index()
  }

  /** Every indicator before the active one is passed, and none after it. */
  lemma IndicatorsAgreeAroundActive(index: nat, progress: real)
    requires index < 5
    ensures index < GetScrollPhase(progress).Index() ==> IsPassed(index, progress)
    ensures index > GetScrollPhase(progress).Index() ==> !IsPassed(index, progress)
  {
  }

  /** The two threshold sets differ, so the active indicator itself can be not yet passed
      (0.15 activates "explore", whose indicator passes only beyond 0.2) or already passed. */
  lemma ActiveNeedNotBePassed()
    ensures IsActive(1, 0.15) && !IsPassed(1, 0.15)
    ensures IsActive(1, 0.3) && IsPassed(1, 0.3)
  {
  }

  // ----- Phase descriptions -----

  const DefaultDescription: string := "Continue scrolling to explore more features."

  /** `getPhaseDescription`: a fixed text per phase name (the intro one names the device),
      and the default for any other string. */
  function PhaseDescription(phase: string, deviceName: string): (d: string)
    ensures phase == "intro" ==>
      d == "Begin your journey exploring the " + deviceName + ". Watch as it comes to life with interactive 3D visualization."
    ensures phase != "intro" && phase != "explore" && phase != "analyze" && phase != "discover" && phase != "complete" ==>
      d == DefaultDescription
  {
    if phase == "intro" then
      "Begin your journey exploring the " + deviceName + ". Watch as it comes to life with interactive 3D visualization."
    else if phase == "explore" then
      "Discover the exterior design and build quality. Notice the premium materials and precision engineering."
    else if phase == "analyze" then
      "Examine the advanced features and technology components. See how each system integrates seamlessly."
    else if phase == "discover" then
      "Uncover the therapeutic capabilities and medical-grade specifications that set this device apart."
    else if phase == "complete" then
      "Experience complete. You've explored every aspect of this revolutionary medical technology."
    else DefaultDescription
  }

  /** Every phase has its own text, never the default; so whatever the progress, the shown
      description is a phase's own. */
  lemma PhaseHasText(phase: ScrollPhase, deviceName: string)
    ensures PhaseDescription(phase.Name(), deviceName) != DefaultDescription
  {
    match phase
    case Intro => IntroText(deviceName);
    case Explore => ExploreText(deviceName);
    case Analyze => AnalyzeText(deviceName);
    case Discover => DiscoverText(deviceName);
    case Complete => CompleteText(deviceName);
  }

  lemma IntroText(deviceName: string)
    ensures PhaseDescription("intro", deviceName) != DefaultDescription
  {
    var d, prefix := PhaseDescription("intro", deviceName), "Begin your journey exploring the ";
    assert d[..|prefix|] == prefix;
    assert d[0] == 'B';
  }

  lemma ExploreText(deviceName: string)
    ensures PhaseDescription("explore", deviceName) != DefaultDescription
  {
    assert PhaseDescription("explore", deviceName) ==
      "Discover the exterior design and build quality. Notice the premium materials and precision engineering.";
  }

  lemma AnalyzeText(deviceName: string)
    ensures PhaseDescription("analyze", deviceName) != DefaultDescription
  {
    assert PhaseDescription("analyze", deviceName) ==
      "Examine the advanced features and technology components. See how each system integrates seamlessly.";
  }

  lemma DiscoverText(deviceName: string)
    ensures PhaseDescription("discover", deviceName) != DefaultDescription
  {
    assert PhaseDescription("discover", deviceName) ==
      "Uncover the therapeutic capabilities and medical-grade specifications that set this device apart.";
  }

  lemma CompleteText(deviceName: string)
    ensures PhaseDescription("complete", deviceName) != DefaultDescription
  {
    assert PhaseDescription("complete", deviceName) ==
      "Experience complete. You've explored every aspect of this revolutionary medical technology.";
  }

  /** Only the intro text depends on the device. */
  lemma OnlyIntroNamesDevice(phase: ScrollPhase, deviceName: string, other: string)
    requires phase != Intro
    ensures PhaseDescription(phase.Name(), deviceName) == PhaseDescription(phase.Name(), other)
  {
  }
}
