/**
 * The 3D device viewer (app/components/MedicalDevice3D.tsx): the Safari test, the
 * seven-stage camera table driven by scroll progress, the base-scale lookup by device
 * name, the render settings chosen for constrained clients (mobile width or Safari),
 * and the fallback to a static image. The three.js scene itself is not modelled; what
 * the component hands to it is.
 *
 * Progress and all coefficients are exact reals; `Math.PI` is the parameter `pi`.
 */
module MedicalDevice3D {
  import opened Wrappers
  import opened Text

  // ----- Browser detection -----

  /** The characters the regex `.` refuses to match. */
  predicate IsLineTerminator(c: char) {
    c == '\n' || c == '\r' || c == '\U{2028}' || c == '\U{2029}'
  }

  /** Position `j` can be consumed by `((?!chrome|android).)`. */
  predicate CleanAt(s: string, j: int) {
    0 <= j < |s| && !IsLineTerminator(s[j]) && !StartsAtCI(s, j, "chrome") && !StartsAtCI(s, j, "android")
  }

  /** `/^((?!chrome|android).)*safari/i` matches with "safari" found at position `k`. */
  ghost predicate SafariMatchAt(s: string, k: int) {
    StartsAtCI(s, k, "safari") && forall j :: 0 <= j < k ==> CleanAt(s, j)
  }

  /** The regex scan from position `j`, all positions before `j` having been consumed. */
  function SafariFrom(s: string, j: nat): bool
    requires j <= |s|
    decreases |s| - j
  {
    if StartsAtCI(s, j, "safari") then true
    else if j == |s| || !CleanAt(s, j) then false
    else SafariFrom(s, j + 1)
  }

  /** `isSafari()`; `None` is a missing `window` (server-side rendering), which answers false. */
  function IsSafari(navigatorUserAgent: Option<string>): bool {
    match navigatorUserAgent
    case None => false
    case Some(userAgent) => SafariFrom(userAgent, 0)
  }

  lemma {:induction false} SafariFromIff(s: string, j: nat)
    requires j <= |s|
    requires forall i :: 0 <= i < j ==> CleanAt(s, i)
    ensures SafariFrom(s, j) <==> exists k :: j <= k <= |s| && SafariMatchAt(s, k)
    decreases |s| - j
  {
    if StartsAtCI(s, j, "safari") {
      assert SafariMatchAt(s, j);
    } else if j == |s| || !CleanAt(s, j) {
      NoMatchPastBlock(s, j);
    } else {
      assert forall i :: 0 <= i < j + 1 ==> CleanAt(s, i);
      SafariFromIff(s, j + 1);
      assert SafariFrom(s, j) == SafariFrom(s, j + 1);
      if exists k :: j <= k <= |s| && SafariMatchAt(s, k) {
        var k :| j <= k <= |s| && SafariMatchAt(s, k);
        assert j + 1 <= k;
      }
    }
  }

  /** A position that is not "safari" and cannot be consumed ends every match attempt at or after it. */
  lemma NoMatchPastBlock(s: string, j: nat)
    requires j <= |s| && !StartsAtCI(s, j, "safari")
    requires j == |s| || !CleanAt(s, j)
    ensures forall k :: j <= k <= |s| ==> !SafariMatchAt(s, k)
  {
    forall k | j <= k <= |s| ensures !SafariMatchAt(s, k) {
      if k > j {
        assert !CleanAt(s, j);
      }
    }
  }

  /** Safari is detected exactly when "safari" occurs (ignoring case) at some position `k`
      and every earlier position starts neither "chrome" nor "android" and is no line break. */
  lemma IsSafariIff(userAgent: string)
    ensures IsSafari(Some(userAgent)) <==> exists k :: 0 <= k <= |userAgent| && SafariMatchAt(userAgent, k)
  {
    SafariFromIff(userAgent, 0);
  }

  /** A "chrome" or "android" before every "safari" rules Safari out, as for Chrome's user agent. */
  lemma CompetingEngineFirst(userAgent: string, j: int)
    requires 0 <= j < |userAgent|
    requires StartsAtCI(userAgent, j, "chrome") || StartsAtCI(userAgent, j, "android")
    requires forall k :: 0 <= k <= j ==> !StartsAtCI(userAgent, k, "safari")
    ensures !IsSafari(Some(userAgent))
  {
    IsSafariIff(userAgent);
    forall k | 0 <= k <= |userAgent| ensures !SafariMatchAt(userAgent, k) {
      if k > j {
        assert !CleanAt(userAgent, j);
      }
    }
  }

  /** The resize handler's rule: a width under 768 pixels is mobile. */
  predicate IsMobileWidth(innerWidth: int) {
    innerWidth < 768
  }

  // ----- Camera stages -----

  datatype Vec3 = Vec3(x: real, y: real, z: real)

  /** The value of `cameraStages`. */
  datatype Pose = Pose(position: Vec3, rotation: Vec3, scale: real)

  /** The lower bounds of stages 2 to 7. */
  const Breakpoints: seq<real> := [0.15, 0.30, 0.45, 0.60, 0.75, 0.90]

  /** The branch of the `cameraStages` if-chain that `progress` takes, numbered 1 to 7. */
  function Stage(progress: real): (stage: int)
    ensures 1 <= stage <= 7
  {
    if progress < 0.15 then 1
    else if progress < 0.30 then 2
    else if progress < 0.45 then 3
    else if progress < 0.60 then 4
    else if progress < 0.75 then 5
    else if progress < 0.90 then 6
    else 7
  }

  /** Stage `i` is the half-open interval from breakpoint `i - 2` to breakpoint `i - 1`;
      stage 1 has no lower end and stage 7 no upper end. */
  predicate InStage(progress: real, i: int)
    requires 1 <= i <= 7
  {
    (i == 1 || Breakpoints[i - 2] <= progress) && (i == 7 || progress < Breakpoints[i - 1])
  }

  /** The stages partition the whole real line: `progress` lies in stage `i` exactly when
      the if-chain picks `i`; nothing is clamped, so negative progress is stage 1 and
      progress above 1 is stage 7. */
  lemma StagePartition(progress: real, i: int)
    requires 1 <= i <= 7
    ensures InStage(progress, i) <==> Stage(progress) == i
  {
  }

  /** Later progress never selects an earlier stage. */
  lemma StageMonotone(p: real, q: real)
    requires p <= q
    ensures Stage(p) <= Stage(q)
  {
  }

  /** The fraction of the current stage covered, as each branch computes it. */
  function LocalProgress(progress: real): real {
    match Stage(progress)
    case 1 => progress
    case 7 => (progress - 0.90) / 0.10
    case _ => (progress - Breakpoints[Stage(progress) - 2]) / 0.15
  }

  /** The pose of each stage, for base scale `scale`. */
  function CameraPose(progress: real, scale: real, pi: real): Pose {
    var t := LocalProgress(progress);
    match Stage(progress)
    case 1 => Pose(Vec3(0.0, 0.0, 4.5 - progress * 6.7), Vec3(0.0, 0.0, 0.0), scale + progress * 0.3)
    case 2 => Pose(Vec3(t * 3.0, 0.5 + t * 0.5, 3.5), Vec3(0.0, t * pi * 0.3, 0.0), scale + 0.3)
    case 3 => Pose(Vec3(3.0, 0.5 + t * 2.0, 3.5 - t * 1.0), Vec3(-t * pi * 0.2, pi * 0.3, 0.0), scale + 0.3 - t * 0.1)
    case 4 => Pose(Vec3(3.0 - t * 6.0, 2.5, 2.5 - t * 0.8), Vec3(-pi * 0.2, pi * 0.3 + t * pi * 0.4, 0.0), scale + 0.2 + t * 0.5)
    case 5 => Pose(Vec3(-3.0, 2.5 - t * 1.0, 1.7), Vec3(-pi * 0.2 + t * pi * 0.1, pi * 0.7, 0.0), scale + 0.7 - t * 0.2)
    case 6 => Pose(Vec3(-3.0 + t * 3.0, 1.5, 1.7 + t * 1.0), Vec3(-pi * 0.1, pi * 0.7 + t * pi * 0.6, 0.0), scale + 0.5 - t * 0.1)
    case _ => Pose(Vec3(0.0, 1.5 - t * 1.5, 2.7 + t * 1.8), Vec3(-pi * 0.1 + t * pi * 0.1, pi * 1.3 + t * pi * 0.7, 0.0), scale + 0.4 - t * 0.2)
  }

  /** Inside stages 2 to 6 the local progress runs over [0, 1); in stage 7 it is 0 at 0.90 and 1 at 1.0. */
  lemma LocalProgressRange(progress: real)
    requires 0.15 <= progress < 0.90
    ensures 0.0 <= LocalProgress(progress) < 1.0
  {
  }

  /** At the top of the page: position (0, 0, 4.5), no rotation, the base scale. */
  lemma PoseAtStart(scale: real, pi: real)
    ensures CameraPose(0.0, scale, pi) == Pose(Vec3(0.0, 0.0, 4.5), Vec3(0.0, 0.0, 0.0), scale)
  {
  }

  /** Halfway through stage 2 the camera is 1.5 to the side and turned by 0.15 pi. */
  lemma PoseMidStageTwo(scale: real, pi: real)
    ensures LocalProgress(0.225) == 0.5
    ensures CameraPose(0.225, scale, pi).position.x == 1.5
    ensures CameraPose(0.225, scale, pi).rotation.y == 0.15 * pi
  {
  }

  /** At the end of the page: back at (0, 0, 4.5), tilt undone, base scale plus 0.2. */
  lemma PoseAtEnd(scale: real, pi: real)
    ensures CameraPose(1.0, scale, pi).position == Vec3(0.0, 0.0, 4.5)
    ensures CameraPose(1.0, scale, pi).rotation.x == 0.0
    ensures CameraPose(1.0, scale, pi).scale == scale + 0.2
  {
  }

  /** Out-of-range progress is not clamped: it extrapolates the first and the last stage. */
  lemma NoClamping(scale: real, pi: real)
    ensures CameraPose(-0.5, scale, pi).position.z == 7.85
    ensures CameraPose(-0.5, scale, pi) != CameraPose(0.0, scale, pi)
    ensures CameraPose(1.5, scale, pi).scale == scale - 0.8
    ensures CameraPose(1.5, scale, pi) != CameraPose(1.0, scale, pi)
  {
  }

  /** The scale jumps at the first breakpoint: below 0.15 it stays under base + 0.045,
      at 0.15 it is base + 0.3. */
  lemma ScaleJumpsAtFirstBreakpoint(progress: real, scale: real, pi: real)
    requires 0.0 <= progress < 0.15
    ensures CameraPose(progress, scale, pi).scale < scale + 0.045
    ensures CameraPose(0.15, scale, pi).scale == scale + 0.3
  {
  }

  // ----- Render profile -----

  /** `SafariLighting` (one directional, one ambient, one accent point light) or `PremiumLighting`
      (directional, two accent point lights, ambient, rim spot light). */
  datatype LightingRig = ReducedRig | PremiumRig

  /** The canvas's `dpr` prop: a fixed ratio or a range. */
  datatype Dpr = FixedDpr(ratio: int) | DprRange(low: int, high: int)

  datatype ToneMapping = LinearToneMapping | AcesFilmicToneMapping

  datatype PowerPreference = DefaultPower | HighPerformance

  /** Everything the component derives from (mobile width, Safari) for the canvas and scene. */
  datatype RenderSettings = RenderSettings(
    fov: int,
    shadows: bool,
    antialias: bool,
    powerPreference: PowerPreference,
    preserveDrawingBuffer: bool,
    toneMapping: ToneMapping,
    dpr: Dpr,
    softShadowMap: bool,
    lighting: LightingRig,
    contactShadows: bool,
    environmentPreset: string,
    environmentIntensity: real,
    modelY: real,
    overlayDelay: int)

  /** Mobile width or Safari: the reduced profile applies. */
  predicate Constrained(isMobile: bool, isSafari: bool) {
    isMobile || isSafari
  }

  /** The conditionals on the canvas props, the `onCreated` shadow map, the lighting switch,
      the contact shadows, the environment and the loading overlay. */
  function Settings(isMobile: bool, isSafari: bool): RenderSettings {
    var constrained := Constrained(isMobile, isSafari);
    RenderSettings(
      fov := if isMobile then 70 else 55,
      shadows := !isMobile && !isSafari,
      antialias := !isMobile && !isSafari,
      powerPreference := if constrained then DefaultPower else HighPerformance,
      preserveDrawingBuffer := isSafari,
      toneMapping := if isSafari then LinearToneMapping else AcesFilmicToneMapping,
      dpr := if constrained then FixedDpr(1) else DprRange(1, 2),
      softShadowMap := !isMobile && !isSafari,
      lighting := if constrained then ReducedRig else PremiumRig,
      contactShadows := !isMobile && !isSafari,
      environmentPreset := if constrained then "city" else "studio",
      environmentIntensity := if isSafari then 0.5 else 1.0,
      modelY := if constrained then -0.1 else -0.3,
      overlayDelay := if constrained then 4 else 2)
  }

  /** On a constrained client shadows and antialiasing are off, the pixel ratio is fixed at 1,
      the reduced rig and the "city" preset are used. */
  lemma ConstrainedProfile(isMobile: bool, isSafari: bool)
    requires Constrained(isMobile, isSafari)
    ensures var r := Settings(isMobile, isSafari);
      !r.shadows && !r.antialias && !r.softShadowMap && !r.contactShadows && r.dpr == FixedDpr(1) &&
      r.lighting == ReducedRig && r.environmentPreset == "city" && r.powerPreference == DefaultPower &&
      r.modelY == -0.1 && r.overlayDelay == 4
  {
  }

  /** On a desktop non-Safari client shadows and antialiasing are on, the pixel ratio ranges
      over [1, 2], the premium rig and the "studio" preset are used. */
  lemma FullProfile(isMobile: bool, isSafari: bool)
    requires !Constrained(isMobile, isSafari)
    ensures var r := Settings(isMobile, isSafari);
      r.shadows && r.antialias && r.softShadowMap && r.contactShadows && r.dpr == DprRange(1, 2) &&
      r.lighting == PremiumRig && r.environmentPreset == "studio" && r.powerPreference == HighPerformance &&
      r.modelY == -0.3 && r.overlayDelay == 2 && r.fov == 55 && !r.preserveDrawingBuffer &&
      r.toneMapping == AcesFilmicToneMapping && r.environmentIntensity == 1.0
  {
  }

  /** The shadows, the antialiasing, the premium rig, the pixel-ratio range and the contact
      shadows are all on together or all off together. */
  lemma ProfileIsAllOrNothing(isMobile: bool, isSafari: bool)
    ensures var r := Settings(isMobile, isSafari);
      r.shadows == r.antialias == (r.lighting == PremiumRig) == (r.dpr == DprRange(1, 2)) == r.contactShadows ==
        !Constrained(isMobile, isSafari)
  {
  }

  /** The scale passed to the model: a case-sensitive test for "Hyperbaric", then "CRYO". */
  function BaseScale(constrained: bool, deviceName: string): real {
    if constrained then
      (if Contains(deviceName, "Hyperbaric") then 0.8 else if Contains(deviceName, "CRYO") then 0.9 else 1.0)
    else
      (if Contains(deviceName, "Hyperbaric") then 1.3 else if Contains(deviceName, "CRYO") then 1.4 else 1.5)
  }

  /** The reduced scale is the full one lowered by exactly 0.5, for every name. */
  lemma BaseScaleTable(deviceName: string)
    ensures BaseScale(true, deviceName) == BaseScale(false, deviceName) - 0.5
    ensures Contains(deviceName, "Hyperbaric") ==> BaseScale(false, deviceName) == 1.3
    ensures !Contains(deviceName, "Hyperbaric") && Contains(deviceName, "CRYO") ==> BaseScale(false, deviceName) == 1.4
    ensures !Contains(deviceName, "Hyperbaric") && !Contains(deviceName, "CRYO") ==> BaseScale(false, deviceName) == 1.5
  {
  }

  /** The test is case-sensitive: an all-capitals "HYPERBARIC" name gets the default scale. */
  lemma CapitalNameMissesHyperbaric()
    ensures BaseScale(false, "HYPERBARIC CHAMBER") == 1.5
    ensures BaseScale(false, "Hyperbaric Oxygen Therapy Chamber") == 1.3
  {
    MissingCharNotContained("HYPERBARIC CHAMBER", "Hyperbaric", 1);
    MissingCharNotContained("HYPERBARIC CHAMBER", "CRYO", 3);
    assert StartsAt("Hyperbaric Oxygen Therapy Chamber", 0, "Hyperbaric");
    ContainsWitness("Hyperbaric Oxygen Therapy Chamber", "Hyperbaric", 0);
  }

  // ----- What the component renders -----

  /** The model inside the canvas: the placeholder box when the asset failed, else the scene. */
  datatype Mesh = Placeholder(position: Vec3, scale: real) | Primitive(position: Vec3, scale: real, rotation: Vec3)

  /** `MedicalDeviceModel`'s return: only the pose's scale and rotation reach the mesh. */
  function ModelMesh(sceneLoaded: bool, position: Vec3, pose: Pose): (m: Mesh)
    ensures m.position == position && m.scale == pose.scale
  {
    if sceneLoaded then Primitive(position, pose.scale, pose.rotation) else Placeholder(position, pose.scale)
  }

  /** The camera position of the table never moves the mesh: two poses that differ only in
      position give the same mesh. */
  lemma PosePositionUnused(sceneLoaded: bool, position: Vec3, pose: Pose, p: Vec3)
    ensures ModelMesh(sceneLoaded, position, pose) == ModelMesh(sceneLoaded, position, pose.(position := p))
  {
  }

  /** `!isMounted || !webGLSupported || !modelUrl`; an empty URL string is falsy too. */
  predicate ShowsFallback(isMounted: bool, webGLSupported: bool, modelUrl: Option<string>) {
    !isMounted || !webGLSupported || modelUrl == None || modelUrl == Some("")
  }

  /** The `scrollData` state. */
  datatype ScrollData = ScrollData(progress: real, velocity: real, direction: int)

  /** The component's state fields, with its props kept beside them. */
  class Viewer {
    const modelUrl: Option<string>
    const fallbackImage: string
    const deviceName: string
    var scrollProgress: real
    var scrollData: ScrollData
    var isModelLoaded: bool
    var isMobile: bool
    var isMounted: bool
    var webGLSupported: bool
    var browserIsSafari: bool

    /** The first render: the prop defaults and the initial `useState` values. */
    constructor (modelUrl: Option<string>, fallbackImage: Option<string>, deviceName: string, scrollProgress: Option<real>)
      ensures this.modelUrl == modelUrl && this.deviceName == deviceName
      ensures this.fallbackImage == fallbackImage.GetOr("/images/device-placeholder.svg")
      ensures this.scrollProgress == scrollProgress.GetOr(0.0)
      ensures scrollData == ScrollData(scrollProgress.GetOr(0.0), 0.0, 1)
      ensures !isModelLoaded && !isMobile && !isMounted && webGLSupported && !browserIsSafari
      ensures ShowsFallback(isMounted, webGLSupported, modelUrl)
    {
      this.modelUrl := modelUrl;
      this.fallbackImage := fallbackImage.GetOr("/images/device-placeholder.svg");
      this.deviceName := deviceName;
      this.scrollProgress := scrollProgress.GetOr(0.0);
      scrollData := ScrollData(scrollProgress.GetOr(0.0), 0.0, 1);
      isModelLoaded, isMobile, isMounted, webGLSupported, browserIsSafari := false, false, false, true, false;
    }

    /** The mount effect; the WebGL probe's answer and the navigator's user agent are inputs. */
    method Mount(webGLAvailable: bool, navigatorUserAgent: Option<string>)
      modifies this
      ensures isMounted && webGLSupported == webGLAvailable && browserIsSafari == IsSafari(navigatorUserAgent)
      ensures scrollProgress == old(scrollProgress) && scrollData == old(scrollData)
      ensures isModelLoaded == old(isModelLoaded) && isMobile == old(isMobile)
      ensures ShowsFallback(isMounted, webGLSupported, modelUrl) <==> !webGLAvailable || modelUrl == None || modelUrl == Some("")
    {
      isMounted := true;
      webGLSupported := webGLAvailable;
      browserIsSafari := IsSafari(navigatorUserAgent);
    }

    /** `checkMobile`, run by the resize effect once mounted and on every resize; before
        mounting the effect returns early. */
    method CheckMobile(innerWidth: int)
      modifies this`isMobile
      ensures isMobile == if old(isMounted) then IsMobileWidth(innerWidth) else old(isMobile)
    {
      if isMounted {
        isMobile := IsMobileWidth(innerWidth);
      }
    }

    /** A new `scrollProgress` prop, and the effect that copies it into `scrollData`. */
    method ReceiveScrollProgress(progress: real)
      modifies this`scrollProgress, this`scrollData
      ensures scrollProgress == progress
      ensures scrollData == old(scrollData).(progress := progress)
    {
      scrollProgress := progress;
      scrollData := scrollData.(progress := progress);
    }

    /** The loading overlay's fade-out finished (`onAnimationComplete`). */
    method OverlayFaded()
      modifies this`isModelLoaded
      ensures isModelLoaded
    {
      isModelLoaded := true;
    }

    /** The canvas reported an error (`onError`). */
    method CanvasError()
      modifies this`isModelLoaded
      ensures !isModelLoaded
    {
      isModelLoaded := false;
    }

    /** The settings of the current render. */
    function CurrentSettings(): (r: RenderSettings)
      reads this
      ensures r.shadows == r.antialias == (r.lighting == PremiumRig) == (r.dpr == DprRange(1, 2)) == r.contactShadows ==
        (!isMobile && !browserIsSafari)
      ensures r.fov == (if isMobile then 70 else 55)
    {
      ProfileIsAllOrNothing(isMobile, browserIsSafari);
      Settings(isMobile, browserIsSafari)
    }

    /** The pose the model receives in the current render. */
    function CurrentPose(pi: real): (p: Pose)
      reads this
      ensures scrollData.progress == 0.0 ==>
        p == Pose(Vec3(0.0, 0.0, 4.5), Vec3(0.0, 0.0, 0.0), BaseScale(Constrained(isMobile, browserIsSafari), deviceName))
      ensures scrollData.progress == 1.0 ==>
        p.scale == BaseScale(Constrained(isMobile, browserIsSafari), deviceName) + 0.2
    {
      PoseAtStart(BaseScale(Constrained(isMobile, browserIsSafari), deviceName), pi);
      PoseAtEnd(BaseScale(Constrained(isMobile, browserIsSafari), deviceName), pi);
      CameraPose(scrollData.progress, BaseScale(Constrained(isMobile, browserIsSafari), deviceName), pi)
    }
  }
}
