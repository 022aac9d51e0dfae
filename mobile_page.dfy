/**
 * The mobile page (app/mobile/page.tsx): a device carousel whose arrows wrap around,
 * benefit and spec highlights advanced by interval timers, a colour theme per device,
 * the benefits/specifications toggle, and two text derivations (the description
 * preview and the first-word labels).
 *
 * The page's state variables are the fields of a `MobileHome` object; each interval
 * firing is a method call.
 */
module MobilePage {
  import opened Text

  datatype Spec = Spec(name: string, value: string)

  /** The part of a device record the page's logic reads. */
  datatype MobileDevice = MobileDevice(
    id: string, name: string, description: string, benefits: seq<string>, specs: seq<Spec>)

  /** `devices`, in source order. */
  const Devices: seq<MobileDevice> := [
    MobileDevice(
      "hyperbaric", "HYPERBARIC CHAMBER",
      "Hyperbaric Oxygen Therapy (HBOT) is a cutting-edge, safe, simple, and effective therapy that improves the concentration & supply of oxygen in our blood, which in turn supercharges the rate at which our bodies heal. Under pressurized conditions, your lungs can gather much more oxygen than would be possible breathing pure oxygen at normal air pressure.",
      [ "Improved brain function and metabolism",
        "Increased tissue oxygenation",
        "Reduced inflammation and swelling",
        "Enhanced wound healing",
        "Strengthened immune system",
        "New blood vessel growth stimulation" ],
      [ Spec("Pressure Rating", "200kPa/2bar (3 ATA)"),
        Spec("Internal Volume", "1.0 ㎥"),
        Spec("Dimensions", "Ø 760mm x 2,200mm L x 850mm H"),
        Spec("Weight", "270 kg (including controller)"),
        Spec("Pressurization Time", "~15 minutes to 200kPa"),
        Spec("Material", "Galvanized Steel with powder coating") ]),
    MobileDevice(
      "collagen", "UBODY COLLAGEN",
      "Advanced Red Light Therapy device offering a relaxed but powerful solution towards a healthy, balanced lifestyle. It enhances cellular function through targeted wavelengths, stimulating collagen production and promoting tissue repair. The full-body 360° coverage ensures optimal therapeutic light exposure for maximum benefits.",
      [ "Enhanced collagen production",
        "Improved skin texture and tone",
        "Reduced fine lines and wrinkles",
        "Faster muscle recovery",
        "Increased cellular energy (ATP)",
        "Better circulation and healing" ],
      [ Spec("LED Wavelengths", "660nm (Red) + 850nm (NIR)"),
        Spec("Total Power Output", "1000W medical-grade LEDs"),
        Spec("Coverage Area", "Full body 360° exposure"),
        Spec("Treatment Time", "10-20 minutes per session"),
        Spec("Control System", "Digital touchscreen interface"),
        Spec("Safety Features", "Eye protection & timer controls") ]),
    MobileDevice(
      "cryotherapy", "CRYO ARCTIC",
      "°CRYO Arctic Performance is a single person whole-body cryotherapy chamber designed to deliver the safest and most effective Cryo treatments. Built with state-of-the-art technology innovatively engineered to ensure that clients never come into direct contact with nitrogen vapors, only breathable air.",
      [ "Enhanced athletic performance",
        "Accelerated muscle recovery",
        "Natural skin rejuvenation",
        "Mood elevation and stress relief",
        "Improved sleep quality",
        "Reduced inflammation throughout body" ],
      [ Spec("Temperature Range", "Up to -140°C / -220°F"),
        Spec("Treatment Duration", "2-3 minutes per session"),
        Spec("Safety System", "Breathable air only (no nitrogen contact)"),
        Spec("Interior Features", "Touch screen, sound system, adjustable window"),
        Spec("Smart Technology", "Wi-Fi connectivity for remote assistance"),
        Spec("Safety Monitoring", "Built-in oxygen & temperature sensors") ])
  ]

  /** Every device has six benefits and six specs. The interval callbacks read the lengths of
      the device they were created for; since all lengths agree, that is the current one's. */
  lemma DeviceListShapes(i: int)
    requires 0 <= i < |Devices|
    ensures |Devices[i].benefits| == 6 && |Devices[i].specs| == 6
  {
  }

  // ----- Themes -----

  /** The object `getDeviceTheme` returns: class names and a text shadow. */
  datatype Theme = Theme(
    primary: string, secondary: string, accent: string, specActive: string, glow: string,
    border: string, bg: string, bgGradient: string, overlay: string, orb1: string, orb2: string)

  const HyperbaricTheme: Theme := Theme(
    "text-cyan-200",
    "text-blue-300/90",
    "text-cyan-300",
    "text-blue-200",
    "0 0 40px rgba(34, 211, 238, 0.3)",
    "border-cyan-400/60",
    "bg-cyan-400/10",
    "bg-gradient-to-br from-slate-900 via-blue-900/30 to-slate-900",
    "bg-gradient-to-t from-slate-900/95 via-blue-900/20 to-slate-900/60",
    "bg-gradient-to-r from-blue-500/25 to-cyan-500/20",
    "bg-gradient-to-r from-indigo-500/20 to-blue-600/15")

  const CollagenTheme: Theme := Theme(
    "text-red-200",
    "text-orange-300/90",
    "text-red-300",
    "text-orange-200",
    "0 0 40px rgba(248, 113, 113, 0.3)",
    "border-red-400/60",
    "bg-red-400/10",
    "bg-gradient-to-br from-slate-900 via-red-900/25 to-slate-900",
    "bg-gradient-to-t from-slate-900/95 via-red-900/15 to-slate-900/60",
    "bg-gradient-to-r from-red-500/20 to-orange-500/15",
    "bg-gradient-to-r from-amber-500/18 to-red-500/12")

  const CryotherapyTheme: Theme := Theme(
    "text-cyan-100",
    "text-teal-300/90",
    "text-teal-300",
    "text-teal-200",
    "0 0 40px rgba(34, 211, 238, 0.2)",
    "border-teal-400/60",
    "bg-teal-400/10",
    "bg-gradient-to-br from-slate-900 via-cyan-900/20 to-slate-900",
    "bg-gradient-to-t from-slate-900/95 via-cyan-900/15 to-slate-900/65",
    "bg-gradient-to-r from-cyan-400/25 to-blue-400/20",
    "bg-gradient-to-r from-teal-500/22 to-cyan-500/18")

  const DefaultTheme: Theme := Theme(
    "text-white",
    "text-gray-300",
    "text-blue-300",
    "text-blue-200",
    "0 0 40px rgba(59, 130, 246, 0.3)",
    "border-blue-500/30",
    "bg-blue-500/10",
    "bg-gradient-to-br from-slate-900 via-blue-900/30 to-slate-900",
    "bg-gradient-to-t from-slate-900/95 via-blue-900/20 to-slate-900/60",
    "bg-gradient-to-r from-blue-500/25 to-cyan-500/20",
    "bg-gradient-to-r from-indigo-500/20 to-blue-600/15")

  /** `getDeviceTheme`: the switch on the device id. */
  function DeviceTheme(deviceId: string): (t: Theme)
    ensures deviceId == "hyperbaric" ==> t == HyperbaricTheme
    ensures deviceId == "collagen" ==> t == CollagenTheme
    ensures deviceId == "cryotherapy" ==> t == CryotherapyTheme
  {
    match deviceId
    case "hyperbaric" => HyperbaricTheme
    case "collagen" => CollagenTheme
    case "cryotherapy" => CryotherapyTheme
    case _ => DefaultTheme
  }

  /** The lookup is total; it falls back to the default theme exactly for an unknown id, and the
      three known ids get three different themes. */
  lemma ThemeLookup(deviceId: string)
    ensures DeviceTheme(deviceId) == DefaultTheme <==>
      deviceId != "hyperbaric" && deviceId != "collagen" && deviceId != "cryotherapy"
    ensures HyperbaricTheme != CollagenTheme && CollagenTheme != CryotherapyTheme && HyperbaricTheme != CryotherapyTheme
  {
    assert HyperbaricTheme.primary != DefaultTheme.primary;
    assert CollagenTheme.primary != DefaultTheme.primary;
    assert CryotherapyTheme.primary != DefaultTheme.primary;
    assert HyperbaricTheme.primary != CollagenTheme.primary;
    assert CollagenTheme.primary != CryotherapyTheme.primary;
    assert HyperbaricTheme.primary != CryotherapyTheme.primary;
  }

  /** Every device of the page has its own theme, never the default. */
  lemma DevicesThemed(i: int)
    requires 0 <= i < |Devices|
    ensures DeviceTheme(Devices[i].id) != DefaultTheme
  {
    ThemeLookup(Devices[i].id);
  }

  // ----- Carousel arithmetic -----

  /** The left arrow's target: `(currentDevice - 1 + devices.length) % devices.length`. */
  function WrapPrevious(current: nat, count: nat): (r: nat)
    requires current < count
    ensures r < count
  {
    (current - 1 + count) % count
  }

  /** The right arrow's target: `(currentDevice + 1) % devices.length`. */
  function WrapNext(current: nat, count: nat): (r: nat)
    requires current < count
    ensures r < count
  {
    (current + 1) % count
  }

  /** The arrows step by one, wrap around at both ends, and undo each other. */
  lemma WrapSteps(current: nat, count: nat)
    requires current < count
    ensures current == 0 ==> WrapPrevious(current, count) == count - 1
    ensures current > 0 ==> WrapPrevious(current, count) == current - 1
    ensures current == count - 1 ==> WrapNext(current, count) == 0
    ensures current < count - 1 ==> WrapNext(current, count) == current + 1
    ensures WrapNext(WrapPrevious(current, count), count) == current
    ensures WrapPrevious(WrapNext(current, count), count) == current
  {
    if current == 0 {
      DivUnique(count - 1, count, 0, count - 1);
    } else {
      DivUnique(current - 1 + count, count, 1, current - 1);
    }
    if current == count - 1 {
      DivUnique(count, count, 1, 0);
    } else {
      DivUnique(current + 1, count, 0, current + 1);
    }
    var p, n := WrapPrevious(current, count), WrapNext(current, count);
    if p == count - 1 {
      DivUnique(count, count, 1, 0);
    } else {
      DivUnique(p + 1, count, 0, p + 1);
    }
    if n == 0 {
      DivUnique(count - 1, count, 0, count - 1);
    } else {
      DivUnique(n - 1 + count, count, 1, n - 1);
    }
  }

  /** How many benefits the cycle visits: `Math.min(benefits.length, 4)`. */
  function BenefitCycle(benefitCount: nat): nat {
    if benefitCount < 4 then benefitCount else 4
  }

  /** One step of an auto-cycle: `(prev + 1) % length`. */
  function CycleNext(prev: nat, length: nat): (r: nat)
    requires 0 < length
    ensures r < length
  {
    (prev + 1) % length
  }

  /** `n` firings of the same interval. */
  function Iterate(start: nat, length: nat, n: nat): (r: nat)
    requires 0 < length
    ensures n > 0 ==> r < length
  {
    if n == 0 then start else CycleNext(Iterate(start, length, n - 1), length)
  }

  /** From a value in range, `n` steps of the cycle land at `(start + n) % length`. */
  lemma {:induction false} CycleSteps(start: nat, length: nat, n: nat)
    requires 0 < length && start < length
    ensures Iterate(start, length, n) == (start + n) % length
  {
    if n == 0 {
      DivUnique(start, length, 0, start);
    } else {
      var a := start + n - 1;
      CycleSteps(start, length, n - 1);
      var prev := Iterate(start, length, n - 1);
      assert prev == a % length;
      ModSucc(a, length);
      assert Iterate(start, length, n) == (prev + 1) % length;
      assert a + 1 == start + n;
    }
  }

  /** After `length` firings the cycle is back where it started. */
  lemma CycleReturns(start: nat, length: nat)
    requires 0 < length && start < length
    ensures Iterate(start, length, length) == start
  {
    CycleSteps(start, length, length);
    DivUnique(start + length, length, 1, start);
  }

  lemma ModSucc(a: nat, m: nat)
    requires 0 < m
    ensures (a % m + 1) % m == (a + 1) % m
  {
    var q, r := a / m, a % m;
    if r + 1 < m {
      DivUnique(r + 1, m, 0, r + 1);
      DivUnique(a + 1, m, q, r + 1);
    } else {
      DivUnique(r + 1, m, 1, 0);
      DivUnique(a + 1, m, q + 1, 0);
    }
  }

  /** Euclidean division has one remainder: `a == q * m + r` with `0 <= r < m` fixes `a % m`. */
  lemma DivUnique(a: int, m: int, q: int, r: int)
    requires 0 < m && 0 <= r < m && a == q * m + r
    ensures a % m == r
  {
    var q2, r2 := a / m, a % m;
    assert (q - q2) * m == r2 - r;
    if q - q2 >= 1 {
      MulAtLeast(q - q2, m);
    } else if q2 - q >= 1 {
      MulAtLeast(q2 - q, m);
    }
  }

  lemma MulAtLeast(d: int, m: int)
    requires d >= 1 && m > 0
    ensures d * m >= m
  {
  }

  // ----- Text derivations -----

  /** `description.toLowerCase().slice(0, 120)`: the lowercased first 120 characters. */
  function DescriptionPreview(description: string): (p: string)
    ensures |p| == if |description| < 120 then |description| else 120
    ensures forall i :: 0 <= i < |p| ==> p[i] == LowerChar(description[i])
  {
    Lower(description)[..if |description| < 120 then |description| else 120]
  }

  /** The preview is already lowercase, and a description of at most 120 characters is shown whole. */
  lemma PreviewFacts(description: string)
    ensures Lower(DescriptionPreview(description)) == DescriptionPreview(description)
    ensures |description| <= 120 ==> DescriptionPreview(description) == Lower(description)
  {
    var p := DescriptionPreview(description);
    forall i | 0 <= i < |p| ensures Lower(p)[i] == p[i] {
      assert LowerChar(LowerChar(description[i])) == LowerChar(description[i]);
    }
  }

  /** Every description on the page is longer than 120 characters, so every preview is cut. */
  lemma PreviewsAreCut(i: int)
    requires 0 <= i < |Devices|
    ensures |DescriptionPreview(Devices[i].description)| == 120
  {
  }

  /** `name.split(' ')[0]`: the text before the first space, or all of it when there is none. */
  function FirstWord(name: string): (w: string)
    ensures |w| <= |name| && w == name[..|w|]
    ensures ' ' !in w
    ensures |w| < |name| ==> name[|w|] == ' '
  {
    if name == [] || name[0] == ' ' then []
    else [name[0]] + FirstWord(name[1..])
  }

  /** The first word is determined by those three facts: any prefix without a space that
      ends at a space or at the end of the name is it. */
  lemma {:induction false} FirstWordUnique(name: string, w: string)
    requires |w| <= |name| && w == name[..|w|] && ' ' !in w
    requires |w| < |name| ==> name[|w|] == ' '
    ensures FirstWord(name) == w
  {
    if name != [] && name[0] != ' ' {
      assert w != [] && w[0] == name[0];
      assert w[1..] == name[1..][..|w| - 1];
      assert ' ' !in w[1..] by {
        forall k | 0 <= k < |w[1..]| ensures w[1..][k] != ' ' {
          assert w[1..][k] == w[k + 1];
        }
      }
      FirstWordUnique(name[1..], w[1..]);
      assert w == [w[0]] + w[1..];
    }
  }

  /** The pill labels: "HYPERBARIC", "UBODY" and "CRYO". */
  lemma PillLabels()
    ensures FirstWord(Devices[0].name) == "HYPERBARIC"
    ensures FirstWord(Devices[1].name) == "UBODY"
    ensures FirstWord(Devices[2].name) == "CRYO"
  {
    HyperbaricLabel();
    CollagenLabel();
    CryoLabel();
    assert Devices[0].name == "HYPERBARIC CHAMBER";
    assert Devices[1].name == "UBODY COLLAGEN";
    assert Devices[2].name == "CRYO ARCTIC";
  }

  lemma HyperbaricLabel() ensures FirstWord("HYPERBARIC CHAMBER") == "HYPERBARIC" {
    FirstWordOf("HYPERBARIC CHAMBER", 10);
  }

  lemma CollagenLabel() ensures FirstWord("UBODY COLLAGEN") == "UBODY" {
    FirstWordOf("UBODY COLLAGEN", 5);
  }

  lemma CryoLabel() ensures FirstWord("CRYO ARCTIC") == "CRYO" {
    FirstWordOf("CRYO ARCTIC", 4);
  }

  /** A name whose first space is at `k` has the first `k` characters as its first word. */
  lemma FirstWordOf(name: string, k: nat)
    requires k < |name| && name[k] == ' ' && forall i :: 0 <= i < k ==> name[i] != ' '
    ensures FirstWord(name) == name[..k]
  {
    FirstWordUnique(name, name[..k]);
  }

  // ----- The page's state -----

  class MobileHome {
    var currentDevice: nat
    var activeBenefitIndex: nat
    var activeSpecIndex: nat
    /** Initialised to 0 and never updated; it is handed to the 3D viewer as is. */
    var scrollProgress: real
    var showSpecs: bool
    var showBenefits: bool

    ghost predicate Valid()
      reads this
    {
      currentDevice < |Devices| &&
      activeBenefitIndex < BenefitCycle(|Devices[currentDevice].benefits|) &&
      activeSpecIndex < |Devices[currentDevice].specs| &&
      showBenefits == !showSpecs
    }

    constructor ()
      ensures Valid()
      ensures currentDevice == 0 && activeBenefitIndex == 0 && activeSpecIndex == 0
      ensures scrollProgress == 0.0 && showBenefits && !showSpecs
    {
      currentDevice := 0;
      activeBenefitIndex := 0;
      activeSpecIndex := 0;
      scrollProgress := 0.0;
      showSpecs := false;
      showBenefits := true;
    }

    /** The benefit interval fired (every 3 seconds). */
    method TickBenefit()
      requires Valid()
      modifies this`activeBenefitIndex
      ensures Valid()
      ensures activeBenefitIndex == CycleNext(old(activeBenefitIndex), BenefitCycle(|Devices[currentDevice].benefits|))
    {
      DeviceListShapes(currentDevice);
      activeBenefitIndex := CycleNext(activeBenefitIndex, BenefitCycle(|Devices[currentDevice].benefits|));
    }

    /** The spec interval fired (every 4 seconds). */
    method TickSpec()
      requires Valid()
      modifies this`activeSpecIndex
      ensures Valid()
      ensures activeSpecIndex == CycleNext(old(activeSpecIndex), |Devices[currentDevice].specs|)
    {
      DeviceListShapes(currentDevice);
      activeSpecIndex := CycleNext(activeSpecIndex, |Devices[currentDevice].specs|);
    }

    /** `handleDeviceChange`: the pills, dots and arrows pass indices of `devices` only. */
    method HandleDeviceChange(index: nat)
      requires Valid() && index < |Devices|
      modifies this`currentDevice, this`activeBenefitIndex, this`activeSpecIndex
      ensures Valid()
      ensures currentDevice == index && activeBenefitIndex == 0 && activeSpecIndex == 0
    {
      DeviceListShapes(index);
      currentDevice := index;
      activeBenefitIndex := 0;
      activeSpecIndex := 0;
    }

    /** The left arrow. */
    method Previous()
      requires Valid()
      modifies this`currentDevice, this`activeBenefitIndex, this`activeSpecIndex
      ensures Valid()
      ensures currentDevice == WrapPrevious(old(currentDevice), |Devices|)
      ensures activeBenefitIndex == 0 && activeSpecIndex == 0
    {
      HandleDeviceChange(WrapPrevious(currentDevice, |Devices|));
    }

    /** The right arrow. */
    method Next()
      requires Valid()
      modifies this`currentDevice, this`activeBenefitIndex, this`activeSpecIndex
      ensures Valid()
      ensures currentDevice == WrapNext(old(currentDevice), |Devices|)
      ensures activeBenefitIndex == 0 && activeSpecIndex == 0
    {
      HandleDeviceChange(WrapNext(currentDevice, |Devices|));
    }

    /** The "Medical Effects" tab. */
    method ShowBenefitsTab()
      requires Valid()
      modifies this`showBenefits, this`showSpecs
      ensures Valid() && showBenefits && !showSpecs
    {
      showBenefits := true;
      showSpecs := false;
    }

    /** The "Specifications" tab. */
    method ShowSpecsTab()
      requires Valid()
      modifies this`showBenefits, this`showSpecs
      ensures Valid() && showSpecs && !showBenefits
    {
      showSpecs := true;
      showBenefits := false;
    }

    /** The highlighted benefit's text (the benefit card under the device). */
    function ActiveBenefit(): (b: string)
      reads this
      requires Valid()
      ensures b in Devices[currentDevice].benefits[..BenefitCycle(|Devices[currentDevice].benefits|)]
    {
      DeviceListShapes(currentDevice);
      Devices[currentDevice].benefits[activeBenefitIndex]
    }

    /** The theme of the current device. */
    function CurrentTheme(): (t: Theme)
      reads this
      requires Valid()
      ensures t != DefaultTheme
      ensures t == [HyperbaricTheme, CollagenTheme, CryotherapyTheme][currentDevice]
    {
      DevicesThemed(currentDevice);
      DeviceTheme(Devices[currentDevice].id)
    }
  }
}
