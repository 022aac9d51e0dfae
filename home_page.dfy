/**
 * The desktop home page (app/page.tsx): scroll progress, the spec highlighted for it
 * (each spec has a scroll trigger), the device switcher with clamped previous/next
 * buttons, and the height of the spec progress line.
 *
 * The page's state variables are the fields of a `Home` object. Of the device records
 * only the id, the name and the spec triggers take part in these decisions.
 */
module HomePage {
  import opened Text
  import MedicalDevice3D

  /** The part of a device record these decisions read. */
  datatype Device = Device(id: string, name: string, triggers: seq<real>)

  /** The spec triggers shared by all three devices. */
  const SpecTriggers: seq<real> := [0.1, 0.25, 0.4, 0.55, 0.7, 0.85]

  /** `devices`, in source order. */
  const Devices: seq<Device> := [
    Device("hyperbaric", "HYPERBARIC CHAMBER", SpecTriggers),
    Device("collagen", "UBODY COLLAGEN", SpecTriggers),
    Device("cryotherapy", "CRYO ARCTIC", SpecTriggers)
  ]

  // ----- Scroll progress -----

  /** `Math.min(scrollTop / Math.max(documentHeight, 1), 1)`. */
  function ScrollProgress(scrollTop: real, documentHeight: real): (p: real)
    ensures p <= 1.0
    ensures 0.0 <= scrollTop ==> 0.0 <= p
    ensures 1.0 <= documentHeight && scrollTop <= documentHeight ==> p * documentHeight == scrollTop
  {
    var h := if documentHeight > 1.0 then documentHeight else 1.0;
    var q := scrollTop / h;
    if q < 1.0 then q else 1.0
  }

  // ----- Active spec -----

  predicate StrictlyIncreasing(ts: seq<real>) {
    forall i, j :: 0 <= i < j < |ts| ==> ts[i] < ts[j]
  }

  /** The `findIndex` predicate: spec `i` has been reached and the next one (if any) not yet. */
  predicate Activates(ts: seq<real>, p: real, i: int)
    requires 0 <= i < |ts|
  {
    ts[i] <= p && (i == |ts| - 1 || p < ts[i + 1])
  }

  /** `findIndex` from position `from` on: the first index satisfying `Activates`, or -1. */
  function FindActiveFrom(ts: seq<real>, p: real, from: nat): (k: int)
    requires from <= |ts|
    ensures k == -1 || from <= k < |ts|
    ensures k != -1 ==> Activates(ts, p, k) && forall j :: from <= j < k ==> !Activates(ts, p, j)
    ensures k == -1 ==> forall j :: from <= j < |ts| ==> !Activates(ts, p, j)
    decreases |ts| - from
  {
    if from == |ts| then -1
    else if Activates(ts, p, from) then from
    else FindActiveFrom(ts, p, from + 1)
  }

  /** `currentSpecs.findIndex(...)`. */
  function FindActive(ts: seq<real>, p: real): int
  {
    FindActiveFrom(ts, p, 0)
  }

  /** With strictly increasing triggers at most one index satisfies the predicate. */
  lemma ActivationUnique(ts: seq<real>, p: real, i: int, j: int)
    requires StrictlyIncreasing(ts)
    requires 0 <= i < |ts| && 0 <= j < |ts|
    requires Activates(ts, p, i) && Activates(ts, p, j)
    ensures i == j
  {
  }

  /** Once the first trigger is reached, the last trigger not above `p` activates. */
  lemma {:induction false} ActivationExists(ts: seq<real>, p: real, n: nat)
    requires StrictlyIncreasing(ts)
    requires 0 < n <= |ts| && ts[n - 1] <= p
    ensures FindActive(ts, p) >= 0
    decreases |ts| - n
  {
    if n == |ts| {
      assert Activates(ts, p, n - 1);
    } else if p < ts[n] {
      assert Activates(ts, p, n - 1);
    } else {
      ActivationExists(ts, p, n + 1);
    }
  }

  /** The state update of `handleScroll` for the active spec: the found index, 0 below the
      first trigger, and otherwise the old value. */
  function NextActiveSpec(ts: seq<real>, current: nat, p: real): (r: nat)
    requires 0 < |ts| && current < |ts|
    ensures r < |ts|
    ensures StrictlyIncreasing(ts) && p < ts[0] ==> r == 0
  {
    var k := FindActive(ts, p);
    if k >= 0 then k
    else if p < ts[0] then 0
    else current
  }

  /** With increasing triggers, once the first trigger is reached the old value is never
      kept: the highlighted spec is one whose interval holds `p`. */
  lemma NextActiveSpecActivates(ts: seq<real>, current: nat, p: real)
    requires 0 < |ts| && current < |ts|
    requires StrictlyIncreasing(ts) && ts[0] <= p
    ensures Activates(ts, p, NextActiveSpec(ts, current, p))
  {
    ActivationExists(ts, p, 1);
  }

  /** For the page's triggers the highlighted spec is the unique one whose interval holds `p`;
      the last spec has no upper end. */
  lemma ActiveSpecIsUnique(current: nat, p: real, i: int)
    requires current < |SpecTriggers| && 0 <= i < |SpecTriggers|
    requires Activates(SpecTriggers, p, i)
    ensures NextActiveSpec(SpecTriggers, current, p) == i
  {
    var r := NextActiveSpec(SpecTriggers, current, p);
    NextActiveSpecActivates(SpecTriggers, current, p);
    ActivationUnique(SpecTriggers, p, r, i);
  }

  /** Every device's triggers rise strictly. */
  lemma TriggersIncreasing(d: int)
    requires 0 <= d < |Devices|
    ensures StrictlyIncreasing(Devices[d].triggers) && |Devices[d].triggers| == 6
  {
  }

  /** The names handed to the 3D viewer select its full-quality scale by case-sensitive
      substrings: only "CRYO ARCTIC" gets its own scale, and the capitalised
      "HYPERBARIC CHAMBER" falls through to the default. */
  lemma ViewerScales()
    ensures MedicalDevice3D.BaseScale(false, Devices[0].name) == 1.5
    ensures MedicalDevice3D.BaseScale(false, Devices[1].name) == 1.5
    ensures MedicalDevice3D.BaseScale(false, Devices[2].name) == 1.4
  {
    assert Devices[0].name == "HYPERBARIC CHAMBER";
    MedicalDevice3D.CapitalNameMissesHyperbaric();
    CollagenScale();
    CryoScale();
  }

  lemma CollagenScale()
    ensures MedicalDevice3D.BaseScale(false, "UBODY COLLAGEN") == 1.5
  {
    MissingCharNotContained("UBODY COLLAGEN", "Hyperbaric", 1);
    MissingCharNotContained("UBODY COLLAGEN", "CRYO", 1);
  }

  lemma CryoScale()
    ensures MedicalDevice3D.BaseScale(false, "CRYO ARCTIC") == 1.4
  {
    MissingCharNotContained("CRYO ARCTIC", "Hyperbaric", 1);
    assert StartsAt("CRYO ARCTIC", 0, "CRYO");
    ContainsWitness("CRYO ARCTIC", "CRYO", 0);
  }

  // ----- Progress line -----

  /** `Math.min((activeSpecIndex + 1) / specs.length * 100, 100)`, in percent. */
  function ProgressLineHeight(active: nat, count: nat): real
    requires 0 < count
  {
    var h := (active + 1) as real / count as real * 100.0;
    if h < 100.0 then h else 100.0
  }

  /** The line is never empty, reaches full height exactly at the last spec, and grows with the spec. */
  lemma ProgressLineBounds(active: nat, count: nat)
    requires active < count
    ensures 0.0 < ProgressLineHeight(active, count) <= 100.0
    ensures ProgressLineHeight(active, count) == 100.0 <==> active == count - 1
    ensures active + 1 < count ==> ProgressLineHeight(active, count) < ProgressLineHeight(active + 1, count)
  {
    var c := count as real;
    assert (active + 1) as real / c * 100.0 == (active + 1) as real * 100.0 / c;
    assert (active + 2) as real / c * 100.0 == (active + 2) as real * 100.0 / c;
  }

  // ----- The page's state -----

  class Home {
    var isLoading: bool
    var currentDevice: nat
    var scrollProgress: real
    var activeSpecIndex: nat
    /** How many times the page has asked the window to scroll smoothly back to the top. */
    var scrollResets: nat

    ghost predicate Valid()
      reads this
    {
      currentDevice < |Devices| && activeSpecIndex < |Devices[currentDevice].triggers|
    }

    constructor ()
      ensures Valid()
      ensures isLoading && currentDevice == 0 && scrollProgress == 0.0 && activeSpecIndex == 0
      ensures scrollResets == 0
    {
      isLoading := true;
      currentDevice := 0;
      scrollProgress := 0.0;
      activeSpecIndex := 0;
      scrollResets := 0;
    }

    /** The loading timer fired. */
    method FinishLoading()
      modifies this`isLoading
      ensures !isLoading
    {
      isLoading := false;
    }

    /** `handleScroll`, with `window.scrollY`, `window.innerHeight` and the document's
        `scrollHeight` as inputs. */
    method HandleScroll(scrollY: real, innerHeight: real, scrollHeight: real)
      requires Valid()
      modifies this`scrollProgress, this`activeSpecIndex
      ensures Valid()
      ensures scrollProgress == ScrollProgress(scrollY, scrollHeight - innerHeight)
      ensures activeSpecIndex == NextActiveSpec(Devices[currentDevice].triggers, old(activeSpecIndex), scrollProgress)
    {
      TriggersIncreasing(currentDevice);
      var documentHeight := scrollHeight - innerHeight;
      var progress := ScrollProgress(scrollY, documentHeight);
      scrollProgress := progress;
      activeSpecIndex := NextActiveSpec(Devices[currentDevice].triggers, activeSpecIndex, progress);
    }

    /** `switchDevice`: the device buttons and the arrows pass indices of `devices` only. A real
        switch also scrolls the window back to the top; the scroll events that follow reach
        `HandleScroll` with their own `scrollY`. */
    method SwitchDevice(index: nat)
      requires Valid() && index < |Devices|
      modifies this`currentDevice, this`activeSpecIndex, this`scrollProgress, this`scrollResets
      ensures Valid()
      ensures index == old(currentDevice) ==>
        currentDevice == old(currentDevice) && activeSpecIndex == old(activeSpecIndex) &&
        scrollProgress == old(scrollProgress) && scrollResets == old(scrollResets)
      ensures index != old(currentDevice) ==>
        currentDevice == index && activeSpecIndex == 0 && scrollProgress == 0.0 && scrollResets == old(scrollResets) + 1
    {
      if index != currentDevice {
        currentDevice := index;
        activeSpecIndex := 0;
        scrollProgress := 0.0;
        scrollResets := scrollResets + 1;
      }
    }

    /** The left arrow: `switchDevice(Math.max(0, currentDevice - 1))`; it stops at the first device. */
    method Previous()
      requires Valid()
      modifies this`currentDevice, this`activeSpecIndex, this`scrollProgress, this`scrollResets
      ensures Valid()
      ensures currentDevice == if old(currentDevice) == 0 then 0 else old(currentDevice) - 1
      ensures old(currentDevice) == 0 ==>
        activeSpecIndex == old(activeSpecIndex) && scrollProgress == old(scrollProgress) && scrollResets == old(scrollResets)
      ensures old(currentDevice) != 0 ==> activeSpecIndex == 0 && scrollProgress == 0.0 && scrollResets == old(scrollResets) + 1
    {
      SwitchDevice(if currentDevice == 0 then 0 else currentDevice - 1);
    }

    /** The right arrow: `switchDevice(Math.min(devices.length - 1, currentDevice + 1))`; it stops at the last device. */
    method Next()
      requires Valid()
      modifies this`currentDevice, this`activeSpecIndex, this`scrollProgress, this`scrollResets
      ensures Valid()
      ensures currentDevice == if old(currentDevice) == |Devices| - 1 then old(currentDevice) else old(currentDevice) + 1
      ensures old(currentDevice) == |Devices| - 1 ==>
        activeSpecIndex == old(activeSpecIndex) && scrollProgress == old(scrollProgress) && scrollResets == old(scrollResets)
      ensures old(currentDevice) != |Devices| - 1 ==>
        activeSpecIndex == 0 && scrollProgress == 0.0 && scrollResets == old(scrollResets) + 1
    {
      SwitchDevice(if currentDevice + 1 < |Devices| - 1 then currentDevice + 1 else |Devices| - 1);
    }

    /** The height of the spec progress line for the current device. */
    function LineHeight(): (h: real)
      reads this
      requires Valid()
      ensures 0.0 < h <= 100.0
      ensures h == 100.0 <==> activeSpecIndex == |Devices[currentDevice].triggers| - 1
    {
      ProgressLineBounds(activeSpecIndex, |Devices[currentDevice].triggers|);
      ProgressLineHeight(activeSpecIndex, |Devices[currentDevice].triggers|)
    }
  }
}
