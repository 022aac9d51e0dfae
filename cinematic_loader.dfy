/**
 * The intro sequence (app/components/CinematicLoader.tsx): four phases stepped through
 * with a "next" button, a skip button, navigation dots, and a flag in local storage that
 * skips the intro for returning visitors.
 *
 * The component is a `Loader` object: its state variables are fields, the stored item
 * `rollins-intro-seen` is a field holding the stored string (or nothing), and each call
 * of `onComplete` is counted.
 */
module CinematicLoader {
  import opened Wrappers

  /** The text of one intro screen. */
  datatype Phase = Phase(title: string, subtitle: string, description: string, buttonText: string)

  /** `phases`, in source order. */
  const Phases: seq<Phase> := [
    Phase("ROLLINS INTERNATIONAL", "Premium Medical Technology",
          "A subsidiary of Singapore-based RHA Holdings", "Continue"),
    Phase("WELLNESS INNOVATION", "Cutting-Edge Therapeutic Devices",
          "Partnering with global leaders from Germany, Poland, Italy & USA", "Learn More"),
    Phase("MEDICAL EXCELLENCE", "Professional Healthcare Solutions",
          "Delivering innovative health & wellness solutions since inception", "Discover"),
    Phase("WELCOME TO", "The Future of Wellness",
          "Experience luxury medical technology", "Enter Experience")
  ]

  /** The value written to the storage item, and the one that counts as "seen". */
  const Seen: string := "true"

  /** The width of the progress bar, in percent: `((currentPhase + 1) / phases.length) * 100`. */
  function Progress(phase: nat): real
    requires phase < |Phases|
  {
    ((phase + 1) as real / |Phases| as real) * 100.0
  }

  /** The bar is never empty and never over full, and it is full exactly at the last phase. */
  lemma ProgressBounds(phase: nat)
    requires phase < |Phases|
    ensures 0.0 < Progress(phase) <= 100.0
    ensures Progress(phase) == 100.0 <==> phase == |Phases| - 1
  {
  }

  /** The bar grows strictly with the phase. */
  lemma ProgressIncreasing(i: nat, j: nat)
    requires i < j < |Phases|
    ensures Progress(i) < Progress(j)
  {
  }

  class Loader {
    var currentPhase: nat
    var hasSeenIntro: bool
    /** The stored `rollins-intro-seen` item; `None` when nothing is stored. */
    var storedFlag: Option<string>
    /** How many times `onComplete` has been called. */
    var completions: nat

    ghost predicate Valid()
      reads this
    {
      currentPhase < |Phases|
    }

    /** The first render, with whatever the browser had stored before. */
    constructor (stored: Option<string>)
      ensures Valid()
      ensures currentPhase == 0 && !hasSeenIntro && storedFlag == stored && completions == 0
    {
      currentPhase := 0;
      hasSeenIntro := false;
      storedFlag := stored;
      completions := 0;
    }

    /** The mount effect: a stored "true" hides the intro and schedules `onComplete`. */
    method Mount()
      requires Valid()
      modifies this
      ensures Valid()
      ensures currentPhase == old(currentPhase) && storedFlag == old(storedFlag)
      ensures old(storedFlag) == Some(Seen) ==> hasSeenIntro && completions == old(completions) + 1
      ensures old(storedFlag) != Some(Seen) ==> hasSeenIntro == old(hasSeenIntro) && completions == old(completions)
      ensures old(storedFlag) == Some(Seen) ==> !Renders()
    {
      if storedFlag == Some(Seen) {
        hasSeenIntro := true;
        completions := completions + 1;
      }
    }

    /** `handleNext`: one phase forward, or, at the last phase, mark the intro seen and complete. */
    method HandleNext()
      requires Valid()
      modifies this
      ensures Valid()
      ensures hasSeenIntro == old(hasSeenIntro)
      ensures old(currentPhase) < |Phases| - 1 ==>
        currentPhase == old(currentPhase) + 1 && storedFlag == old(storedFlag) && completions == old(completions)
      ensures old(currentPhase) == |Phases| - 1 ==>
        currentPhase == old(currentPhase) && storedFlag == Some(Seen) && completions == old(completions) + 1
    {
      if currentPhase < |Phases| - 1 {
        currentPhase := currentPhase + 1;
      } else {
        storedFlag := Some(Seen);
        completions := completions + 1;
      }
    }

    /** `handleSkip`: from any phase, mark the intro seen and complete. */
    method HandleSkip()
      requires Valid()
      modifies this
      ensures Valid()
      ensures currentPhase == old(currentPhase) && hasSeenIntro == old(hasSeenIntro)
      ensures storedFlag == Some(Seen) && completions == old(completions) + 1
    {
      storedFlag := Some(Seen);
      completions := completions + 1;
    }

    /** A navigation dot: the dots are drawn from `phases`, so `index` is one of its indices. */
    method SelectPhase(index: nat)
      requires Valid() && index < |Phases|
      modifies this`currentPhase
      ensures Valid() && currentPhase == index
    {
      currentPhase := index;
    }

    /** The component renders its screen (it returns `null` once the intro is known to be seen). */
    predicate Renders()
      reads this
    {
      !hasSeenIntro
    }

    /** The screen shown while rendering. */
    function CurrentPhase(): Phase
      reads this
      requires Valid()
    {
      Phases[currentPhase]
    }

    /** The current width of the progress bar. */
    function CurrentProgress(): real
      reads this
      requires Valid()
    {
      Progress(currentPhase)
    }
  }

  /** The events the component reacts to. */
  datatype Event = MountEffect | NextClicked | SkipClicked | DotClicked(index: nat)

  /** An event the component can receive: dots exist only for the indices of `phases`. */
  predicate Possible(e: Event) {
    e.DotClicked? ==> e.index < |Phases|
  }

  /** Whatever the visitor does, the storage item is left alone or set to "true"; so once
      seen, the intro stays seen, and the phase stays in range. */
  method Dispatch(l: Loader, e: Event)
    requires l.Valid() && Possible(e)
    modifies l
    ensures l.Valid()
    ensures l.storedFlag == old(l.storedFlag) || l.storedFlag == Some(Seen)
    ensures old(l.storedFlag) == Some(Seen) ==> l.storedFlag == Some(Seen)
  {
    match e
    case MountEffect => l.Mount();
    case NextClicked => l.HandleNext();
    case SkipClicked => l.HandleSkip();
    case DotClicked(index) => l.SelectPhase(index);
  }
}
