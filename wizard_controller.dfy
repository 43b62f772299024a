/** `WizardController`: four fixed steps, a step counter held by the
    controller, the Previous/Home/Next/Finish buttons of `_show_navigation`,
    the step-by-step requirements of `_validate_current_step`, the progress
    bar and the step indicators. The step controllers' own pages are left
    out; the session is seen through the set of keys it holds. */
module WizardFlow {

  const Titles: seq<string> := ["1. Emlak Bilgileri", "2. Sesli Anlatım", "3. Görüntüler", "4. Video Oluştur"]

  datatype Button = Previous | Home | Next | Finish

  /** What a press did beyond the step counter. */
  datatype Effect = NoEffect | BackToTabs | Warned | Completed

  datatype Mark = Done | Current | Upcoming

  /** `_validate_current_step`, dispatching on the step's title. */
  predicate StepValid(title: string, present: set<string>)
  {
    if title == Titles[0] then "property_text" in present
    else if title == Titles[1] then "audio_path" in present
    else if title == Titles[2] then "maps_images" in present || "user_images" in present
    else true
  }

  /** The validation rule of each step by index. */
  lemma ValidationRules(present: set<string>)
    ensures StepValid(Titles[0], present) <==> "property_text" in present
    ensures StepValid(Titles[1], present) <==> "audio_path" in present
    ensures StepValid(Titles[2], present) <==> "maps_images" in present || "user_images" in present
    ensures StepValid(Titles[3], present)
  {
    assert Titles[1] != Titles[0] && Titles[2] != Titles[0] && Titles[2] != Titles[1];
    assert Titles[3] != Titles[0] && Titles[3] != Titles[1] && Titles[3] != Titles[2];
  }

  /** `progress = current_step / 3`. */
  function Progress(step: int): (p: real)
  {
    step as real / 3.0
  }

  lemma ProgressBounds(step: int)
    requires 0 <= step <= 3
    ensures 0.0 <= Progress(step) <= 1.0
    ensures Progress(step) == 0.0 <==> step == 0
    ensures Progress(step) == 1.0 <==> step == 3
  {
  }

  function Indicator(i: int, current: int): Mark
  {
    if i < current then Done else if i == current then Current else Upcoming
  }

  /** `_show_step_indicators`: done before the current step, current, then
      to come. */
  lemma IndicatorMarks(current: int, i: int)
    requires 0 <= i < |Titles|
    ensures Indicator(i, current) == Done <==> i < current
    ensures Indicator(i, current) == Current <==> i == current
    ensures Indicator(i, current) == Upcoming <==> i > current
  {
  }

  class WizardController {
    var currentStep: int

    constructor()
      ensures currentStep == 0
    {
      currentStep := 0;
    }

    predicate InRange()
      reads this
    {
      0 <= currentStep < |Titles|
    }

    /** `_go_to_next_step`. */
    method GoToNextStep()
      modifies this
      ensures old(currentStep) < 3 ==> currentStep == old(currentStep) + 1
      ensures old(currentStep) >= 3 ==> currentStep == old(currentStep)
    {
      if currentStep < |Titles| - 1 {
        currentStep := currentStep + 1;
      }
    }

    /** `_go_to_previous_step`. */
    method GoToPreviousStep()
      modifies this
      ensures old(currentStep) > 0 ==> currentStep == old(currentStep) - 1
      ensures old(currentStep) <= 0 ==> currentStep == old(currentStep)
    {
      if currentStep > 0 {
        currentStep := currentStep - 1;
      }
    }

    /** `_validate_current_step`. */
    function ValidateCurrentStep(present: set<string>): (ok: bool)
      reads this
      requires InRange()
      ensures ok <==> StepValid(Titles[currentStep], present)
    {
      StepValid(Titles[currentStep], present)
    }

    /** `_show_navigation` for one pressed button: Previous is offered above
        the first step, Next below the last one and only moves when the step
        validates, Finish at the last step, Home always. */
    method Press(b: Button, present: set<string>) returns (effect: Effect)
      requires InRange()
      modifies this
      ensures InRange()
      ensures currentStep == StepAfter(old(currentStep), b, present)
      ensures b == Previous ==> currentStep == (if old(currentStep) > 0 then old(currentStep) - 1 else old(currentStep)) && effect == NoEffect
      ensures b == Home ==> currentStep == old(currentStep) && effect == BackToTabs
      ensures b == Next ==>
        (old(currentStep) < 3 && StepValid(Titles[old(currentStep)], present) ==> currentStep == old(currentStep) + 1 && effect == NoEffect)
        && (old(currentStep) < 3 && !StepValid(Titles[old(currentStep)], present) ==> currentStep == old(currentStep) && effect == Warned)
        && (old(currentStep) == 3 ==> currentStep == 3 && effect == NoEffect)
      ensures b == Finish ==>
        currentStep == old(currentStep)
        && (old(currentStep) == 3 ==> effect == Completed)
        && (old(currentStep) < 3 ==> effect == NoEffect)
    {
      effect := NoEffect;
      match b {
        case Previous =>
          if currentStep > 0 {
            GoToPreviousStep();
          }
        case Home =>
          effect := BackToTabs;
        case Next =>
          if currentStep < |Titles| - 1 {
            if ValidateCurrentStep(present) {
              GoToNextStep();
            } else {
              effect := Warned;
            }
          }
        case Finish =>
          if currentStep == |Titles| - 1 {
            ValidationRules(present);
            if ValidateCurrentStep(present) {
              effect := Completed;
            }
          }
      }
    }
  }

  /** The step counter after one press. */
  function StepAfter(step: int, b: Button, present: set<string>): int
    requires 0 <= step < |Titles|
  {
    match b
    case Previous => if step > 0 then step - 1 else step
    case Next => if step < 3 && StepValid(Titles[step], present) then step + 1 else step
    case _ => step
  }

  function Run(step: int, presses: seq<Button>, present: set<string>): (r: int)
    requires 0 <= step < |Titles|
    ensures 0 <= r < |Titles|
    decreases |presses|
  {
    if presses == [] then step
    else Run(StepAfter(step, presses[0], present), presses[1..], present)
  }

  /** The first step whose requirement is not met (3 when all are). */
  function FirstBlocked(present: set<string>): (f: int)
    ensures 0 <= f <= 3
    ensures forall i :: 0 <= i < f ==> StepValid(Titles[i], present)
    ensures f < 3 ==> !StepValid(Titles[f], present)
  {
    if !StepValid(Titles[0], present) then 0
    else if !StepValid(Titles[1], present) then 1
    else if !StepValid(Titles[2], present) then 2
    else 3
  }

  /** However the buttons are pressed, with the session as it is the wizard
      never gets past the first step whose requirement is missing. */
  lemma {:induction false} RunStopsAtFirstBlocked(step: int, presses: seq<Button>, present: set<string>)
    requires 0 <= step <= FirstBlocked(present)
    ensures Run(step, presses, present) <= FirstBlocked(present)
    decreases |presses|
  {
    if presses != [] {
      RunStopsAtFirstBlocked(StepAfter(step, presses[0], present), presses[1..], present);
    }
  }
}
