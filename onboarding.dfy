/** The three-step onboarding wizard of the client (`Onboarding` page): a step
    counter, the profile being entered, and the validation errors of the
    last Next. Finishing navigates to the dashboard. */
module Onboarding {
  import opened Wrappers
  import opened JsString

  datatype UserData = UserData(
    name: string,
    company: string,
    industry: string,
    platforms: seq<string>,
    contentType: string)

  const EmptyUserData := UserData("", "", "", [], "")

  /** A `Partial<UserData>` passed to `updateUserData`: `None` is a field
      the object does not carry. */
  datatype UserDataPatch = UserDataPatch(
    name: Option<string>,
    company: Option<string>,
    industry: Option<string>,
    platforms: Option<seq<string>>,
    contentType: Option<string>)

  const NoPatch := UserDataPatch(None, None, None, None, None)

  /** The error object `validateStep` stores: one message per failing field
      (the company field is never validated, so it has no entry). */
  datatype StepErrors = StepErrors(
    name: Option<string>,
    industry: Option<string>,
    platforms: Option<string>,
    contentType: Option<string>)

  const NoErrors := StepErrors(None, None, None, None)

  const NameRequired := "Name is required"
  const IndustryRequired := "Please select an industry"
  const PlatformsRequired := "Please select at least one platform"
  const ContentTypeRequired := "Please select a content type"

  /** The route the wizard leaves to when it finishes. */
  const Dashboard := "/dashboard"

  const FirstStep := 1
  const LastStep := 3

  /** The errors `validateStep(step)` records for the data `d`. */
  function StepValidation(step: int, d: UserData): (e: StepErrors)
  {
    if step == 1 then
      StepErrors(
        if Trim(d.name) == "" then Some(NameRequired) else None,
        if d.industry == "" then Some(IndustryRequired) else None,
        None, None)
    else if step == 2 then
      StepErrors(
        None, None,
        if |d.platforms| == 0 then Some(PlatformsRequired) else None,
        if d.contentType == "" then Some(ContentTypeRequired) else None)
    else NoErrors
  }

  /** Step 1 records an error exactly for a blank name and for a missing
      industry, and passes exactly when neither is the case. */
  lemma StepOneValidation(d: UserData)
    ensures StepValidation(1, d).name.Some? <==> IsBlank(d.name)
    ensures StepValidation(1, d).industry.Some? <==> d.industry == ""
    ensures StepValidation(1, d).platforms == None && StepValidation(1, d).contentType == None
    ensures StepValidation(1, d) == NoErrors <==> !IsBlank(d.name) && d.industry != ""
  {
    TrimEmptyIffBlank(d.name);
  }

  /** Step 2 records an error exactly for an empty platform list and for a
      missing content type, and passes exactly when neither is the case. */
  lemma StepTwoValidation(d: UserData)
    ensures StepValidation(2, d).platforms.Some? <==> d.platforms == []
    ensures StepValidation(2, d).contentType.Some? <==> d.contentType == ""
    ensures StepValidation(2, d).name == None && StepValidation(2, d).industry == None
    ensures StepValidation(2, d) == NoErrors <==> d.platforms != [] && d.contentType != ""
  {
  }

  /** Every other step passes with no error recorded. */
  lemma OtherStepsValidate(step: int, d: UserData)
    requires step != 1 && step != 2
    ensures StepValidation(step, d) == NoErrors
  {
  }

  /** `{ ...prev, ...patch }`: the fields the patch carries replace the old ones. */
  function Merge(prev: UserData, patch: UserDataPatch): (d: UserData)
  {
    UserData(
      if patch.name.Some? then patch.name.value else prev.name,
      if patch.company.Some? then patch.company.value else prev.company,
      if patch.industry.Some? then patch.industry.value else prev.industry,
      if patch.platforms.Some? then patch.platforms.value else prev.platforms,
      if patch.contentType.Some? then patch.contentType.value else prev.contentType)
  }

  /** The patch later applied wins on each field it carries. */
  function Combine(first: UserDataPatch, second: UserDataPatch): (p: UserDataPatch)
  {
    UserDataPatch(
      if second.name.Some? then second.name else first.name,
      if second.company.Some? then second.company else first.company,
      if second.industry.Some? then second.industry else first.industry,
      if second.platforms.Some? then second.platforms else first.platforms,
      if second.contentType.Some? then second.contentType else first.contentType)
  }

  /** An empty patch changes nothing; a patch applied twice acts once; two
      successive updates act as their combination. */
  lemma MergeLaws(d: UserData, p: UserDataPatch, q: UserDataPatch)
    ensures Merge(d, NoPatch) == d
    ensures Merge(Merge(d, p), p) == Merge(d, p)
    ensures Merge(Merge(d, p), q) == Merge(d, Combine(p, q))
  {
  }

  /** A patch carrying only the name changes the name and nothing else. */
  lemma MergeNameOnly(d: UserData, name: string)
    ensures Merge(d, NoPatch.(name := Some(name))) == d.(name := name)
  {
  }

  /** The three buttons of the wizard; `Next` carries the outcome of
      validating the current step. */
  datatype Event = Next(valid: bool) | Back | Skip

  /** The step counter after an event. */
  function Transition(step: int, e: Event): (r: int)
  {
    match e
    case Next(valid) => if valid && step < LastStep then step + 1 else step
    case Back => if step > FirstStep then step - 1 else step
    case Skip => if step < LastStep then step + 1 else step
  }

  /** Whether an event finishes the wizard (navigates to the dashboard). */
  predicate Finishes(step: int, e: Event)
  {
    match e
    case Next(valid) => valid && step >= LastStep
    case Back => false
    case Skip => step >= LastStep
  }

  /** The step counter after a sequence of events. */
  function Run(step: int, events: seq<Event>): int
    decreases |events|
  {
    if events == [] then step else Run(Transition(step, events[0]), events[1..])
  }

  /** One event keeps the counter in 1..3 and moves it by at most one:
      forward only on a Next that passes validation or on a Skip, and never
      on the event that finishes. */
  lemma TransitionStep(step: int, e: Event)
    requires FirstStep <= step <= LastStep
    ensures FirstStep <= Transition(step, e) <= LastStep
    ensures Transition(step, e) > step <==> (e == Next(true) || e == Skip) && step < LastStep
    ensures Transition(step, e) < step <==> e == Back && step > FirstStep
    ensures Finishes(step, e) ==> Transition(step, e) == step
    ensures e == Next(false) ==> Transition(step, e) == step && !Finishes(step, e)
  {
  }

  /** No sequence of Next, Back and Skip takes the counter outside 1..3. */
  lemma {:induction false} RunStaysInRange(step: int, events: seq<Event>)
    requires FirstStep <= step <= LastStep
    ensures FirstStep <= Run(step, events) <= LastStep
    decreases |events|
  {
    if events != [] {
      TransitionStep(step, events[0]);
      RunStaysInRange(Transition(step, events[0]), events[1..]);
    }
  }

  /** The counter never gains more than the number of passing Nexts and
      Skips: from the first step, reaching the last takes at least two. */
  lemma {:induction false} ForwardMovesBound(step: int, events: seq<Event>)
    requires FirstStep <= step <= LastStep
    ensures Run(step, events) - step <= Forward(events)
    decreases |events|
  {
    if events != [] {
      assert events == [events[0]] + events[1..];
      TransitionStep(step, events[0]);
      ForwardMovesBound(Transition(step, events[0]), events[1..]);
    }
  }

  /** The number of events that can move the counter forward. */
  function Forward(events: seq<Event>): nat
  {
    if events == [] then 0
    else (if events[0] == Next(true) || events[0] == Skip then 1 else 0) + Forward(events[1..])
  }

  /** The wizard's page state. */
  class Wizard {
    var step: int
    var userData: UserData
    var errors: StepErrors
    /** The route of the last `navigate` call, if any. */
    var navigatedTo: Option<string>

    ghost predicate Valid()
      reads this
    {
      FirstStep <= step <= LastStep
    }

    constructor ()
      ensures Valid()
      ensures step == FirstStep && userData == EmptyUserData
      ensures errors == NoErrors && navigatedTo == None
    {
      step := FirstStep;
      userData := EmptyUserData;
      errors := NoErrors;
      navigatedTo := None;
    }

    /** `validateStep`: fills a fresh error object field by field, stores it,
        and reports whether no field failed. */
    method ValidateStep(currentStep: int) returns (isValid: bool)
      modifies this`errors
      ensures errors == StepValidation(currentStep, userData)
      ensures isValid <==> errors == NoErrors
    {
      var newErrors := NoErrors;
      isValid := true;
      if currentStep == 1 {
        if Trim(userData.name) == "" {
          newErrors := newErrors.(name := Some(NameRequired));
          isValid := false;
        }
        if userData.industry == "" {
          newErrors := newErrors.(industry := Some(IndustryRequired));
          isValid := false;
        }
      } else if currentStep == 2 {
        if |userData.platforms| == 0 {
          newErrors := newErrors.(platforms := Some(PlatformsRequired));
          isValid := false;
        }
        if userData.contentType == "" {
          newErrors := newErrors.(contentType := Some(ContentTypeRequired));
          isValid := false;
        }
      }
      errors := newErrors;
    }

    /** `handleNext`: validate the current step; if it passes, go forward,
        or finish from the last step. */
    method HandleNext()
      requires Valid()
      modifies this`step, this`errors, this`navigatedTo
      ensures Valid()
      ensures errors == StepValidation(old(step), userData)
      ensures step == Transition(old(step), Next(errors == NoErrors))
      ensures navigatedTo ==
        if Finishes(old(step), Next(errors == NoErrors)) then Some(Dashboard) else old(navigatedTo)
    {
      var ok := ValidateStep(step);
      if ok {
        if step < LastStep {
          step := step + 1;
        } else {
          navigatedTo := Some(Dashboard);
        }
      }
    }

    /** `handleBack`: one step back, except on the first step. */
    method HandleBack()
      requires Valid()
      modifies this`step
      ensures Valid()
      ensures step == Transition(old(step), Back)
    {
      if step > FirstStep {
        step := step - 1;
      }
    }

    /** `handleSkip`: forward without validating, or finish from the last step. */
    method HandleSkip()
      requires Valid()
      modifies this`step, this`navigatedTo
      ensures Valid()
      ensures step == Transition(old(step), Skip)
      ensures navigatedTo == if Finishes(old(step), Skip) then Some(Dashboard) else old(navigatedTo)
    {
      if step < LastStep {
        step := step + 1;
      } else {
        navigatedTo := Some(Dashboard);
      }
    }

    /** `updateUserData`: merge the partial into the profile being entered. */
    method UpdateUserData(data: UserDataPatch)
      modifies this`userData
      ensures userData == Merge(old(userData), data)
    {
      userData := Merge(userData, data);
    }
  }
}
