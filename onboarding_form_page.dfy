/** `MultiStepForm`: adopts the step named in the `?step=` query parameter,
    writes the step back to the address bar after every change, and picks the
    view for the current step. */
module OnboardingFormPage {
  import opened Wrappers
  import opened JsStrings
  import opened FormContext
  import ReviewForm

  /** The five views of the wizard. */
  datatype View =
    | PersonalDetailsView
    | LifestyleView
    | PhysicalAttributesView
    | FitnessGoalsView
    | ReviewView

  const StepKey: string := "step"

  /** `searchParams.get("step")`. */
  function StepParam(query: map<string, string>): Option<string>
  {
    if StepKey in query then Some(query[StepKey]) else None
  }

  /** The step the first effect adopts: the parameter must be non-empty, parse
      (base 10) to a number, and lie in `[1, totalSteps + 1]`; `None` leaves
      the pointer where it is. */
  function StepFromParam(stepParam: Option<string>, totalSteps: int): (r: Option<int>)
    ensures r.Some? ==> 1 <= r.value <= totalSteps + 1
    ensures r.Some? ==> stepParam.Some? && ParseInt10(stepParam.value) == Some(r.value)
    ensures stepParam.None? || stepParam == Some("") ==> r.None?
  {
    match stepParam
    case None => None
    case Some(text) =>
      if text == "" then None
      else
        match ParseInt10(text)
        case None => None
        case Some(step) => if 1 <= step <= totalSteps + 1 then Some(step) else None
  }

  /** Round trip: a step in `[1, 5]` written as `step.toString()` is read back
      as the same step. */
  lemma StepParamRoundTrip(step: int)
    requires 1 <= step <= TotalSteps + 1
    ensures StepFromParam(Some(IntToDecimal(step)), TotalSteps) == Some(step)
  {
    ParseIntOfDecimal(step);
    assert IntToDecimal(step) != "" by {
      assert |NatToDecimal(step)| >= 1;
    }
  }

  /** A step published into any query is adopted again on the next read, so
      republishing never moves the pointer. */
  lemma PublishedStepIsAdopted(query: map<string, string>, step: int)
    requires 1 <= step <= TotalSteps + 1
    ensures StepFromParam(StepParam(query[StepKey := IntToDecimal(step)]), TotalSteps) == Some(step)
  {
    StepParamRoundTrip(step);
  }

  /** Every step outside `[1, 5]` is refused, whatever its spelling. */
  lemma OutOfRangeStepRefused(text: string, n: int)
    requires ParseInt10(text) == Some(n)
    requires n < 1 || n > TotalSteps + 1
    ensures StepFromParam(Some(text), TotalSteps) == None
  {
  }

  /** `parseInt` reads a leading number and ignores the rest: `"3x"` is
      adopted as step 3. */
  lemma TrailingTextIgnored()
    ensures StepFromParam(Some("3x"), TotalSteps) == Some(3)
  {
    var s := "3x";
    assert s[0] == '3' && s[1..] == "x" && "x"[1..] == "";
    TrimStartOfNonWhitespace(s);
    assert DigitPrefix("x") == "";
    assert DigitPrefix(s) == "3";
    assert DigitsValue("3") == 3 by {
      assert "3"[..0] == "";
    }
  }

  /** A fractional step is cut at the point: `"5.9"` is adopted as step 5. */
  lemma FractionTruncated()
    ensures StepFromParam(Some("5.9"), TotalSteps) == Some(5)
  {
    var s := "5.9";
    assert s[0] == '5' && s[1..] == ".9";
    TrimStartOfNonWhitespace(s);
    assert DigitPrefix(".9") == "";
    assert DigitPrefix(s) == "5";
    assert DigitsValue("5") == 5 by {
      assert "5"[..0] == "";
    }
  }

  /** A parameter that is not a number, or names no step, is refused. */
  lemma NonStepRefused()
    ensures StepFromParam(Some("abc"), TotalSteps) == None
    ensures StepFromParam(Some("6"), TotalSteps) == None
  {
    assert "abc"[0] == 'a';
    TrimStartOfNonWhitespace("abc");
    assert DigitPrefix("abc") == "";
    var s := "6";
    assert s[0] == '6' && s[1..] == "";
    TrimStartOfNonWhitespace(s);
    assert DigitPrefix(s) == "6";
    assert DigitsValue("6") == 6 by {
      assert "6"[..0] == "";
    }
  }

  /** `renderStep()`. */
  function RenderStep(step: int): View
  {
    match step
    case 1 => PersonalDetailsView
    case 2 => LifestyleView
    case 3 => PhysicalAttributesView
    case 4 => FitnessGoalsView
    case 5 => ReviewView
    case _ => PersonalDetailsView
  }

  /** The position of each view in the wizard. */
  function StepOfView(v: View): (step: int)
    ensures 1 <= step <= TotalSteps + 1
  {
    match v
    case PersonalDetailsView => 1
    case LifestyleView => 2
    case PhysicalAttributesView => 3
    case FitnessGoalsView => 4
    case ReviewView => 5
  }

  /** `renderStep` shows the five views in order on steps 1 to 5 and falls
      back to the personal-details view on every other step. */
  lemma RenderStepOrder(step: int)
    ensures 1 <= step <= TotalSteps + 1 ==> StepOfView(RenderStep(step)) == step
    ensures !(1 <= step <= TotalSteps + 1) ==> RenderStep(step) == PersonalDetailsView
    ensures forall v :: RenderStep(StepOfView(v)) == v
  {
  }

  /** The view that edits each section. */
  function FormView(s: Section): View
  {
    match s
    case Personal => PersonalDetailsView
    case Lifestyle => LifestyleView
    case Physical => PhysicalAttributesView
    case Goals => FitnessGoalsView
  }

  /** Each Edit button of the review shows the form of its own section. */
  lemma EditShowsSectionForm(s: Section)
    ensures RenderStep(ReviewForm.EditStep(s)) == FormView(s)
  {
  }

  /** A button press on one of the five views. */
  datatype Action = Continue | Back | Edit(section: Section) | Generate

  /** The buttons each view offers: the personal details form has only
      Continue, the three middle forms Back and Continue, and the review Back,
      the four Edit buttons and Generate. */
  predicate Offers(v: View, a: Action)
  {
    match v
    case PersonalDetailsView => a == Continue
    case LifestyleView | PhysicalAttributesView | FitnessGoalsView => a == Continue || a == Back
    case ReviewView => a != Continue
  }

  /** The step pointer after a press, as the handlers set it: submit adds one,
      Back takes one away, Edit jumps, and Generate leaves it alone. */
  function StepAfter(step: int, a: Action): int
  {
    match a
    case Continue => step + 1
    case Back => step - 1
    case Edit(s) => ReviewForm.EditStep(s)
    case Generate => step
  }

  /** The pointer stays on the five steps only because of the buttons each
      view offers: step 1 has no Back and the review has no Continue. */
  lemma StepStaysInRange(step: int, a: Action)
    requires 1 <= step <= TotalSteps + 1
    requires Offers(RenderStep(step), a)
    ensures 1 <= StepAfter(step, a) <= TotalSteps + 1
  {
  }

  /** Without those restrictions the pointer leaves the range, since
      `setCurrentStep` never clamps: Back on step 1 gives step 0, which shows
      the personal details view again. */
  lemma BackFromFirstStepLeavesRange()
    ensures StepAfter(1, Back) == 0 && !Offers(RenderStep(1), Back)
    ensures StepAfter(TotalSteps + 1, Continue) == 6 && !Offers(RenderStep(TotalSteps + 1), Continue)
    ensures RenderStep(StepAfter(1, Back)) == PersonalDetailsView
  {
  }

  /** The address bar: the parameters of the current URL. */
  class Location {
    var query: map<string, string>

    constructor (query: map<string, string>)
      ensures this.query == query
    {
      this.query := query;
    }
  }

  /** The wizard page: the shared store and the address bar it keeps in sync. */
  class MultiStepForm {
    const ctx: FormProvider
    const location: Location

    constructor (ctx: FormProvider, location: Location)
      ensures this.ctx == ctx && this.location == location
    {
      this.ctx := ctx;
      this.location := location;
    }

    /** The first effect: adopt the `step` parameter when it names a step in
        `[1, totalSteps + 1]`; otherwise leave the pointer alone. */
    method AdoptStepFromUrl()
      modifies ctx
      ensures ctx.formData == old(ctx.formData)
      ensures ctx.currentStep ==
              match StepFromParam(StepParam(location.query), ctx.totalSteps)
              case Some(step) => step
              case None => old(ctx.currentStep)
    {
      var stepParam := StepParam(location.query);
      if stepParam.Some? && stepParam.value != "" {
        var step := ParseInt10(stepParam.value);
        if step.Some? && 1 <= step.value <= ctx.totalSteps + 1 {
          ctx.SetCurrentStep(step.value);
        }
      }
    }

    /** The second effect: write `currentStep.toString()` into the `step`
        parameter, keeping every other parameter. */
    method PublishStep()
      modifies location
      ensures location.query == old(location.query)[StepKey := IntToDecimal(ctx.currentStep)]
      ensures StepParam(location.query) == Some(IntToDecimal(ctx.currentStep))
    {
      location.query := location.query[StepKey := IntToDecimal(ctx.currentStep)];
    }

    /** The view on screen. */
    function CurrentView(): View
      reads ctx
    {
      RenderStep(ctx.currentStep)
    }
  }
}
