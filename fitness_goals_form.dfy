/** Step 4 of the wizard: primary goal, desired body shape and workout
    efficiency preference; Continue leads to the review step. */
module FitnessGoalsForm {
  import opened Wrappers
  import opened FormContext

  const PrimaryGoalOptions: seq<string> :=
    ["lose-weight", "build-muscle", "improve-fitness", "tone-up", "health-reasons",
     "sport-specific", "maintain"]

  const DesiredBodyShapeOptions: seq<string> := ["slim", "toned", "athletic", "muscular", "not-important"]

  const EfficiencyPreferenceOptions: seq<string> :=
    ["quick-effective", "balanced", "comprehensive", "multiple-short", "variable"]

  /** The stored section holds only values the form can produce. */
  predicate WithinOptions(d: FitnessGoals)
  {
    && (d.primaryGoal.None? || d.primaryGoal.value in PrimaryGoalOptions)
    && (d.desiredBodyShape.None? || d.desiredBodyShape.value in DesiredBodyShapeOptions)
    && (d.efficiencyPreference.None? || d.efficiencyPreference.value in EfficiencyPreferenceOptions)
  }

  /** The component `FitnessGoalsForm` and its local state. */
  class FitnessGoalsForm {
    var primaryGoal: string
    var desiredBodyShape: string
    var efficiencyPreference: string
    const ctx: FormProvider

    /** Every local field is empty or one of its listed options. */
    predicate Valid()
      reads this
    {
      && (primaryGoal == "" || primaryGoal in PrimaryGoalOptions)
      && (desiredBodyShape == "" || desiredBodyShape in DesiredBodyShapeOptions)
      && (efficiencyPreference == "" || efficiencyPreference in EfficiencyPreferenceOptions)
    }

    /** The three local fields start from the stored section, defaulting to "". */
    constructor (ctx: FormProvider)
      ensures this.ctx == ctx
      ensures primaryGoal == ctx.formData.fitnessGoals.primaryGoal.GetOr("")
      ensures desiredBodyShape == ctx.formData.fitnessGoals.desiredBodyShape.GetOr("")
      ensures efficiencyPreference == ctx.formData.fitnessGoals.efficiencyPreference.GetOr("")
      ensures WithinOptions(ctx.formData.fitnessGoals) ==> Valid()
    {
      this.ctx := ctx;
      var d := ctx.formData.fitnessGoals;
      primaryGoal := d.primaryGoal.GetOr("");
      desiredBodyShape := d.desiredBodyShape.GetOr("");
      efficiencyPreference := d.efficiencyPreference.GetOr("");
    }

    /** The primary goal radio group's `onValueChange`. */
    method OnPrimaryGoalChange(v: string)
      requires v in PrimaryGoalOptions
      modifies this
      ensures primaryGoal == v
      ensures desiredBodyShape == old(desiredBodyShape) && efficiencyPreference == old(efficiencyPreference)
      ensures old(Valid()) ==> Valid()
    {
      primaryGoal := v;
    }

    /** The desired body shape radio group's `onValueChange`. */
    method OnDesiredBodyShapeChange(v: string)
      requires v in DesiredBodyShapeOptions
      modifies this
      ensures desiredBodyShape == v
      ensures primaryGoal == old(primaryGoal) && efficiencyPreference == old(efficiencyPreference)
      ensures old(Valid()) ==> Valid()
    {
      desiredBodyShape := v;
    }

    /** The efficiency preference select's `onValueChange`. */
    method OnEfficiencyPreferenceChange(v: string)
      requires v in EfficiencyPreferenceOptions
      modifies this
      ensures efficiencyPreference == v
      ensures primaryGoal == old(primaryGoal) && desiredBodyShape == old(desiredBodyShape)
      ensures old(Valid()) ==> Valid()
    {
      efficiencyPreference := v;
    }

    /** `handleSubmit`, once the browser has checked that all three inputs are
        filled: the three fields replace the goals section, nothing else in the
        store changes, and the pointer moves forward by one (from 4 to the
        review step 5). */
    method HandleSubmit()
      requires primaryGoal != "" && desiredBodyShape != "" && efficiencyPreference != ""
      modifies ctx
      ensures ctx.formData.fitnessGoals ==
              FitnessGoals(Some(primaryGoal), Some(desiredBodyShape), Some(efficiencyPreference))
      ensures ctx.formData.personalDetails == old(ctx.formData.personalDetails)
      ensures ctx.formData.lifestyleDetails == old(ctx.formData.lifestyleDetails)
      ensures ctx.formData.physicalAttributes == old(ctx.formData.physicalAttributes)
      ensures ctx.currentStep == old(ctx.currentStep) + 1
      ensures Valid() ==> WithinOptions(ctx.formData.fitnessGoals)
    {
      var step := ctx.currentStep;
      var patch := GoalsPatch(Present(Some(primaryGoal)), Present(Some(desiredBodyShape)),
                              Present(Some(efficiencyPreference)));
      MergeSectionFrame(ctx.formData, patch);
      ctx.UpdateFormData(patch);
      ctx.SetCurrentStep(step + 1);
    }

    /** `handleBack`: the pointer moves back by one; the store is untouched. */
    method HandleBack()
      modifies ctx
      ensures ctx.currentStep == old(ctx.currentStep) - 1
      ensures ctx.formData == old(ctx.formData)
    {
      ctx.SetCurrentStep(ctx.currentStep - 1);
    }
  }
}
