/** Step 2 of the wizard: sleep, mental health, family, living arrangement and
    workload, each picked from a fixed list. */
module LifestyleForm {
  import opened Wrappers
  import opened FormContext

  const SleepQualityOptions: seq<string> := ["excellent", "good", "average", "poor", "very-poor"]

  const MentalHealthOptions: seq<string> := ["excellent", "good", "average", "struggling", "poor"]

  const FamilyStatusOptions: seq<string> :=
    ["single", "relationship", "young-children", "teen-children", "adult-children", "other"]

  const LivingArrangementOptions: seq<string> := ["alone", "partner", "family", "roommates", "other"]

  const WorkloadOptions: seq<string> :=
    ["light", "moderate", "heavy", "very-heavy", "variable", "not-working"]

  /** `v` is unset or one of `options`. */
  predicate UnsetOrIn(v: Option<string>, options: seq<string>)
  {
    v.None? || v.value in options
  }

  /** The stored section holds only values the form can produce. */
  predicate WithinOptions(d: LifestyleDetails)
  {
    && UnsetOrIn(d.sleepQuality, SleepQualityOptions)
    && UnsetOrIn(d.mentalHealth, MentalHealthOptions)
    && UnsetOrIn(d.familyStatus, FamilyStatusOptions)
    && UnsetOrIn(d.livingArrangement, LivingArrangementOptions)
    && UnsetOrIn(d.workload, WorkloadOptions)
  }

  /** The component `LifestyleForm` and its local state. */
  class LifestyleForm {
    var sleepQuality: string
    var mentalHealth: string
    var familyStatus: string
    var livingArrangement: string
    var workload: string
    const ctx: FormProvider

    /** Every local field is empty or one of its listed options. */
    predicate Valid()
      reads this
    {
      && (sleepQuality == "" || sleepQuality in SleepQualityOptions)
      && (mentalHealth == "" || mentalHealth in MentalHealthOptions)
      && (familyStatus == "" || familyStatus in FamilyStatusOptions)
      && (livingArrangement == "" || livingArrangement in LivingArrangementOptions)
      && (workload == "" || workload in WorkloadOptions)
    }

    /** The five local fields start from the stored section, defaulting to "". */
    constructor (ctx: FormProvider)
      ensures this.ctx == ctx
      ensures sleepQuality == ctx.formData.lifestyleDetails.sleepQuality.GetOr("")
      ensures mentalHealth == ctx.formData.lifestyleDetails.mentalHealth.GetOr("")
      ensures familyStatus == ctx.formData.lifestyleDetails.familyStatus.GetOr("")
      ensures livingArrangement == ctx.formData.lifestyleDetails.livingArrangement.GetOr("")
      ensures workload == ctx.formData.lifestyleDetails.workload.GetOr("")
      ensures WithinOptions(ctx.formData.lifestyleDetails) ==> Valid()
    {
      this.ctx := ctx;
      var d := ctx.formData.lifestyleDetails;
      sleepQuality := d.sleepQuality.GetOr("");
      mentalHealth := d.mentalHealth.GetOr("");
      familyStatus := d.familyStatus.GetOr("");
      livingArrangement := d.livingArrangement.GetOr("");
      workload := d.workload.GetOr("");
    }

    /** The sleep quality radio group's `onValueChange`. */
    method OnSleepQualityChange(v: string)
      requires v in SleepQualityOptions
      modifies this
      ensures sleepQuality == v
      ensures mentalHealth == old(mentalHealth) && familyStatus == old(familyStatus)
      ensures livingArrangement == old(livingArrangement) && workload == old(workload)
      ensures old(Valid()) ==> Valid()
    {
      sleepQuality := v;
    }

    /** The mental health radio group's `onValueChange`. */
    method OnMentalHealthChange(v: string)
      requires v in MentalHealthOptions
      modifies this
      ensures mentalHealth == v
      ensures sleepQuality == old(sleepQuality) && familyStatus == old(familyStatus)
      ensures livingArrangement == old(livingArrangement) && workload == old(workload)
      ensures old(Valid()) ==> Valid()
    {
      mentalHealth := v;
    }

    /** The family status select's `onValueChange`. */
    method OnFamilyStatusChange(v: string)
      requires v in FamilyStatusOptions
      modifies this
      ensures familyStatus == v
      ensures sleepQuality == old(sleepQuality) && mentalHealth == old(mentalHealth)
      ensures livingArrangement == old(livingArrangement) && workload == old(workload)
      ensures old(Valid()) ==> Valid()
    {
      familyStatus := v;
    }

    /** The living arrangement select's `onValueChange`. */
    method OnLivingArrangementChange(v: string)
      requires v in LivingArrangementOptions
      modifies this
      ensures livingArrangement == v
      ensures sleepQuality == old(sleepQuality) && mentalHealth == old(mentalHealth)
      ensures familyStatus == old(familyStatus) && workload == old(workload)
      ensures old(Valid()) ==> Valid()
    {
      livingArrangement := v;
    }

    /** The workload select's `onValueChange`. */
    method OnWorkloadChange(v: string)
      requires v in WorkloadOptions
      modifies this
      ensures workload == v
      ensures sleepQuality == old(sleepQuality) && mentalHealth == old(mentalHealth)
      ensures familyStatus == old(familyStatus) && livingArrangement == old(livingArrangement)
      ensures old(Valid()) ==> Valid()
    {
      workload := v;
    }

    /** `handleSubmit`, once the browser has checked that all five inputs are
        filled: the five fields replace the lifestyle section, nothing else in
        the store changes, and the pointer moves forward by one. */
    method HandleSubmit()
      requires sleepQuality != "" && mentalHealth != "" && familyStatus != ""
      requires livingArrangement != "" && workload != ""
      modifies ctx
      ensures ctx.formData.lifestyleDetails ==
              LifestyleDetails(Some(sleepQuality), Some(mentalHealth), Some(familyStatus),
                               Some(livingArrangement), Some(workload))
      ensures ctx.formData.personalDetails == old(ctx.formData.personalDetails)
      ensures ctx.formData.physicalAttributes == old(ctx.formData.physicalAttributes)
      ensures ctx.formData.fitnessGoals == old(ctx.formData.fitnessGoals)
      ensures ctx.currentStep == old(ctx.currentStep) + 1
      ensures Valid() ==> WithinOptions(ctx.formData.lifestyleDetails)
    {
      var step := ctx.currentStep;
      var patch := LifestylePatch(Present(Some(sleepQuality)), Present(Some(mentalHealth)),
                                  Present(Some(familyStatus)), Present(Some(livingArrangement)),
                                  Present(Some(workload)));
      MergeSectionFrame(ctx.formData, patch);
      ctx.UpdateFormData(patch);
      ctx.SetCurrentStep(step + 1);
    }

    /** `handleBack`: the pointer moves back by one; the store is untouched. */
    method HandleBack()
      modifies ctx
      ensures ctx.currentStep == old(ctx.currentStep) - 1
      ensures ctx.formData == old(ctx.formData)
    {
      ctx.SetCurrentStep(ctx.currentStep - 1);
    }
  }
}
