/** Step 3 of the wizard: body description, meal habits and exercise
    knowledge. */
module PhysicalAttributesForm {
  import opened Wrappers
  import opened FormContext

  const BodyDescriptionOptions: seq<string> :=
    ["skinny", "slim", "average", "athletic", "muscular", "overweight", "obese", "skinny-fat"]

  const MealHabitsOptions: seq<string> :=
    ["regular", "irregular", "frequent-snacking", "one-two-meals", "fasting",
     "diet-restricted", "takeout-heavy", "home-cooked"]

  const ExerciseKnowledgeOptions: seq<string> := ["beginner", "intermediate", "advanced", "professional"]

  /** The stored section holds only values the form can produce. */
  predicate WithinOptions(d: PhysicalAttributes)
  {
    && (d.bodyDescription.None? || d.bodyDescription.value in BodyDescriptionOptions)
    && (d.currentMealHabits.None? || d.currentMealHabits.value in MealHabitsOptions)
    && (d.exerciseKnowledge.None? || d.exerciseKnowledge.value in ExerciseKnowledgeOptions)
  }

  /** The component `PhysicalAttributesForm` and its local state. */
  class PhysicalAttributesForm {
    var bodyDescription: string
    var currentMealHabits: string
    var exerciseKnowledge: string
    const ctx: FormProvider

    /** Every local field is empty or one of its listed options. */
    predicate Valid()
      reads this
    {
      && (bodyDescription == "" || bodyDescription in BodyDescriptionOptions)
      && (currentMealHabits == "" || currentMealHabits in MealHabitsOptions)
      && (exerciseKnowledge == "" || exerciseKnowledge in ExerciseKnowledgeOptions)
    }

    /** The three local fields start from the stored section, defaulting to "". */
    constructor (ctx: FormProvider)
      ensures this.ctx == ctx
      ensures bodyDescription == ctx.formData.physicalAttributes.bodyDescription.GetOr("")
      ensures currentMealHabits == ctx.formData.physicalAttributes.currentMealHabits.GetOr("")
      ensures exerciseKnowledge == ctx.formData.physicalAttributes.exerciseKnowledge.GetOr("")
      ensures WithinOptions(ctx.formData.physicalAttributes) ==> Valid()
    {
      this.ctx := ctx;
      var d := ctx.formData.physicalAttributes;
      bodyDescription := d.bodyDescription.GetOr("");
      currentMealHabits := d.currentMealHabits.GetOr("");
      exerciseKnowledge := d.exerciseKnowledge.GetOr("");
    }

    /** The body description radio group's `onValueChange`. */
    method OnBodyDescriptionChange(v: string)
      requires v in BodyDescriptionOptions
      modifies this
      ensures bodyDescription == v
      ensures currentMealHabits == old(currentMealHabits) && exerciseKnowledge == old(exerciseKnowledge)
      ensures old(Valid()) ==> Valid()
    {
      bodyDescription := v;
    }

    /** The meal habits select's `onValueChange`. */
    method OnMealHabitsChange(v: string)
      requires v in MealHabitsOptions
      modifies this
      ensures currentMealHabits == v
      ensures bodyDescription == old(bodyDescription) && exerciseKnowledge == old(exerciseKnowledge)
      ensures old(Valid()) ==> Valid()
    {
      currentMealHabits := v;
    }

    /** The exercise knowledge radio group's `onValueChange`. */
    method OnExerciseKnowledgeChange(v: string)
      requires v in ExerciseKnowledgeOptions
      modifies this
      ensures exerciseKnowledge == v
      ensures bodyDescription == old(bodyDescription) && currentMealHabits == old(currentMealHabits)
      ensures old(Valid()) ==> Valid()
    {
      exerciseKnowledge := v;
    }

    /** `handleSubmit`, once the browser has checked that all three inputs are
        filled: the three fields replace the physical section, nothing else in
        the store changes, and the pointer moves forward by one. */
    method HandleSubmit()
      requires bodyDescription != "" && currentMealHabits != "" && exerciseKnowledge != ""
      modifies ctx
      ensures ctx.formData.physicalAttributes ==
              PhysicalAttributes(Some(bodyDescription), Some(currentMealHabits), Some(exerciseKnowledge))
      ensures ctx.formData.personalDetails == old(ctx.formData.personalDetails)
      ensures ctx.formData.lifestyleDetails == old(ctx.formData.lifestyleDetails)
      ensures ctx.formData.fitnessGoals == old(ctx.formData.fitnessGoals)
      ensures ctx.currentStep == old(ctx.currentStep) + 1
      ensures Valid() ==> WithinOptions(ctx.formData.physicalAttributes)
    {
      var step := ctx.currentStep;
      var patch := PhysicalPatch(Present(Some(bodyDescription)), Present(Some(currentMealHabits)),
                                 Present(Some(exerciseKnowledge)));
      MergeSectionFrame(ctx.formData, patch);
      ctx.UpdateFormData(patch);
      ctx.SetCurrentStep(step + 1);
    }

    /** `handleBack`: the pointer moves back by one; the store is untouched. */
    method HandleBack()
      modifies ctx
      ensures ctx.currentStep == old(ctx.currentStep) - 1
      ensures ctx.formData == old(ctx.formData)
    {
      ctx.SetCurrentStep(ctx.currentStep - 1);
    }
  }
}
