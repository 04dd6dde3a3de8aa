/** Step 1 of the wizard: age, gender and cultural background. The form keeps
    its own copy of the three fields, writes them into the store on submit and
    moves the pointer forward; it has no Back button. */
module PersonalDetailsForm {
  import opened Wrappers
  import opened JsStrings
  import opened FormContext

  const GenderOptions: seq<string> := ["male", "female", "non-binary", "prefer-not-to-say"]

  const CulturalBackgroundOptions: seq<string> :=
    ["african", "asian", "european", "hispanic", "middle-eastern",
     "north-american", "oceanian", "south-american", "other"]

  /** The `min` and `max` attributes of the age input. */
  const MinAge: int := 16
  const MaxAge: int := 120

  /** The age input's `onChange`: an empty input is `undefined`, anything else
      is its base-10 `parseInt` (`NaN` is `None` here). */
  function ParseAgeInput(text: string): (r: Option<int>)
    ensures text == "" ==> r.None?
    ensures text != "" ==> r == ParseInt10(text)
  {
    if text == "" then None else ParseInt10(text)
  }

  /** The text the age input shows, `age || ""`: `undefined` and 0 show as the
      empty input. */
  function AgeText(age: Option<int>): (text: string)
    ensures text == "" <==> age.None? || age.value == 0
  {
    match age
    case None => ""
    case Some(n) =>
      if n == 0 then ""
      else
        assert |IntToDecimal(n)| >= 1 by {
          assert |NatToDecimal(if n < 0 then -n else n)| >= 1;
        }
        IntToDecimal(n)
  }

  /** Constraint validation of the age input on the text it shows: `required`
      (not empty), then `min={16}` and `max={120}`. */
  predicate AgeInputValid(text: string)
  {
    text != "" &&
    match ParseInt10(text)
    case Some(n) => MinAge <= n <= MaxAge
    case None => false
  }

  /** Typing what the input shows gives the same state back: the controlled
      input and its `onChange` agree on every age except 0. */
  lemma AgeTextRoundTrip(age: Option<int>)
    requires age.None? || age.value != 0
    ensures ParseAgeInput(AgeText(age)) == age
  {
    if age.Some? {
      ParseIntOfDecimal(age.value);
    }
  }

  /** The browser lets the form submit exactly when the stored age is a number
      between 16 and 120. */
  lemma AgeInputValidIff(age: Option<int>)
    ensures AgeInputValid(AgeText(age)) <==> age.Some? && MinAge <= age.value <= MaxAge
  {
    if age.Some? && age.value != 0 {
      ParseIntOfDecimal(age.value);
    }
  }

  /** The stored section holds only values the form can produce. */
  predicate WithinOptions(d: PersonalDetails)
  {
    && (d.gender.None? || d.gender.value in GenderOptions)
    && (d.culturalBackground.None? || d.culturalBackground.value in CulturalBackgroundOptions)
  }

  /** The component `PersonalDetailsForm` and its local state. */
  class PersonalDetailsForm {
    var age: Option<int>
    var gender: string
    var culturalBackground: string
    const ctx: FormProvider

    /** Every local field is empty or one of its listed options. */
    predicate Valid()
      reads this
    {
      && (gender == "" || gender in GenderOptions)
      && (culturalBackground == "" || culturalBackground in CulturalBackgroundOptions)
    }

    /** The local fields start from the stored section; gender and cultural
        background default to "" and age stays `undefined`. */
    constructor (ctx: FormProvider)
      ensures this.ctx == ctx
      ensures age == ctx.formData.personalDetails.age
      ensures gender == ctx.formData.personalDetails.gender.GetOr("")
      ensures culturalBackground == ctx.formData.personalDetails.culturalBackground.GetOr("")
      ensures WithinOptions(ctx.formData.personalDetails) ==> Valid()
    {
      this.ctx := ctx;
      age := ctx.formData.personalDetails.age;
      gender := ctx.formData.personalDetails.gender.GetOr("");
      culturalBackground := ctx.formData.personalDetails.culturalBackground.GetOr("");
    }

    /** The age input's `onChange`. */
    method OnAgeChange(text: string)
      modifies this
      ensures age == ParseAgeInput(text)
      ensures gender == old(gender) && culturalBackground == old(culturalBackground)
    {
      age := ParseAgeInput(text);
    }

    /** The gender radio group's `onValueChange`: only a listed value can be
        picked. */
    method OnGenderChange(v: string)
      requires v in GenderOptions
      modifies this
      ensures gender == v
      ensures age == old(age) && culturalBackground == old(culturalBackground)
      ensures old(Valid()) ==> Valid()
    {
      gender := v;
    }

    /** The cultural background select's `onValueChange`. */
    method OnCulturalBackgroundChange(v: string)
      requires v in CulturalBackgroundOptions
      modifies this
      ensures culturalBackground == v
      ensures age == old(age) && gender == old(gender)
      ensures old(Valid()) ==> Valid()
    {
      culturalBackground := v;
    }

    /** `handleSubmit`, once the browser's constraint validation has let the
        form through: the three fields replace the personal section, nothing
        else in the store changes, and the pointer moves forward by one. */
    method HandleSubmit()
      requires AgeInputValid(AgeText(age))
      requires gender != "" && culturalBackground != ""
      modifies ctx
      ensures ctx.formData.personalDetails == PersonalDetails(age, Some(gender), Some(culturalBackground))
      ensures ctx.formData.lifestyleDetails == old(ctx.formData.lifestyleDetails)
      ensures ctx.formData.physicalAttributes == old(ctx.formData.physicalAttributes)
      ensures ctx.formData.fitnessGoals == old(ctx.formData.fitnessGoals)
      ensures ctx.currentStep == old(ctx.currentStep) + 1
      ensures age.Some? && MinAge <= age.value <= MaxAge
      ensures Valid() ==> WithinOptions(ctx.formData.personalDetails)
    {
      AgeInputValidIff(age);
      var step := ctx.currentStep;
      var patch := PersonalPatch(Present(age), Present(Some(gender)), Present(Some(culturalBackground)));
      MergeSectionFrame(ctx.formData, patch);
      ctx.UpdateFormData(patch);
      ctx.SetCurrentStep(step + 1);
    }
  }
}
