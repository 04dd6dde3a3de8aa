/** The wizard's shared store: four sections of optional fields, the step
    pointer and the section-keyed shallow merge that is its one mutator. */
module FormContext {
  import opened Wrappers

  // ---------------------------------------------------------------------
  // The four sections; every field is optional (`None` is `undefined`).

  datatype PersonalDetails = PersonalDetails(
    age: Option<int>,
    gender: Option<string>,
    culturalBackground: Option<string>)

  datatype LifestyleDetails = LifestyleDetails(
    sleepQuality: Option<string>,
    mentalHealth: Option<string>,
    familyStatus: Option<string>,
    livingArrangement: Option<string>,
    workload: Option<string>)

  datatype PhysicalAttributes = PhysicalAttributes(
    bodyDescription: Option<string>,
    currentMealHabits: Option<string>,
    exerciseKnowledge: Option<string>)

  datatype FitnessGoals = FitnessGoals(
    primaryGoal: Option<string>,
    desiredBodyShape: Option<string>,
    efficiencyPreference: Option<string>)

  datatype FormData = FormData(
    personalDetails: PersonalDetails,
    lifestyleDetails: LifestyleDetails,
    physicalAttributes: PhysicalAttributes,
    fitnessGoals: FitnessGoals)

  /** `keyof FormData`. */
  datatype Section = Personal | Lifestyle | Physical | Goals

  /** `initialFormData`: every section is the empty object `{}`. */
  const InitialFormData: FormData := FormData(
    PersonalDetails(None, None, None),
    LifestyleDetails(None, None, None, None, None),
    PhysicalAttributes(None, None, None),
    FitnessGoals(None, None, None))

  const TotalSteps: int := 4

  // ---------------------------------------------------------------------
  // Partial updates

  /** One key of a `Partial<...>` object: `Absent` when the key is not in the
      object, `Present(v)` when it is, where `v` may be `None` (the key is
      there with the value `undefined`). */
  datatype Entry<T> = Absent | Present(value: Option<T>)

  /** The `data` argument of `updateFormData`, tagged with the section it is
      merged into. */
  datatype Patch =
    | PersonalPatch(age: Entry<int>, gender: Entry<string>, culturalBackground: Entry<string>)
    | LifestylePatch(sleepQuality: Entry<string>, mentalHealth: Entry<string>,
                     familyStatus: Entry<string>, livingArrangement: Entry<string>,
                     workload: Entry<string>)
    | PhysicalPatch(bodyDescription: Entry<string>, currentMealHabits: Entry<string>,
                    exerciseKnowledge: Entry<string>)
    | GoalsPatch(primaryGoal: Entry<string>, desiredBodyShape: Entry<string>,
                 efficiencyPreference: Entry<string>)
  {
    function Target(): Section {
      match this
      case PersonalPatch(_, _, _) => Personal
      case LifestylePatch(_, _, _, _, _) => Lifestyle
      case PhysicalPatch(_, _, _) => Physical
      case GoalsPatch(_, _, _) => Goals
    }
  }

  /** `{ ...prev, ...data }` for one key: a key present in `data` wins even
      when its value is `undefined`. */
  function Spread<T>(prev: Option<T>, e: Entry<T>): Option<T>
  {
    match e
    case Absent => prev
    case Present(v) => v
  }

  /** The state update inside `updateFormData`:
      `{ ...prev, [step]: { ...prev[step], ...data } }`. */
  function MergeSection(f: FormData, p: Patch): FormData
  {
    match p
    case PersonalPatch(a, g, c) =>
      var s := f.personalDetails;
      f.(personalDetails := PersonalDetails(
           Spread(s.age, a), Spread(s.gender, g), Spread(s.culturalBackground, c)))
    case LifestylePatch(sq, mh, fs, la, w) =>
      var s := f.lifestyleDetails;
      f.(lifestyleDetails := LifestyleDetails(
           Spread(s.sleepQuality, sq), Spread(s.mentalHealth, mh), Spread(s.familyStatus, fs),
           Spread(s.livingArrangement, la), Spread(s.workload, w)))
    case PhysicalPatch(b, m, e) =>
      var s := f.physicalAttributes;
      f.(physicalAttributes := PhysicalAttributes(
           Spread(s.bodyDescription, b), Spread(s.currentMealHabits, m),
           Spread(s.exerciseKnowledge, e)))
    case GoalsPatch(pg, ds, ep) =>
      var s := f.fitnessGoals;
      f.(fitnessGoals := FitnessGoals(
           Spread(s.primaryGoal, pg), Spread(s.desiredBodyShape, ds),
           Spread(s.efficiencyPreference, ep)))
  }

  // ---------------------------------------------------------------------
  // A flat view of the store, one key per field, used to state the merge
  // independently of the nested records.

  datatype Key =
    | Age | Gender | CulturalBackground
    | SleepQuality | MentalHealth | FamilyStatus | LivingArrangement | Workload
    | BodyDescription | CurrentMealHabits | ExerciseKnowledge
    | PrimaryGoal | DesiredBodyShape | EfficiencyPreference

  datatype Value = Num(n: int) | Text(s: string)

  function SectionOf(k: Key): Section
  {
    match k
    case Age | Gender | CulturalBackground => Personal
    case SleepQuality | MentalHealth | FamilyStatus | LivingArrangement | Workload => Lifestyle
    case BodyDescription | CurrentMealHabits | ExerciseKnowledge => Physical
    case PrimaryGoal | DesiredBodyShape | EfficiencyPreference => Goals
  }

  function AsNum(o: Option<int>): Option<Value>
  {
    match o
    case None => None
    case Some(n) => Some(Num(n))
  }

  function AsText(o: Option<string>): Option<Value>
  {
    match o
    case None => None
    case Some(s) => Some(Text(s))
  }

  function EntryAsNum(e: Entry<int>): Entry<Value>
  {
    match e
    case Absent => Absent
    case Present(v) => Present(AsNum(v))
  }

  function EntryAsText(e: Entry<string>): Entry<Value>
  {
    match e
    case Absent => Absent
    case Present(v) => Present(AsText(v))
  }

  /** The value stored under key `k`. */
  function Field(f: FormData, k: Key): Option<Value>
  {
    match k
    case Age => AsNum(f.personalDetails.age)
    case Gender => AsText(f.personalDetails.gender)
    case CulturalBackground => AsText(f.personalDetails.culturalBackground)
    case SleepQuality => AsText(f.lifestyleDetails.sleepQuality)
    case MentalHealth => AsText(f.lifestyleDetails.mentalHealth)
    case FamilyStatus => AsText(f.lifestyleDetails.familyStatus)
    case LivingArrangement => AsText(f.lifestyleDetails.livingArrangement)
    case Workload => AsText(f.lifestyleDetails.workload)
    case BodyDescription => AsText(f.physicalAttributes.bodyDescription)
    case CurrentMealHabits => AsText(f.physicalAttributes.currentMealHabits)
    case ExerciseKnowledge => AsText(f.physicalAttributes.exerciseKnowledge)
    case PrimaryGoal => AsText(f.fitnessGoals.primaryGoal)
    case DesiredBodyShape => AsText(f.fitnessGoals.desiredBodyShape)
    case EfficiencyPreference => AsText(f.fitnessGoals.efficiencyPreference)
  }

  /** What the patch says about key `k`; keys of other sections are absent. */
  function EntryFor(p: Patch, k: Key): (e: Entry<Value>)
    ensures SectionOf(k) != p.Target() ==> e == Absent
  {
    match p
    case PersonalPatch(a, g, c) =>
      (match k
       case Age => EntryAsNum(a)
       case Gender => EntryAsText(g)
       case CulturalBackground => EntryAsText(c)
       case _ => Absent)
    case LifestylePatch(sq, mh, fs, la, w) =>
      (match k
       case SleepQuality => EntryAsText(sq)
       case MentalHealth => EntryAsText(mh)
       case FamilyStatus => EntryAsText(fs)
       case LivingArrangement => EntryAsText(la)
       case Workload => EntryAsText(w)
       case _ => Absent)
    case PhysicalPatch(b, m, e) =>
      (match k
       case BodyDescription => EntryAsText(b)
       case CurrentMealHabits => EntryAsText(m)
       case ExerciseKnowledge => EntryAsText(e)
       case _ => Absent)
    case GoalsPatch(pg, ds, ep) =>
      (match k
       case PrimaryGoal => EntryAsText(pg)
       case DesiredBodyShape => EntryAsText(ds)
       case EfficiencyPreference => EntryAsText(ep)
       case _ => Absent)
  }

  /** Two stores that agree on every key are the same store. */
  lemma {:induction false} FieldsDetermineStore(a: FormData, b: FormData)
    requires forall k :: Field(a, k) == Field(b, k)
    ensures a == b
  {
    assert Field(a, Age) == Field(b, Age);
    assert Field(a, Gender) == Field(b, Gender);
    assert Field(a, CulturalBackground) == Field(b, CulturalBackground);
    assert Field(a, SleepQuality) == Field(b, SleepQuality);
    assert Field(a, MentalHealth) == Field(b, MentalHealth);
    assert Field(a, FamilyStatus) == Field(b, FamilyStatus);
    assert Field(a, LivingArrangement) == Field(b, LivingArrangement);
    assert Field(a, Workload) == Field(b, Workload);
    assert Field(a, BodyDescription) == Field(b, BodyDescription);
    assert Field(a, CurrentMealHabits) == Field(b, CurrentMealHabits);
    assert Field(a, ExerciseKnowledge) == Field(b, ExerciseKnowledge);
    assert Field(a, PrimaryGoal) == Field(b, PrimaryGoal);
    assert Field(a, DesiredBodyShape) == Field(b, DesiredBodyShape);
    assert Field(a, EfficiencyPreference) == Field(b, EfficiencyPreference);
  }

  /** The merge, key by key: a key the patch carries takes the patch's value
      (even `undefined`); every other key, including every key of the other
      three sections, keeps its value. */
  lemma {:induction false} MergeSectionAt(f: FormData, p: Patch, k: Key)
    ensures Field(MergeSection(f, p), k) ==
            match EntryFor(p, k)
            case Present(v) => v
            case Absent => Field(f, k)
  {
  }

  /** The other three sections are untouched by a merge. */
  lemma {:induction false} MergeSectionFrame(f: FormData, p: Patch)
    ensures p.Target() != Personal ==> MergeSection(f, p).personalDetails == f.personalDetails
    ensures p.Target() != Lifestyle ==> MergeSection(f, p).lifestyleDetails == f.lifestyleDetails
    ensures p.Target() != Physical ==> MergeSection(f, p).physicalAttributes == f.physicalAttributes
    ensures p.Target() != Goals ==> MergeSection(f, p).fitnessGoals == f.fitnessGoals
  {
  }

  /** Merging the same patch twice is merging it once. */
  lemma {:induction false} MergeSectionIdempotent(f: FormData, p: Patch)
    ensures MergeSection(MergeSection(f, p), p) == MergeSection(f, p)
  {
    var once := MergeSection(f, p);
    forall k ensures Field(MergeSection(once, p), k) == Field(once, k) {
      MergeSectionAt(once, p, k);
      MergeSectionAt(f, p, k);
    }
    FieldsDetermineStore(MergeSection(once, p), once);
  }

  /** Patches of two different sections commute. */
  lemma {:induction false} MergeSectionCommutes(f: FormData, p: Patch, q: Patch)
    requires p.Target() != q.Target()
    ensures MergeSection(MergeSection(f, p), q) == MergeSection(MergeSection(f, q), p)
  {
    var pq := MergeSection(MergeSection(f, p), q);
    var qp := MergeSection(MergeSection(f, q), p);
    forall k ensures Field(pq, k) == Field(qp, k) {
      MergeSectionAt(f, p, k);
      MergeSectionAt(f, q, k);
      MergeSectionAt(MergeSection(f, p), q, k);
      MergeSectionAt(MergeSection(f, q), p, k);
    }
    FieldsDetermineStore(pq, qp);
  }

  /** A later merge of the same section overrides every key that both patches
      carry, and keeps the keys only the first patch carried. */
  lemma {:induction false} MergeSectionLastWriteWins(f: FormData, p: Patch, q: Patch, k: Key)
    requires EntryFor(q, k).Present?
    ensures Field(MergeSection(MergeSection(f, p), q), k) == EntryFor(q, k).value
  {
    MergeSectionAt(MergeSection(f, p), q, k);
  }

  // ---------------------------------------------------------------------
  // The provider's state

  /** `FormProvider`: owns `formData` and `currentStep`; `totalSteps` is 4. */
  class FormProvider {
    var formData: FormData
    var currentStep: int
    const totalSteps: int

    /** A fresh store: all four sections empty, step 1 of 4. */
    constructor ()
      ensures formData == InitialFormData
      ensures forall k :: Field(formData, k) == None
      ensures currentStep == 1 && totalSteps == TotalSteps
    {
      formData := InitialFormData;
      currentStep := 1;
      totalSteps := TotalSteps;
    }

    /** `updateFormData(step, data)`: replaces the store by the merge; the
        step pointer does not move. */
    method UpdateFormData(p: Patch)
      modifies this
      ensures formData == MergeSection(old(formData), p)
      ensures forall k :: SectionOf(k) != p.Target() ==> Field(formData, k) == Field(old(formData), k)
      ensures currentStep == old(currentStep)
    {
      forall k | SectionOf(k) != p.Target()
        ensures Field(MergeSection(formData, p), k) == Field(formData, k)
      {
        MergeSectionAt(formData, p, k);
      }
      formData := MergeSection(formData, p);
    }

    /** `setCurrentStep(step)`: stores any integer as given, with no clamping
        and no rejection. */
    method SetCurrentStep(step: int)
      modifies this
      ensures currentStep == step
      ensures formData == old(formData)
    {
      currentStep := step;
    }
  }

  /** `useFormContext()`: the provider above the caller, or the error the hook
      throws outside any provider. */
  function UseFormContext(context: Option<FormProvider>): (r: Result<FormProvider, string>)
    ensures r.Success? <==> context.Some?
    ensures context.Some? ==> r.value == context.value
    ensures context.None? ==> r.error == "useFormContext must be used within a FormProvider"
  {
    match context
    case Some(provider) => Success(provider)
    case None => Failure("useFormContext must be used within a FormProvider")
  }
}
