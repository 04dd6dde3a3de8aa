/** `POST /api/generate`: looks up the model key, authenticates the caller,
    reads `userDetails`, builds the prompt, asks the model for a plan and
    stores it. The key lookup, the session, the body, the model and the insert
    are inputs to the model; the order of the guards, the stored row and the
    prompt text are what is modelled. */
module GenerateRoute {
  import opened Wrappers
  import opened JsStrings
  import opened FormContext

  /** `userDetails` as the route reads it: the personal fields at the top
      level and the other three sections nested (each may be missing). */
  datatype UserDetails = UserDetails(
    age: Option<int>,
    gender: Option<string>,
    culturalBackground: Option<string>,
    lifestyle: Option<LifestyleDetails>,
    physicalAttributes: Option<PhysicalAttributes>,
    goals: Option<FitnessGoals>)

  /** The request body: `Unreadable` when `request.json()` throws or yields
      `null`; otherwise its `userDetails`, where `None` is any falsy value. */
  datatype RequestBody = Unreadable | Body(userDetails: Option<UserDetails>)

  /** The parsed plan the model returns; its JSON shape is not modelled. */
  type Plan = string

  /** What the insert into `plans` returns: an error, or the inserted rows,
      of which the first one's `id` is reported (`None` when there is none). */
  datatype InsertResult = InsertError | Inserted(firstId: Option<string>)

  /** The row the route inserts into `plans`. */
  datatype PlanRow = PlanRow(userId: string, planData: Plan, userDetails: UserDetails)

  datatype ResponseBody = ErrorBody(error: string) | PlanBody(plan: Plan, planId: Option<string>)

  datatype Response = Response(status: int, body: ResponseBody)

  /** The response, the prompt sent to the model (if any), and the row handed
      to the insert (if any). */
  datatype Outcome = Outcome(response: Response, prompt: Option<string>, row: Option<PlanRow>)

  const AuthenticationRequired: string := "Authentication required"
  const UserDetailsRequired: string := "User details are required"
  const StoreFailed: string := "Failed to store generated plan"
  const GenerateFailed: string := "Failed to generate plan"

  /** `getOpenAIKey()` succeeds only with a non-empty stored value; `None` is
      a lookup error or a missing row. */
  predicate KeyConfigured(storedKey: Option<string>)
  {
    Truthy(storedKey)
  }

  /** `POST`. `storedKey` is the `OPENAI_API_KEY` row, `userId` the session's
      user, `llm` the model (with `JSON.parse` of its answer; `None` when
      either throws) and `insert` the result of the insert. Every exception
      ends in the catch-all 500. */
  function Post(storedKey: Option<string>, userId: Option<string>, body: RequestBody,
                llm: string -> Option<Plan>, insert: InsertResult): (out: Outcome)
    // 1. the key is looked up first, even before authentication
    ensures !KeyConfigured(storedKey) ==>
      out == Outcome(Response(500, ErrorBody(GenerateFailed)), None, None)
    // 2. then the caller must be signed in
    ensures KeyConfigured(storedKey) && userId.None? ==>
      out == Outcome(Response(401, ErrorBody(AuthenticationRequired)), None, None)
    // 3. then the body must carry userDetails
    ensures KeyConfigured(storedKey) && userId.Some? && body.Unreadable? ==>
      out == Outcome(Response(500, ErrorBody(GenerateFailed)), None, None)
    ensures KeyConfigured(storedKey) && userId.Some? && body == Body(None) ==>
      out == Outcome(Response(400, ErrorBody(UserDetailsRequired)), None, None)
    // 4. past the guards, the model is asked with the prompt for these details
    ensures out.prompt.Some? <==>
      KeyConfigured(storedKey) && userId.Some? && body.Body? && body.userDetails.Some?
    ensures out.prompt.Some? ==> out.prompt.value == GeneratePrompt(body.userDetails.value)
    // 5. a plan is stored for the caller with the details unchanged
    ensures out.row.Some? <==> out.prompt.Some? && llm(out.prompt.value).Some?
    ensures out.row.Some? ==>
      out.row.value == PlanRow(userId.value, llm(out.prompt.value).value, body.userDetails.value)
    // 6. success is exactly a stored row, and reports the plan and its id
    ensures out.response.status == 200 <==> out.row.Some? && insert.Inserted?
    ensures out.response.status == 200 ==>
      out.response.body == PlanBody(out.row.value.planData, insert.firstId)
    ensures out.row.Some? && insert.InsertError? ==>
      out.response == Response(500, ErrorBody(StoreFailed))
    ensures out.prompt.Some? && out.row.None? ==>
      out.response == Response(500, ErrorBody(GenerateFailed))
  {
    if !KeyConfigured(storedKey) then
      Outcome(Response(500, ErrorBody(GenerateFailed)), None, None)
    else if userId.None? then
      Outcome(Response(401, ErrorBody(AuthenticationRequired)), None, None)
    else
      match body
      case Unreadable => Outcome(Response(500, ErrorBody(GenerateFailed)), None, None)
      case Body(None) => Outcome(Response(400, ErrorBody(UserDetailsRequired)), None, None)
      case Body(Some(details)) =>
        var prompt := GeneratePrompt(details);
        match llm(prompt)
        case None => Outcome(Response(500, ErrorBody(GenerateFailed)), Some(prompt), None)
        case Some(plan) =>
          var row := PlanRow(userId.value, plan, details);
          match insert
          case InsertError => Outcome(Response(500, ErrorBody(StoreFailed)), Some(prompt), Some(row))
          case Inserted(id) => Outcome(Response(200, PlanBody(plan, id)), Some(prompt), Some(row))
  }

  /** Nothing is asked of the model and nothing is stored for a caller who is
      not signed in, whatever the body says. */
  lemma UnauthenticatedStoresNothing(storedKey: Option<string>, body: RequestBody,
                                     llm: string -> Option<Plan>, insert: InsertResult)
    ensures Post(storedKey, None, body, llm, insert).row.None?
    ensures Post(storedKey, None, body, llm, insert).response.status in {401, 500}
  {
  }

  // ---------------------------------------------------------------------
  // generatePrompt

  /** `${x || 'Not specified'}` for a string field: the value, unless it is
      missing or empty. */
  function OrNotSpecified(v: Option<string>): (s: string)
    ensures v.Some? && v.value != "" ==> s == v.value
    ensures v.None? || v.value == "" ==> s == "Not specified"
  {
    if v.Some? && v.value != "" then v.value else "Not specified"
  }

  /** `${x}` with no default: `undefined` prints as the word. */
  function Verbatim(v: Option<string>): string
  {
    match v
    case Some(s) => s
    case None => "undefined"
  }

  function VerbatimNumber(v: Option<int>): string
  {
    match v
    case Some(n) => IntToDecimal(n)
    case None => "undefined"
  }

  /** `userDetails.lifestyle?.f` and its kin for the thirteen string keys, as
      the template reads them. */
  function TextField(d: UserDetails, k: Key): Option<string>
  {
    match k
    case Age => None
    case Gender => d.gender
    case CulturalBackground => d.culturalBackground
    case SleepQuality => if d.lifestyle.Some? then d.lifestyle.value.sleepQuality else None
    case MentalHealth => if d.lifestyle.Some? then d.lifestyle.value.mentalHealth else None
    case FamilyStatus => if d.lifestyle.Some? then d.lifestyle.value.familyStatus else None
    case LivingArrangement => if d.lifestyle.Some? then d.lifestyle.value.livingArrangement else None
    case Workload => if d.lifestyle.Some? then d.lifestyle.value.workload else None
    case BodyDescription =>
      if d.physicalAttributes.Some? then d.physicalAttributes.value.bodyDescription else None
    case CurrentMealHabits =>
      if d.physicalAttributes.Some? then d.physicalAttributes.value.currentMealHabits else None
    case ExerciseKnowledge =>
      if d.physicalAttributes.Some? then d.physicalAttributes.value.exerciseKnowledge else None
    case PrimaryGoal => if d.goals.Some? then d.goals.value.primaryGoal else None
    case DesiredBodyShape => if d.goals.Some? then d.goals.value.desiredBodyShape else None
    case EfficiencyPreference => if d.goals.Some? then d.goals.value.efficiencyPreference else None
  }

  /** The value the route finds under key `k` of `userDetails`. */
  function DetailField(d: UserDetails, k: Key): Option<Value>
  {
    if k == Age then AsNum(d.age) else AsText(TextField(d, k))
  }

  /** The value the prompt shows for key `k`: age and gender verbatim, every
      other key with the "Not specified" fallback. */
  function Shown(d: UserDetails, k: Key): string
  {
    match k
    case Age => VerbatimNumber(d.age)
    case Gender => Verbatim(d.gender)
    case _ => OrNotSpecified(TextField(d, k))
  }

  /** The label in front of each key's value. */
  function Label(k: Key): string
  {
    match k
    case Age => "Age: "
    case Gender => "Gender: "
    case CulturalBackground => "Cultural Background: "
    case SleepQuality => "- Sleep Quality: "
    case MentalHealth => "- Mental Health: "
    case FamilyStatus => "- Family Status: "
    case LivingArrangement => "- Living Arrangement: "
    case Workload => "- Workload: "
    case BodyDescription => "- Body Description: "
    case CurrentMealHabits => "- Current Meal Habits: "
    case ExerciseKnowledge => "- Exercise Knowledge/Experience: "
    case PrimaryGoal => "- Primary Goal: "
    case DesiredBodyShape => "- Desired Body Shape: "
    case EfficiencyPreference => "- Workout Duration Preference: "
  }

  /** The line of the prompt that shows key `k`: age, gender and culture, the
      five lifestyle keys, the three physical keys, the three goal keys, each
      group after a blank line and a heading. */
  function LineOf(k: Key): (i: nat)
    ensures 2 <= i <= 21
  {
    match k
    case Age => 2
    case Gender => 3
    case CulturalBackground => 4
    case SleepQuality => 7
    case MentalHealth => 8
    case FamilyStatus => 9
    case LivingArrangement => 10
    case Workload => 11
    case BodyDescription => 14
    case CurrentMealHabits => 15
    case ExerciseKnowledge => 16
    case PrimaryGoal => 19
    case DesiredBodyShape => 20
    case EfficiencyPreference => 21
  }

  /** The template's fixed text is held in short pieces, which keeps the
      proof that it holds no line break cheap. */
  function Concat(pieces: seq<string>): string
  {
    if pieces == [] then "" else pieces[0] + Concat(pieces[1..])
  }

  const OpeningPieces: seq<string> :=
    ["I need a personalized ", "workout and diet plan ", "based on the following ", "information:"]

  const ClosingPieces: seq<string> :=
    ["Please provide a ", "detailed workout plan ", "and diet plan tailored ",
     "specifically to this ", "individual. Take into ", "account their lifestyle ",
     "constraints, physical ", "attributes, and goals ", "to make the plan ",
     "realistic and ", "achievable."]

  const Opening: string := Concat(OpeningPieces)
  const Closing: string := Concat(ClosingPieces)

  function Line(d: UserDetails, k: Key): string
  {
    Label(k) + Shown(d, k)
  }

  /** The key shown on line `i` of the template, if any; `LineOf` is its
      inverse. */
  function KeyAt(i: int): (k: Option<Key>)
    ensures k.Some? ==> LineOf(k.value) == i
  {
    match i
    case 2 => Some(Age)
    case 3 => Some(Gender)
    case 4 => Some(CulturalBackground)
    case 7 => Some(SleepQuality)
    case 8 => Some(MentalHealth)
    case 9 => Some(FamilyStatus)
    case 10 => Some(LivingArrangement)
    case 11 => Some(Workload)
    case 14 => Some(BodyDescription)
    case 15 => Some(CurrentMealHabits)
    case 16 => Some(ExerciseKnowledge)
    case 19 => Some(PrimaryGoal)
    case 20 => Some(DesiredBodyShape)
    case 21 => Some(EfficiencyPreference)
    case _ => None
  }

  lemma KeyAtLineOf(k: Key)
    ensures KeyAt(LineOf(k)) == Some(k)
  {
  }

  /** The fixed lines of the template: the opening sentence, the three
      headings, the closing request, and blank lines between the groups. */
  function FixedLine(i: int): string
  {
    match i
    case 0 => Opening
    case 6 => "Lifestyle:"
    case 13 => "Physical Attributes:"
    case 18 => "Fitness Goals:"
    case 23 => Closing
    case _ => ""
  }

  /** The 24 lines of the template, in order. */
  function PromptLines(d: UserDetails): (lines: seq<string>)
    ensures |lines| == 24
  {
    seq(24, i requires 0 <= i < 24 =>
      match KeyAt(i)
      case Some(k) => Line(d, k)
      case None => FixedLine(i))
  }

  /** `generatePrompt(userDetails)`. */
  function GeneratePrompt(d: UserDetails): string
  {
    Join(PromptLines(d), '\n')
  }

  /** No value the template prints holds a line break. */
  predicate SingleLineValues(d: UserDetails)
  {
    forall k :: '\n' !in Shown(d, k)
  }

  lemma {:induction false} ConcatSingleLine(pieces: seq<string>)
    requires forall i :: 0 <= i < |pieces| ==> '\n' !in pieces[i]
    ensures '\n' !in Concat(pieces)
  {
    if pieces != [] {
      ConcatSingleLine(pieces[1..]);
    }
  }

  // The line-break checks on literal text, a few pieces at a time.
  lemma OpeningPiecesSingleLine()
    ensures forall i :: 0 <= i < |OpeningPieces| ==> '\n' !in OpeningPieces[i]
  {
    assert '\n' !in OpeningPieces[0] && '\n' !in OpeningPieces[1];
    assert '\n' !in OpeningPieces[2] && '\n' !in OpeningPieces[3];
  }

  lemma ClosingPiecesSingleLine1()
    ensures forall i :: 0 <= i < 4 ==> '\n' !in ClosingPieces[i]
  {
    assert '\n' !in ClosingPieces[0] && '\n' !in ClosingPieces[1];
    assert '\n' !in ClosingPieces[2] && '\n' !in ClosingPieces[3];
  }

  lemma ClosingPiecesSingleLine2()
    ensures forall i :: 4 <= i < 8 ==> '\n' !in ClosingPieces[i]
  {
    assert '\n' !in ClosingPieces[4] && '\n' !in ClosingPieces[5];
    assert '\n' !in ClosingPieces[6] && '\n' !in ClosingPieces[7];
  }

  lemma ClosingPiecesSingleLine3()
    ensures forall i :: 8 <= i < |ClosingPieces| ==> '\n' !in ClosingPieces[i]
  {
    assert '\n' !in ClosingPieces[8] && '\n' !in ClosingPieces[9];
    assert '\n' !in ClosingPieces[10];
  }

  lemma PersonalLabelsSingleLine()
    ensures '\n' !in Label(Age) && '\n' !in Label(Gender) && '\n' !in Label(CulturalBackground)
  {
  }

  lemma LifestyleLabelsSingleLine()
    ensures '\n' !in Label(SleepQuality) && '\n' !in Label(MentalHealth)
    ensures '\n' !in Label(FamilyStatus) && '\n' !in Label(LivingArrangement)
    ensures '\n' !in Label(Workload)
  {
  }

  lemma PhysicalLabelsSingleLine()
    ensures '\n' !in Label(BodyDescription) && '\n' !in Label(CurrentMealHabits)
    ensures '\n' !in Label(ExerciseKnowledge)
  {
  }

  lemma GoalsLabelsSingleLine()
    ensures '\n' !in Label(PrimaryGoal) && '\n' !in Label(DesiredBodyShape)
    ensures '\n' !in Label(EfficiencyPreference)
  {
  }

  lemma OpeningSingleLine()
    ensures '\n' !in Opening
  {
    OpeningPiecesSingleLine();
    ConcatSingleLine(OpeningPieces);
  }

  lemma ClosingSingleLine()
    ensures '\n' !in Closing
  {
    ClosingPiecesSingleLine1();
    ClosingPiecesSingleLine2();
    ClosingPiecesSingleLine3();
    ConcatSingleLine(ClosingPieces);
  }

  lemma LabelSingleLine(k: Key)
    ensures '\n' !in Label(k)
  {
    PersonalLabelsSingleLine();
    LifestyleLabelsSingleLine();
    PhysicalLabelsSingleLine();
    GoalsLabelsSingleLine();
  }

  lemma HeadingsSingleLine()
    ensures '\n' !in "Lifestyle:" && '\n' !in "Physical Attributes:" && '\n' !in "Fitness Goals:"
  {
  }

  lemma FixedLineSingleLine(i: int)
    ensures '\n' !in FixedLine(i)
  {
    if i == 0 {
      OpeningSingleLine();
    } else if i == 23 {
      ClosingSingleLine();
    } else if i == 6 || i == 13 || i == 18 {
      HeadingsSingleLine();
    } else {
      assert FixedLine(i) == "";
    }
  }

  lemma {:induction false} PromptLinesSingleLine(d: UserDetails)
    requires SingleLineValues(d)
    ensures forall i :: 0 <= i < |PromptLines(d)| ==> '\n' !in PromptLines(d)[i]
  {
    forall i | 0 <= i < 24 ensures '\n' !in PromptLines(d)[i] {
      match KeyAt(i)
      case Some(k) =>
        LabelSingleLine(k);
        assert '\n' !in Shown(d, k);
      case None =>
        FixedLineSingleLine(i);
    }
  }

  /** When no value holds a line break, the prompt splits back into its
      template lines. */
  lemma PromptSplitsIntoLines(d: UserDetails)
    requires SingleLineValues(d)
    ensures Split(GeneratePrompt(d), '\n') == PromptLines(d)
  {
    PromptLinesSingleLine(d);
    SplitOfJoin(PromptLines(d), '\n');
  }

  /** Read line by line, the prompt shows every key on its own line, after its
      label, with age and gender verbatim and every other key falling back to
      "Not specified" when missing or empty. */
  lemma PromptShowsField(d: UserDetails, k: Key)
    requires SingleLineValues(d)
    ensures |Split(GeneratePrompt(d), '\n')| == 24
    ensures Split(GeneratePrompt(d), '\n')[LineOf(k)] == Label(k) + Shown(d, k)
  {
    PromptSplitsIntoLines(d);
    KeyAtLineOf(k);
  }

  /** Every key except age and gender that is missing or empty reads
      "Not specified", and one with a value shows it; age and gender are
      printed as they are, a missing one as "undefined", and a present age
      as decimal text that parses back to it. */
  lemma NotSpecifiedFallback(d: UserDetails, k: Key)
    ensures k != Age && k != Gender && (TextField(d, k).None? || TextField(d, k) == Some("")) ==>
      Shown(d, k) == "Not specified"
    ensures k == Gender ==> Shown(d, k) == (if d.gender.Some? then d.gender.value else "undefined")
    ensures k != Age && k != Gender && TextField(d, k).Some? && TextField(d, k).value != "" ==>
      Shown(d, k) == TextField(d, k).value
    ensures k == Age ==> Shown(d, k) == (if d.age.Some? then IntToDecimal(d.age.value) else "undefined")
    ensures k == Age && d.age.Some? ==> ParseInt10(Shown(d, k)) == d.age
  {
    if k == Age && d.age.Some? {
      ParseIntOfDecimal(d.age.value);
    }
  }
}
