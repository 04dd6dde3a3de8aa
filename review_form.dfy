/** Step 5 of the wizard: shows the collected answers, jumps back to any
    section for editing, and asks the server to generate a plan. */
module ReviewForm {
  import opened Wrappers
  import opened FormContext
  import opened GenerateRoute

  const NotLoggedIn: string := "You must be logged in to generate a plan"
  const GenerateFailedFallback: string := "Failed to generate plan"
  const DashboardPath: string := "/dashboard"

  /** The body of a response that is not ok: JSON with an optional `error`
      field, or something `response.json()` cannot parse (which throws). */
  datatype ErrorPayload = ErrorJson(error: Option<string>) | NotJson(parseError: string)

  /** What `fetch("/api/generate", ...)` yields: a thrown network error, or a
      response with its `ok` flag and body. */
  datatype FetchResult =
    | NetworkFailure(message: string)
    | FetchResponse(ok: bool, payload: ErrorPayload)

  /** The message shown for a response that is not ok:
      `errorData.error || "Failed to generate plan"`, or the parse error. */
  function ErrorMessage(payload: ErrorPayload): (m: string)
    ensures payload.ErrorJson? ==> m != ""
    ensures payload.ErrorJson? && payload.error.Some? && payload.error.value != "" ==>
      m == payload.error.value
    ensures payload.ErrorJson? && (payload.error.None? || payload.error.value == "") ==>
      m == GenerateFailedFallback
    ensures payload.NotJson? ==> m == payload.parseError
  {
    match payload
    case ErrorJson(e) => if e.Some? && e.value != "" then e.value else GenerateFailedFallback
    case NotJson(message) => message
  }

  /** `userDetails` as the request sends it: the personal fields spread at the
      top level, and the other three sections nested whole. */
  function BuildUserDetails(fd: FormData): UserDetails
  {
    UserDetails(
      fd.personalDetails.age, fd.personalDetails.gender, fd.personalDetails.culturalBackground,
      Some(fd.lifestyleDetails), Some(fd.physicalAttributes), Some(fd.fitnessGoals))
  }

  /** The route finds every stored field under its own key, so nothing is
      lost or renamed on the way. */
  lemma PayloadCarriesStore(fd: FormData, k: Key)
    ensures DetailField(BuildUserDetails(fd), k) == Field(fd, k)
  {
  }

  /** Different stores send different payloads. */
  lemma {:induction false} PayloadDeterminesStore(a: FormData, b: FormData)
    requires BuildUserDetails(a) == BuildUserDetails(b)
    ensures a == b
  {
    forall k ensures Field(a, k) == Field(b, k) {
      PayloadCarriesStore(a, k);
      PayloadCarriesStore(b, k);
    }
    FieldsDetermineStore(a, b);
  }

  /** The step each section's Edit button jumps to. */
  function EditStep(s: Section): (step: int)
    ensures 1 <= step <= TotalSteps
  {
    match s
    case Personal => 1
    case Lifestyle => 2
    case Physical => 3
    case Goals => 4
  }

  /** The component `ReviewForm` and its local state. */
  class ReviewForm {
    var isGenerating: bool
    var error: Option<string>
    const ctx: FormProvider

    constructor (ctx: FormProvider)
      ensures this.ctx == ctx
      ensures !isGenerating && error.None?
    {
      this.ctx := ctx;
      isGenerating := false;
      error := None;
    }

    /** `handleBack`: the pointer moves back by one; the store is untouched. */
    method HandleBack()
      modifies ctx
      ensures ctx.currentStep == old(ctx.currentStep) - 1
      ensures ctx.formData == old(ctx.formData)
    {
      ctx.SetCurrentStep(ctx.currentStep - 1);
    }

    /** The Edit button of section `s`: jump to that section's step. */
    method EditSection(s: Section)
      modifies ctx
      ensures ctx.currentStep == EditStep(s)
      ensures ctx.formData == old(ctx.formData)
    {
      ctx.SetCurrentStep(EditStep(s));
    }

    /** `handleGenerate`, started from the button (disabled while a run is in
        progress). `userId` is the signed-in user and `fetch` what the request
        yields; the method returns the `userDetails` it sent and the page it
        navigated to. Exactly one of an error and a navigation results, the
        flag is down again afterwards, and the store is never touched, so a
        failed run can be retried as it is. */
    method HandleGenerate(userId: Option<string>, fetch: FetchResult)
      returns (request: Option<UserDetails>, navigation: Option<string>)
      requires !isGenerating
      modifies this
      ensures !isGenerating
      ensures ctx.formData == old(ctx.formData) && ctx.currentStep == old(ctx.currentStep)
      ensures userId.None? ==> request.None? && error == Some(NotLoggedIn)
      ensures userId.Some? ==> request == Some(BuildUserDetails(ctx.formData))
      ensures navigation.Some? <==> userId.Some? && fetch.FetchResponse? && fetch.ok
      ensures navigation.Some? ==> navigation.value == DashboardPath
      ensures error.None? <==> navigation.Some?
      ensures userId.Some? && fetch.NetworkFailure? ==> error == Some(fetch.message)
      ensures userId.Some? && fetch.FetchResponse? && !fetch.ok ==>
        error == Some(ErrorMessage(fetch.payload))
    {
      isGenerating := true;
      error := None;
      navigation := None;
      if userId.None? {
        request := None;
        error := Some(NotLoggedIn);
      } else {
        request := Some(BuildUserDetails(ctx.formData));
        match fetch
        case NetworkFailure(message) =>
          error := Some(message);
        case FetchResponse(ok, payload) =>
          if ok {
            navigation := Some(DashboardPath);
          } else {
            error := Some(ErrorMessage(payload));
          }
      }
      isGenerating := false;
    }
  }
}
