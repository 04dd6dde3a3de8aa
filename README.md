# SegakAI onboarding and administration core, modelled in Dafny

SegakAI is a Next.js application. It collects a four-step onboarding
questionnaire, asks a language model for a workout and diet plan, stores the
plan, and offers an admin area for the application's configuration. This
project models the core of that application:

- **The form store** (`FormContext`): the four questionnaire sections and the
  step pointer. It includes the JavaScript spread merge of `updateFormData`,
  where a key that is present overwrites even when its value is `undefined`.
- **The wizard page** (`OnboardingFormPage`): it adopts the `?step=` URL
  parameter, writes the step back into the URL and renders one view per step.
- **The four step forms and the review** (`PersonalDetailsForm`,
  `LifestyleForm`, `PhysicalAttributesForm`, `FitnessGoalsForm`,
  `ReviewForm`): local state, option sets, submit, Back, Edit and Generate.
- **The plan-generation route** (`GenerateRoute`): guard order, the prompt
  text, and the stored row.
- **The edge middleware** (`Middleware`).
- **The configuration route** (`ConfigRoute`): the admin check, masking of
  secrets, and the update-only POST.
- **The make-admin route** (`MakeAdminRoute`).
- **The admin settings page** (`AdminPage`) and **the profile page**
  (`ProfilePage`).
- **The database initialisation script** (`InitDb`).

Two modules hold shared definitions:

- `Wrappers` holds the `Option` and `Result` types.
- `JsStrings` holds the JavaScript string semantics the code relies on:
  - `parseInt(s, 10)`, including leading whitespace, a sign, and trailing text that is ignored;
  - integer `toString`;
  - `split` and `join` on one character;
  - `trim` over the ECMAScript whitespace set;
  - truthiness of an optional string.

Components whose handlers update state become classes. Their handlers are
methods with `modifies` clauses, and the shared store is the class
`FormContext.FormProvider`. Pure computations become functions:

- the merge;
- the prompt;
- masking;
- the route handlers, taken from request to response.

Everything outside the code is an input to the model:

- the session;
- database rows and write results;
- the language model;
- `fetch` results;
- the browser's constraint validation.

The browser's constraint validation (`required`, `min`, `max`, a disabled
button) appears as a precondition of the handler it guards.

## Model

| member | source | states |
|---|---|---|
| FormContext.FormProvider.constructor | lib/form-context.tsx:51-62 | A fresh store has every field of all four sections unset, step 1, and four steps in total. |
| FormContext.FormProvider.UpdateFormData | lib/form-context.tsx:64-69 | The store becomes the spread merge of the patch into its section. Every field of the other sections is unchanged, and so is the step. |
| FormContext.Spread | lib/form-context.tsx:67 | One key of `{ ...prev[step], ...data }`: a key present in the patch wins, even when its value is `undefined`, and an absent key keeps the old value. `MergeSectionAt` states this for every field. |
| FormContext.MergeSection | lib/form-context.tsx:64-69 | The state update `{ ...prev, [step]: { ...prev[step], ...data } }`. Its meaning is stated by `MergeSectionAt`, `MergeSectionFrame`, `MergeSectionIdempotent`, `MergeSectionCommutes` and `MergeSectionLastWriteWins`. |
| FormContext.MergeSectionAt | lib/form-context.tsx:67 | After a merge, each field is the patch's entry when the key is present, including a present `undefined`, and the old value when the key is absent. |
| FormContext.MergeSectionFrame | lib/form-context.tsx:65-68 | A merge leaves the three sections it does not target unchanged. |
| FormContext.MergeSectionIdempotent | lib/form-context.tsx:67 | Applying the same merge twice gives the same store as applying it once. |
| FormContext.MergeSectionCommutes | lib/form-context.tsx:65-68 | Merges into two different sections commute. |
| FormContext.MergeSectionLastWriteWins | lib/form-context.tsx:67 | The later of two merges decides every key it carries. |
| FormContext.FieldsDetermineStore | lib/form-context.tsx:32-37 | Two stores that agree on all fourteen fields are equal, so the flat field view loses nothing. |
| FormContext.EntryFor | lib/form-context.tsx:41 | A patch carries no entry for a key outside its own section. |
| FormContext.FormProvider.SetCurrentStep | lib/form-context.tsx:61-76 | Any integer is stored as given, with no clamping, and the form data is untouched. |
| FormContext.UseFormContext | lib/form-context.tsx:87-92 | Outside a provider the hook fails with "useFormContext must be used within a FormProvider"; inside one it returns the provider. |
| OnboardingFormPage.StepFromParam | app/onboarding/form/page.tsx:29-34 | An adopted step is the base-10 parse of a non-empty parameter and lies in [1, totalSteps + 1]. A missing or empty parameter adopts nothing. |
| OnboardingFormPage.MultiStepForm.AdoptStepFromUrl | app/onboarding/form/page.tsx:28-36 | The pointer becomes the adopted step, or stays where it was when nothing is adopted. The form data is untouched. |
| OnboardingFormPage.MultiStepForm.PublishStep | app/onboarding/form/page.tsx:39-43 | The `step` parameter becomes `currentStep.toString()` and every other parameter is kept. |
| OnboardingFormPage.StepParamRoundTrip | app/onboarding/form/page.tsx:31-41 | A step in [1, 5], written with `toString`, is read back as the same step. |
| OnboardingFormPage.PublishedStepIsAdopted | app/onboarding/form/page.tsx:29-41 | After publishing, re-reading the URL adopts the published step, so republishing never moves the pointer. |
| OnboardingFormPage.OutOfRangeStepRefused | app/onboarding/form/page.tsx:32 | A parameter that parses to a number outside [1, 5] is refused. |
| OnboardingFormPage.TrailingTextIgnored | app/onboarding/form/page.tsx:31 | `parseInt` stops at the first non-digit, so "3x" is adopted as step 3. |
| OnboardingFormPage.FractionTruncated | app/onboarding/form/page.tsx:31 | "5.9" is adopted as step 5. |
| OnboardingFormPage.NonStepRefused | app/onboarding/form/page.tsx:31-32 | "abc" (not a number) and "6" (past the review) are refused. |
| OnboardingFormPage.StepOfView | app/onboarding/form/page.tsx:46-56 | Each view sits at a step in [1, 5]. |
| OnboardingFormPage.RenderStep | app/onboarding/form/page.tsx:45-60 | The `renderStep` switch, with `default` giving the personal view. `RenderStepOrder` states the order and that it inverts `StepOfView`. |
| OnboardingFormPage.RenderStepOrder | app/onboarding/form/page.tsx:45-60 | Steps 1 to 5 render personal, lifestyle, physical, goals and review, in that order, and every other step renders the personal view. Rendering inverts the view-to-step map. |
| OnboardingFormPage.EditShowsSectionForm | components/forms/review-form.tsx:106-216 | Each Edit button of the review leads to the form of its own section. |
| OnboardingFormPage.StepAfter | components/forms/lifestyle-form.tsx:33-37 | Continue adds 1, Back subtracts 1, and an Edit button of the review jumps to its section (components/forms/review-form.tsx:106-216). `StepStaysInRange` and `BackFromFirstStepLeavesRange` state where this keeps the pointer. |
| OnboardingFormPage.StepStaysInRange | components/forms/personal-details-form.tsx:115-119 | The pointer stays in [1, 5] when only the buttons a view offers are pressed: the first step has no Back and the review has no Continue. |
| OnboardingFormPage.BackFromFirstStepLeavesRange | lib/form-context.tsx:61 | Without that restriction the pointer leaves the range (Back on step 1 gives 0, Continue on step 5 gives 6), and step 0 renders the personal view. |
| PersonalDetailsForm.ParseAgeInput | components/forms/personal-details-form.tsx:52 | Empty input becomes `undefined`. Any other input becomes its base-10 `parseInt`. |
| PersonalDetailsForm.AgeText | components/forms/personal-details-form.tsx:51 | The input shows "" exactly when the age is `undefined` or 0. |
| PersonalDetailsForm.AgeTextRoundTrip | components/forms/personal-details-form.tsx:51-52 | Typing back what the input shows restores the age, for every age except 0. |
| PersonalDetailsForm.AgeInputValidIff | components/forms/personal-details-form.tsx:49-53 | The browser lets the form submit exactly when the age is a number in [16, 120]. |
| PersonalDetailsForm.PersonalDetailsForm.constructor | components/forms/personal-details-form.tsx:15-17 | Local fields start from the stored section. Gender and background default to "", and the age stays as stored. |
| PersonalDetailsForm.PersonalDetailsForm.OnAgeChange | components/forms/personal-details-form.tsx:52 | The age becomes the parsed input; the other fields are kept. |
| PersonalDetailsForm.PersonalDetailsForm.OnGenderChange | components/forms/personal-details-form.tsx:63-80 | Gender becomes one of the four listed values; the other fields are kept. |
| PersonalDetailsForm.PersonalDetailsForm.OnCulturalBackgroundChange | components/forms/personal-details-form.tsx:90-105 | Background becomes one of the nine listed values; the other fields are kept. |
| PersonalDetailsForm.PersonalDetailsForm.HandleSubmit | components/forms/personal-details-form.tsx:19-31 | The personal section becomes exactly {age, gender, culturalBackground}. The other sections are unchanged, the step grows by 1, and the submitted age is in [16, 120]. |
| LifestyleForm.LifestyleForm.constructor | components/forms/lifestyle-form.tsx:14-18 | The five local fields start from the stored section, defaulting to "". |
| LifestyleForm.LifestyleForm.OnSleepQualityChange | components/forms/lifestyle-form.tsx:55-76 | Sleep quality becomes one of its five values; the other fields are kept. |
| LifestyleForm.LifestyleForm.OnMentalHealthChange | components/forms/lifestyle-form.tsx:86-107 | Mental health becomes one of its five values; the other fields are kept. |
| LifestyleForm.LifestyleForm.OnFamilyStatusChange | components/forms/lifestyle-form.tsx:117-129 | Family status becomes one of its six values; the other fields are kept. |
| LifestyleForm.LifestyleForm.OnLivingArrangementChange | components/forms/lifestyle-form.tsx:138-149 | Living arrangement becomes one of its five values; the other fields are kept. |
| LifestyleForm.LifestyleForm.OnWorkloadChange | components/forms/lifestyle-form.tsx:158-170 | Workload becomes one of its six values; the other fields are kept. |
| LifestyleForm.LifestyleForm.HandleSubmit | components/forms/lifestyle-form.tsx:20-34 | Once all five required fields are set, the lifestyle section becomes exactly those five values. The other sections are unchanged and the step grows by 1. |
| LifestyleForm.LifestyleForm.HandleBack | components/forms/lifestyle-form.tsx:36-38 | The step drops by 1 and the form data is untouched. |
| PhysicalAttributesForm.PhysicalAttributesForm.constructor | components/forms/physical-attributes-form.tsx:15-17 | The three local fields start from the stored section, defaulting to "". |
| PhysicalAttributesForm.PhysicalAttributesForm.OnBodyDescriptionChange | components/forms/physical-attributes-form.tsx:52-85 | Body description becomes one of its eight values; the other fields are kept. |
| PhysicalAttributesForm.PhysicalAttributesForm.OnMealHabitsChange | components/forms/physical-attributes-form.tsx:95-109 | Meal habits become one of their eight values; the other fields are kept. |
| PhysicalAttributesForm.PhysicalAttributesForm.OnExerciseKnowledgeChange | components/forms/physical-attributes-form.tsx:118-135 | Exercise knowledge becomes one of its four values; the other fields are kept. |
| PhysicalAttributesForm.PhysicalAttributesForm.HandleSubmit | components/forms/physical-attributes-form.tsx:19-31 | The physical section becomes exactly the three values. The other sections are unchanged and the step grows by 1. |
| PhysicalAttributesForm.PhysicalAttributesForm.HandleBack | components/forms/physical-attributes-form.tsx:33-35 | The step drops by 1 and the form data is untouched. |
| FitnessGoalsForm.FitnessGoalsForm.constructor | components/forms/fitness-goals-form.tsx:15-17 | The three local fields start from the stored section, defaulting to "". |
| FitnessGoalsForm.FitnessGoalsForm.OnPrimaryGoalChange | components/forms/fitness-goals-form.tsx:52-81 | The primary goal becomes one of its seven values; the other fields are kept. |
| FitnessGoalsForm.FitnessGoalsForm.OnDesiredBodyShapeChange | components/forms/fitness-goals-form.tsx:91-112 | The body shape becomes one of its five values; the other fields are kept. |
| FitnessGoalsForm.FitnessGoalsForm.OnEfficiencyPreferenceChange | components/forms/fitness-goals-form.tsx:122-133 | The efficiency preference becomes one of its five values; the other fields are kept. |
| FitnessGoalsForm.FitnessGoalsForm.HandleSubmit | components/forms/fitness-goals-form.tsx:19-31 | The goals section becomes exactly the three values. The other sections are unchanged and the step grows by 1, so step 4 leads to the review. |
| FitnessGoalsForm.FitnessGoalsForm.HandleBack | components/forms/fitness-goals-form.tsx:33-35 | The step drops by 1 and the form data is untouched. |
| ReviewForm.ReviewForm.constructor | components/forms/review-form.tsx:13-15 | The review starts not generating and with no error. |
| ReviewForm.ReviewForm.HandleBack | components/forms/review-form.tsx:18-20 | The step drops by 1 and the form data is untouched. |
| ReviewForm.EditStep | components/forms/review-form.tsx:106-216 | Each Edit button targets a step in [1, 4]. |
| ReviewForm.ReviewForm.EditSection | components/forms/review-form.tsx:106-216 | An Edit button sets the step to its section's step and leaves the form data untouched. |
| ReviewForm.ErrorMessage | components/forms/review-form.tsx:50-58 | A non-ok response gives the server's `error` when it is truthy, and "Failed to generate plan" when it is missing or empty, so the message shown is never empty. A body that is not JSON gives the parse error's message. |
| ReviewForm.PayloadCarriesStore | components/forms/review-form.tsx:40-47 | Each of the fourteen fields of the request's `userDetails` equals the matching field of the store. |
| ReviewForm.BuildUserDetails | components/forms/review-form.tsx:41-46 | The request's `userDetails`: the personal fields spread at the top, then the other three sections under their own keys. `PayloadCarriesStore` states that every stored field arrives unchanged. |
| ReviewForm.PayloadDeterminesStore | components/forms/review-form.tsx:40-47 | Two stores that send the same `userDetails` are equal, so the request loses nothing. |
| ReviewForm.ReviewForm.HandleGenerate | components/forms/review-form.tsx:22-62 | Detailed below. |
| GenerateRoute.Post | app/api/generate/route.ts:25-178 | Detailed below. |
| GenerateRoute.UnauthenticatedStoresNothing | app/api/generate/route.ts:61-68 | Without a user nothing is stored, and the response is 401 or 500. |
| GenerateRoute.OrNotSpecified | app/api/generate/route.ts:185-202 | A truthy value is shown as is. `undefined` and "" show as "Not specified". |
| GenerateRoute.LineOf | app/api/generate/route.ts:181-204 | Each field has its own line of the prompt, between lines 2 and 21. |
| GenerateRoute.KeyAt | app/api/generate/route.ts:181-204 | It inverts `LineOf`: a field line names the field shown on it. |
| GenerateRoute.KeyAtLineOf | app/api/generate/route.ts:181-204 | Every field's line maps back to that field. |
| GenerateRoute.PromptLines | app/api/generate/route.ts:181-204 | The prompt template has 24 lines. |
| GenerateRoute.PromptSplitsIntoLines | app/api/generate/route.ts:180-205 | When no value contains a newline, splitting the prompt at newlines gives exactly the template's 24 lines. |
| GenerateRoute.PromptShowsField | app/api/generate/route.ts:181-204 | Line `LineOf(k)` of the prompt is the field's label followed by its shown value. Fields come in this order: age, gender, culture, then five lifestyle, three physical and three goal lines. |
| GenerateRoute.GeneratePrompt | app/api/generate/route.ts:180-205 | The template, as its lines joined by line breaks. `PromptShowsField` states which line shows which field. |
| GenerateRoute.NotSpecifiedFallback | app/api/generate/route.ts:183-202 | Every field but age and gender falls back to "Not specified" when falsy. A truthy field is shown verbatim. Gender is shown verbatim, and an absent gender prints as "undefined". A present age is shown as its decimal text, and an absent age prints as "undefined". |
| Middleware.Middleware | middleware.ts:33-66 | Skipped prefixes pass through. A request is redirected exactly when it is a signed-out visit to a protected path or a signed-in visit to /login or /signup; every other request passes. A redirect goes only to /login, which carries the original path, or to /dashboard. |
| Middleware.ProtectedPageDecision | middleware.ts:45-57 | A protected, unskipped path redirects to /login with `redirect` set to the path exactly when no cookie is truthy. A signed-in visitor passes. |
| Middleware.EitherCookieAuthenticates | middleware.ts:48-60 | The decision depends on the two cookies only through whether either is truthy. |
| Middleware.AuthPagesDecision | middleware.ts:60-63 | A signed-in visitor of exactly /login or /signup goes to /dashboard. A signed-out one passes. |
| Middleware.ProtectionByPrefix | middleware.ts:4-45 | Every extension of a protected path is protected, for example /onboarding/form. |
| Middleware.StartsWithAny | middleware.ts:41-44 | `paths.some(...)` over an equality test or a `startsWith` test, where equality implies the prefix test. `ProtectionByPrefix` states that it is closed under extension. |
| Middleware.IsProtectedPath | middleware.ts:4-44 | A path is protected when it starts with one of the four protected prefixes. `ProtectionByPrefix` and `AdminPageNotProtected` state which paths that covers. |
| Middleware.Authenticated | middleware.ts:47-59 | Either cookie with a truthy value signs the visitor in. `EitherCookieAuthenticates` states that the decision depends on the cookies only through this. |
| Middleware.NoRedirectLoop | middleware.ts:52-63 | Following a redirect never redirects again. |
| Middleware.EveryPathIsPublic | middleware.ts:7-42 | The unused public flag holds for every path that starts with "/", so it cannot change an outcome. |
| Middleware.AdminPageNotProtected | middleware.ts:4-65 | /admin passes the middleware even without a cookie, and the page checks the session itself. |
| Middleware.PagesNotSkipped | middleware.ts:10-37 | /login, /signup, /dashboard and /admin are not skipped. |
| ConfigRoute.AdminNeedsBooleanTrue | app/api/config/route.ts:47-48 | A user is admin exactly when either metadata flag is the boolean `true`. The string "true", the number 1 and a failed lookup do not count. |
| ConfigRoute.IsAdmin | app/api/config/route.ts:47-48 | The user row exists and one of its two `is_admin` flags is `=== true`. `AdminNeedsBooleanTrue` states that only the boolean `true` counts. |
| ConfigRoute.MaskSingle | app/api/config/route.ts:71-73 | A secret's non-empty value becomes the mask and an empty one stays "". Non-secret rows and every other column are unchanged. |
| ConfigRoute.MaskRulesAgree | app/api/config/route.ts:71-92 | The single-key rule and the list rule give the same row. |
| ConfigRoute.MaskEntry | app/api/config/route.ts:89-91 | The list rule: a secret with a non-empty value shows the mask. `MaskRulesAgree` states that it matches the single-key rule. |
| ConfigRoute.MaskedList | app/api/config/route.ts:87-92 | Each listed row is masked by the single-key rule, and the length and order are kept. |
| ConfigRoute.MaskSecrets | app/api/config/route.ts:88-92 | The in-place loop leaves the array equal to the masked list of its old contents. |
| ConfigRoute.MaskedListHidesSecrets | app/api/config/route.ts:88-92 | A listed secret shows only "" or the mask, and a non-secret row is returned unchanged. |
| ConfigRoute.MaskIdempotent | app/api/config/route.ts:88-92 | Masking twice is masking once. |
| ConfigRoute.Get | app/api/config/route.ts:33-95 | Detailed below. |
| ConfigRoute.GetNeverShowsSecrets | app/api/config/route.ts:70-92 | No GET response carries a secret's value in clear. |
| ConfigRoute.UpdateRows | app/api/config/route.ts:157-161 | Rows with the key take the new value and timestamp, every other row is unchanged, and the length is kept. |
| ConfigRoute.RowsWithKey | app/api/config/route.ts:157-161 | Every returned row has the key, and every row of the table with the key is returned. |
| ConfigRoute.RowsWithKeyMembers | app/api/config/route.ts:157-161 | A row is returned exactly when it is a row of the table with the key. |
| ConfigRoute.RowsWithKeyOfRow | app/api/config/route.ts:157-161 | A one-row table keeps its row exactly when the row has the key. |
| ConfigRoute.RowsWithKeyCons | app/api/config/route.ts:157-161 | A first row is kept exactly when it has the key, ahead of the selection from the rest. |
| ConfigRoute.RowsWithKeyAppend | app/api/config/route.ts:157-161 | Selection distributes over concatenation; with the one-row case, the returned rows are the table's rows with the key, in the table's order and with their multiplicity. |
| ConfigRoute.Post | app/api/config/route.ts:125-167 | Detailed below. |
| ConfigRoute.EmptyValueAccepted | app/api/config/route.ts:149 | An empty-string value is accepted. |
| ConfigRoute.PostNeverInserts | app/api/config/route.ts:156-161 | Posting a key no row has leaves the table unchanged and returns no rows. |
| ConfigRoute.RowsWithKeyAbsent | app/api/config/route.ts:157-161 | A key no row has selects nothing. |
| MakeAdminRoute.Post | app/api/admin/make-admin/route.ts:32-151 | Detailed below. |
| MakeAdminRoute.GuardOrder | app/api/admin/make-admin/route.ts:53-71 | A missing or empty stored password gives 500 "Admin configuration not found". Otherwise a password other than the stored one gives 403 "Invalid admin password". |
| MakeAdminRoute.FirstPage | app/api/admin/make-admin/route.ts:84-87 | The page is a prefix of the directory of at most 100 users, and the whole directory when it is that small. |
| MakeAdminRoute.FindByEmail | app/api/admin/make-admin/route.ts:97 | It finds the first user whose email equals the input, and finds nothing exactly when no user has it. |
| MakeAdminRoute.Promote | app/api/admin/make-admin/route.ts:109-139 | The user id is promoted exactly when the metadata write reports no error. Success answers "User <email> has been promoted to admin"; a write error answers 500 "Failed to update user: " followed by its message. |
| MakeAdminRoute.FallbackLookup | app/api/admin/make-admin/route.ts:81-104 | When the direct query finds nothing, the first matching user of the first page is promoted, or the response is 404 "User not found". |
| MakeAdminRoute.UserPastFirstPageNotFound | app/api/admin/make-admin/route.ts:84-104 | A user whose email appears only after position 100 of the directory is not found. |
| MakeAdminRoute.CallerIdentityIrrelevant | app/api/admin/make-admin/route.ts:32-71 | The outcome is the same for every signed-in caller: only the password decides, and the caller need not be an admin. |
| AdminPage.ValuesOf | app/admin/page.tsx:85-88 | The keys of the initial `updatedValues` are exactly the keys of the loaded rows. |
| AdminPage.LastWriteWins | app/admin/page.tsx:86-88 | For a key that occurs more than once, the last row's value is kept. With distinct keys, each key holds its row's value. |
| AdminPage.CollectValues | app/admin/page.tsx:85-89 | The `forEach` loop builds `ValuesOf` of the loaded rows. |
| AdminPage.Toggled | app/admin/page.tsx:108-113 | Only the given key's revealed state is negated, and a missing flag counts as false. |
| AdminPage.ToggleTwiceRestores | app/admin/page.tsx:108-113 | Toggling a key twice restores what every key reveals. |
| AdminPage.InputType | app/admin/page.tsx:220 | An input is a password field exactly when its config is secret and not revealed. |
| AdminPage.InputValue | app/admin/page.tsx:221 | The input shows the edited value, or "" when there is none. |
| AdminPage.SaveRequest | app/admin/page.tsx:123-126 | The posted body is the key with `updatedValues[key]`. The value is absent exactly when the key was never loaded or edited. |
| AdminPage.SavingUneditedSecretStoresMask | app/admin/page.tsx:81-126 | The page loads the masked rows, so saving a secret it has not edited posts the mask, and `POST /api/config` then stores the mask over the real value. |
| AdminPage.AdminPage.constructor | app/admin/page.tsx:26-31 | The page starts loading, not an admin, with nothing loaded, revealed or edited. |
| AdminPage.AdminPage.CheckAdminAccess | app/admin/page.tsx:34-96 | Detailed below. |
| AdminPage.AdminPage.HandleValueChange | app/admin/page.tsx:101-106 | Only the given key's edited value changes. |
| AdminPage.AdminPage.ToggleShowSecret | app/admin/page.tsx:108-113 | Only the given key's revealed flag flips. |
| AdminPage.AdminPage.SaveConfig | app/admin/page.tsx:115-147 | Detailed below. |
| ProfilePage.ProfileForm.With | app/profile/page.tsx:67-73 | Only the named field takes the new value. |
| ProfilePage.FailureToast | app/profile/page.tsx:87-128 | An `Error` adds its message to the toast; any other thrown value gives the bare text. |
| ProfilePage.ProfilePage.constructor | app/profile/page.tsx:17-27 | The page starts loading, not saving, with no error and all five fields empty. |
| ProfilePage.ProfilePage.CurrentScreen | app/profile/page.tsx:135-157 | The spinner shows exactly while loading, and the error screen exactly once a non-empty error is set. |
| ProfilePage.ProfilePage.CheckUser | app/profile/page.tsx:31-62 | Detailed below. |
| ProfilePage.ProfilePage.HandleInputChange | app/profile/page.tsx:67-73 | Only the named field changes. |
| ProfilePage.ProfilePage.UpdateProfile | app/profile/page.tsx:75-97 | The name is sent, the toast reports the outcome, `saving` is false again, and the form is unchanged. |
| ProfilePage.ProfilePage.UpdatePassword | app/profile/page.tsx:99-132 | Detailed below. |
| ProfilePage.PasswordEntryEnables | app/profile/page.tsx:275 | Typing the same non-empty password into both inputs makes them match, and then changing one alone breaks the match. |
| InitDb.TrimNonEmpty | scripts/init-db.js:31-32 | Every kept piece is a statement: not empty, with no `;` and no whitespace at either end. |
| InitDb.SplitStatements | scripts/init-db.js:29-32 | Every statement of the pipeline has that form, and there are no more statements than `;`-pieces. |
| InitDb.TrimNonEmptyOfStatements | scripts/init-db.js:31-32 | Statements already in that form pass the trim and the filter unchanged. |
| InitDb.SplitStatementsOfJoin | scripts/init-db.js:29-32 | Statements joined with `;` split back into exactly the same statements, in order. |
| InitDb.BlankPiecesDropped | scripts/init-db.js:31-32 | A trailing whitespace-only piece adds no statement. |
| InitDb.WarningsFor | scripts/init-db.js:55-58 | The warnings are the 1-based numbers of the failed statements, in increasing order. |
| InitDb.Queries | scripts/init-db.js:37-53 | One query per statement, in file order, each with `;` put back. |
| InitDb.ExecuteStatements | scripts/init-db.js:37-59 | The loop sends every statement's query whatever fails, and warns exactly for the failed ones. |
| InitDb.InitializeDatabase | scripts/init-db.js:9-92 | Detailed below. |
| JsStrings.SkipWhitespace | scripts/init-db.js:31 | The position found is the first one from the start that holds no whitespace: everything before it is whitespace. |
| JsStrings.BackWhitespace | scripts/init-db.js:31 | The end found is the last one before which the character is not whitespace: everything after it is whitespace. |
| JsStrings.TrimStart | app/onboarding/form/page.tsx:31 | `parseInt` first drops the leading whitespace: the rest is a suffix that starts with no whitespace, and all that was cut is whitespace. |
| JsStrings.Trim | scripts/init-db.js:31 | Neither end of the result is whitespace. |
| JsStrings.TrimIsSlice | scripts/init-db.js:31 | Trim cuts only whitespace, and only from the ends. |
| JsStrings.TrimKeepsOut | scripts/init-db.js:31 | Trimming adds no character. |
| JsStrings.TrimOfTrimmed | scripts/init-db.js:31 | A string with no whitespace at either end is its own trim. |
| JsStrings.DigitPrefix | app/onboarding/form/page.tsx:31 | `parseInt` reads the longest run of leading digits. |
| JsStrings.NatToDecimal | app/onboarding/form/page.tsx:41 | `toString` gives at least one digit, with no leading zero. |
| JsStrings.TrimStartOfNonWhitespace | app/onboarding/form/page.tsx:31 | A string that starts with no whitespace loses nothing to the leading-whitespace skip. |
| JsStrings.ParseIntOfUnpadded | app/onboarding/form/page.tsx:31 | `parseInt` of a string with no leading whitespace reads its sign and digits as they stand. |
| JsStrings.ParseSignedOfDigits | app/onboarding/form/page.tsx:31 | An unsigned, nonempty run of digits stands for its decimal value. |
| JsStrings.ParseIntOfDigits | app/onboarding/form/page.tsx:31 | `parseInt` of a nonempty run of digits is its decimal value. |
| JsStrings.ParseIntOfNegatedDigits | app/onboarding/form/page.tsx:31 | `parseInt` of a minus sign and a nonempty run of digits is the negated value. |
| JsStrings.ParseIntOfDecimal | app/onboarding/form/page.tsx:31-41 | `parseInt(n.toString(), 10) == n` for every integer. |
| JsStrings.ParseInt10 | app/onboarding/form/page.tsx:31 | `parseInt(s, 10)`: leading whitespace is dropped, then an optional sign and a run of digits are read. `ParseIntOfDigits`, `ParseIntOfNegatedDigits` and `ParseIntOfDecimal` state its results. |
| JsStrings.ParseSigned | app/onboarding/form/page.tsx:31 | The sign and digits part of `parseInt`. `ParseSignedOfDigits` states its value on a digit run. |
| JsStrings.IntToDecimal | app/onboarding/form/page.tsx:41 | `toString` of an integer: a minus sign for a negative value, then the decimal digits. `ParseIntOfDecimal` states that `parseInt` reads it back. |
| JsStrings.Split | scripts/init-db.js:30 | There is at least one piece, and no piece contains the separator. |
| JsStrings.SplitOfJoin | scripts/init-db.js:30 | Splitting a join of separator-free parts gives the parts back. |
| JsStrings.SplitCons | scripts/init-db.js:30 | A character other than the separator joins the first piece of the split. |
| JsStrings.SplitPrefix | scripts/init-db.js:30 | A separator-free prefix joins the first piece of the split, and the other pieces are unchanged. |
| JsStrings.JoinOfSplit | scripts/init-db.js:30 | Joining the pieces of a split gives the string back. |
| JsStrings.Join | scripts/init-db.js:30 | Pieces joined by the separator. `SplitOfJoin` and `JoinOfSplit` state that it inverts `split`. |

### Contracts detailed

**`ReviewForm.ReviewForm.HandleGenerate`**

- Without a user, it sends nothing and sets "You must be logged in to generate a plan".
- Otherwise it sends `BuildUserDetails(store)`.
- It navigates to /dashboard exactly when the response is ok. The error is cleared exactly when it navigates.
- A network failure gives that failure's message. A non-ok response gives `ErrorMessage` of the response body.
- `isGenerating` is false again on every outcome.
- The store and the step are never touched.

**`GenerateRoute.Post`**

The guards run in this order:

1. A missing or empty key gives 500 "Failed to generate plan".
2. No user gives 401.
3. An unreadable body gives 500. A body without `userDetails` gives 400.

After the guards:

- A prompt is built exactly when every guard passes, and it is `generatePrompt(userDetails)`.
- A row is stored exactly when the language model answers. The row is (user id, plan, the request's `userDetails` unchanged).
- The response is 200 `{plan, plan_id}` exactly when the insert succeeds. An insert error gives 500 "Failed to store generated plan".

**`ConfigRoute.Get`**

- No user gives 401. A non-admin gives 403.
- A truthy key returns that row with the single-key mask.
- Otherwise the response is the masked list.
- A query error gives 500 with its message.

**`ConfigRoute.Post`**

- No user gives 401. A non-admin gives 403.
- An unreadable body gives 500 "Failed to update config".
- A falsy key or an `undefined` value gives 400.
- An update error gives 500 with its message, and the table is unchanged.
- Success updates the rows with the key and returns them.
- The table changes only on success.

**`MakeAdminRoute.Post`**

The guards run in this order:

1. No user gives 401.
2. An unreadable body gives 500.
3. A falsy email gives 400.

After the guards:

- Someone is promoted only when the stored admin password is set and matches exactly, and the write succeeds.
- When the direct query by email returns a user, the first user it returns is the one promoted, or the write's error is reported.
- Otherwise the first page of `listUsers` is searched. A listing error gives 500 "Failed to list users", no user with the email gives 404 "User not found", and a match is promoted as above.
- Success answers "User <email> has been promoted to admin".

**`AdminPage.AdminPage.CheckAdminAccess`**

- No session gives /login?redirect=/admin with its toast.
- A failed user lookup gives /dashboard with "Failed to load user data".
- A non-admin gives /dashboard with the permission toast, and nothing is fetched.
- An admin becomes `isAdminUser`. A successful fetch loads the rows and sets `updatedValues` to `ValuesOf` of them. A failed fetch shows "Failed to load admin settings".
- Loading always ends.

**`AdminPage.AdminPage.SaveConfig`**

- It is callable only while no save is in flight.
- It posts `SaveRequest`.
- A failed save shows only "Failed to update <key>".
- A successful save shows "<key> updated successfully". A refresh that then throws adds "Failed to update <key>" after it, because the refresh runs inside the same `try`.
- Only a refresh that answers ok with rows replaces `configs`.
- `isSaving` is false again, and the edited values are kept.

**`ProfilePage.ProfilePage.CheckUser`**

- No session sends the visitor to /login.
- A session fills the email and name, each defaulting to "", and keeps the password fields.
- A thrown `Error` sets its message as the error. Any other thrown value sets "An unknown error occurred".
- Loading always ends.

**`ProfilePage.ProfilePage.UpdatePassword`**

- A password is sent exactly when the two new passwords match, and then it is the new password.
- An enabled button always sends.
- A mismatch changes nothing and says "New passwords don't match".
- Success clears the three password fields and keeps the email and name.
- `saving` is false again on every path, including the mismatch return.

**`InitDb.InitializeDatabase`**

- A missing URL or service key, or a schema file that cannot be read, exits 1 before any statement is sent.
- Otherwise:
  - the count reported is the number of statements;
  - the queries are `Queries(SplitStatements(file))`;
  - the warnings are those of the failed statements;
  - the exit code is 1 exactly when the listing fails.

## Notes on the code

- **Steps.** `setCurrentStep` stores any integer. The URL effect ignores an out-of-range parameter, and `renderStep` shows the personal view for any step outside [1, 5]. Only the buttons each view offers keep the pointer in [1, 5] (`StepStaysInRange`, `BackFromFirstStepLeavesRange`).
- **Validation.** The only validation is the inputs' `required`, `min` and `max` attributes, which the browser enforces. They are preconditions of each `HandleSubmit`, and the generate route accepts any `userDetails`.
- **Upsert.** A comment in the configuration POST (app/api/config/route.ts:156) says "update or insert", but the code only updates. A key with no row changes nothing and returns an empty list (`PostNeverInserts`).
- **Persistence errors.** The review shows whatever `error` string the generate route returned; a failure to store the plan is reported like any other.

## Left out

- The language model call and `JSON.parse` of its answer. The model is an input function from prompt to an optional plan; the request options and `temperature` are not modelled.
- Network, database and auth calls. Their results are inputs:
  - cookie-based session restoration in the routes;
  - row ordering (`.order('key')`);
  - how `.single()` reports a missing row.
- Async interleaving. Each handler runs as one step, and an in-flight state is only the flag that disables its button.
- Floating point and dates. The progress percentage, timestamps (`now` is an input) and locale date formatting are not modelled.
- `PersonalDetailsForm.ParseAgeInput`: a `NaN` from `parseInt` is conflated with `undefined` (`None`). The two would reach the generate route differently, but a `NaN` never reaches the store: the input then shows "" (`age || ""`, components/forms/personal-details-form.tsx:51), so `required` blocks the submit, exactly as for `undefined`.
- `PersonalDetailsForm.AgeTextRoundTrip`: JavaScript numbers are doubles, and the model uses unbounded integers. `String(n)` switches to exponent notation from 10^21 and integers above 2^53 lose precision, so the round trip holds in the source only below those bounds. The form's [16, 120] age range and the [1, 5] step range stay far below them.
- `FormContext.FormProvider.UpdateFormData`: a `Patch` is a closed variant holding only its own section's keys. The source types `data` as a `Partial` of the union of the sections, and the spread would copy any extra key into the section. Every call site passes only the target section's keys.
- Arbitrary JSON. Request bodies are modelled with the fields the code reads. A non-string email, key or config value, or a non-array config response, is not modelled. A metadata flag is one of boolean, string, number or null.
- The middleware's `matcher` configuration. Next.js applies it before the middleware runs, so the model takes the path as given.
- Throws at module load. Missing Supabase environment variables in the routes and the Node version check of the initialisation script are not modelled.
- The `Failed to fetch config` catch of the configuration GET. No modelled input raises there.
- Console output. Toasts are returned as values. The `statusText` inside thrown errors is not modelled. The table listing printed by the initialisation script is reduced to whether the listing succeeded.
- The development bypass route and button, the admin setup scripts, and the presentational pages and components, including the dashboard, login, signup and auth callback. They fall outside this core.
- The make-admin form page (`app/admin/make-admin/page.tsx`) is not part of this model. Only the route it calls is modelled.
