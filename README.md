# Alphie onboarding core in Dafny

This project models the account-opening flow of the Alphie banking app.
The flow runs in four stages:

1. The user picks a personal or a business account.
2. A wizard collects the form step by step. It has four steps for personal accounts and five for business accounts.
3. The user reviews what was entered.
4. The user submits once they have agreed to the terms.

Modules, one per source file of the core:

- `Types` (`types.dfy`) defines the shared vocabulary.
  - `FormData` is a map from the property names the screens use (`Key`) to a string or a boolean.
  - An absent key is JavaScript's `undefined`.
  - `Truthy` is JavaScript truthiness.
- `OnboardingSchema` (`onboarding_schema.dfy`) holds the static data.
  - It has the two step lists and the nine per-step field schemas.
  - Labels and option lists are tables indexed by key. They are the same in both flows.
  - It also holds the list of Australian states.
- `InputFormat` (`input_format.dfy`) is `formatValue` of the input component.
  - The phone, SSN and date branches are modelled as written.
  - They are proved equal to one data-driven mask filler.
  - The masking properties are proved once, about that filler.
- `StepValidation` (`step_validation.dfy`) is the required-field pass that both wizards share. It is written as a function and as the loop that computes it.
- `PersonalOnboarding` and `BusinessOnboarding` are the two wizard screens.
  - Each is a `Screen` class holding `currentStep`, `formData` and `errors`.
  - Its methods are `updateFormData`, the three field controls that call it, `validateStep`, `handleNext` and `handleBack`.
  - Each method is proved against a specification function of the step's error map.
- `AccountReview` (`account_review.dfy`) is the review screen.
  - It covers the masking and labelling helpers and the two section builders.
  - A builder returns `None` where rendering would throw in JavaScript.
  - The terms flag and the submit flag are a class.
- `ProgressSteps` covers the step classification, badges, header lookup and fill fraction of the progress header.
- `AccountTypeSelection` is the account-type chooser.
- `SelectControl` is the drop-down: option lookup, display text and the open flag.

Three places where the source is inconsistent are stated as lemmas. They are not corrected:

- **Business review keys.** The business review reads `ownerSSN`, `annualRevenue` and `ein`. The business form never writes them: its keys are `ownerTFN`, `annualTurnover` and `abn`.
  - `formatSSN(undefined)` and `undefined.replace` throw.
  - So the business review of any form the wizard produces has no value: see `AccountReview.BusinessReviewWithoutOwnerSsn` and `BusinessOnboarding.Screen`'s `ownerSSN` invariant.
- **Personal initial values.** The personal form starts with `country` at `US` and `idType` at `drivers_license`. Neither is an option of its select: the options are `AU` and `drivers_licence`.
  - Both selects therefore show their placeholder.
  - Yet both values already pass the required check. See `SelectControl.PersonalInitialSelectsUnlisted`.
- **Personal review keys.** The personal review reads `city`, `zipCode` and `ssn`. The personal form never asks for them: its keys are `suburb`, `postcode` and `tfn`.
  - The three start as empty text and stay so.
  - So the City and ZIP Code rows are always empty, and the SSN row is always `***-**-****`. See `PersonalOnboarding.Screen`'s unasked-key invariant and `AccountReview.PersonalReviewOfUnaskedKeys`.

## Model

| member | source | states |
|---|---|---|
| OnboardingSchema.AustralianStates | src/constants/onboarding.ts:4-13 | eight states and territories with pairwise distinct values |
| OnboardingSchema.PersonalOnboardingSteps | src/constants/onboarding.ts:16-37 | four steps numbered 1 to 4 in order |
| OnboardingSchema.BusinessOnboardingSteps | src/constants/onboarding.ts:40-66 | five steps numbered 1 to 5 in order |
| OnboardingSchema.PersonalStep1Fields | src/constants/onboarding.ts:69-75 | keys distinct within the step; no toggle is required; every select has an option table; only the optional keys are not required |
| OnboardingSchema.PersonalStep2Fields | src/constants/onboarding.ts:77-97 | the same rules for step 2 |
| OnboardingSchema.PersonalStep3Fields | src/constants/onboarding.ts:99-122 | the same rules for step 3 |
| OnboardingSchema.PersonalStep4Fields | src/constants/onboarding.ts:124-129 | the same rules for step 4; its toggles are optional |
| OnboardingSchema.BusinessStep1Fields | src/constants/onboarding.ts:132-153 | the same rules; no field other than `acn` and `website` may be optional |
| OnboardingSchema.BusinessStep2Fields | src/constants/onboarding.ts:155-175 | the same rules for business step 2 |
| OnboardingSchema.BusinessStep3Fields | src/constants/onboarding.ts:177-185 | the same rules for business step 3 |
| OnboardingSchema.BusinessStep4Fields | src/constants/onboarding.ts:187-235 | the same rules for business step 4 |
| OnboardingSchema.BusinessStep5Fields | src/constants/onboarding.ts:237-243 | the same rules for business step 5; its three toggles are optional |
| OnboardingSchema.Countries | src/constants/onboarding.ts:95 | the country select offers exactly one option |
| OnboardingSchema.IdTypes | src/constants/onboarding.ts:107-111 | three ID types |
| OnboardingSchema.BusinessStructures | src/constants/onboarding.ts:140-146 | five business structures |
| OnboardingSchema.Industries | src/constants/onboarding.ts:194-205 | ten industries |
| OnboardingSchema.EmployeeRanges | src/constants/onboarding.ts:214-219 | four employee ranges |
| OnboardingSchema.TurnoverRanges | src/constants/onboarding.ts:227-233 | five turnover ranges |
| OnboardingSchema.PersonalOptionalExactly | src/constants/onboarding.ts:69-129 | in each personal step, a field whose key is an optional key is not required; with `FieldOk`, the fields that are not required are exactly those with an optional key |
| OnboardingSchema.BusinessOptionalExactly | src/constants/onboarding.ts:132-243 | the same for each business step, so `acn`, `website`, `accountNickname`, `initialDeposit` and the toggles are the optional fields |
| OnboardingSchema.SelectKeyHasOptions | src/constants/onboarding.ts:80-234 | every key written by a select has a non-empty option list |
| OnboardingSchema.SelectsOfferChoices | src/constants/onboarding.ts:80-234 | in a step that keeps the field rules, every select field offers at least one choice |
| InputFormat.Digits | src/components/Input.tsx:48 | stripping non-digits leaves only digits, is never longer, and keeps a digit string as it is |
| InputFormat.Take | src/components/Input.tsx:48 | `slice(0, n)` is a prefix of length min(n, length) |
| InputFormat.CurrencyChars | src/components/Input.tsx:80 | the currency strip keeps only digits and points |
| InputFormat.FormatCurrency | src/components/Input.tsx:78-87 | the result is the text unchanged or starts with `$`; with no digit and no point, or only a point, the text is returned unchanged |
| InputFormat.FormatValue | src/components/Input.tsx:44-92 | every type other than phone, SSN, date and currency passes the text through, `tfn` and `abn` included |
| InputFormat.MaskOf | src/components/Input.tsx:48-76 | the phone, SSN and date masks hold 10, 9 and 8 digits, and their separators contain no digit |
| InputFormat.FillKeepsDigits | src/components/Input.tsx:48-76 | the digits of a filled mask are exactly the digits laid into it |
| InputFormat.FillMonotone | src/components/Input.tsx:49-76 | filling with a longer digit string only extends the output |
| InputFormat.FillWidth | src/components/Input.tsx:49-76 | a filled mask is never longer than the full mask |
| InputFormat.PhoneLayout | src/components/Input.tsx:49-56 | the phone branch is empty only for no digits, otherwise opens with `(`, and adds 1, 3 or 4 separator characters by digit count |
| InputFormat.SsnLayout | src/components/Input.tsx:61-66 | the SSN branch keeps fewer than four digits as they are, otherwise puts `-` after the first three, and adds 0, 1 or 2 dashes by digit count |
| InputFormat.DateLayout | src/components/Input.tsx:71-76 | the date branch keeps fewer than three digits as they are, otherwise puts `/` after the first two, and adds 0, 1 or 2 slashes by digit count |
| InputFormat.PhoneLayoutIsMask | src/components/Input.tsx:49-56 | the phone branch as written equals the mask `(ddd) ddd-dddd` filled with its digits |
| InputFormat.SsnLayoutIsMask | src/components/Input.tsx:61-66 | the SSN branch as written equals the mask `ddd-dd-dddd` filled with its digits |
| InputFormat.DateLayoutIsMask | src/components/Input.tsx:71-76 | the date branch as written equals the mask `dd/dd/dddd` filled with its digits |
| InputFormat.FormatIsMask | src/components/Input.tsx:44-76 | a masked type shows its mask filled with the first 10, 9 or 8 digits of the text |
| InputFormat.FormatKeepsLeadingDigits | src/components/Input.tsx:48-76 | the digits of the formatted value are the first 10, 9 or 8 digits typed |
| InputFormat.FormatDependsOnLeadingDigits | src/components/Input.tsx:48 | a masked value depends only on the first 10, 9 or 8 digits of the text; every other character is dropped |
| InputFormat.FormatIdempotent | src/components/Input.tsx:44-92 | for every type except currency, formatting a formatted value changes nothing |
| InputFormat.FormatMonotone | src/components/Input.tsx:49-76 | when the digits of one text are a prefix of another's, so is its formatted value |
| InputFormat.FormatLengthBound | src/components/Input.tsx:48-76 | phone at most 14 characters, SSN 11, date 10 |
| StepValidation.EmailInvalid | src/screens/PersonalOnboardingScreen.tsx:92 | the e-mail check fires only on a truthy value, and on a non-empty text it fires iff the text has no `@` (the same test at BusinessOnboardingScreen.tsx lines 105 and 108) |
| StepValidation.RequiredMessage | src/screens/PersonalOnboardingScreen.tsx:87 | "{label} is required" is a non-empty message longer than the label |
| StepValidation.RequiredErrors | src/screens/PersonalOnboardingScreen.tsx:85-89 | the required pass records errors only on keys of the step's fields, each a non-empty message |
| StepValidation.CollectRequiredErrors | src/screens/PersonalOnboardingScreen.tsx:85-89 | the `forEach` loop builds exactly the required pass's error map |
| StepValidation.RequiredErrorsEmptyIff | src/screens/PersonalOnboardingScreen.tsx:85-89 | the pass records nothing iff every required field is truthy |
| StepValidation.RequiredErrorsExact | src/screens/PersonalOnboardingScreen.tsx:85-89 | with distinct keys, a field's key has an error iff it is required and falsy, and the error is "{label} is required" |
| StepValidation.RequiredErrorsLocal | src/screens/PersonalOnboardingScreen.tsx:85-89 | the pass reads only the values of the step's own fields |
| PersonalOnboarding.TotalStepsCounted | src/screens/PersonalOnboardingScreen.tsx:56 | `totalSteps` is the length of the personal step list |
| PersonalOnboarding.StepFields | src/screens/PersonalOnboardingScreen.tsx:70-83 | the switch yields a well-formed field list, non-empty iff the step is 1 to 4 |
| PersonalOnboarding.InitialFormData | src/screens/PersonalOnboardingScreen.tsx:29-47 | `ssn`, `idType` and `idNumber` hold text; only `country`, `idType` and the two toggles start truthy; `city`, `zipCode` and `ssn` start as empty text |
| PersonalOnboarding.Schema | src/screens/PersonalOnboardingScreen.tsx:70-83 | the table the screen reads has one list per step, `schema[s-1]` being step `s`'s |
| PersonalOnboarding.SchemaAsksNoUnasked | src/constants/onboarding.ts:77-122 | no personal step asks for `city`, `zipCode` or `ssn`: it asks for `suburb`, `postcode` and `tfn` |
| PersonalOnboarding.SchemaTogglesAvoidText | src/constants/onboarding.ts:127-128 | no personal toggle writes a key the review reads as text |
| PersonalOnboarding.EmailOnStep1 | src/constants/onboarding.ts:72 | `email` is a field of step 1 |
| PersonalOnboarding.StepErrors | src/screens/PersonalOnboardingScreen.tsx:66-97 | the step's error map has keys only among the step's fields and `email`, each with a non-empty message |
| PersonalOnboarding.StepErrorsEmptyIff | src/screens/PersonalOnboardingScreen.tsx:96-97 | the error map is empty iff every required field is truthy and, on step 1, the e-mail is empty or contains `@` |
| PersonalOnboarding.StepErrorsExact | src/screens/PersonalOnboardingScreen.tsx:85-94 | a field has an error iff it is required and falsy or it is the step-1 e-mail lacking `@`; the e-mail message wins |
| PersonalOnboarding.StepErrorsLocal | src/screens/PersonalOnboardingScreen.tsx:67-94 | only the current step's fields are read |
| PersonalOnboarding.Screen.constructor | src/screens/PersonalOnboardingScreen.tsx:52-54 | starts on step 1 with the initial form and no errors |
| PersonalOnboarding.Screen.UpdateFormData | src/screens/PersonalOnboardingScreen.tsx:58-64 | sets only `key` and removes only `key`'s error |
| PersonalOnboarding.Screen.ChangeText | src/screens/PersonalOnboardingScreen.tsx:170-181 | typing stores the formatted text under the field's key and clears its error; the review's text keys stay text, and `city`, `zipCode` and `ssn` stay empty |
| PersonalOnboarding.Screen.ChooseOption | src/screens/PersonalOnboardingScreen.tsx:144-157 | picking an option stores its value under the field's key and clears its error; `city`, `zipCode` and `ssn` stay empty |
| PersonalOnboarding.Screen.PressToggle | src/screens/PersonalOnboardingScreen.tsx:159-168 | a toggle press stores the negation of the shown value, `undefined` showing as off; `city`, `zipCode` and `ssn` stay empty |
| PersonalOnboarding.Screen.ValidateStep | src/screens/PersonalOnboardingScreen.tsx:66-98 | the error map is replaced by the step's error map, and the answer is whether the step is complete |
| PersonalOnboarding.Screen.HandleNext | src/screens/PersonalOnboardingScreen.tsx:100-112 | an incomplete step stays; a complete step before 4 advances by one; a complete step 4 hands `('personal', formData)` to the review |
| PersonalOnboarding.Screen.HandleBack | src/screens/PersonalOnboardingScreen.tsx:114-120 | goes back one step, or exits from step 1; the step stays in 1 to 4 |
| BusinessOnboarding.TotalStepsCounted | src/screens/BusinessOnboardingScreen.tsx:68 | `totalSteps` is the length of the business step list |
| BusinessOnboarding.GetFieldsForStep | src/screens/BusinessOnboardingScreen.tsx:77-92 | a well-formed field list, non-empty iff the step is 1 to 5 |
| BusinessOnboarding.InitialFormData | src/screens/BusinessOnboardingScreen.tsx:30-59 | the initial form has no `ownerSSN` |
| BusinessOnboarding.Schema | src/screens/BusinessOnboardingScreen.tsx:77-92 | one list per step, `schema[s-1]` being `getFieldsForStep` at `s` |
| BusinessOnboarding.SchemaHasNoOwnerSsn | src/constants/onboarding.ts:132-243 | no business field writes `ownerSSN` |
| BusinessOnboarding.AbnInvalid | src/screens/BusinessOnboardingScreen.tsx:113-118 | the ABN check fires only on a truthy value, and on a non-empty text it fires iff the text does not hold exactly 11 digits |
| BusinessOnboarding.ExtraError | src/screens/BusinessOnboardingScreen.tsx:104-118 | an extra check fires only on a truthy value: `businessEmail` or `abn` on step 1, `ownerEmail` on step 3 |
| BusinessOnboarding.SchemaCoversChecks | src/constants/onboarding.ts:132-185 | the keys the extra checks read are fields of their steps |
| BusinessOnboarding.StepErrors | src/screens/BusinessOnboardingScreen.tsx:94-122 | the step's error map has keys only among the step's fields and the three checked keys, each with a non-empty message |
| BusinessOnboarding.CollectStepErrors | src/screens/BusinessOnboardingScreen.tsx:95-118 | the required loop, then the e-mail and ABN checks, build exactly the step's error map |
| BusinessOnboarding.StepErrorsEmptyIff | src/screens/BusinessOnboardingScreen.tsx:120-121 | the map is empty iff every required field is truthy and no e-mail or ABN check fires |
| BusinessOnboarding.StepErrorsExact | src/screens/BusinessOnboardingScreen.tsx:98-118 | a field has an error iff it is required and falsy or an extra check fires on it; the extra check's message wins |
| BusinessOnboarding.StepErrorsAt | src/screens/BusinessOnboardingScreen.tsx:98-118 | for any key, the extra check's message replaces the required pass's entry, and the key has an entry iff either gives one |
| BusinessOnboarding.StepErrorsLocal | src/screens/BusinessOnboardingScreen.tsx:94-118 | only the current step's fields are read |
| BusinessOnboarding.Screen.constructor | src/screens/BusinessOnboardingScreen.tsx:64-66 | starts on step 1 with the initial form and no errors |
| BusinessOnboarding.Screen.UpdateFormData | src/screens/BusinessOnboardingScreen.tsx:70-75 | sets only `key` and removes only `key`'s error |
| BusinessOnboarding.Screen.ChangeText | src/screens/BusinessOnboardingScreen.tsx:178-189 | typing stores the formatted text under the field's key; `ownerSSN` stays absent |
| BusinessOnboarding.Screen.ChooseOption | src/screens/BusinessOnboardingScreen.tsx:152-165 | picking an option stores its value under the field's key; `ownerSSN` stays absent |
| BusinessOnboarding.Screen.PressToggle | src/screens/BusinessOnboardingScreen.tsx:167-176 | a toggle press stores the negation of the shown value; `ownerSSN` stays absent |
| BusinessOnboarding.Screen.ValidateStep | src/screens/BusinessOnboardingScreen.tsx:94-122 | the error map is replaced by the step's error map, and the answer is whether the step is complete |
| BusinessOnboarding.Screen.HandleNext | src/screens/BusinessOnboardingScreen.tsx:124-135 | stays, advances by one before step 5, or hands `('business', formData)` to the review at step 5 |
| BusinessOnboarding.Screen.HandleBack | src/screens/BusinessOnboardingScreen.tsx:137-143 | goes back one step, or exits from step 1 |
| AccountReview.Last4 | src/screens/AccountReviewScreen.tsx:37 | `slice(-4)` is the last min(4, length) characters |
| AccountReview.FormatSsn | src/screens/AccountReviewScreen.tsx:35-40 | always 11 characters starting `***-**-`; reveals exactly the last four when there are at least four, otherwise `***-**-****` |
| AccountReview.MaskIdNumber | src/screens/AccountReviewScreen.tsx:66 | `****` followed by the last min(4, length) characters of the number |
| AccountReview.IndexOf | src/screens/AccountReviewScreen.tsx:65 | the first index of the character, or -1 when it does not occur |
| AccountReview.ReplaceFirst | src/screens/AccountReviewScreen.tsx:65 | a text without the character is returned unchanged |
| AccountReview.ReplaceFirstSplit | src/screens/AccountReviewScreen.tsx:65 | only the first occurrence is replaced; the text after it, later occurrences included, is kept |
| AccountReview.ReplaceFirstRemovesOne | src/screens/AccountReviewScreen.tsx:65 | replacing with a text free of the character removes exactly one occurrence |
| AccountReview.Upper | src/screens/AccountReviewScreen.tsx:65 | `toUpperCase` maps lower-case letters to capitals, leaves other characters alone and keeps word characters word characters |
| AccountReview.CapitalizeFrom | src/screens/AccountReviewScreen.tsx:65 | the left-to-right scan uppercases exactly the word characters not preceded by a word character |
| AccountReview.CapitalizeWords | src/screens/AccountReviewScreen.tsx:65 | `/\b\w/g` with `toUpperCase` uppercases every word-initial character and changes nothing else |
| AccountReview.CapitalizeIdempotent | src/screens/AccountReviewScreen.tsx:65 | capitalising twice is capitalising once |
| AccountReview.CapitalizeSoleTrader | src/screens/AccountReviewScreen.tsx:85 | `sole trader` is capitalised to `Sole Trader` |
| AccountReview.TypeLabel | src/screens/AccountReviewScreen.tsx:65 | the `replace('_', sep)` then `/\b\w/g` chain (also at lines 85, 115 and 118): without `_` it only capitalises; with one, the label is longer by the length of `sep` less one |
| AccountReview.SoleTraderLabel | src/screens/AccountReviewScreen.tsx:85 | the business structure `sole_trader` is labelled `Sole Trader` |
| AccountReview.Interpolated | src/screens/AccountReviewScreen.tsx:46 | a template interpolation (also at lines 104 and 109) shows text as itself, and is empty only for the empty text: `undefined` and booleans are spelled out |
| AccountReview.Shown | src/screens/AccountReviewScreen.tsx:47-49 | a text value shows as itself; `undefined` and booleans show nothing |
| AccountReview.OrDefault | src/screens/AccountReviewScreen.tsx:72-73 | a falsy value shows the default; a truthy text shows itself |
| AccountReview.EnabledLabel | src/screens/AccountReviewScreen.tsx:74-75 | `Enabled` iff the value is truthy, otherwise `Disabled` |
| AccountReview.SsnShown | src/screens/AccountReviewScreen.tsx:64 | throws iff the value is `undefined`; otherwise an 11-character mask |
| AccountReview.PersonalReviewSections | src/screens/AccountReviewScreen.tsx:42-78 | four sections with 4, 4, 3 and 4 rows |
| AccountReview.BusinessReviewSections | src/screens/AccountReviewScreen.tsx:80-131 | five sections with 6, 4, 6, 4 and 5 rows |
| AccountReview.PersonalReviewDefined | src/screens/AccountReviewScreen.tsx:64-66 | the personal review renders iff `ssn` is present and `idType` and `idNumber` are text |
| AccountReview.PersonalReviewOfWizardForm | src/screens/AccountReviewScreen.tsx:42-78 | a form whose review text keys hold text, as the personal wizard's always does, renders |
| AccountReview.PersonalReviewOfUnaskedKeys | src/screens/AccountReviewScreen.tsx:56-64 | on a form whose `city`, `zipCode` and `ssn` are still empty, the City and ZIP Code rows are empty and the SSN row is `***-**-****` |
| AccountReview.BusinessReviewDefined | src/screens/AccountReviewScreen.tsx:85-118 | the business review renders iff `businessType`, `industryType` and `annualRevenue` are text and `ownerSSN` is present |
| AccountReview.BusinessReviewWithoutOwnerSsn | src/screens/AccountReviewScreen.tsx:108 | without `ownerSSN`, the business review throws |
| AccountReview.ReviewSections | src/screens/AccountReviewScreen.tsx:133-136 | the account type picks the builder: four sections (4/4/3/4) for personal, five (6/4/6/4/5) for business |
| AccountReview.SubmitTitle | src/screens/AccountReviewScreen.tsx:238 | `Submitting...` iff submitting, otherwise `Submit Application` |
| AccountReview.ReviewScreen.constructor | src/screens/AccountReviewScreen.tsx:31-33 | neither agreed nor submitting at first |
| AccountReview.ReviewScreen.PressTerms | src/screens/AccountReviewScreen.tsx:211 | a press on the terms row negates the agreement |
| AccountReview.ReviewScreen.BeginSubmit | src/screens/AccountReviewScreen.tsx:138-141 | without agreement nothing happens; with it, submitting starts |
| AccountReview.ReviewScreen.FinishSubmit | src/screens/AccountReviewScreen.tsx:146-147 | submitting ends and the screen goes to the success screen for the same account type |
| AccountReview.ReviewScreen.HandleBack | src/screens/AccountReviewScreen.tsx:150-152 | back navigates back |
| ProgressSteps.StatusOf | src/components/ProgressSteps.tsx:32-34 | exactly one of completed, active and pending holds for each index, by its position against `currentStep - 1` |
| ProgressSteps.BadgeOf | src/components/ProgressSteps.tsx:46-57 | a checkmark iff completed; otherwise the step's id |
| ProgressSteps.Row | src/components/ProgressSteps.tsx:31-72 | one indicator per step, carrying the step's classification, badge and title |
| ProgressSteps.CompletedCount | src/components/ProgressSteps.tsx:32 | the number of completed indicators is `currentStep - 1` clamped to the list, so exactly `currentStep - 1` on a step of the wizard |
| ProgressSteps.AtMostOneActive | src/components/ProgressSteps.tsx:33 | two active indicators are the same one, at `currentStep - 1` |
| ProgressSteps.CurrentStepInfo | src/components/ProgressSteps.tsx:77-80 | the header's step is `steps[currentStep - 1]`, absent iff out of range |
| ProgressSteps.FillFraction | src/components/ProgressSteps.tsx:23 | the fill times the step count is `currentStep`; no number for an empty list, where the source divides by zero |
| ProgressSteps.FullExactlyAtLast | src/components/ProgressSteps.tsx:23 | the bar is full iff on the last step, and partly filled on the steps before |
| AccountTypeSelection.RouteFor | src/screens/AccountTypeSelectionScreen.tsx:25-28 | personal goes to the personal wizard, business to the business wizard |
| AccountTypeSelection.AtMostOneCardSelected | src/screens/AccountTypeSelectionScreen.tsx:62-77 | the two cards are never both selected; Continue is enabled iff one is |
| AccountTypeSelection.SelectionScreen.constructor | src/screens/AccountTypeSelectionScreen.tsx:22 | nothing is selected at first and Continue is disabled |
| AccountTypeSelection.SelectionScreen.PressCard | src/screens/AccountTypeSelectionScreen.tsx:63-78 | a press selects that card, whatever was selected before |
| AccountTypeSelection.SelectionScreen.HandleContinue | src/screens/AccountTypeSelectionScreen.tsx:24-30 | no navigation without a selection; otherwise the wizard of the selected type |
| SelectControl.FirstMatch | src/components/Select.tsx:43 | the first index whose value matches, or -1 when none does |
| SelectControl.FindOption | src/components/Select.tsx:43 | `find` yields nothing iff no option has the value, else the first option of the list with that value |
| SelectControl.FindOptionOfValue | src/components/Select.tsx:43 | with distinct values, the option found for an option's value is that option |
| SelectControl.PlaceholderOrDefault | src/components/Select.tsx:35 | without a placeholder the text is `Select an option` |
| SelectControl.DisplayText | src/components/Select.tsx:74 | the closed control shows the label of the first option with the value, else the placeholder |
| SelectControl.UnlistedShowsPlaceholder | src/components/Select.tsx:74 | a value no option has shows the placeholder |
| SelectControl.PersonalInitialSelectsUnlisted | src/screens/PersonalOnboardingScreen.tsx:39-41 | the initial `US` and `drivers_license` are no options of their selects, which therefore show their placeholders |
| SelectControl.MarkedIsFound | src/components/Select.tsx:107-121 | with distinct values, the one row with the checkmark is the option the control names |
| SelectControl.Select.constructor | src/components/Select.tsx:41 | the list starts closed |
| SelectControl.Select.Press | src/components/Select.tsx:65 | a press opens the list unless the control is disabled |
| SelectControl.Select.HandleSelect | src/components/Select.tsx:45-48 | reports the option's value and closes |
| SelectControl.Select.Close | src/components/Select.tsx:85-95 | request-close, overlay tap and the close button each leave the list closed |

## Left out

- Currency formatting: `parseFloat` followed by en-US `toLocaleString` is floating point plus a locale library. It is the parameter `amount` of `FormatValue`. Only the strip and the NaN test around it are modelled.
- Placeholders of the form fields are display text and are not modelled. `accountNickname`'s placeholder even differs between the two flows.
- There are no AU phone, TFN or ABN masks in the code. Fields typed `tfn` and `abn` pass their text through, and so does the model.
- The business review's key mismatch is stated, not repaired. The model invents no mapping from `ownerTFN`, `annualTurnover` or `abn` to the keys the review reads.
- A boolean stored under `email`, `businessEmail`, `ownerEmail` or `abn` would make the source throw in `includes` or `replace`. No field writes one there, and the model treats such a value as passing those checks.
- React renders a non-string row value (`undefined`, a boolean) as empty text. `Shown` models this. How the screen lays the rows out is not modelled.
- The two-second submit timer is not modelled: `handleSubmit` is split into `BeginSubmit` and `FinishSubmit`, which run before and after it. The Button's own `loading` and `disabled` guards are not part of the model.
- Navigation (`navigate`, `goBack`) is returned as outcome values: `StepOutcome`, `ReviewOutcome` and `Destination`.
- Not modelled: styles, animations, the keyboard, the Toggle's animation, the success screen's random account numbers, and the welcome screen.
- ProgressSteps renders the header as `Step {n}: {title}`. The number-to-text rendering is not modelled; the header's step is.
- Last4, FormatSsn and MaskIdNumber: strings are sequences of Unicode scalar values. JavaScript's `length` and `slice(-4)` count UTF-16 code units, so these three differ from the source on text holding characters outside the Basic Multilingual Plane.
- FillFraction: for an empty step list the source computes `Infinity%` (`NaN%` on step 0). The model returns no number there. Both step lists are non-empty.
- Labels and option lists are modelled as tables by key, because each key has one label and one option list across both flows.

