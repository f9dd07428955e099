/** The business onboarding wizard: five steps over one form, validated a
    step at a time (with e-mail and ABN checks) before the form is handed to
    the review screen. */
module BusinessOnboarding {
  import opened Types
  import opened OnboardingSchema
  import opened InputFormat
  import opened StepValidation

  /** `BUSINESS_ONBOARDING_STEPS.length`. */
  const TotalSteps: int := 5

  lemma TotalStepsCounted()
    ensures TotalSteps == |BusinessOnboardingSteps()|
  {
  }

  /** `getFieldsForStep`: the schema of steps 1..5, and no field otherwise. */
  function GetFieldsForStep(step: int): (fields: seq<Field>)
    ensures WellFormedStep(fields)
    ensures fields != [] <==> 1 <= step <= TotalSteps
  {
    if step == 1 then BusinessStep1Fields()
    else if step == 2 then BusinessStep2Fields()
    else if step == 3 then BusinessStep3Fields()
    else if step == 4 then BusinessStep4Fields()
    else if step == 5 then BusinessStep5Fields()
    else []
  }

  /** The form the screen starts from. Its keys follow the schema; the
      owner's `ownerSSN`, which the review screen reads, is not among them. */
  function InitialFormData(): (data: FormData)
    ensures ownerSSN !in data
  {
    map[ businessName := Str(""), businessType := Str("company"), abn := Str(""),
         acn := Str(""), businessPhone := Str(""), businessEmail := Str(""),
         website := Str(""), businessStreetAddress := Str(""), businessSuburb := Str(""),
         businessState := Str(""), businessPostcode := Str(""), businessCountry := Str("AU"),
         ownerFirstName := Str(""), ownerLastName := Str(""), ownerEmail := Str(""),
         ownerPhone := Str(""), ownerDateOfBirth := Str(""), ownerTFN := Str(""),
         ownershipPercentage := Str(""), industryType := Str(""), yearEstablished := Str(""),
         numberOfEmployees := Str(""), annualTurnover := Str(""), accountNickname := Str(""),
         initialDeposit := Str(""), enablePaperlessStatements := Flag(true),
         enableBPAY := Flag(true), enablePayID := Flag(true) ]
  }

  /** The five step schemas, in order. */
  function Schema(): (schema: seq<seq<Field>>)
    ensures |schema| == TotalSteps
    ensures forall s :: 1 <= s <= TotalSteps ==> schema[s - 1] == GetFieldsForStep(s)
  {
    [GetFieldsForStep(1), GetFieldsForStep(2), GetFieldsForStep(3), GetFieldsForStep(4), GetFieldsForStep(5)]
  }

  /** No field of `schema` asks for `ownerSSN`. */
  predicate NoOwnerSsnField(schema: seq<seq<Field>>)
  {
    forall s, i :: 0 <= s < |schema| && 0 <= i < |schema[s]| ==> schema[s][i].key != ownerSSN
  }

  lemma SchemaHasNoOwnerSsn()
    ensures NoOwnerSsnField(Schema())
  {
  }

  const AbnMessage: string := "ABN must be 11 digits"

  /** A non-empty `abn` whose digits, separators removed, are not eleven. */
  predicate AbnInvalid(data: FormData)
    ensures AbnInvalid(data) ==> Truthy(data, abn)
    ensures Truthy(data, abn) && data[abn].Str? ==> (AbnInvalid(data) <==> |Digits(data[abn].text)| != 11)
  {
    abn in data && data[abn].Str? && data[abn].text != "" && |Digits(data[abn].text)| != 11
  }

  /** The message a check beyond the required-field pass puts on `key` at
      `step`, if any: the e-mails of steps 1 and 3 and the ABN of step 1. */
  function ExtraError(step: int, key: Key, data: FormData): (r: Option<string>)
    ensures r.Some? ==> r.value != "" && Truthy(data, key)
    ensures r.Some? ==> (step == 1 && key in {businessEmail, abn}) || (step == 3 && key == ownerEmail)
  {
    if step == 1 && key == businessEmail && EmailInvalid(data, businessEmail) then Some(InvalidEmailMessage)
    else if step == 3 && key == ownerEmail && EmailInvalid(data, ownerEmail) then Some(InvalidEmailMessage)
    else if step == 1 && key == abn && AbnInvalid(data) then Some(AbnMessage)
    else None
  }

  /** The keys the extra checks of `step` look at are fields of the step. */
  predicate ChecksCovered(fields: seq<Field>, step: int)
  {
    && (step == 1 ==> businessEmail in KeysOf(fields) && abn in KeysOf(fields))
    && (step == 3 ==> ownerEmail in KeysOf(fields))
  }

  lemma SchemaCoversChecks(step: int)
    ensures ChecksCovered(GetFieldsForStep(step), step)
  {
    if step == 1 {
      assert GetFieldsForStep(1)[2].key == abn && GetFieldsForStep(1)[2] in GetFieldsForStep(1);
      assert GetFieldsForStep(1)[5].key == businessEmail && GetFieldsForStep(1)[5] in GetFieldsForStep(1);
    } else if step == 3 {
      assert GetFieldsForStep(3)[2].key == ownerEmail && GetFieldsForStep(3)[2] in GetFieldsForStep(3);
    }
  }

  /** The error map `validateStep` builds on `step` with the field list
      `fields`: the required-field pass, then the `businessEmail`,
      `ownerEmail` and `abn` checks in that order, each overriding the entry
      of its key. */
  function StepErrors(fields: seq<Field>, step: int, data: FormData): (errors: map<Key, string>)
    ensures errors.Keys <= KeysOf(fields) + {businessEmail, ownerEmail, abn}
    ensures forall k :: k in errors ==> errors[k] != ""
  {
    var base := RequiredErrors(fields, data);
    var withBusinessEmail :=
      if step == 1 && EmailInvalid(data, businessEmail) then base[businessEmail := InvalidEmailMessage] else base;
    var withOwnerEmail :=
      if step == 3 && EmailInvalid(data, ownerEmail) then withBusinessEmail[ownerEmail := InvalidEmailMessage]
      else withBusinessEmail;
    if step == 1 && AbnInvalid(data) then withOwnerEmail[abn := AbnMessage] else withOwnerEmail
  }

  /** What the user must have entered to leave `step`. */
  predicate StepComplete(fields: seq<Field>, step: int, data: FormData)
  {
    && RequiredFilled(fields, data)
    && ExtraError(step, businessEmail, data).None?
    && ExtraError(step, ownerEmail, data).None?
    && ExtraError(step, abn, data).None?
  }

  /** `validateStep` reports success exactly when the step is complete. */
  lemma StepErrorsEmptyIff(fields: seq<Field>, step: int, data: FormData)
    ensures StepErrors(fields, step, data) == map[] <==> StepComplete(fields, step, data)
  {
    RequiredErrorsEmptyIff(fields, data);
    if ExtraError(step, abn, data).Some? {
      assert abn in StepErrors(fields, step, data);
    } else if ExtraError(step, ownerEmail, data).Some? {
      assert ownerEmail in StepErrors(fields, step, data);
    } else if ExtraError(step, businessEmail, data).Some? {
      assert businessEmail in StepErrors(fields, step, data);
    }
  }

  /** Each field of the step carries an error exactly when it is required and
      falsy or an extra check fires on it; the extra check's message wins. */
  lemma StepErrorsExact(fields: seq<Field>, step: int, data: FormData, i: int)
    requires KeysDistinct(fields)
    requires 0 <= i < |fields|
    ensures var f := fields[i];
            var extra := ExtraError(step, f.key, data);
            && (f.key in StepErrors(fields, step, data) <==> (f.required && !Truthy(data, f.key)) || extra.Some?)
            && (f.key in StepErrors(fields, step, data) ==>
                  StepErrors(fields, step, data)[f.key]
                  == if extra.Some? then extra.value else RequiredMessage(f.Caption()))
  {
    RequiredErrorsExact(fields, data, i);
    StepErrorsAt(fields, step, data, fields[i].key);
  }

  /** The entry of any key: the extra check's message if it fires, else the
      required pass's entry. */
  lemma StepErrorsAt(fields: seq<Field>, step: int, data: FormData, k: Key)
    ensures var errors := StepErrors(fields, step, data);
            var extra := ExtraError(step, k, data);
            && (k in errors <==> k in RequiredErrors(fields, data) || extra.Some?)
            && (k in errors ==> errors[k] == if extra.Some? then extra.value else RequiredErrors(fields, data)[k])
  {
    if k == businessEmail {
    } else if k == ownerEmail {
    } else if k == abn {
    } else {
      assert ExtraError(step, k, data).None?;
    }
  }

  /** Only the step's own fields are read, the checked keys being among them. */
  lemma StepErrorsLocal(fields: seq<Field>, step: int, data: FormData, data': FormData)
    requires ChecksCovered(fields, step)
    requires AgreeOn(data, data', KeysOf(fields))
    ensures StepErrors(fields, step, data) == StepErrors(fields, step, data')
  {
    RequiredErrorsLocal(fields, data, data');
    if step == 1 {
      assert Lookup(data, businessEmail) == Lookup(data', businessEmail);
      assert Lookup(data, abn) == Lookup(data', abn);
    } else if step == 3 {
      assert Lookup(data, ownerEmail) == Lookup(data', ownerEmail);
    }
  }

  /** The error map `validateStep` fills: the required-field pass, then the
      e-mail and ABN checks, each overwriting the entry of its key. */
  method CollectStepErrors(fields: seq<Field>, step: int, data: FormData) returns (newErrors: map<Key, string>)
    ensures newErrors == StepErrors(fields, step, data)
  {
    newErrors := CollectRequiredErrors(fields, data);
    if step == 1 && EmailInvalid(data, businessEmail) {
      newErrors := newErrors[businessEmail := InvalidEmailMessage];
    }
    if step == 3 && EmailInvalid(data, ownerEmail) {
      newErrors := newErrors[ownerEmail := InvalidEmailMessage];
    }
    if step == 1 && abn in data && data[abn].Str? && data[abn].text != "" {
      var abnDigits := Digits(data[abn].text);
      if |abnDigits| != 11 {
        newErrors := newErrors[abn := AbnMessage];
      }
    }
  }

  /** The screen's state. `schema` is the step table the screen reads:
      `schema[s - 1]` is `getFieldsForStep` at step `s`. */
  class Screen {
    const schema: seq<seq<Field>>
    var currentStep: int
    var formData: FormData
    var errors: map<Key, string>

    /** The step stays in range and every recorded error is a non-empty
        message; the table has a list per step and none of its fields asks
        for `ownerSSN`. */
    ghost predicate Valid()
      reads this
    {
      && |schema| == TotalSteps
      && NoOwnerSsnField(schema)
      && 1 <= currentStep <= TotalSteps
      && (forall k :: k in errors ==> errors[k] != "")
    }

    constructor ()
      ensures Valid()
      ensures schema == Schema()
      ensures currentStep == 1 && formData == InitialFormData() && errors == map[]
    {
      schema := Schema();
      currentStep := 1;
      formData := InitialFormData();
      errors := map[];
      SchemaHasNoOwnerSsn();
    }

    /** The fields of the current step. */
    ghost function Fields(): seq<Field>
      requires Valid()
      reads this
    {
      schema[currentStep - 1]
    }

    /** `updateFormData`: store `value` under `key` and clear that key's error. */
    method UpdateFormData(key: Key, value: FormValue)
      requires Valid()
      modifies this`formData, this`errors
      ensures Valid()
      ensures formData == old(formData)[key := value]
      ensures errors == old(errors) - {key}
    {
      formData := formData[key := value];
      if key in errors && errors[key] != "" {
        errors := errors - {key};
      } else {
        ClearAbsent(errors, key);
      }
    }

    /** The `Input` rendered for the `i`-th field of the current step: its
        `handleChangeText` formats the typed text for the field's type and
        passes it to `updateFormData`. */
    method ChangeText(i: int, text: string, amount: string -> string)
      requires Valid()
      requires 0 <= i < |Fields()| && Fields()[i].kind != Select && Fields()[i].kind != Toggle
      modifies this`formData, this`errors
      ensures Valid()
      ensures var f := old(Fields())[i];
              && formData == old(formData)[f.key := Str(FormatValue(f.kind, text, amount))]
              && errors == old(errors) - {f.key}
      ensures ownerSSN !in old(formData) ==> ownerSSN !in formData
    {
      var f := schema[currentStep - 1][i];
      UpdateFormData(f.key, Str(FormatValue(f.kind, text, amount)));
    }

    /** The `Select` rendered for the `i`-th field of the current step: picking
        its `j`-th option passes that option's value to `updateFormData`. */
    method ChooseOption(i: int, j: int)
      requires Valid()
      requires 0 <= i < |Fields()| && Fields()[i].kind == Select
      requires 0 <= j < |Fields()[i].Choices()|
      modifies this`formData, this`errors
      ensures Valid()
      ensures var f := old(Fields())[i];
              && formData == old(formData)[f.key := Str(f.Choices()[j].value)]
              && errors == old(errors) - {f.key}
      ensures ownerSSN !in old(formData) ==> ownerSSN !in formData
    {
      var f := schema[currentStep - 1][i];
      UpdateFormData(f.key, Str(f.Choices()[j].value));
    }

    /** The `Toggle` rendered for the `i`-th field of the current step: a press
        passes the negation of the shown value to `updateFormData`. */
    method PressToggle(i: int)
      requires Valid()
      requires 0 <= i < |Fields()| && Fields()[i].kind == Toggle
      modifies this`formData, this`errors
      ensures Valid()
      ensures var f := old(Fields())[i];
              && formData == old(formData)[f.key := Flag(!Truthy(old(formData), f.key))]
              && errors == old(errors) - {f.key}
      ensures ownerSSN !in old(formData) ==> ownerSSN !in formData
    {
      var f := schema[currentStep - 1][i];
      UpdateFormData(f.key, Flag(!Truthy(formData, f.key)));
    }

    /** `validateStep`: a fresh error map replaces the old one, and the answer
        is whether it is empty. */
    method ValidateStep() returns (ok: bool)
      requires Valid()
      modifies this`errors
      ensures Valid()
      ensures errors == StepErrors(Fields(), currentStep, formData)
      ensures ok <==> StepComplete(Fields(), currentStep, formData)
    {
      var fields := schema[currentStep - 1];
      var newErrors := CollectStepErrors(fields, currentStep, formData);
      errors := newErrors;
      ok := |newErrors| == 0;
      StepErrorsEmptyIff(fields, currentStep, formData);
      assert Fields() == fields;
    }

    /** `handleNext`: stay on an incomplete step, otherwise advance, or on the
        last step hand the form to the review screen. */
    method HandleNext() returns (outcome: StepOutcome)
      requires Valid()
      modifies this`currentStep, this`errors
      ensures Valid()
      ensures errors == StepErrors(old(Fields()), old(currentStep), formData)
      ensures !StepComplete(old(Fields()), old(currentStep), formData) ==>
                outcome == Stay && currentStep == old(currentStep)
      ensures StepComplete(old(Fields()), old(currentStep), formData) && old(currentStep) < TotalSteps ==>
                outcome == Advance && currentStep == old(currentStep) + 1
      ensures StepComplete(old(Fields()), old(currentStep), formData) && old(currentStep) == TotalSteps ==>
                outcome == GoToReview(Business, formData) && currentStep == old(currentStep)
    {
      var ok := ValidateStep();
      if ok {
        if currentStep < TotalSteps {
          currentStep := currentStep + 1;
          outcome := Advance;
        } else {
          outcome := GoToReview(Business, formData);
        }
      } else {
        outcome := Stay;
      }
    }

    /** `handleBack`: one step back, or leave the wizard from step 1. */
    method HandleBack() returns (outcome: StepOutcome)
      requires Valid()
      modifies this`currentStep
      ensures Valid()
      ensures old(currentStep) > 1 ==> currentStep == old(currentStep) - 1 && outcome == Retreat
      ensures old(currentStep) == 1 ==> currentStep == 1 && outcome == Exit
    {
      if currentStep > 1 {
        currentStep := currentStep - 1;
        outcome := Retreat;
      } else {
        outcome := Exit;
      }
    }
  }
}
