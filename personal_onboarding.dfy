/** The personal onboarding wizard: four steps over one form, validated a
    step at a time before the form is handed to the review screen. */
module PersonalOnboarding {
  import opened Types
  import opened OnboardingSchema
  import opened InputFormat
  import opened StepValidation

  /** `PERSONAL_ONBOARDING_STEPS.length`. */
  const TotalSteps: int := 4

  lemma TotalStepsCounted()
    ensures TotalSteps == |PersonalOnboardingSteps()|
  {
  }

  /** The field list the `switch (currentStep)` picks; none outside 1..4. */
  function StepFields(step: int): (fields: seq<Field>)
    ensures WellFormedStep(fields)
    ensures fields != [] <==> 1 <= step <= TotalSteps
  {
    if step == 1 then PersonalStep1Fields()
    else if step == 2 then PersonalStep2Fields()
    else if step == 3 then PersonalStep3Fields()
    else if step == 4 then PersonalStep4Fields()
    else []
  }

  /** The keys on which the review screen calls a string method. */
  const ReviewTextKeys: set<Key> := {ssn, idType, idNumber}

  /** The keys the review screen shows that no step asks for: the steps ask
      for `suburb`, `postcode` and `tfn` instead. */
  const UnaskedKeys: set<Key> := {city, zipCode, ssn}

  /** Every unasked key still holds the empty text it starts with. */
  predicate UnaskedBlank(data: FormData)
  {
    forall k :: k in UnaskedKeys ==> Lookup(data, k) == Some(Str(""))
  }

  /** The form the screen starts from. Its keys follow the account-data type,
      not the schema: `city`, `zipCode`, `ssn` and `enableMobileDeposit` are
      never asked for, and `suburb`, `postcode`, `tfn`, `idState` and
      `enablePayID` only appear once their field is edited. */
  function InitialFormData(): (data: FormData)
    ensures TextKept(data, ReviewTextKeys)
    ensures UnaskedBlank(data)
    ensures forall k :: Truthy(data, k) ==> k in {country, idType, enablePaperlessStatements, enableMobileDeposit}
  {
    map[ firstName := Str(""), lastName := Str(""), email := Str(""),
         phone := Str(""), dateOfBirth := Str(""), streetAddress := Str(""),
         city := Str(""), state := Str(""), zipCode := Str(""),
         country := Str("US"), ssn := Str(""), idType := Str("drivers_license"),
         idNumber := Str(""), accountNickname := Str(""), initialDeposit := Str(""),
         enablePaperlessStatements := Flag(true), enableMobileDeposit := Flag(true) ]
  }

  /** The four step schemas, in order. */
  function Schema(): (schema: seq<seq<Field>>)
    ensures |schema| == TotalSteps
    ensures forall s :: 1 <= s <= TotalSteps ==> schema[s - 1] == StepFields(s)
  {
    [StepFields(1), StepFields(2), StepFields(3), StepFields(4)]
  }

  /** No toggle of `schema` writes a key the review reads as text. */
  predicate TogglesAvoidText(schema: seq<seq<Field>>)
  {
    forall s, i :: 0 <= s < |schema| && 0 <= i < |schema[s]| && schema[s][i].kind == Toggle ==>
      schema[s][i].key !in ReviewTextKeys
  }

  /** No field of `schema` writes an unasked key. */
  predicate NoUnaskedField(schema: seq<seq<Field>>)
  {
    forall s, i :: 0 <= s < |schema| && 0 <= i < |schema[s]| ==> schema[s][i].key !in UnaskedKeys
  }

  lemma SchemaAsksNoUnasked()
    ensures NoUnaskedField(Schema())
  {
  }

  lemma SchemaTogglesAvoidText()
    ensures TogglesAvoidText(Schema())
  {
    forall s, i | 0 <= s < |Schema()| && 0 <= i < |Schema()[s]| && Schema()[s][i].kind == Toggle
      ensures Schema()[s][i].key !in ReviewTextKeys
    {
      assert s == 3;
    }
  }

  lemma EmailOnStep1()
    ensures email in KeysOf(StepFields(1))
  {
    assert StepFields(1)[2].key == email;
    assert StepFields(1)[2] in StepFields(1);
  }

  /** The error map `validateStep` builds on `step` with the field list
      `fields`: the required-field pass, then on step 1 the e-mail check,
      which overrides the `email` entry. */
  function StepErrors(fields: seq<Field>, step: int, data: FormData): (errors: map<Key, string>)
    ensures errors.Keys <= KeysOf(fields) + {email}
    ensures forall k :: k in errors ==> errors[k] != ""
  {
    var base := RequiredErrors(fields, data);
    if step == 1 && EmailInvalid(data, email) then base[email := InvalidEmailMessage] else base
  }

  /** What the user must have entered to leave `step`. */
  predicate StepComplete(fields: seq<Field>, step: int, data: FormData)
  {
    RequiredFilled(fields, data) && !(step == 1 && EmailInvalid(data, email))
  }

  /** `validateStep` reports success exactly when the step is complete. */
  lemma StepErrorsEmptyIff(fields: seq<Field>, step: int, data: FormData)
    ensures StepErrors(fields, step, data) == map[] <==> StepComplete(fields, step, data)
  {
    RequiredErrorsEmptyIff(fields, data);
    if step == 1 && EmailInvalid(data, email) {
      assert email in StepErrors(fields, step, data);
    }
  }

  /** Each field of the step carries an error exactly when it is required and
      falsy, or it is the step-1 e-mail and lacks `@`; the e-mail message wins. */
  lemma StepErrorsExact(fields: seq<Field>, step: int, data: FormData, i: int)
    requires KeysDistinct(fields)
    requires 0 <= i < |fields|
    ensures var f := fields[i];
            var badEmail := step == 1 && f.key == email && EmailInvalid(data, email);
            && (f.key in StepErrors(fields, step, data) <==> (f.required && !Truthy(data, f.key)) || badEmail)
            && (f.key in StepErrors(fields, step, data) ==>
                  StepErrors(fields, step, data)[f.key]
                  == if badEmail then InvalidEmailMessage else RequiredMessage(f.Caption()))
  {
    RequiredErrorsExact(fields, data, i);
  }

  /** Only the step's own fields are read, the e-mail being one of step 1's. */
  lemma StepErrorsLocal(fields: seq<Field>, step: int, data: FormData, data': FormData)
    requires step == 1 ==> email in KeysOf(fields)
    requires AgreeOn(data, data', KeysOf(fields))
    ensures StepErrors(fields, step, data) == StepErrors(fields, step, data')
  {
    RequiredErrorsLocal(fields, data, data');
    if step == 1 {
      assert Lookup(data, email) == Lookup(data', email);
    }
  }

  /** The screen's state. `schema` is the step table the screen reads:
      `schema[s - 1]` is the field list of step `s`. */
  class Screen {
    const schema: seq<seq<Field>>
    var currentStep: int
    var formData: FormData
    var errors: map<Key, string>

    /** The step stays in range and every recorded error is a non-empty
        message; the table has a list per step, its toggles avoid the keys
        the review reads as text, and none of its fields writes an unasked
        key. */
    ghost predicate Valid()
      reads this
    {
      && |schema| == TotalSteps
      && TogglesAvoidText(schema)
      && NoUnaskedField(schema)
      && 1 <= currentStep <= TotalSteps
      && (forall k :: k in errors ==> errors[k] != "")
    }

    constructor ()
      ensures Valid()
      ensures schema == Schema()
      ensures currentStep == 1 && formData == InitialFormData() && errors == map[]
    {
      schema := Schema();
      currentStep := 1;
      formData := InitialFormData();
      errors := map[];
      SchemaTogglesAvoidText();
      SchemaAsksNoUnasked();
    }

    /** The fields of the current step. */
    ghost function Fields(): seq<Field>
      requires Valid()
      reads this
    {
      schema[currentStep - 1]
    }

    /** `updateFormData`: store `value` under `key` and clear that key's error. */
    method UpdateFormData(key: Key, value: FormValue)
      requires Valid()
      modifies this`formData, this`errors
      ensures Valid()
      ensures formData == old(formData)[key := value]
      ensures errors == old(errors) - {key}
    {
      formData := formData[key := value];
      if key in errors && errors[key] != "" {
        errors := errors - {key};
      } else {
        ClearAbsent(errors, key);
      }
    }

    /** The `Input` rendered for the `i`-th field of the current step: its
        `handleChangeText` formats the typed text for the field's type and
        passes it to `updateFormData`. */
    method ChangeText(i: int, text: string, amount: string -> string)
      requires Valid()
      requires 0 <= i < |Fields()| && Fields()[i].kind != Select && Fields()[i].kind != Toggle
      modifies this`formData, this`errors
      ensures Valid()
      ensures var f := old(Fields())[i];
              && formData == old(formData)[f.key := Str(FormatValue(f.kind, text, amount))]
              && errors == old(errors) - {f.key}
      ensures TextKept(old(formData), ReviewTextKeys) ==> TextKept(formData, ReviewTextKeys)
      ensures UnaskedBlank(old(formData)) ==> UnaskedBlank(formData)
    {
      var f := schema[currentStep - 1][i];
      UpdateFormData(f.key, Str(FormatValue(f.kind, text, amount)));
    }

    /** The `Select` rendered for the `i`-th field of the current step: picking
        its `j`-th option passes that option's value to `updateFormData`. */
    method ChooseOption(i: int, j: int)
      requires Valid()
      requires 0 <= i < |Fields()| && Fields()[i].kind == Select
      requires 0 <= j < |Fields()[i].Choices()|
      modifies this`formData, this`errors
      ensures Valid()
      ensures var f := old(Fields())[i];
              && formData == old(formData)[f.key := Str(f.Choices()[j].value)]
              && errors == old(errors) - {f.key}
      ensures TextKept(old(formData), ReviewTextKeys) ==> TextKept(formData, ReviewTextKeys)
      ensures UnaskedBlank(old(formData)) ==> UnaskedBlank(formData)
    {
      var f := schema[currentStep - 1][i];
      UpdateFormData(f.key, Str(f.Choices()[j].value));
    }

    /** The `Toggle` rendered for the `i`-th field of the current step: a press
        passes the negation of the shown value, where a missing value shows as
        off, to `updateFormData`. */
    method PressToggle(i: int)
      requires Valid()
      requires 0 <= i < |Fields()| && Fields()[i].kind == Toggle
      modifies this`formData, this`errors
      ensures Valid()
      ensures var f := old(Fields())[i];
              && formData == old(formData)[f.key := Flag(!Truthy(old(formData), f.key))]
              && errors == old(errors) - {f.key}
      ensures TextKept(old(formData), ReviewTextKeys) ==> TextKept(formData, ReviewTextKeys)
      ensures UnaskedBlank(old(formData)) ==> UnaskedBlank(formData)
    {
      var f := schema[currentStep - 1][i];
      assert f.key !in ReviewTextKeys;
      UpdateFormData(f.key, Flag(!Truthy(formData, f.key)));
    }

    /** `validateStep`: a fresh error map replaces the old one, and the answer
        is whether it is empty. */
    method ValidateStep() returns (ok: bool)
      requires Valid()
      modifies this`errors
      ensures Valid()
      ensures errors == StepErrors(Fields(), currentStep, formData)
      ensures ok <==> StepComplete(Fields(), currentStep, formData)
    {
      var fields := schema[currentStep - 1];
      var newErrors := CollectRequiredErrors(fields, formData);
      if currentStep == 1 && EmailInvalid(formData, email) {
        newErrors := newErrors[email := InvalidEmailMessage];
      }
      errors := newErrors;
      ok := |newErrors| == 0;
      StepErrorsEmptyIff(fields, currentStep, formData);
      assert Fields() == fields;
    }

    /** `handleNext`: stay on an incomplete step, otherwise advance, or on the
        last step hand the form to the review screen. */
    method HandleNext() returns (outcome: StepOutcome)
      requires Valid()
      modifies this`currentStep, this`errors
      ensures Valid()
      ensures errors == StepErrors(old(Fields()), old(currentStep), formData)
      ensures !StepComplete(old(Fields()), old(currentStep), formData) ==>
                outcome == Stay && currentStep == old(currentStep)
      ensures StepComplete(old(Fields()), old(currentStep), formData) && old(currentStep) < TotalSteps ==>
                outcome == Advance && currentStep == old(currentStep) + 1
      ensures StepComplete(old(Fields()), old(currentStep), formData) && old(currentStep) == TotalSteps ==>
                outcome == GoToReview(Personal, formData) && currentStep == old(currentStep)
    {
      var ok := ValidateStep();
      if ok {
        if currentStep < TotalSteps {
          currentStep := currentStep + 1;
          outcome := Advance;
        } else {
          outcome := GoToReview(Personal, formData);
        }
      } else {
        outcome := Stay;
      }
    }

    /** `handleBack`: one step back, or leave the wizard from step 1. */
    method HandleBack() returns (outcome: StepOutcome)
      requires Valid()
      modifies this`currentStep
      ensures Valid()
      ensures old(currentStep) > 1 ==> currentStep == old(currentStep) - 1 && outcome == Retreat
      ensures old(currentStep) == 1 ==> currentStep == 1 && outcome == Exit
    {
      if currentStep > 1 {
        currentStep := currentStep - 1;
        outcome := Retreat;
      } else {
        outcome := Exit;
      }
    }
  }
}
