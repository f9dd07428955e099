/** The required-field pass that both onboarding screens run in `validateStep`,
    the e-mail shape check they share, and the outcome of a wizard button. */
module StepValidation {
  import opened Types
  import opened OnboardingSchema

  /** The message recorded for a missing required field. */
  function RequiredMessage(caption: string): (m: string)
    ensures |m| > |caption|
  {
    caption + " is required"
  }

  const InvalidEmailMessage: string := "Please enter a valid email address"

  /** What a Continue or Back press leads to. `GoToReview` hands the form to
      the review screen; `Exit` leaves the wizard. */
  datatype StepOutcome = Stay | Advance | Retreat | GoToReview(accountType: AccountType, accountData: FormData) | Exit

  /** A value that fails the e-mail check: a non-empty string without `@`. */
  predicate EmailInvalid(data: FormData, key: Key)
    ensures EmailInvalid(data, key) ==> Truthy(data, key)
    ensures Truthy(data, key) && data[key].Str? ==> (EmailInvalid(data, key) <==> '@' !in data[key].text)
  {
    key in data && data[key].Str? && data[key].text != "" && '@' !in data[key].text
  }

  /** Every key of `keys` holds text in `data`. */
  predicate TextKept(data: FormData, keys: set<Key>)
  {
    forall k :: k in keys ==> k in data && data[k].Str?
  }

  /** Clearing a key that holds no error leaves the error map as it was. */
  lemma ClearAbsent(errors: map<Key, string>, key: Key)
    requires key !in errors
    ensures errors - {key} == errors
  {
  }

  /** The errors the `forEach` over `fields` records, field after field: a
      required field whose value is falsy gets "{label} is required". */
  function RequiredErrors(fields: seq<Field>, data: FormData): (errors: map<Key, string>)
    ensures errors.Keys <= KeysOf(fields)
    ensures forall k :: k in errors ==> errors[k] != ""
  {
    if fields == [] then map[]
    else
      var f := fields[|fields| - 1];
      var before := RequiredErrors(fields[..|fields| - 1], data);
      assert KeysOf(fields[..|fields| - 1]) <= KeysOf(fields) by {
        forall k | k in KeysOf(fields[..|fields| - 1]) ensures k in KeysOf(fields) {
          var g :| g in fields[..|fields| - 1] && g.key == k;
          assert g in fields;
        }
      }
      if f.required && !Truthy(data, f.key) then before[f.key := RequiredMessage(f.Caption())] else before
  }

  /** Every required field of `fields` holds a truthy value. */
  predicate RequiredFilled(fields: seq<Field>, data: FormData)
  {
    forall i :: 0 <= i < |fields| && fields[i].required ==> Truthy(data, fields[i].key)
  }

  /** The `forEach` loop of `validateStep`, filling a fresh error map. */
  method CollectRequiredErrors(fields: seq<Field>, data: FormData) returns (errors: map<Key, string>)
    ensures errors == RequiredErrors(fields, data)
  {
    errors := map[];
    var i := 0;
    while i < |fields|
      invariant 0 <= i <= |fields|
      invariant errors == RequiredErrors(fields[..i], data)
    {
      var f := fields[i];
      if f.required && !Truthy(data, f.key) {
        errors := errors[f.key := RequiredMessage(f.Caption())];
      }
      assert fields[..i + 1][..i] == fields[..i];
      i := i + 1;
    }
    assert fields[..|fields|] == fields;
  }

  /** The pass records no error exactly when every required field is filled. */
  lemma {:induction false} RequiredErrorsEmptyIff(fields: seq<Field>, data: FormData)
    ensures RequiredErrors(fields, data) == map[] <==> RequiredFilled(fields, data)
  {
    if fields != [] {
      var init := fields[..|fields| - 1];
      var f := fields[|fields| - 1];
      RequiredErrorsEmptyIff(init, data);
      if f.required && !Truthy(data, f.key) {
        assert f.key in RequiredErrors(fields, data);
      } else {
        assert RequiredFilled(fields, data) <==> RequiredFilled(init, data) by {
          if RequiredFilled(init, data) {
            forall i | 0 <= i < |fields| && fields[i].required ensures Truthy(data, fields[i].key) {
              if i < |init| { assert fields[i] == init[i]; }
            }
          }
          if RequiredFilled(fields, data) {
            forall i | 0 <= i < |init| && init[i].required ensures Truthy(data, init[i].key) {
              assert init[i] == fields[i];
            }
          }
        }
      }
    }
  }

  /** With distinct keys, each field's key carries an error exactly when the
      field is required and its value falsy, and the error says
      "{label} is required". */
  lemma {:induction false} RequiredErrorsExact(fields: seq<Field>, data: FormData, i: int)
    requires KeysDistinct(fields)
    requires 0 <= i < |fields|
    ensures fields[i].key in RequiredErrors(fields, data)
            <==> fields[i].required && !Truthy(data, fields[i].key)
    ensures fields[i].key in RequiredErrors(fields, data)
            ==> RequiredErrors(fields, data)[fields[i].key] == RequiredMessage(fields[i].Caption())
  {
    var init := fields[..|fields| - 1];
    var last := fields[|fields| - 1];
    if i < |fields| - 1 {
      assert init[i] == fields[i];
      assert KeysDistinct(init);
      RequiredErrorsExact(init, data, i);
      assert last.key != fields[i].key;
    }
  }

  /** The pass reads only the values of the fields it checks. */
  lemma {:induction false} RequiredErrorsLocal(fields: seq<Field>, data: FormData, data': FormData)
    requires AgreeOn(data, data', KeysOf(fields))
    ensures RequiredErrors(fields, data) == RequiredErrors(fields, data')
  {
    if fields != [] {
      var init := fields[..|fields| - 1];
      var last := fields[|fields| - 1];
      assert last in fields;
      assert Lookup(data, last.key) == Lookup(data', last.key);
      assert Truthy(data, last.key) == Truthy(data', last.key);
      assert AgreeOn(data, data', KeysOf(init)) by {
        forall k | k in KeysOf(init) ensures Lookup(data, k) == Lookup(data', k) {
          var g :| g in init && g.key == k;
          assert g in fields;
        }
      }
      RequiredErrorsLocal(init, data, data');
    }
  }
}
