/** The drop-down used for select fields: the option matching the current
    value, the text the closed control shows, and the open flag of its
    option list. */
module SelectControl {
  import opened Types
  import opened OnboardingSchema

  /** The placeholder when none is passed. */
  const DefaultPlaceholder: string := "Select an option"

  /** The index of the first option whose value is `value`, or -1. */
  function FirstMatch(options: seq<SelectOption>, value: string): (i: int)
    ensures -1 <= i < |options|
    ensures 0 <= i ==> options[i].value == value
    ensures forall j :: 0 <= j < |options| && (i < 0 || j < i) ==> options[j].value != value
  {
    if options == [] then -1
    else if options[0].value == value then 0
    else
      var j := FirstMatch(options[1..], value);
      if j < 0 then -1 else j + 1
  }

  /** `options.find(opt => opt.value === value)`: the first option with the
      value, if any. */
  function FindOption(options: seq<SelectOption>, value: string): (r: Option<SelectOption>)
    ensures r.None? <==> forall o :: o in options ==> o.value != value
    ensures r.Some? ==> r.value in options && r.value.value == value
    ensures r.Some? ==> exists i :: 0 <= i < |options| && r.value == options[i]
                          && forall j :: 0 <= j < i ==> options[j].value != value
  {
    var i := FirstMatch(options, value);
    if i < 0 then None else Some(options[i])
  }

  /** Option values are the list's keys, so distinct. */
  predicate ValuesDistinct(options: seq<SelectOption>)
  {
    forall i, j :: 0 <= i < j < |options| ==> options[i].value != options[j].value
  }

  /** With distinct values, the option found for `options[k].value` is `options[k]`. */
  lemma FindOptionOfValue(options: seq<SelectOption>, k: int)
    requires ValuesDistinct(options)
    requires 0 <= k < |options|
    ensures FindOption(options, options[k].value) == Some(options[k])
  {
    var i := FirstMatch(options, options[k].value);
    assert i == k;
  }

  /** `placeholder = 'Select an option'`: the default applies when no
      placeholder is passed. */
  function PlaceholderOrDefault(placeholder: Option<string>): (p: string)
    ensures placeholder.None? ==> p == DefaultPlaceholder
    ensures placeholder.Some? ==> p == placeholder.value
  {
    if placeholder.Some? then placeholder.value else DefaultPlaceholder
  }

  /** The text of the closed control: the label of the first option with
      the current value, or the placeholder when no option has it. */
  function DisplayText(options: seq<SelectOption>, value: string, placeholder: Option<string>): (t: string)
    ensures (forall o :: o in options ==> o.value != value) ==> t == PlaceholderOrDefault(placeholder)
    ensures (exists o :: o in options && o.value == value) ==>
              exists o :: o in options && o.value == value && t == o.caption
    ensures FindOption(options, value).Some? ==> t == FindOption(options, value).value.caption
  {
    var found := FindOption(options, value);
    if found.Some? then found.value.caption else PlaceholderOrDefault(placeholder)
  }

  /** The checkmark on an option row: shown when the row's value is the current value. */
  predicate Marked(option: SelectOption, value: string)
  {
    option.value == value
  }

  /** With distinct values, at most one row carries the checkmark, and it is
      the row of the option the closed control names. */
  lemma MarkedIsFound(options: seq<SelectOption>, value: string, k: int)
    requires ValuesDistinct(options)
    requires 0 <= k < |options| && Marked(options[k], value)
    ensures FindOption(options, value) == Some(options[k])
    ensures forall j :: 0 <= j < |options| && Marked(options[j], value) ==> j == k
  {
    FindOptionOfValue(options, k);
  }

  /** No option of `options` has the value `value`: the select shows its
      placeholder. */
  lemma UnlistedShowsPlaceholder(options: seq<SelectOption>, value: string, placeholder: Option<string>)
    requires forall i :: 0 <= i < |options| ==> options[i].value != value
    ensures DisplayText(options, value, placeholder) == PlaceholderOrDefault(placeholder)
  {
  }

  /** The personal form starts with `country` at `US` and `idType` at
      `drivers_license`, neither of them an option value (the options are
      `AU` and `drivers_licence`): both selects open on their placeholder
      although the values already pass the required check. */
  lemma PersonalInitialSelectsUnlisted(placeholder: Option<string>)
    ensures DisplayText(Options(country), "US", placeholder) == PlaceholderOrDefault(placeholder)
    ensures DisplayText(Options(idType), "drivers_license", placeholder) == PlaceholderOrDefault(placeholder)
  {
    UnlistedShowsPlaceholder(Options(country), "US", placeholder);
    UnlistedShowsPlaceholder(Options(idType), "drivers_license", placeholder);
  }

  /** The control's state: whether the option list is open. */
  class Select {
    const disabled: bool
    var isOpen: bool

    constructor (disabled: bool)
      ensures this.disabled == disabled && !isOpen
    {
      this.disabled := disabled;
      isOpen := false;
    }

    /** A press on the control opens the list unless it is disabled. */
    method Press()
      modifies this`isOpen
      ensures disabled ==> isOpen == old(isOpen)
      ensures !disabled ==> isOpen
    {
      if !disabled {
        isOpen := true;
      }
    }

    /** `handleSelect`: report the option's value, then close. */
    method HandleSelect(option: SelectOption) returns (reported: string)
      modifies this`isOpen
      ensures reported == option.value
      ensures !isOpen
    {
      reported := option.value;
      isOpen := false;
    }

    /** The modal's request-close, a tap on the overlay, or the close button:
        each closes the list. */
    method Close()
      modifies this`isOpen
      ensures !isOpen
    {
      isOpen := false;
    }
  }
}
