/** The static step lists and per-step field schemas of the two onboarding
    flows, and the list of Australian states and territories. */
module OnboardingSchema {
  import opened Types

  /** The `type` of a form field. `Tfn` and `Abn` are used by the schemas
      although no masking exists for them. */
  datatype FieldType =
    | Text | Email | Phone | Date | Ssn | Currency | Password | Select | Toggle | Tfn | Abn

  datatype SelectOption = SelectOption(caption: string, value: string)

  /** A `FormField`: the key it writes, its input type and whether it is
      required. Its label and its options depend on the key alone in both
      flows, so they are the tables `Label` and `Options`. */
  datatype Field = Field(key: Key, kind: FieldType, required: bool)
  {
    function Caption(): string
    {
      Label(key)
    }

    function Choices(): seq<SelectOption>
    {
      Options(key)
    }
  }

  /** An `OnboardingStep`. */
  datatype Step = Step(id: int, title: string, description: string)

  /** The `label` of the field writing `k`, the same in both flows; the keys
      no field writes have none. */
  function Label(k: Key): string
  {
    match k
    case firstName => "First Name"
    case lastName => "Last Name"
    case email => "Email Address"
    case phone => "Mobile Number"
    case dateOfBirth => "Date of Birth"
    case streetAddress => "Street Address"
    case suburb => "Suburb"
    case state => "State/Territory"
    case postcode => "Postcode"
    case country => "Country"
    case tfn => "Tax File Number (TFN)"
    case idType => "ID Type"
    case idState => "State of Issue"
    case idNumber => "ID Number"
    case accountNickname => "Account Nickname"
    case initialDeposit => "Initial Deposit Amount"
    case enablePaperlessStatements => "Paperless Statements"
    case enablePayID => "PayID (Instant Payments)"
    case businessName => "Business Name"
    case businessType => "Business Structure"
    case abn => "ABN (Australian Business Number)"
    case acn => "ACN (if applicable)"
    case businessPhone => "Business Phone"
    case businessEmail => "Business Email"
    case website => "Website (Optional)"
    case businessStreetAddress => "Street Address"
    case businessSuburb => "Suburb"
    case businessState => "State/Territory"
    case businessPostcode => "Postcode"
    case businessCountry => "Country"
    case ownerFirstName => "First Name"
    case ownerLastName => "Last Name"
    case ownerEmail => "Email Address"
    case ownerPhone => "Mobile Number"
    case ownerDateOfBirth => "Date of Birth"
    case ownerTFN => "Tax File Number (TFN)"
    case ownershipPercentage => "Ownership Percentage"
    case industryType => "Industry"
    case yearEstablished => "Year Established"
    case numberOfEmployees => "Number of Employees"
    case annualTurnover => "Annual Turnover"
    case enableBPAY => "BPAY"
    case _ => ""
  }

  function Countries(): (opts: seq<SelectOption>)
    ensures |opts| == 1
  {
    [SelectOption("Australia", "AU")]
  }

  function IdTypes(): (opts: seq<SelectOption>)
    ensures |opts| == 3
  {
    [ SelectOption("Driver's Licence", "drivers_licence"),
      SelectOption("Australian Passport", "passport"),
      SelectOption("Proof of Age Card", "proof_of_age_card") ]
  }

  function BusinessStructures(): (opts: seq<SelectOption>)
    ensures |opts| == 5
  {
    [ SelectOption("Sole Trader", "sole_trader"),
      SelectOption("Partnership", "partnership"),
      SelectOption("Company (Pty Ltd)", "company"),
      SelectOption("Trust", "trust"),
      SelectOption("Non-Profit", "nonprofit") ]
  }

  function Industries(): (opts: seq<SelectOption>)
    ensures |opts| == 10
  {
    [ SelectOption("Retail Trade", "retail"),
      SelectOption("Professional Services", "professional_services"),
      SelectOption("Construction", "construction"),
      SelectOption("Healthcare", "healthcare"),
      SelectOption("Hospitality & Tourism", "hospitality"),
      SelectOption("Manufacturing", "manufacturing"),
      SelectOption("Agriculture", "agriculture"),
      SelectOption("Information Technology", "technology"),
      SelectOption("Transport & Logistics", "transport"),
      SelectOption("Other", "other") ]
  }

  function EmployeeRanges(): (opts: seq<SelectOption>)
    ensures |opts| == 4
  {
    [ SelectOption("1-4 (Micro)", "1-4"),
      SelectOption("5-19 (Small)", "5-19"),
      SelectOption("20-199 (Medium)", "20-199"),
      SelectOption("200+ (Large)", "200+") ]
  }

  function TurnoverRanges(): (opts: seq<SelectOption>)
    ensures |opts| == 5
  {
    [ SelectOption("Under $75K", "under_75k"),
      SelectOption("$75K - $500K", "75k_500k"),
      SelectOption("$500K - $2M", "500k_2m"),
      SelectOption("$2M - $10M", "2m_10m"),
      SelectOption("Over $10M", "over_10m") ]
  }

  /** The keys written by a `select` field in either flow. */
  predicate SelectKey(k: Key)
  {
    match k
    case state | country | idType | idState | businessType | businessState | businessCountry
       | industryType | numberOfEmployees | annualTurnover => true
    case _ => false
  }

  /** The `options` of the select writing `k`, the same in both flows; every
      other key has none. */
  function Options(k: Key): seq<SelectOption>
  {
    match k
    case state => AustralianStates()
    case idState => AustralianStates()
    case businessState => AustralianStates()
    case country => Countries()
    case businessCountry => Countries()
    case idType => IdTypes()
    case businessType => BusinessStructures()
    case industryType => Industries()
    case numberOfEmployees => EmployeeRanges()
    case annualTurnover => TurnoverRanges()
    case _ => []
  }

  /** Keys of the only fields in either flow that are not required. */
  predicate OptionalKey(k: Key)
  {
    match k
    case accountNickname | initialDeposit | enablePaperlessStatements | enablePayID | enableBPAY
       | acn | website => true
    case _ => false
  }

  predicate KeysDistinct(fields: seq<Field>)
  {
    forall i, j :: 0 <= i < j < |fields| ==> fields[i].key != fields[j].key
  }

  function KeysOf(fields: seq<Field>): set<Key>
  {
    set f | f in fields :: f.key
  }

  /** What every step schema satisfies: unique keys and the per-field rules. */
  predicate WellFormedStep(fields: seq<Field>)
  {
    KeysDistinct(fields) && FieldRules(fields)
  }

  /** Toggles are never required, selects write a key that has options, and
      a field whose key is not an `OptionalKey` is required. */
  predicate FieldOk(f: Field)
  {
    && (f.kind == Toggle ==> !f.required)
    && (f.kind == Select ==> SelectKey(f.key))
    && (!f.required ==> OptionalKey(f.key))
  }

  /** The converse of the last rule of `FieldOk`: a field whose key is an
      `OptionalKey` is not required. */
  predicate OptionalKeysOptional(fields: seq<Field>)
  {
    forall i :: 0 <= i < |fields| && OptionalKey(fields[i].key) ==> !fields[i].required
  }

  /** The per-field half of `WellFormedStep`. */
  predicate FieldRules(fields: seq<Field>)
  {
    forall i :: 0 <= i < |fields| ==> FieldOk(fields[i])
  }

  /** Every select key has options to choose from. */
  lemma SelectKeyHasOptions(k: Key)
    requires SelectKey(k)
    ensures |Options(k)| > 0
  {
    match k
    case state | idState | businessState => assert |AustralianStates()| == 8;
    case country | businessCountry => assert |Countries()| == 1;
    case idType => assert |IdTypes()| == 3;
    case businessType => assert |BusinessStructures()| == 5;
    case industryType => assert |Industries()| == 10;
    case numberOfEmployees => assert |EmployeeRanges()| == 4;
    case annualTurnover => assert |TurnoverRanges()| == 5;
  }

  /** In a schema that keeps the rules, every select offers a choice. */
  lemma SelectsOfferChoices(fields: seq<Field>, i: int)
    requires FieldRules(fields)
    requires 0 <= i < |fields| && fields[i].kind == Select
    ensures |fields[i].Choices()| > 0
  {
    assert FieldOk(fields[i]);
    SelectKeyHasOptions(fields[i].key);
  }

  predicate NumberedInOrder(steps: seq<Step>)
  {
    forall i :: 0 <= i < |steps| ==> steps[i].id == i + 1
  }

  function AustralianStates(): (states: seq<SelectOption>)
    ensures |states| == 8
    ensures forall i, j :: 0 <= i < j < |states| ==> states[i].value != states[j].value
  {
    [ SelectOption("New South Wales", "NSW"),
      SelectOption("Victoria", "VIC"),
      SelectOption("Queensland", "QLD"),
      SelectOption("Western Australia", "WA"),
      SelectOption("South Australia", "SA"),
      SelectOption("Tasmania", "TAS"),
      SelectOption("Australian Capital Territory", "ACT"),
      SelectOption("Northern Territory", "NT") ]
  }

  function PersonalOnboardingSteps(): (steps: seq<Step>)
    ensures |steps| == 4 && NumberedInOrder(steps)
  {
    [ Step(1, "Personal Information", "Tell us about yourself"),
      Step(2, "Address", "Where do you live?"),
      Step(3, "Identity Verification", "Verify your identity"),
      Step(4, "Account Setup", "Set up your account preferences") ]
  }

  function BusinessOnboardingSteps(): (steps: seq<Step>)
    ensures |steps| == 5 && NumberedInOrder(steps)
  {
    [ Step(1, "Business Information", "Tell us about your business"),
      Step(2, "Business Address", "Where is your business located?"),
      Step(3, "Owner Information", "Primary owner details"),
      Step(4, "Business Details", "Additional business information"),
      Step(5, "Account Setup", "Set up your business account") ]
  }

  function PersonalStep1Fields(): (fields: seq<Field>)
    ensures KeysDistinct(fields)
    ensures FieldRules(fields)
  {
    [ Field(firstName, Text, true),
      Field(lastName, Text, true),
      Field(email, Email, true),
      Field(phone, Phone, true),
      Field(dateOfBirth, Date, true) ]
  }

  function PersonalStep2Fields(): (fields: seq<Field>)
    ensures KeysDistinct(fields)
    ensures FieldRules(fields)
  {
    [ Field(streetAddress, Text, true),
      Field(suburb, Text, true),
      Field(state, Select, true),
      Field(postcode, Text, true),
      Field(country, Select, true) ]
  }

  function PersonalStep3Fields(): (fields: seq<Field>)
    ensures KeysDistinct(fields)
    ensures FieldRules(fields)
  {
    [ Field(tfn, Tfn, true),
      Field(idType, Select, true),
      Field(idState, Select, true),
      Field(idNumber, Text, true) ]
  }

  function PersonalStep4Fields(): (fields: seq<Field>)
    ensures KeysDistinct(fields)
    ensures FieldRules(fields)
  {
    [ Field(accountNickname, Text, false),
      Field(initialDeposit, Currency, false),
      Field(enablePaperlessStatements, Toggle, false),
      Field(enablePayID, Toggle, false) ]
  }

  function BusinessStep1Fields(): (fields: seq<Field>)
    ensures KeysDistinct(fields)
    ensures FieldRules(fields)
  {
    [ Field(businessName, Text, true),
      Field(businessType, Select, true),
      Field(abn, Abn, true),
      Field(acn, Text, false),
      Field(businessPhone, Phone, true),
      Field(businessEmail, Email, true),
      Field(website, Text, false) ]
  }

  function BusinessStep2Fields(): (fields: seq<Field>)
    ensures KeysDistinct(fields)
    ensures FieldRules(fields)
  {
    [ Field(businessStreetAddress, Text, true),
      Field(businessSuburb, Text, true),
      Field(businessState, Select, true),
      Field(businessPostcode, Text, true),
      Field(businessCountry, Select, true) ]
  }

  function BusinessStep3Fields(): (fields: seq<Field>)
    ensures KeysDistinct(fields)
    ensures FieldRules(fields)
  {
    [ Field(ownerFirstName, Text, true),
      Field(ownerLastName, Text, true),
      Field(ownerEmail, Email, true),
      Field(ownerPhone, Phone, true),
      Field(ownerDateOfBirth, Date, true),
      Field(ownerTFN, Tfn, true),
      Field(ownershipPercentage, Text, true) ]
  }

  function BusinessStep4Fields(): (fields: seq<Field>)
    ensures KeysDistinct(fields)
    ensures FieldRules(fields)
  {
    [ Field(industryType, Select, true),
      Field(yearEstablished, Text, true),
      Field(numberOfEmployees, Select, true),
      Field(annualTurnover, Select, true) ]
  }

  function BusinessStep5Fields(): (fields: seq<Field>)
    ensures KeysDistinct(fields)
    ensures FieldRules(fields)
  {
    [ Field(accountNickname, Text, false),
      Field(initialDeposit, Currency, false),
      Field(enablePaperlessStatements, Toggle, false),
      Field(enableBPAY, Toggle, false),
      Field(enablePayID, Toggle, false) ]
  }

  /** Across the nine step schemas, the fields that are not required are
      exactly those whose key is an `OptionalKey`. */
  lemma PersonalOptionalExactly()
    ensures OptionalKeysOptional(PersonalStep1Fields())
    ensures OptionalKeysOptional(PersonalStep2Fields())
    ensures OptionalKeysOptional(PersonalStep3Fields())
    ensures OptionalKeysOptional(PersonalStep4Fields())
  {
  }

  lemma BusinessOptionalExactly()
    ensures OptionalKeysOptional(BusinessStep1Fields())
    ensures OptionalKeysOptional(BusinessStep2Fields())
    ensures OptionalKeysOptional(BusinessStep3Fields())
    ensures OptionalKeysOptional(BusinessStep4Fields())
    ensures OptionalKeysOptional(BusinessStep5Fields())
  {
  }
}
