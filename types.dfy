/** Shared value types of the onboarding flow: the two account kinds, the
    values a wizard form holds, and JavaScript truthiness over them. */
module Types {

  datatype Option<+T> = None | Some(value: T) {
    predicate IsFailure() { None? }

    function PropagateFailure<U>(): Option<U>
      requires None?
    {
      None
    }

    function Extract(): T
      requires Some?
    {
      value
    }
  }

  /** `AccountType` of the source: 'personal' | 'business'. */
  datatype AccountType = Personal | Business

  /** A value stored in a wizard's `formData`: text from an input or a select,
      or the flag of a toggle. */
  datatype FormValue = Str(text: string) | Flag(on: bool)

  /** The property names the screens use on account data: those of the two
      initial forms, those of the field schemas, and those the review screen
      reads (`city`, `ein`, `ownerSSN`, `annualRevenue`, ...). The code uses
      them as string keys of one object; only their identity matters here. */
  datatype Key =
    // personal form
    | firstName | lastName | email | phone | dateOfBirth | streetAddress | city | state
    | zipCode | country | ssn | idType | idNumber | accountNickname | initialDeposit
    | enablePaperlessStatements | enableMobileDeposit | suburb | postcode | tfn | idState
    | enablePayID
    // business form
    | businessName | businessType | abn | acn | businessPhone | businessEmail | website
    | businessStreetAddress | businessSuburb | businessState | businessPostcode
    | businessCountry | ownerFirstName | ownerLastName | ownerEmail | ownerPhone
    | ownerDateOfBirth | ownerTFN | ownershipPercentage | industryType | yearEstablished
    | numberOfEmployees | annualTurnover | enableBPAY
    // read by the business review only
    | ein | businessCity | businessZipCode | ownerSSN | annualRevenue | enableWireTransfers
    | enableACHPayments

  /** The `formData` object. A key that is absent reads as `undefined`. */
  type FormData = map<Key, FormValue>

  function Lookup(data: FormData, key: Key): Option<FormValue>
  {
    if key in data then Some(data[key]) else None
  }

  /** JavaScript truthiness of `data[key]`: `undefined`, `''` and `false`
      are falsy, everything else is truthy. */
  predicate Truthy(data: FormData, key: Key)
  {
    key in data && match data[key]
                   case Str(s) => s != ""
                   case Flag(b) => b
  }

  /** `data[key]` when it is a string, for the places that call a string
      method on it. */
  function TextAt(data: FormData, key: Key): (r: Option<string>)
    ensures r.Some? <==> key in data && data[key].Str?
    ensures r.Some? ==> data[key] == Str(r.value)
  {
    if key in data && data[key].Str? then Some(data[key].text) else None
  }

  /** `data` and `data'` hold the same thing (or nothing) under every key of `keys`. */
  ghost predicate AgreeOn(data: FormData, data': FormData, keys: set<Key>)
  {
    forall k :: k in keys ==> Lookup(data, k) == Lookup(data', k)
  }
}
