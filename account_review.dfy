/** The review screen: the text helpers that mask and label values, the two
    section builders over the handed-off form, and the terms-and-submit
    state. A builder that would call a string method on `undefined` (or on a
    boolean) throws while rendering; that is the `None` of its result. */
module AccountReview {
  import opened Types
  import StepValidation
  import PersonalOnboarding

  // ---------------------------------------------------------------------
  // Text helpers
  // ---------------------------------------------------------------------

  /** The masked prefix `formatSSN` always shows. */
  const SsnPrefix: string := "***-**-"

  /** `ssn.slice(-4)`: the last four characters, or all of a shorter string. */
  function Last4(s: string): (r: string)
    ensures |r| == if |s| < 4 then |s| else 4
    ensures r == s[|s| - |r|..]
  {
    if |s| < 4 then s else s[|s| - 4..]
  }

  /** `formatSSN`: the last four characters behind a fixed mask, or the
      whole mask when there are fewer than four. */
  function FormatSsn(s: string): (r: string)
    ensures |r| == 11
    ensures r[..7] == SsnPrefix
    ensures |s| >= 4 ==> r[7..] == s[|s| - 4..]
    ensures |s| < 4 ==> r == SsnPrefix + "****"
  {
    if |s| >= 4 then SsnPrefix + Last4(s) else SsnPrefix + "****"
  }

  /** The ID-number row: four stars, then `slice(-4)` of the number. */
  function MaskIdNumber(s: string): (r: string)
    ensures |r| == 4 + (if |s| < 4 then |s| else 4)
    ensures r[..4] == "****"
    ensures r[4..] == s[|s| - (|r| - 4)..]
  {
    "****" + Last4(s)
  }

  /** The first index of `c` in `s`, or -1. */
  function IndexOf(s: string, c: char): (i: int)
    ensures -1 <= i < |s|
    ensures i < 0 ==> c !in s
    ensures 0 <= i ==> s[i] == c && c !in s[..i]
  {
    if |s| == 0 then -1
    else if s[0] == c then 0
    else
      var j := IndexOf(s[1..], c);
      if j < 0 then
        assert s == [s[0]] + s[1..];
        -1
      else
        assert s[..j + 1] == [s[0]] + s[1..][..j];
        j + 1
  }

  /** `s.replace(c, rep)` with a one-character string pattern: only the first
      occurrence is replaced. */
  function ReplaceFirst(s: string, c: char, rep: string): (r: string)
    ensures c !in s ==> r == s
    ensures c in s ==> |r| == |s| - 1 + |rep|
  {
    var i := IndexOf(s, c);
    if i < 0 then s else s[..i] + rep + s[i + 1..]
  }

  /** Occurrences of `c` in `s`. */
  function Count(s: string, c: char): nat
  {
    if |s| == 0 then 0 else (if s[0] == c then 1 else 0) + Count(s[1..], c)
  }

  lemma {:induction false} CountAppend(a: string, b: string, c: char)
    ensures Count(a + b, c) == Count(a, c) + Count(b, c)
  {
    if |a| == 0 {
      assert a + b == b;
    } else {
      assert (a + b)[1..] == a[1..] + b;
      CountAppend(a[1..], b, c);
    }
  }

  lemma {:induction false} CountAbsent(s: string, c: char)
    requires c !in s
    ensures Count(s, c) == 0
  {
    if |s| > 0 {
      assert s[1..] == s[1..] && forall k :: 0 <= k < |s[1..]| ==> s[1..][k] == s[k + 1];
      CountAbsent(s[1..], c);
    }
  }

  /** Replacing the first `c` by a text without `c` removes exactly one
      occurrence: any later ones stay. */
  lemma SplitAt(s: string, i: int)
    requires 0 <= i < |s|
    ensures s == s[..i] + [s[i]] + s[i + 1..]
  {
  }

  lemma CountAppend3(a: string, b: string, d: string, c: char)
    ensures Count(a + b + d, c) == Count(a, c) + Count(b, c) + Count(d, c)
  {
    CountAppend(a, b, c);
    CountAppend(a + b, d, c);
  }

  lemma ReplaceFirstRemovesOne(s: string, c: char, rep: string)
    requires c !in rep
    ensures Count(ReplaceFirst(s, c, rep), c) == if c in s then Count(s, c) - 1 else Count(s, c)
  {
    var i := IndexOf(s, c);
    if i >= 0 {
      var pre, post := s[..i], s[i + 1..];
      SplitAt(s, i);
      assert Count([c], c) == 1 by { assert [c][1..] == []; }
      CountAppend3(pre, [c], post, c);
      assert ReplaceFirst(s, c, rep) == pre + rep + post;
      CountAbsent(rep, c);
      CountAppend3(pre, rep, post, c);
    }
  }

  /** A character `\w` matches. */
  predicate WordChar(ch: char)
  {
    ('a' <= ch <= 'z') || ('A' <= ch <= 'Z') || ('0' <= ch <= '9') || ch == '_'
  }

  /** Where `/\b\w/` matches: a word character with no word character before it. */
  predicate WordStart(s: string, i: int)
    requires 0 <= i < |s|
  {
    WordChar(s[i]) && (i == 0 || !WordChar(s[i - 1]))
  }

  /** `toUpperCase` on a character `\w` can match. */
  function Upper(ch: char): (r: char)
    ensures WordChar(r) <==> WordChar(ch)
    ensures 'a' <= ch <= 'z' ==> 'A' <= r <= 'Z'
    ensures !('a' <= ch <= 'z') ==> r == ch
  {
    if 'a' <= ch <= 'z' then (ch as int - 32) as char else ch
  }

  /** The scan behind `replace(/\b\w/g, l => l.toUpperCase())`, where
      `afterWord` says whether the character before `s` is a word character. */
  function CapitalizeFrom(s: string, afterWord: bool): (r: string)
    ensures |r| == |s|
    ensures forall i {:trigger r[i]} :: 0 <= i < |s| ==>
              r[i] == if WordChar(s[i]) && (if i == 0 then !afterWord else !WordChar(s[i - 1]))
                      then Upper(s[i]) else s[i]
  {
    if |s| == 0 then []
    else
      var first := if WordChar(s[0]) && !afterWord then Upper(s[0]) else s[0];
      var rest := CapitalizeFrom(s[1..], WordChar(s[0]));
      var r := [first] + rest;
      assert forall i :: 0 <= i < |s| ==>
               r[i] == if WordChar(s[i]) && (if i == 0 then !afterWord else !WordChar(s[i - 1]))
                       then Upper(s[i]) else s[i]
      by {
        forall i | 0 <= i < |s|
          ensures r[i] == if WordChar(s[i]) && (if i == 0 then !afterWord else !WordChar(s[i - 1]))
                          then Upper(s[i]) else s[i]
        {
          if i > 0 {
            assert r[i] == rest[i - 1] && s[1..][i - 1] == s[i];
            if i > 1 {
              assert s[1..][i - 2] == s[i - 1];
            }
          }
        }
      }
      r
  }

  /** `replace(/\b\w/g, l => l.toUpperCase())`: every word-initial character
      is uppercased and nothing else changes. */
  function CapitalizeWords(s: string): (r: string)
    ensures |r| == |s|
    ensures forall i {:trigger r[i]} :: 0 <= i < |s| ==> r[i] == if WordStart(s, i) then Upper(s[i]) else s[i]
  {
    var r := CapitalizeFrom(s, false);
    assert forall i :: 0 <= i < |s| ==> r[i] == if WordStart(s, i) then Upper(s[i]) else s[i] by {
      forall i | 0 <= i < |s| ensures r[i] == if WordStart(s, i) then Upper(s[i]) else s[i] {
        assert r[i] == if WordChar(s[i]) && (if i == 0 then true else !WordChar(s[i - 1]))
                       then Upper(s[i]) else s[i];
      }
    }
    r
  }

  /** Capitalising twice is capitalising once: uppercasing keeps word
      characters word characters and maps letters to capitals. */
  lemma CapitalizeIdempotent(s: string)
    ensures CapitalizeWords(CapitalizeWords(s)) == CapitalizeWords(s)
  {
    var r := CapitalizeWords(s);
    var rr := CapitalizeWords(r);
    forall i | 0 <= i < |s| ensures rr[i] == r[i] {
      assert WordChar(r[i]) <==> WordChar(s[i]);
      if i > 0 {
        assert WordChar(r[i - 1]) <==> WordChar(s[i - 1]);
      }
    }
  }

  /** A select value as the review labels it: the first `_` becomes `sep`,
      then word-initial characters are uppercased. */
  function TypeLabel(value: string, sep: string): (r: string)
    ensures '_' !in value ==> r == CapitalizeWords(value)
    ensures |r| == if '_' in value then |value| - 1 + |sep| else |value|
  {
    CapitalizeWords(ReplaceFirst(value, '_', sep))
  }

  /** Replacing the first `c` of a text whose first `c` follows `a`: the
      text after it, later `c`s included, is kept. */
  lemma ReplaceFirstSplit(a: string, c: char, b: string, rep: string)
    requires c !in a
    ensures ReplaceFirst(a + [c] + b, c, rep) == a + rep + b
  {
    var s := a + [c] + b;
    assert s[..|a|] == a && s[|a|] == c && s[|a| + 1..] == b;
  }

  /** Word-initial letters are capitalised and nothing else. */
  lemma {:induction false} CapitalizeSoleTrader()
    ensures CapitalizeWords("sole trader") == "Sole Trader"
  {
    var t := "sole trader";
    var r := CapitalizeWords(t);
    forall i | 0 <= i < |t| ensures r[i] == "Sole Trader"[i] {
      if i != 0 && i != 5 {
        assert !WordStart(t, i);
      }
    }
  }

  /** The business-structure value `sole_trader` is labelled `Sole Trader`. */
  lemma SoleTraderLabel()
    ensures TypeLabel("sole_trader", " ") == "Sole Trader"
  {
    ReplaceFirstSplit("sole", '_', "trader", " ");
    assert "sole" + " " + "trader" == "sole trader";
    assert "sole" + "_" + "trader" == "sole_trader";
    CapitalizeSoleTrader();
  }

  // ---------------------------------------------------------------------
  // Values as the screen shows them
  // ---------------------------------------------------------------------

  /** A form value placed in a template string: `undefined`, `true` and
      `false` are spelled out. */
  function Interpolated(v: Option<FormValue>): (r: string)
    ensures v.Some? && v.value.Str? ==> r == Shown(v)
    ensures r == "" <==> v == Some(Str(""))
  {
    match v
    case None => "undefined"
    case Some(Str(s)) => s
    case Some(Flag(b)) => if b then "true" else "false"
  }

  /** A form value rendered directly as text: strings show, `undefined` and
      booleans show nothing. */
  function Shown(v: Option<FormValue>): (r: string)
    ensures v.Some? && v.value.Str? ==> r == v.value.text
    ensures !(v.Some? && v.value.Str?) ==> r == ""
  {
    if v.Some? && v.value.Str? then v.value.text else ""
  }

  /** `data[key] || fallback`. */
  function OrDefault(data: FormData, key: Key, fallback: string): (r: string)
    ensures !Truthy(data, key) ==> r == fallback
    ensures Truthy(data, key) && data[key].Str? ==> r == data[key].text
  {
    if Truthy(data, key) then Shown(Lookup(data, key)) else fallback
  }

  /** `data[key] ? 'Enabled' : 'Disabled'`. */
  function EnabledLabel(data: FormData, key: Key): (r: string)
    ensures r == "Enabled" <==> Truthy(data, key)
    ensures r == "Enabled" || r == "Disabled"
  {
    if Truthy(data, key) then "Enabled" else "Disabled"
  }

  /** `formatSSN(data[key])`: `undefined.length` throws; a boolean has no
      length, so it gets the full mask. */
  function SsnShown(v: Option<FormValue>): (r: Option<string>)
    ensures r.None? <==> v.None?
    ensures r.Some? ==> |r.value| == 11
  {
    match v
    case None => None
    case Some(Str(s)) => Some(FormatSsn(s))
    case Some(Flag(_)) => Some(SsnPrefix + "****")
  }

  // ---------------------------------------------------------------------
  // Sections
  // ---------------------------------------------------------------------

  datatype ReviewField = ReviewField(caption: string, value: string)

  datatype ReviewSection = ReviewSection(title: string, fields: seq<ReviewField>)

  /** The number of rows of each section. */
  function Shape(sections: seq<ReviewSection>): (counts: seq<nat>)
    ensures |counts| == |sections|
    ensures forall i :: 0 <= i < |sections| ==> counts[i] == |sections[i].fields|
  {
    if |sections| == 0 then [] else [|sections[0].fields|] + Shape(sections[1..])
  }

  /** `getPersonalReviewSections`. */
  function PersonalReviewSections(data: FormData): (r: Option<seq<ReviewSection>>)
    ensures r.Some? ==> Shape(r.value) == [4, 4, 3, 4]
  {
    var ssnText :- SsnShown(Lookup(data, ssn));
    var idTypeText :- TextAt(data, idType);
    var idNumberText :- TextAt(data, idNumber);
    Some([
      ReviewSection("Personal Information", [
        ReviewField("Full Name", Interpolated(Lookup(data, firstName)) + " " + Interpolated(Lookup(data, lastName))),
        ReviewField("Email", Shown(Lookup(data, email))),
        ReviewField("Phone", Shown(Lookup(data, phone))),
        ReviewField("Date of Birth", Shown(Lookup(data, dateOfBirth)))]),
      ReviewSection("Address", [
        ReviewField("Street Address", Shown(Lookup(data, streetAddress))),
        ReviewField("City", Shown(Lookup(data, city))),
        ReviewField("State", Shown(Lookup(data, state))),
        ReviewField("ZIP Code", Shown(Lookup(data, zipCode)))]),
      ReviewSection("Identity Verification", [
        ReviewField("SSN", ssnText),
        ReviewField("ID Type", TypeLabel(idTypeText, " ")),
        ReviewField("ID Number", MaskIdNumber(idNumberText))]),
      ReviewSection("Account Preferences", [
        ReviewField("Account Nickname", OrDefault(data, accountNickname, "Personal Checking")),
        ReviewField("Initial Deposit", OrDefault(data, initialDeposit, "$0.00")),
        ReviewField("Paperless Statements", EnabledLabel(data, enablePaperlessStatements)),
        ReviewField("Mobile Deposit", EnabledLabel(data, enableMobileDeposit))])
    ])
  }

  /** `getBusinessReviewSections`. */
  function BusinessReviewSections(data: FormData): (r: Option<seq<ReviewSection>>)
    ensures r.Some? ==> Shape(r.value) == [6, 4, 6, 4, 5]
  {
    var businessTypeText :- TextAt(data, businessType);
    var ownerSsnText :- SsnShown(Lookup(data, ownerSSN));
    var industryText :- TextAt(data, industryType);
    var revenueText :- TextAt(data, annualRevenue);
    Some([
      ReviewSection("Business Information", [
        ReviewField("Business Name", Shown(Lookup(data, businessName))),
        ReviewField("Business Type", TypeLabel(businessTypeText, " ")),
        ReviewField("EIN", Shown(Lookup(data, ein))),
        ReviewField("Business Email", Shown(Lookup(data, businessEmail))),
        ReviewField("Business Phone", Shown(Lookup(data, businessPhone))),
        ReviewField("Website", OrDefault(data, website, "Not provided"))]),
      ReviewSection("Business Address", [
        ReviewField("Street Address", Shown(Lookup(data, businessStreetAddress))),
        ReviewField("City", Shown(Lookup(data, businessCity))),
        ReviewField("State", Shown(Lookup(data, businessState))),
        ReviewField("ZIP Code", Shown(Lookup(data, businessZipCode)))]),
      ReviewSection("Owner Information", [
        ReviewField("Full Name", Interpolated(Lookup(data, ownerFirstName)) + " " + Interpolated(Lookup(data, ownerLastName))),
        ReviewField("Email", Shown(Lookup(data, ownerEmail))),
        ReviewField("Phone", Shown(Lookup(data, ownerPhone))),
        ReviewField("Date of Birth", Shown(Lookup(data, ownerDateOfBirth))),
        ReviewField("SSN", ownerSsnText),
        ReviewField("Ownership", Interpolated(Lookup(data, ownershipPercentage)) + "%")]),
      ReviewSection("Business Details", [
        ReviewField("Industry", TypeLabel(industryText, " ")),
        ReviewField("Year Established", Shown(Lookup(data, yearEstablished))),
        ReviewField("Employees", Shown(Lookup(data, numberOfEmployees))),
        ReviewField("Annual Revenue", TypeLabel(revenueText, " - $"))]),
      ReviewSection("Account Preferences", [
        ReviewField("Account Nickname", OrDefault(data, accountNickname, "Business Checking")),
        ReviewField("Initial Deposit", OrDefault(data, initialDeposit, "$0.00")),
        ReviewField("Paperless Statements", EnabledLabel(data, enablePaperlessStatements)),
        ReviewField("Wire Transfers", EnabledLabel(data, enableWireTransfers)),
        ReviewField("ACH Payments", EnabledLabel(data, enableACHPayments))])
    ])
  }

  /** The personal review renders exactly when the SSN is present and the ID
      type and number are text. */
  lemma PersonalReviewDefined(data: FormData)
    ensures PersonalReviewSections(data).Some?
            <==> ssn in data && TextAt(data, idType).Some? && TextAt(data, idNumber).Some?
  {
  }

  /** A form in which the three keys the review reads as text hold text, as
      the personal wizard's form always does, renders. */
  lemma PersonalReviewOfWizardForm(data: FormData)
    requires StepValidation.TextKept(data, PersonalOnboarding.ReviewTextKeys)
    ensures PersonalReviewSections(data).Some?
  {
    assert ssn in PersonalOnboarding.ReviewTextKeys;
    assert idType in PersonalOnboarding.ReviewTextKeys;
    assert idNumber in PersonalOnboarding.ReviewTextKeys;
  }

  /** The personal wizard never writes `city`, `zipCode` or `ssn`, so on its
      form the City and ZIP Code rows are empty and the SSN row is the full
      mask. */
  lemma PersonalReviewOfUnaskedKeys(data: FormData)
    requires PersonalOnboarding.UnaskedBlank(data)
    requires PersonalReviewSections(data).Some?
    ensures var sections := PersonalReviewSections(data).value;
            && |sections| == 4 && |sections[1].fields| == 4 && |sections[2].fields| == 3
            && sections[1].fields[1] == ReviewField("City", "")
            && sections[1].fields[3] == ReviewField("ZIP Code", "")
            && sections[2].fields[0] == ReviewField("SSN", SsnPrefix + "****")
  {
    assert city in PersonalOnboarding.UnaskedKeys;
    assert zipCode in PersonalOnboarding.UnaskedKeys;
    assert ssn in PersonalOnboarding.UnaskedKeys;
  }

  /** The business review renders exactly when the business type, industry
      and revenue are text and an owner SSN is present. */
  lemma BusinessReviewDefined(data: FormData)
    ensures BusinessReviewSections(data).Some?
            <==> && TextAt(data, businessType).Some? && ownerSSN in data
                 && TextAt(data, industryType).Some? && TextAt(data, annualRevenue).Some?
  {
  }

  /** The business wizard never writes `ownerSSN`, so the business review of
      its form throws. */
  lemma BusinessReviewWithoutOwnerSsn(data: FormData)
    requires ownerSSN !in data
    ensures BusinessReviewSections(data) == None
  {
  }

  /** `reviewSections`: the builder the account type picks, with four
      sections for a personal account and five for a business one. */
  function ReviewSections(accountType: AccountType, data: FormData): (r: Option<seq<ReviewSection>>)
    ensures r.Some? && accountType == Personal ==> Shape(r.value) == [4, 4, 3, 4]
    ensures r.Some? && accountType == Business ==> Shape(r.value) == [6, 4, 6, 4, 5]
  {
    if accountType == Personal then PersonalReviewSections(data) else BusinessReviewSections(data)
  }

  // ---------------------------------------------------------------------
  // Terms and submission
  // ---------------------------------------------------------------------

  /** Where the screen navigates: back, or on to the success screen. */
  datatype ReviewOutcome = GoBack | ToSuccess(accountType: AccountType)

  /** The submit button's title. */
  function SubmitTitle(isSubmitting: bool): (title: string)
    ensures title == "Submitting..." <==> isSubmitting
    ensures !isSubmitting ==> title == "Submit Application"
  {
    if isSubmitting then "Submitting..." else "Submit Application"
  }

  /** The screen's state: the route parameters and two flags. */
  class ReviewScreen {
    const accountType: AccountType
    const accountData: FormData
    var agreedToTerms: bool
    var isSubmitting: bool

    constructor (accountType: AccountType, accountData: FormData)
      ensures this.accountType == accountType && this.accountData == accountData
      ensures !agreedToTerms && !isSubmitting
    {
      this.accountType := accountType;
      this.accountData := accountData;
      agreedToTerms := false;
      isSubmitting := false;
    }

    /** The sections the screen renders. */
    function Sections(): Option<seq<ReviewSection>>
    {
      ReviewSections(accountType, accountData)
    }

    /** A press on the terms row flips the agreement. */
    method PressTerms()
      modifies this`agreedToTerms
      ensures agreedToTerms == !old(agreedToTerms)
    {
      agreedToTerms := !agreedToTerms;
    }

    /** `handleSubmit` up to its timer: nothing without agreement, otherwise
        the screen starts submitting. */
    method BeginSubmit() returns (started: bool)
      modifies this`isSubmitting
      ensures started <==> agreedToTerms
      ensures !started ==> isSubmitting == old(isSubmitting)
      ensures started ==> isSubmitting
    {
      if !agreedToTerms {
        return false;
      }
      isSubmitting := true;
      started := true;
    }

    /** `handleSubmit` after its timer: submitting ends and the screen moves
        on to the success screen for the same account type. */
    method FinishSubmit() returns (outcome: ReviewOutcome)
      modifies this`isSubmitting
      ensures !isSubmitting
      ensures outcome == ToSuccess(accountType)
    {
      isSubmitting := false;
      outcome := ToSuccess(accountType);
    }

    /** `handleBack`. */
    method HandleBack() returns (outcome: ReviewOutcome)
      ensures outcome == GoBack
    {
      outcome := GoBack;
    }
  }
}
