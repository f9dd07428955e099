/** The account-type chooser: two cards, at most one of them selected, and a
    Continue button that opens the wizard of the selected type. */
module AccountTypeSelection {
  import opened Types

  /** The screen Continue navigates to. */
  datatype Destination = ToPersonalOnboarding | ToBusinessOnboarding

  /** The wizard for each account type. */
  function RouteFor(accountType: AccountType): (d: Destination)
    ensures d == ToPersonalOnboarding <==> accountType == Personal
    ensures d == ToBusinessOnboarding <==> accountType == Business
  {
    match accountType
    case Personal => ToPersonalOnboarding
    case Business => ToBusinessOnboarding
  }

  /** The `selected` flag of the card for `card` under the selection `selected`. */
  predicate CardSelected(selected: Option<AccountType>, card: AccountType)
  {
    selected == Some(card)
  }

  /** The two cards are never selected together, and Continue is enabled
      exactly when some card is selected. */
  lemma AtMostOneCardSelected(selected: Option<AccountType>)
    ensures !(CardSelected(selected, Personal) && CardSelected(selected, Business))
    ensures selected.Some? <==> CardSelected(selected, Personal) || CardSelected(selected, Business)
  {
    if selected.Some? {
      match selected.value
      case Personal =>
      case Business =>
    }
  }

  /** The screen's state: `selectedType`, `null` until a card is pressed. */
  class SelectionScreen {
    var selectedType: Option<AccountType>

    constructor ()
      ensures selectedType == None
      ensures !ContinueEnabled()
    {
      selectedType := None;
    }

    /** `disabled={!selectedType}` on the Continue button, negated. */
    predicate ContinueEnabled()
      reads this
    {
      selectedType.Some?
    }

    /** A press on a card selects it, whatever was selected before. */
    method PressCard(card: AccountType)
      modifies this`selectedType
      ensures selectedType == Some(card)
      ensures CardSelected(selectedType, card) && ContinueEnabled()
    {
      selectedType := Some(card);
    }

    /** `handleContinue`: no navigation without a selection, otherwise the
        wizard of the selected type. */
    method HandleContinue() returns (d: Option<Destination>)
      ensures d.None? <==> selectedType.None?
      ensures d == Some(ToPersonalOnboarding) <==> CardSelected(selectedType, Personal)
      ensures d == Some(ToBusinessOnboarding) <==> CardSelected(selectedType, Business)
    {
      match selectedType
      case Some(Personal) => d := Some(RouteFor(Personal));
      case Some(Business) => d := Some(RouteFor(Business));
      case None => d := None;
    }
  }
}
