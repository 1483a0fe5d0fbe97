/** The user's Australian state or territory (HandsUpSOS/StateManager.swift):
    the selected name, its abbreviation and its fire service. */
module StateSelection {
  import opened Options
  import opened Sequences

  const ACT := "Australian Capital Territory"
  const NSW := "New South Wales"
  const NT := "Northern Territory"
  const QLD := "Queensland"
  const SA := "South Australia"
  const TAS := "Tasmania"
  const VIC := "Victoria"
  const WA := "Western Australia"

  /** `australianStates`, in the order the settings picker lists them. */
  const AustralianStates: seq<string> := [ACT, NSW, NT, QLD, SA, TAS, VIC, WA]

  /** The selection when nothing has been saved. */
  const DefaultState := VIC

  const DefaultFireService := "State Fire Service"

  /** `abbreviatedState` for a given selection: the short name of a listed
      state, anything else unchanged. */
  function Abbreviation(state: string): string {
    if state == ACT then "ACT"
    else if state == NSW then "NSW"
    else if state == NT then "NT"
    else if state == QLD then "QLD"
    else if state == SA then "SA"
    else if state == TAS then "TAS"
    else if state == VIC then "VIC"
    else if state == WA then "WA"
    else state
  }

  /** `fireServiceName` for a given selection. */
  function FireService(state: string): string {
    if state == VIC then "CFA (Country Fire Authority)"
    else if state == NSW then "RFS (Rural Fire Service)"
    else if state == QLD then "QFES (Queensland Fire and Emergency Services)"
    else if state == WA then "DFES (Department of Fire and Emergency Services)"
    else if state == SA then "CFS (Country Fire Service)"
    else if state == TAS then "TFS (Tasmania Fire Service)"
    else if state == NT then "NT Fire and Rescue"
    else if state == ACT then "ACT Fire and Rescue"
    else DefaultFireService
  }

  /** The abbreviations and fire services of the listed states, in the
      order of `AustralianStates`. */
  const Abbreviations: seq<string> := ["ACT", "NSW", "NT", "QLD", "SA", "TAS", "VIC", "WA"]
  const FireServices: seq<string> := [
    "ACT Fire and Rescue",
    "RFS (Rural Fire Service)",
    "NT Fire and Rescue",
    "QFES (Queensland Fire and Emergency Services)",
    "CFS (Country Fire Service)",
    "TFS (Tasmania Fire Service)",
    "CFA (Country Fire Authority)",
    "DFES (Department of Fire and Emergency Services)"]

  lemma StatesDistinct()
    ensures Distinct(AustralianStates)
  {
  }

  /** Each listed state is abbreviated to its entry of `Abbreviations`. */
  lemma AbbreviationOfListed(k: nat)
    requires k < |AustralianStates|
    ensures Abbreviation(AustralianStates[k]) == Abbreviations[k]
  {
  }

  lemma AbbreviationTable()
    ensures forall k :: 0 <= k < |AustralianStates| ==> Abbreviation(AustralianStates[k]) == Abbreviations[k]
  {
    forall k | 0 <= k < |AustralianStates| ensures Abbreviation(AustralianStates[k]) == Abbreviations[k] {
      AbbreviationOfListed(k);
    }
  }

  /** The eight listed states have eight different abbreviations. */
  lemma AbbreviationsDistinct()
    ensures forall i, j :: 0 <= i < j < |AustralianStates| ==>
              Abbreviation(AustralianStates[i]) != Abbreviation(AustralianStates[j])
  {
    forall i, j | 0 <= i < j < |AustralianStates|
      ensures Abbreviation(AustralianStates[i]) != Abbreviation(AustralianStates[j])
    {
      AbbreviationOfListed(i);
      AbbreviationOfListed(j);
    }
  }

  /** A name that is not listed is shown as it is. */
  lemma AbbreviationOfUnlisted(state: string)
    requires state !in AustralianStates
    ensures Abbreviation(state) == state
  {
  }

  /** Each listed state gets its entry of `FireServices`. */
  lemma FireServiceOfListed(k: nat)
    requires k < |AustralianStates|
    ensures FireService(AustralianStates[k]) == FireServices[k]
  {
    StatesDistinct();
  }

  lemma FireServiceTable()
    ensures forall k :: 0 <= k < |AustralianStates| ==> FireService(AustralianStates[k]) == FireServices[k]
  {
    forall k | 0 <= k < |AustralianStates| ensures FireService(AustralianStates[k]) == FireServices[k] {
      FireServiceOfListed(k);
    }
  }

  /** Each listed state has its own fire service. */
  lemma FireServicesDistinct()
    ensures forall i, j :: 0 <= i < j < |AustralianStates| ==>
              FireService(AustralianStates[i]) != FireService(AustralianStates[j])
  {
    forall i, j | 0 <= i < j < |AustralianStates|
      ensures FireService(AustralianStates[i]) != FireService(AustralianStates[j])
    {
      FireServiceOfListed(i);
      FireServiceOfListed(j);
    }
  }

  /** The generic service name is used exactly for names that are not
      listed. */
  lemma GenericFireServiceIffUnlisted(state: string)
    ensures FireService(state) == DefaultFireService <==> state !in AustralianStates
  {
    if state in AustralianStates {
      var k :| 0 <= k < |AustralianStates| && AustralianStates[k] == state;
      FireServiceOfListed(k);
    }
  }

  /** `StateManager`: the state the user has chosen. */
  class StateManager {
    var selectedState: string

    /** `init()`: the saved state, or Victoria when nothing is saved. */
    constructor(saved: Option<string>)
      ensures selectedState == saved.GetOr(DefaultState)
      ensures saved.None? ==> selectedState == VIC
    {
      selectedState := saved.GetOr(DefaultState);
    }

    /** `updateState`: takes any name, listed or not. */
    method UpdateState(newState: string)
      modifies this
      ensures selectedState == newState
    {
      selectedState := newState;
    }

    function AbbreviatedState(): (r: string)
      reads this
      ensures selectedState !in AustralianStates ==> r == selectedState
      ensures forall k :: 0 <= k < |AustralianStates| && selectedState == AustralianStates[k] ==>
                r == Abbreviations[k]
    {
      AbbreviationTable();
      Abbreviation(selectedState)
    }

    function FireServiceName(): (r: string)
      reads this
      ensures r == DefaultFireService <==> selectedState !in AustralianStates
      ensures forall k :: 0 <= k < |AustralianStates| && selectedState == AustralianStates[k] ==>
                r == FireServices[k]
    {
      FireServiceTable();
      GenericFireServiceIffUnlisted(selectedState);
      FireService(selectedState)
    }
  }
}
