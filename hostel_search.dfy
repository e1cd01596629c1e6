/** The landing-page school search: suggestions from a fixed list of schools in Oyo State,
    the selection that either opens the hostel list or offers a waiting list, and the
    waiting-list sign-up guard. */
module HostelSearch {
  import opened Wrappers
  import opened Text
  import opened Lists

  datatype School = School(name: string)

  /** The one school the service runs at. */
  const Lautech := "Ladoke Akintola University of Technology"

  const Schools := [
    School(Lautech),
    School("University of Ibadan"),
    School("The Polytechnic, Ibadan"),
    School("Ajayi Crowther University"),
    School("Dominican University, Ibadan"),
    School("Lead City University")]

  predicate NameMatches(query: string, school: School) {
    Includes(ToLower(school.name), ToLower(query))
  }

  function MatchesFn(query: string): School -> bool {
    s => NameMatches(query, s)
  }

  /** The suggestion effect: no suggestions up to two UTF-16 code units, otherwise the schools
      whose name contains the query, ignoring case. */
  function Suggestions(query: string): (r: seq<School>)
  {
    if Utf16Length(query) > 2 then Filter(MatchesFn(query), Schools) else []
  }

  /** Short queries suggest nothing; longer ones suggest exactly the matching schools, in
      list order. */
  lemma SuggestionsSpec(query: string)
    ensures Utf16Length(query) <= 2 ==> Suggestions(query) == []
    ensures Utf16Length(query) > 2 ==> forall s :: s in Suggestions(query) <==>
      s in Schools && Includes(ToLower(s.name), ToLower(query))
    ensures IsSubsequence(Suggestions(query), Schools)
  {
    if Utf16Length(query) > 2 {
      forall s ensures s in Suggestions(query) <==> s in Schools && NameMatches(query, s) {
        FilterMembership(MatchesFn(query), Schools, s);
      }
      FilterIsSubsequence(MatchesFn(query), Schools);
    }
  }

  /** What a waiting-list sign-up did: nothing, or a write of the school and e-mail that
      either succeeded or failed, with the alert shown. */
  datatype SignUp = NoRequest | Written(school: string, email: string, succeeded: bool, alert: string)

  const NotifiedAlert := "You will be notified when we launch at your school!"
  const FailedAlert := "Something went wrong. Please try again."

  /** The component state. The suggestions always follow the query, as the effect keeps
      them. */
  class Search {
    var query: string
    var suggestions: seq<School>
    var showNotifyMe: bool
    var selectedSchool: Option<School>

    ghost predicate Valid()
      reads this
    {
      suggestions == Suggestions(query)
    }

    constructor ()
      ensures Valid()
      ensures query == "" && suggestions == [] && !showNotifyMe && selectedSchool == None
    {
      query := "";
      suggestions := [];
      showNotifyMe := false;
      selectedSchool := None;
    }

    /** Typing in the box, followed by the effect on `query`. */
    method SetQuery(q: string)
      modifies this`query, this`suggestions
      ensures Valid() && query == q
    {
      query := q;
      suggestions := Suggestions(q);
    }

    /** `handleSelectSchool`: the one supported school navigates to the hostel list and
        leaves the panel as it was; any other school is remembered and the panel opens.
        Either way the box and the suggestions are cleared. */
    method HandleSelectSchool(school: School) returns (navigateTo: Option<string>)
      modifies this
      ensures Valid() && query == "" && suggestions == []
      ensures school.name == Lautech ==>
        navigateTo == Some("/hostels")
        && showNotifyMe == old(showNotifyMe) && selectedSchool == old(selectedSchool)
      ensures school.name != Lautech ==>
        navigateTo == None && showNotifyMe && selectedSchool == Some(school)
    {
      if school.name == Lautech {
        navigateTo := Some("/hostels");
      } else {
        navigateTo := None;
        selectedSchool := Some(school);
        showNotifyMe := true;
      }
      query := "";
      suggestions := [];
    }

    /** `handleNotifyMe(email)`; `writeSucceeds` is how the waiting-list write ends. Nothing
        happens without a selected school and a non-empty e-mail; a successful write clears
        the selection and hides the panel, a failed one leaves both. */
    method HandleNotifyMe(email: string, writeSucceeds: bool) returns (r: SignUp)
      requires Valid()
      modifies this`showNotifyMe, this`selectedSchool
      ensures Valid()
      ensures old(selectedSchool).None? || email == "" ==>
        r == NoRequest && showNotifyMe == old(showNotifyMe) && selectedSchool == old(selectedSchool)
      ensures old(selectedSchool).Some? && email != "" ==>
        && r == Written(old(selectedSchool).value.name, email, writeSucceeds,
                        if writeSucceeds then NotifiedAlert else FailedAlert)
        && (writeSucceeds ==> !showNotifyMe && selectedSchool == None)
        && (!writeSucceeds ==> showNotifyMe == old(showNotifyMe) && selectedSchool == old(selectedSchool))
    {
      if selectedSchool.Some? && email != "" {
        if writeSucceeds {
          r := Written(selectedSchool.value.name, email, true, NotifiedAlert);
          showNotifyMe := false;
          selectedSchool := None;
        } else {
          r := Written(selectedSchool.value.name, email, false, FailedAlert);
        }
      } else {
        r := NoRequest;
      }
    }
  }

  /** The panel the page shows: only while it is open and a school is selected. */
  function NotifyPanel(showNotifyMe: bool, selectedSchool: Option<School>): (r: Option<string>)
  {
    if showNotifyMe && selectedSchool.Some? then Some(selectedSchool.value.name) else None
  }

  /** The panel names the selected school and appears only with one. */
  lemma NotifyPanelSpec(showNotifyMe: bool, selectedSchool: Option<School>)
    ensures NotifyPanel(showNotifyMe, selectedSchool).Some? <==> showNotifyMe && selectedSchool.Some?
    ensures NotifyPanel(showNotifyMe, selectedSchool).Some? ==>
      NotifyPanel(showNotifyMe, selectedSchool).value == selectedSchool.value.name
  {
  }
}
