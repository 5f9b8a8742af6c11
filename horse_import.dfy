/** The horse-import dialog: a name and birth-year search against the
    registry, the result list, and the hand-off of a chosen horse. */
module HorseImport {
  import opened JsValues
  import opened Registry
  import opened Domain
  import PetForm

  const EmptyNameAlert := "Please enter at least horse name."

  /** `formatDate`, used for the result list: empty when any part is
      falsy, the date template otherwise. */
  function FormatDate(year: Scalar, month: Scalar, day: Scalar): (r: string)
    ensures r == "" <==> !Truthy(year) || !Truthy(month) || !Truthy(day)
    ensures r != "" ==> r == DateString(year, month, day)
  {
    if !Truthy(year) || !Truthy(month) || !Truthy(day) then ""
    else DateString(year, month, day)
  }

  /** For a horse with all three birth-date parts present, the list shows
      the date the form will receive when the horse is picked. */
  lemma ListedDateIsImportedDate(h: Horse)
    requires Truthy(h.szuletesiEv) && Truthy(h.szuletesiHo) && Truthy(h.szuletesiNap)
    ensures FormatDate(h.szuletesiEv, h.szuletesiHo, h.szuletesiNap) == PetForm.ImportedDateOfBirth(h)
  {
  }

  /** A horse without a birth month: the list shows no date, yet the form
      receives a date with "undefined" in the month's place (for 2015 and
      day 7, "2015-undefined-07"), because `handleHorseSelected` does not
      apply the guard. */
  lemma MissingMonthReachesForm(h: Horse)
    requires h.szuletesiHo == Undefined
    ensures FormatDate(h.szuletesiEv, h.szuletesiHo, h.szuletesiNap) == ""
    ensures PetForm.ImportedDateOfBirth(h) == JsString(h.szuletesiEv) + "-undefined-" + Pad2(h.szuletesiNap)
  {
    var y, d := JsString(h.szuletesiEv), Pad2(h.szuletesiNap);
    assert Pad2(Undefined) == "undefined";
    assert y + "-" + "undefined" + "-" + d == y + "-undefined-" + d;
  }

  /** The JSON body of a search. */
  function SearchBody(searchTerm: string, birthYear: string): map<string, Scalar>
  {
    map["nev" := Text(searchTerm), "szuletesiEv" := Text(birthYear)]
  }

  class ImportHorseDialog {
    var searchTerm: string
    var birthYear: string
    var loading: bool
    var horses: seq<Horse>
    ghost var log: seq<Event>

    constructor ()
      ensures searchTerm == "" && birthYear == "" && !loading && horses == [] && log == []
    {
      searchTerm := "";
      birthYear := "";
      loading := false;
      horses := [];
      log := [];
    }

    /** The effect keyed on the `open` prop: when the dialog is (or becomes)
        closed, the results and both inputs are cleared. */
    method OpenChanged(open: bool)
      modifies this
      ensures !open ==> horses == [] && searchTerm == "" && birthYear == ""
      ensures open ==> horses == old(horses) && searchTerm == old(searchTerm) && birthYear == old(birthYear)
      ensures loading == old(loading) && log == old(log)
    {
      if !open {
        horses := [];
        searchTerm := "";
        birthYear := "";
      }
    }

    /** The name input's `onChange`. */
    method SetSearchTerm(value: string)
      modifies this
      ensures searchTerm == value
      ensures birthYear == old(birthYear) && loading == old(loading) && horses == old(horses) && log == old(log)
    {
      searchTerm := value;
    }

    /** The birth-year input's `onChange`. */
    method SetBirthYear(value: string)
      modifies this
      ensures birthYear == value
      ensures searchTerm == old(searchTerm) && loading == old(loading) && horses == old(horses) && log == old(log)
    {
      birthYear := value;
    }

    /** `handleSearch`. An empty name alerts and stops before anything else
        happens. Otherwise a token is fetched and the search posted; a
        successful search replaces the results and clears both inputs, a
        failed one leaves them; either way loading ends false. */
    method HandleSearch(token: Outcome<string>, response: Outcome<seq<Horse>>)
      modifies this
      ensures old(searchTerm) == "" ==>
                && log == old(log) + [Alerted(EmptyNameAlert)]
                && loading == old(loading) && horses == old(horses)
                && searchTerm == old(searchTerm) && birthYear == old(birthYear)
      ensures old(searchTerm) != "" ==>
                && !loading
                && log == old(log)
                   + (if token.Ok?
                      then [Request(Post, "/horseSearch", BearerOf(token), SearchBody(old(searchTerm), old(birthYear)))]
                      else [])
                && (token.Ok? && response.Ok? ==>
                      horses == response.payload && searchTerm == "" && birthYear == "")
                && (!(token.Ok? && response.Ok?) ==>
                      horses == old(horses) && searchTerm == old(searchTerm) && birthYear == old(birthYear))
    {
      if searchTerm == "" {
        log := log + [Alerted(EmptyNameAlert)];
        return;
      }
      loading := true;
      if token.Ok? {
        log := log + [Request(Post, "/horseSearch", BearerOf(token), SearchBody(searchTerm, birthYear))];
        if response.Ok? {
          horses := response.payload;
          searchTerm := "";
          birthYear := "";
        }
      }
      loading := false;
    }

    /** `handleSelectHorse`: hand the horse to the form first, then empty
        the results, stop loading and close. */
    method HandleSelectHorse(h: Horse)
      modifies this
      ensures log == old(log) + [HorseSelected(h), Closed]
      ensures horses == [] && !loading
      ensures searchTerm == old(searchTerm) && birthYear == old(birthYear)
    {
      log := log + [HorseSelected(h)];
      horses := [];
      loading := false;
      log := log + [Closed];
    }
  }
}
