/** The search screen of the mobile app: eight filter fields, the count of
    active filters, the chip-label mapping, and the displayed list, which is
    the repository's search further narrowed by the price ceiling. */
module MobileSearch {
  import opened Wrappers
  import opened Model
  import opened Lists
  import opened RemoteDoctors

  const AllLabel: string := "Todos"

  /** The values of the eight state flows of the view model. */
  datatype SearchState = SearchState(
    searchQuery: string,
    selectedFilter: string,
    selectedSpecialty: Option<Specialty>,
    selectedLocation: Option<string>,
    telehealthOnly: bool,
    maxPrice: Option<real>,
    isLoading: bool,
    error: Option<string>)

  const InitialState: SearchState := SearchState("", AllLabel, None, None, false, None, false, None)

  /** The number of `true` entries. */
  function CountTrue(flags: seq<bool>): (n: nat)
    ensures n <= |flags|
    ensures n == 0 <==> forall i :: 0 <= i < |flags| ==> !flags[i]
    ensures n == |flags| <==> forall i :: 0 <= i < |flags| ==> flags[i]
  {
    if flags == [] then 0 else (if flags[0] then 1 else 0) + CountTrue(flags[1..])
  }

  lemma CountOfFour(a: bool, b: bool, c: bool, d: bool)
    ensures CountTrue([a, b, c, d]) ==
      (if a then 1 else 0) + (if b then 1 else 0) + (if c then 1 else 0) + (if d then 1 else 0)
  {
    assert [d][1..] == [];
    assert CountTrue([d]) == (if d then 1 else 0);
    assert [c, d][1..] == [d];
    assert CountTrue([c, d]) == (if c then 1 else 0) + CountTrue([d]);
    assert [b, c, d][1..] == [c, d];
    assert CountTrue([b, c, d]) == (if b then 1 else 0) + CountTrue([c, d]);
    assert [a, b, c, d][1..] == [b, c, d];
  }

  /** Which of the four counted filters are set; the query and the chip label are not among them. */
  function ActiveFilters(st: SearchState): seq<bool> {
    [st.selectedSpecialty.Some?, st.selectedLocation.Some?, st.telehealthOnly, st.maxPrice.Some?]
  }

  /** The active-filter count lies in 0..4 and is 0 exactly when no counted
      filter is set; query and chip label do not affect it. */
  lemma ActiveCountFacts(st: SearchState, query: string, chip: string)
    ensures 0 <= CountTrue(ActiveFilters(st)) <= 4
    ensures CountTrue(ActiveFilters(st)) == 0 <==>
      st.selectedSpecialty.None? && st.selectedLocation.None? && !st.telehealthOnly && st.maxPrice.None?
    ensures CountTrue(ActiveFilters(st.(searchQuery := query, selectedFilter := chip)))
         == CountTrue(ActiveFilters(st))
  {
    var f := ActiveFilters(st);
    assert f[0] == st.selectedSpecialty.Some? && f[1] == st.selectedLocation.Some?;
    assert f[2] == st.telehealthOnly && f[3] == st.maxPrice.Some?;
  }

  /** The specialty a chip label selects: the one whose display name it is;
      "Todos" and every other label select none. */
  function SpecialtyForChip(chip: string): (r: Option<Specialty>)
    ensures r.Some? ==> DisplayName(r.value) == chip
    ensures r.None? <==> forall s :: DisplayName(s) != chip
  {
    if chip == "Medicina General" then Some(GeneralMedicine)
    else if chip == "Cardiología" then Some(Cardiology)
    else if chip == "Pediatría" then Some(Pediatrics)
    else if chip == "Dermatología" then Some(Dermatology)
    else if chip == "Neurología" then Some(Neurology)
    else if chip == "Traumatología" then Some(Orthopedics)
    else None
  }

  /** Each specialty's chip selects that specialty; "Todos" selects none. */
  lemma ChipMappingRoundTrip(s: Specialty)
    ensures SpecialtyForChip(DisplayName(s)) == Some(s)
    ensures SpecialtyForChip(AllLabel) == None
  {
    DisplayNameInjective(SpecialtyForChip(DisplayName(s)).value, s);
  }

  /** The state after `clearFilters`: loading flag and error are kept. */
  function Cleared(st: SearchState): SearchState {
    InitialState.(isLoading := st.isLoading, error := st.error)
  }

  /** After clearing, no filter is active. */
  lemma ClearedHasNoActiveFilters(st: SearchState)
    ensures CountTrue(ActiveFilters(Cleared(st))) == 0
  {
  }

  /** The arguments passed to the repository: an unset telehealth switch
      passes null, never false. */
  function RepositoryCriteria(st: SearchState): (c: SearchCriteria)
    ensures c.query == st.searchQuery && c.specialty == st.selectedSpecialty && c.city == st.selectedLocation
    ensures c.teleconsultation != Some(false)
    ensures c.teleconsultation == Some(true) <==> st.telehealthOnly
  {
    SearchCriteria(st.searchQuery, st.selectedSpecialty, st.selectedLocation,
      if st.telehealthOnly then Some(true) else None)
  }

  function AtMost(maxPrice: real): Doctor -> bool {
    (d: Doctor) => d.pricePerConsultation <= maxPrice
  }

  /** The list shown: the repository's answer, restricted to the price ceiling when one is set. */
  function DisplayedDoctors(results: seq<Doctor>, maxPrice: Option<real>): (r: seq<Doctor>)
    ensures maxPrice.None? ==> r == results
    ensures maxPrice.Some? ==> forall d :: d in r <==> d in results && d.pricePerConsultation <= maxPrice.value
    ensures maxPrice.Some? ==> forall d ::
      multiset(r)[d] == (if d.pricePerConsultation <= maxPrice.value then multiset(results)[d] else 0)
    ensures IsSubsequence(r, results)
  {
    if maxPrice.None? then
      SubsequenceRefl(results);
      results
    else
      FilterIsSubsequence(results, AtMost(maxPrice.value));
      forall d ensures multiset(Filter(results, AtMost(maxPrice.value)))[d] ==
        if d.pricePerConsultation <= maxPrice.value then multiset(results)[d] else 0
      {
        FilterCount(results, AtMost(maxPrice.value), d);
      }
      forall d ensures d in Filter(results, AtMost(maxPrice.value)) <==> d in results && d.pricePerConsultation <= maxPrice.value {
        FilterMembership(results, AtMost(maxPrice.value), d);
      }
      Filter(results, AtMost(maxPrice.value))
  }

  /** Over the remote search, a doctor is shown exactly when it meets every
      set filter of the screen, price ceiling included. */
  lemma {:induction false} ShownDoctors(all: seq<Doctor>, st: SearchState, d: Doctor)
    ensures d in DisplayedDoctors(SearchResult(all, RepositoryCriteria(st)), st.maxPrice) <==>
      d in all &&
      (Text.IsBlank(st.searchQuery) || Text.ContainsIgnoreCase(d.name, st.searchQuery)) &&
      (st.selectedSpecialty.None? || d.specialty == st.selectedSpecialty.value) &&
      (st.selectedLocation.None? || Text.ContainsIgnoreCase(d.location, st.selectedLocation.value)) &&
      (!st.telehealthOnly || d.isTelehealthAvailable) &&
      (st.maxPrice.None? || d.pricePerConsultation <= st.maxPrice.value)
  {
    var c := RepositoryCriteria(st);
    assert Matches(c, d) <==>
      (Text.IsBlank(st.searchQuery) || Text.ContainsIgnoreCase(d.name, st.searchQuery)) &&
      (st.selectedSpecialty.None? || d.specialty == st.selectedSpecialty.value) &&
      (st.selectedLocation.None? || Text.ContainsIgnoreCase(d.location, st.selectedLocation.value)) &&
      (!st.telehealthOnly || d.isTelehealthAvailable);
  }

  class SearchViewModel {
    var searchQuery: string
    var selectedFilter: string
    var selectedSpecialty: Option<Specialty>
    var selectedLocation: Option<string>
    var telehealthOnly: bool
    var maxPrice: Option<real>
    var isLoading: bool
    var error: Option<string>

    function State(): SearchState
      reads this
    {
      SearchState(searchQuery, selectedFilter, selectedSpecialty, selectedLocation,
        telehealthOnly, maxPrice, isLoading, error)
    }

    constructor ()
      ensures State() == InitialState
    {
      searchQuery, selectedFilter := "", AllLabel;
      selectedSpecialty, selectedLocation := None, None;
      telehealthOnly, maxPrice := false, None;
      isLoading, error := false, None;
    }

    /** The list the screen shows, given the repository's search. */
    function Doctors(search: SearchCriteria -> seq<Doctor>): (r: seq<Doctor>)
      reads this
      ensures forall d :: d in r <==>
        (d in search(RepositoryCriteria(State())) && (maxPrice.None? || d.pricePerConsultation <= maxPrice.value))
    {
      DisplayedDoctors(search(RepositoryCriteria(State())), maxPrice)
    }

    method GetActiveFiltersCount() returns (count: int)
      ensures count == CountTrue(ActiveFilters(State()))
    {
      count := 0;
      if selectedSpecialty.Some? { count := count + 1; }
      if selectedLocation.Some? { count := count + 1; }
      if telehealthOnly { count := count + 1; }
      if maxPrice.Some? { count := count + 1; }
      CountOfFour(selectedSpecialty.Some?, selectedLocation.Some?, telehealthOnly, maxPrice.Some?);
    }

    method OnSearchQueryChange(query: string)
      modifies this
      ensures State() == old(State()).(searchQuery := query)
    {
      searchQuery := query;
    }

    /** Stores the chip label as given and selects the specialty it names. */
    method OnFilterSelected(filter: string)
      modifies this
      ensures State() == old(State()).(selectedFilter := filter, selectedSpecialty := SpecialtyForChip(filter))
    {
      selectedFilter := filter;
      selectedSpecialty := SpecialtyForChip(filter);
    }

    method SelectSpecialty(specialty: Option<Specialty>)
      modifies this
      ensures State() == old(State()).(selectedSpecialty := specialty)
    {
      selectedSpecialty := specialty;
    }

    method SelectLocation(location: Option<string>)
      modifies this
      ensures State() == old(State()).(selectedLocation := location)
    {
      selectedLocation := location;
    }

    method ToggleTelehealth()
      modifies this
      ensures State() == old(State()).(telehealthOnly := !old(telehealthOnly))
    {
      telehealthOnly := !telehealthOnly;
    }

    method SetMaxPrice(price: Option<real>)
      modifies this
      ensures State() == old(State()).(maxPrice := price)
    {
      maxPrice := price;
    }

    method ClearFilters()
      modifies this
      ensures State() == Cleared(old(State()))
    {
      searchQuery, selectedFilter := "", AllLabel;
      selectedSpecialty, selectedLocation := None, None;
      telehealthOnly, maxPrice := false, None;
    }
  }

  /** Toggling telehealth twice gives back the state it started from. */
  method ToggleTwiceRestores(vm: SearchViewModel)
    modifies vm
    ensures vm.State() == old(vm.State())
  {
    vm.ToggleTelehealth();
    vm.ToggleTelehealth();
  }
}

/** The search screen of the first app version: a query, a chip label and
    the doctor list. Its repository has no `searchDoctors`; the model uses
    the repository's name search in its place. */
module AppSearch {
  import opened Model
  import DoctorRepository

  datatype SearchUiState = SearchUiState(
    isLoading: bool,
    searchQuery: string,
    doctors: seq<Doctor>,
    selectedFilter: string)

  class SearchViewModel {
    var uiState: SearchUiState

    /** Built with the whole catalog loaded, an empty query and the "Todos" chip. */
    constructor ()
      ensures uiState == SearchUiState(false, "", DoctorRepository.GetAllDoctors(), "Todos")
    {
      uiState := SearchUiState(false, "", [], "Todos");
      new;
      LoadDoctors();
    }

    method OnSearchQueryChange(query: string)
      modifies this
      ensures uiState == old(uiState).(searchQuery := query, doctors := DoctorRepository.SearchByName(query))
    {
      uiState := uiState.(searchQuery := query);
      SearchDoctors(query);
    }

    /** Only the chip label changes; the list is not filtered again. */
    method OnFilterSelected(filter: string)
      modifies this
      ensures uiState == old(uiState).(selectedFilter := filter)
    {
      uiState := uiState.(selectedFilter := filter);
    }

    method LoadDoctors()
      modifies this
      ensures uiState == old(uiState).(isLoading := false, doctors := DoctorRepository.GetAllDoctors())
    {
      uiState := uiState.(isLoading := true);
      var doctors := DoctorRepository.GetAllDoctors();
      uiState := uiState.(isLoading := false, doctors := doctors);
    }

    /** Replaces the list only; query, chip and loading flag stay. */
    method SearchDoctors(query: string)
      modifies this
      ensures uiState == old(uiState).(doctors := DoctorRepository.SearchByName(query))
    {
      var doctors := DoctorRepository.SearchByName(query);
      uiState := uiState.(doctors := doctors);
    }
  }
}
