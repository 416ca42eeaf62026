/** The remote doctor repository: the API answers with doctor DTOs, which
    are decoded and, for a search, narrowed in memory by a chain of guarded
    filters. A failed request, an empty body or an exception yields the
    empty list (or null, or a failure result). */
module RemoteDoctors {
  import opened Wrappers
  import opened Model
  import opened Text
  import opened Lists
  import opened Dto

  /** What the HTTP client hands back: a response, or the exception it threw. */
  datatype Response<T> = Response(isSuccessful: bool, code: int, message: string, body: Option<T>)
  datatype Fetch<T> = Answered(response: Response<T>) | Threw(error: string)

  /** The body of a successful response with a body; nothing otherwise. */
  function Received<T>(f: Fetch<T>): (r: Option<T>)
    ensures r.Some? <==> f.Answered? && f.response.isSuccessful && f.response.body.Some?
    ensures r.Some? ==> r.value == f.response.body.value
  {
    if f.Answered? && f.response.isSuccessful then f.response.body else None
  }

  function DecodeAll(dtos: seq<DoctorDto>, env: Platform): (r: seq<Doctor>)
    ensures |r| == |dtos|
    ensures forall i :: 0 <= i < |r| ==> r[i] == DoctorToDomain(dtos[i], env)
  {
    seq(|dtos|, i requires 0 <= i < |dtos| => DoctorToDomain(dtos[i], env))
  }

  /** `getAllDoctorsFromApi`: the decoded list, or the empty list on any failure. */
  function GetAllDoctorsFromApi(f: Fetch<seq<DoctorDto>>, env: Platform): (r: seq<Doctor>)
    ensures Received(f).None? ==> r == []
    ensures Received(f).Some? ==> r == DecodeAll(Received(f).value, env)
  {
    match Received(f)
    case None => []
    case Some(dtos) => DecodeAll(dtos, env)
  }

  /** `getDoctorByIdFromApi`: the decoded doctor, or null on any failure. */
  function GetDoctorByIdFromApi(f: Fetch<DoctorDto>, env: Platform): (r: Option<Doctor>)
    ensures r.None? <==> Received(f).None?
    ensures r.Some? ==> r.value == DoctorToDomain(Received(f).value, env)
  {
    match Received(f)
    case None => None
    case Some(dto) => Some(DoctorToDomain(dto, env))
  }

  /** `getDoctorsResult`: success with the decoded list; otherwise failure
      with "Error <code>: <message>", or with the exception thrown. */
  function GetDoctorsResult(f: Fetch<seq<DoctorDto>>, env: Platform, codeText: int -> string): (r: Result<seq<Doctor>>)
    ensures r.Ok? <==> Received(f).Some?
    ensures r.Ok? ==> r.value == GetAllDoctorsFromApi(f, env)
    ensures f.Threw? ==> r == Err(f.error)
    ensures f.Answered? && r.Err? ==>
      r.message == "Error " + codeText(f.response.code) + ": " + f.response.message
  {
    match f
    case Threw(error) => Err(error)
    case Answered(response) =>
      if response.isSuccessful && response.body.Some? then Ok(DecodeAll(response.body.value, env))
      else Err("Error " + codeText(response.code) + ": " + response.message)
  }

  // ---------------------------------------------------------------- search

  /** The arguments of `searchDoctors`; null is `None`. */
  datatype SearchCriteria = SearchCriteria(
    query: string,
    specialty: Option<Specialty>,
    city: Option<string>,
    teleconsultation: Option<bool>)

  predicate QueryOk(c: SearchCriteria, d: Doctor) {
    IsBlank(c.query) || ContainsIgnoreCase(d.name, c.query)
  }

  predicate SpecialtyOk(c: SearchCriteria, d: Doctor) {
    c.specialty.None? || d.specialty == c.specialty.value
  }

  predicate CityOk(c: SearchCriteria, d: Doctor) {
    c.city.None? || ContainsIgnoreCase(d.location, c.city.value)
  }

  predicate TeleconsultationOk(c: SearchCriteria, d: Doctor) {
    c.teleconsultation != Some(true) || d.isTelehealthAvailable
  }

  /** The conjunction of the first `k` criteria, in the order the chain
      applies them: query, specialty, city, teleconsultation. */
  predicate PassesFirst(c: SearchCriteria, k: nat, d: Doctor) {
    (k >= 1 ==> QueryOk(c, d)) && (k >= 2 ==> SpecialtyOk(c, d)) &&
    (k >= 3 ==> CityOk(c, d)) && (k >= 4 ==> TeleconsultationOk(c, d))
  }

  function PassesFirstTest(c: SearchCriteria, k: nat): Doctor -> bool {
    (d: Doctor) => PassesFirst(c, k, d)
  }

  /** A doctor the search keeps: one that meets every active criterion. */
  predicate Matches(c: SearchCriteria, d: Doctor) {
    QueryOk(c, d) && SpecialtyOk(c, d) && CityOk(c, d) && TeleconsultationOk(c, d)
  }

  function MatchesTest(c: SearchCriteria): Doctor -> bool {
    (d: Doctor) => Matches(c, d)
  }

  /** The reference result: the doctors meeting all criteria, in fetched order. */
  function SearchResult(doctors: seq<Doctor>, c: SearchCriteria): (r: seq<Doctor>)
    ensures forall d :: d in r <==> d in doctors && Matches(c, d)
    ensures forall d :: multiset(r)[d] == if Matches(c, d) then multiset(doctors)[d] else 0
    ensures IsSubsequence(r, doctors)
  {
    FilterIsSubsequence(doctors, MatchesTest(c));
    forall d ensures multiset(Filter(doctors, MatchesTest(c)))[d] == if Matches(c, d) then multiset(doctors)[d] else 0 {
      FilterCount(doctors, MatchesTest(c), d);
    }
    forall d ensures d in Filter(doctors, MatchesTest(c)) <==> d in doctors && Matches(c, d) {
      FilterMembership(doctors, MatchesTest(c), d);
    }
    Filter(doctors, MatchesTest(c))
  }

  function NameTest(query: string): Doctor -> bool {
    (d: Doctor) => ContainsIgnoreCase(d.name, query)
  }

  function SpecialtyTest(specialty: Specialty): Doctor -> bool {
    (d: Doctor) => d.specialty == specialty
  }

  function LocationTest(city: string): Doctor -> bool {
    (d: Doctor) => ContainsIgnoreCase(d.location, city)
  }

  function TelehealthTest(): Doctor -> bool {
    (d: Doctor) => d.isTelehealthAvailable
  }

  /** The test of a step that does not run; it is never applied. */
  function AnyDoctor(): Doctor -> bool {
    (d: Doctor) => true
  }

  /** One guarded step of the chain: applying `test` when `active`, or
      nothing otherwise, turns the list passing the first `k - 1` criteria
      into the list passing the first `k`. */
  lemma Step(s: seq<Doctor>, c: SearchCriteria, k: nat, active: bool, test: Doctor -> bool)
    requires k >= 1
    requires active ==> forall d :: PassesFirst(c, k, d) == (PassesFirst(c, k - 1, d) && test(d))
    requires !active ==> forall d :: PassesFirst(c, k, d) == PassesFirst(c, k - 1, d)
    ensures (if active then Filter(Filter(s, PassesFirstTest(c, k - 1)), test) else Filter(s, PassesFirstTest(c, k - 1)))
      == Filter(s, PassesFirstTest(c, k))
  {
    if active {
      FilterFilter(s, PassesFirstTest(c, k - 1), test, PassesFirstTest(c, k));
    } else {
      FilterExt(s, PassesFirstTest(c, k - 1), PassesFirstTest(c, k));
    }
  }

  lemma QueryStep(s: seq<Doctor>, c: SearchCriteria)
    ensures (if !IsBlank(c.query) then Filter(Filter(s, PassesFirstTest(c, 0)), NameTest(c.query)) else Filter(s, PassesFirstTest(c, 0)))
      == Filter(s, PassesFirstTest(c, 1))
  {
    Step(s, c, 1, !IsBlank(c.query), NameTest(c.query));
  }

  lemma SpecialtyStep(s: seq<Doctor>, c: SearchCriteria)
    ensures (if c.specialty.Some? then Filter(Filter(s, PassesFirstTest(c, 1)), SpecialtyTest(c.specialty.value)) else Filter(s, PassesFirstTest(c, 1)))
      == Filter(s, PassesFirstTest(c, 2))
  {
    Step(s, c, 2, c.specialty.Some?, if c.specialty.Some? then SpecialtyTest(c.specialty.value) else AnyDoctor());
  }

  lemma CityStep(s: seq<Doctor>, c: SearchCriteria)
    ensures (if c.city.Some? then Filter(Filter(s, PassesFirstTest(c, 2)), LocationTest(c.city.value)) else Filter(s, PassesFirstTest(c, 2)))
      == Filter(s, PassesFirstTest(c, 3))
  {
    Step(s, c, 3, c.city.Some?, if c.city.Some? then LocationTest(c.city.value) else AnyDoctor());
  }

  lemma TeleconsultationStep(s: seq<Doctor>, c: SearchCriteria)
    ensures (if c.teleconsultation == Some(true) then Filter(Filter(s, PassesFirstTest(c, 3)), TelehealthTest()) else Filter(s, PassesFirstTest(c, 3)))
      == Filter(s, MatchesTest(c))
  {
    Step(s, c, 4, c.teleconsultation == Some(true), TelehealthTest());
    FilterExt(s, PassesFirstTest(c, 4), MatchesTest(c));
  }

  /** The in-memory part of `searchDoctors`: each filter runs only when its
      argument is set, and the result is the reference result. */
  method ApplyFilters(fetched: seq<Doctor>, c: SearchCriteria) returns (doctors: seq<Doctor>)
    ensures doctors == SearchResult(fetched, c)
  {
    FilterAll(fetched, PassesFirstTest(c, 0));
    QueryStep(fetched, c);
    SpecialtyStep(fetched, c);
    CityStep(fetched, c);
    TeleconsultationStep(fetched, c);
    doctors := fetched;
    if !IsBlank(c.query) {
      doctors := Filter(doctors, NameTest(c.query));
    }
    assert doctors == Filter(fetched, PassesFirstTest(c, 1));
    if c.specialty.Some? {
      doctors := Filter(doctors, SpecialtyTest(c.specialty.value));
    }
    assert doctors == Filter(fetched, PassesFirstTest(c, 2));
    if c.city.Some? {
      doctors := Filter(doctors, LocationTest(c.city.value));
    }
    assert doctors == Filter(fetched, PassesFirstTest(c, 3));
    if c.teleconsultation == Some(true) {
      doctors := Filter(doctors, TelehealthTest());
    }
  }

  /** `searchDoctors`: the filtered list after a successful fetch, the empty
      list after any failure. */
  method SearchDoctors(f: Fetch<seq<DoctorDto>>, env: Platform, c: SearchCriteria) returns (doctors: seq<Doctor>)
    ensures Received(f).None? ==> doctors == []
    ensures Received(f).Some? ==> doctors == SearchResult(DecodeAll(Received(f).value, env), c)
  {
    match f {
      case Threw(_) =>
        doctors := [];
      case Answered(response) =>
        if response.isSuccessful && response.body.Some? {
          doctors := ApplyFilters(DecodeAll(response.body.value, env), c);
        } else {
          doctors := [];
        }
    }
  }

  /** With a blank query and no specialty, city or teleconsultation request,
      the fetched list comes back unchanged. */
  lemma NoCriteriaKeepsAll(doctors: seq<Doctor>, c: SearchCriteria)
    requires IsBlank(c.query) && c.specialty.None? && c.city.None? && c.teleconsultation != Some(true)
    ensures SearchResult(doctors, c) == doctors
  {
    FilterAll(doctors, MatchesTest(c));
  }

  /** `teleconsultation = false` filters exactly like `null`. */
  lemma TeleconsultationFalseIsNull(doctors: seq<Doctor>, c: SearchCriteria)
    ensures SearchResult(doctors, c.(teleconsultation := Some(false)))
         == SearchResult(doctors, c.(teleconsultation := None))
  {
    FilterExt(doctors, MatchesTest(c.(teleconsultation := Some(false))), MatchesTest(c.(teleconsultation := None)));
  }

  /** Running the four criteria in the opposite order gives the same list. */
  lemma {:induction false} ReversedChainSameResult(doctors: seq<Doctor>, c: SearchCriteria)
    ensures
      var byTele := Filter(doctors, (d: Doctor) => TeleconsultationOk(c, d));
      var byCity := Filter(byTele, (d: Doctor) => CityOk(c, d));
      var bySpecialty := Filter(byCity, (d: Doctor) => SpecialtyOk(c, d));
      Filter(bySpecialty, (d: Doctor) => QueryOk(c, d)) == SearchResult(doctors, c)
  {
    var t := (d: Doctor) => TeleconsultationOk(c, d);
    var tc := (d: Doctor) => TeleconsultationOk(c, d) && CityOk(c, d);
    var tcs := (d: Doctor) => TeleconsultationOk(c, d) && CityOk(c, d) && SpecialtyOk(c, d);
    FilterFilter(doctors, t, (d: Doctor) => CityOk(c, d), tc);
    FilterFilter(doctors, tc, (d: Doctor) => SpecialtyOk(c, d), tcs);
    FilterFilter(doctors, tcs, (d: Doctor) => QueryOk(c, d), MatchesTest(c));
  }
}
