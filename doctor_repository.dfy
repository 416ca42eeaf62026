/** The in-memory doctor repository of the app: lookups and filters over the
    fixed sample catalog. Every search keeps catalog order and returns a
    sub-list of the catalog. */
module DoctorRepository {
  import opened Wrappers
  import opened Model
  import opened Text
  import opened Lists
  import SampleData

  /** The label of the filter chip that stands for "no specialty filter". */
  const AllLabel: string := "Todos"

  /** The catalog; no two of its doctors share an id. */
  function GetAllDoctors(): (r: seq<Doctor>)
    ensures |r| == 6
    ensures forall i, j :: 0 <= i < j < |r| ==> r[i].id != r[j].id
  {
    SampleData.SampleDoctors
  }

  /** The first catalog doctor with the id, or null. */
  function GetDoctorById(id: string): (r: Option<Doctor>)
    ensures r.Some? ==> r.value in GetAllDoctors() && r.value.id == id
    ensures r.None? <==> forall d :: d in GetAllDoctors() ==> d.id != id
    ensures var i := IndexOfFirst(GetAllDoctors(), DoctorHasId(id));
      r == if i == -1 then None else Some(GetAllDoctors()[i])
  {
    FindIsFirst(GetAllDoctors(), DoctorHasId(id));
    Find(GetAllDoctors(), DoctorHasId(id))
  }

  /** Whether a doctor's specialty is the one a filter label names: the
      label is compared with the display name, ignoring case. */
  function HasSpecialtyLabel(chip: string): Doctor -> bool {
    (d: Doctor) => EqualsIgnoreCase(DisplayName(d.specialty), chip)
  }

  function SearchBySpecialty(specialty: string): (r: seq<Doctor>)
    ensures specialty == AllLabel ==> r == GetAllDoctors()
    ensures specialty != AllLabel ==> forall d :: d in r <==>
      d in GetAllDoctors() && EqualsIgnoreCase(DisplayName(d.specialty), specialty)
    ensures IsSubsequence(r, GetAllDoctors())
  {
    if specialty == AllLabel then
      SubsequenceRefl(GetAllDoctors());
      GetAllDoctors()
    else
      var p := HasSpecialtyLabel(specialty);
      FilterIsSubsequence(GetAllDoctors(), p);
      forall d ensures d in Filter(GetAllDoctors(), p) <==> d in GetAllDoctors() && p(d) {
        FilterMembership(GetAllDoctors(), p, d);
      }
      Filter(GetAllDoctors(), p)
  }

  function NameContains(query: string): Doctor -> bool {
    (d: Doctor) => ContainsIgnoreCase(d.name, query)
  }

  function SearchByName(query: string): (r: seq<Doctor>)
    ensures IsBlank(query) ==> r == GetAllDoctors()
    ensures !IsBlank(query) ==> forall d :: d in r <==>
      d in GetAllDoctors() && ContainsIgnoreCase(d.name, query)
    ensures IsSubsequence(r, GetAllDoctors())
  {
    if IsBlank(query) then
      SubsequenceRefl(GetAllDoctors());
      GetAllDoctors()
    else
      var p := NameContains(query);
      FilterIsSubsequence(GetAllDoctors(), p);
      forall d ensures d in Filter(GetAllDoctors(), p) <==> d in GetAllDoctors() && p(d) {
        FilterMembership(GetAllDoctors(), p, d);
      }
      Filter(GetAllDoctors(), p)
  }

  function OffersTelehealth(): Doctor -> bool {
    (d: Doctor) => d.isTelehealthAvailable
  }

  function FilterByTelehealth(telehealthOnly: bool): (r: seq<Doctor>)
    ensures !telehealthOnly ==> r == GetAllDoctors()
    ensures telehealthOnly ==> forall d :: d in r <==> d in GetAllDoctors() && d.isTelehealthAvailable
    ensures IsSubsequence(r, GetAllDoctors())
  {
    if !telehealthOnly then
      SubsequenceRefl(GetAllDoctors());
      GetAllDoctors()
    else
      FilterIsSubsequence(GetAllDoctors(), OffersTelehealth());
      forall d ensures d in Filter(GetAllDoctors(), OffersTelehealth()) <==> d in GetAllDoctors() && d.isTelehealthAvailable {
        FilterMembership(GetAllDoctors(), OffersTelehealth(), d);
      }
      Filter(GetAllDoctors(), OffersTelehealth())
  }

  /** Folding to lower case twice is folding once. */
  lemma LowerIdempotent(s: string)
    ensures Lower(Lower(s)) == Lower(s)
  {
  }

  /** Every catalog doctor is found by searching for its own full name, and
      by searching for its own specialty's display name in any case. */
  lemma {:induction false} FoundByOwnNameAndSpecialty(d: Doctor)
    requires d in GetAllDoctors()
    ensures d in SearchByName(d.name)
    ensures d in SearchBySpecialty(DisplayName(d.specialty))
  {
    assert StartsWith(Lower(d.name), Lower(d.name));
    assert DisplayName(d.specialty) != AllLabel;
  }

  /** The lower-cased, accented label finds the one cardiologist. */
  lemma CardiologyExample()
    ensures SearchBySpecialty("cardiología") == [SampleData.DoctorGonzalez]
  {
    var p := HasSpecialtyLabel("cardiología");
    var all := GetAllDoctors();
    assert Lower("cardiología") == "cardiología";
    assert p(all[0]);
    assert !p(all[1]) && !p(all[2]) && !p(all[3]) && !p(all[4]) && !p(all[5]);
  }

  /** The "no filter" label is recognised only when spelt exactly: in lower
      case it is an ordinary label that names no specialty. */
  lemma AllLabelIsCaseSensitive()
    ensures SearchBySpecialty("todos") == []
  {
    var p := HasSpecialtyLabel("todos");
    var all := GetAllDoctors();
    assert !p(all[0]) && !p(all[1]) && !p(all[2]) && !p(all[3]) && !p(all[4]) && !p(all[5]);
  }

  /** Three catalog doctors offer telehealth. */
  lemma TelehealthExample()
    ensures FilterByTelehealth(true) ==
      [SampleData.DoctorGonzalez, SampleData.DoctorRamirez, SampleData.DoctorTorres]
  {
    var all, p := GetAllDoctors(), OffersTelehealth();
    assert Filter(all[5..], p) == [];
    assert Filter(all[4..], p) == [];
    assert Filter(all[3..], p) == [all[3]];
    assert Filter(all[2..], p) == [all[3]];
    assert Filter(all[1..], p) == [all[1], all[3]];
  }

  /** The lookups find a fixture by its id and nothing for an unknown id. */
  lemma LookupExamples()
    ensures GetDoctorById("doc_3") == Some(SampleData.DoctorMorales)
    ensures GetDoctorById("doc_7") == None
  {
    var all := GetAllDoctors();
    assert all[2].id == "doc_3" && all[0].id != "doc_3" && all[1].id != "doc_3";
    assert forall d :: d in all ==> d.id != "doc_7";
  }
}
