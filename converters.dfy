/** The Room type converters of the local database: dates as millisecond
    timestamps and enums as their constant names. Decoding an unknown name
    throws, as `valueOf` does; there is no default. */
module Converters {
  import opened Wrappers
  import opened Model

  function FromTimestamp(value: Option<int>): (r: Option<Date>)
    ensures r.None? <==> value.None?
  {
    match value
    case None => None
    case Some(t) => Some(Date(t))
  }

  function DateToTimestamp(date: Option<Date>): (r: Option<int>)
    ensures r.None? <==> date.None?
  {
    match date
    case None => None
    case Some(d) => Some(d.time)
  }

  /** Storing a date and reading it back gives the same date, and the other way round. */
  lemma TimestampRoundTrip(value: Option<int>, date: Option<Date>)
    ensures DateToTimestamp(FromTimestamp(value)) == value
    ensures FromTimestamp(DateToTimestamp(date)) == date
  {
  }

  function FromSpecialty(specialty: Specialty): (r: string)
    ensures SpecialtyValueOf(r) == Some(specialty)
  {
    SpecialtyName(specialty)
  }

  function ToSpecialty(value: string): (r: Result<Specialty>)
    ensures r.Ok? <==> exists s :: SpecialtyName(s) == value
    ensures r.Ok? ==> FromSpecialty(r.value) == value
  {
    match SpecialtyValueOf(value)
    case Some(s) => Ok(s)
    case None => Err("No enum constant com.tecsup.mediturn.data.model.Specialty." + value)
  }

  function FromConsultationType(t: ConsultationType): (r: string)
    ensures ConsultationTypeValueOf(r) == Some(t)
  {
    ConsultationTypeName(t)
  }

  function ToConsultationType(value: string): (r: Result<ConsultationType>)
    ensures r.Ok? <==> exists t :: ConsultationTypeName(t) == value
    ensures r.Ok? ==> FromConsultationType(r.value) == value
  {
    match ConsultationTypeValueOf(value)
    case Some(t) => Ok(t)
    case None => Err("No enum constant com.tecsup.mediturn.data.model.ConsultationType." + value)
  }

  function FromAppointmentStatus(status: AppointmentStatus): (r: string)
    ensures StatusValueOf(r) == Some(status)
  {
    StatusName(status)
  }

  function ToAppointmentStatus(value: string): (r: Result<AppointmentStatus>)
    ensures r.Ok? <==> exists s :: StatusName(s) == value
    ensures r.Ok? ==> FromAppointmentStatus(r.value) == value
  {
    match StatusValueOf(value)
    case Some(s) => Ok(s)
    case None => Err("No enum constant com.tecsup.mediturn.data.model.AppointmentStatus." + value)
  }

  /** Every enum value survives a store-and-load through its name. */
  lemma {:induction false} EnumRoundTrips(s: Specialty, t: ConsultationType, a: AppointmentStatus)
    ensures ToSpecialty(FromSpecialty(s)) == Ok(s)
    ensures ToConsultationType(FromConsultationType(t)) == Ok(t)
    ensures ToAppointmentStatus(FromAppointmentStatus(a)) == Ok(a)
  {
    var rs := SpecialtyValueOf(SpecialtyName(s));
    SpecialtyNameInjective(rs.value, s);
    var rt := ConsultationTypeValueOf(ConsultationTypeName(t));
    assert rt.Some? && ConsultationTypeName(rt.value) == ConsultationTypeName(t);
    var ra := StatusValueOf(StatusName(a));
    assert ra.Some? && StatusName(ra.value) == StatusName(a);
  }

  lemma SpecialtyNameInjective(a: Specialty, b: Specialty)
    ensures SpecialtyName(a) == SpecialtyName(b) ==> a == b
  {
  }

  /** A lower-case or misspelt name is not a constant name, so loading it fails. */
  lemma UnknownNamesFail()
    ensures ToSpecialty("cardiology").Err?
    ensures ToConsultationType("").Err?
    ensures ToAppointmentStatus("CANCELED").Err?
  {
  }
}
