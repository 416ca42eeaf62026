/** The JSON transfer objects of the remote API and their mappings to the
    domain records. Decoding never fails on a bad date, price or enum string:
    each falls back to a default. The one failure is an appointment read
    without its nested doctor. */
module Dto {
  import opened Wrappers
  import opened Model
  import opened Text
  import Lists

  /** What the JVM supplies to the mappings: the two `SimpleDateFormat`
      patterns ("yyyy-MM-dd'T'HH:mm:ss" and "yyyy-MM-dd") as partial parsers
      and formatters, `String.toDoubleOrNull`, and `Date()` (now). */
  datatype Platform = Platform(
    parseDateTime: string -> Option<Date>,
    formatDateTime: Date -> string,
    parseDate: string -> Option<Date>,
    formatDate: Date -> string,
    parseDecimal: string -> Option<real>,
    now: Date)

  // ---------------------------------------------------------------- TimeSlotDto

  /** `doctorId` is the API's back-reference; the domain slot has none. */
  datatype TimeSlotDto = TimeSlotDto(id: string, datetime: string, isAvailable: bool, doctorId: Option<string>)

  /** Total: an unparseable `datetime` becomes the current date. */
  function TimeSlotToDomain(dto: TimeSlotDto, env: Platform): (r: TimeSlot)
    ensures r.id == dto.id && r.isAvailable == dto.isAvailable
    ensures env.parseDateTime(dto.datetime).None? ==> r.dateTime == env.now
    ensures env.parseDateTime(dto.datetime).Some? ==> r.dateTime == env.parseDateTime(dto.datetime).value
  {
    TimeSlot(dto.id, env.parseDateTime(dto.datetime).GetOr(env.now), dto.isAvailable)
  }

  /** The slot's doctor reference plays no part in decoding. */
  lemma TimeSlotDropsDoctor(dto: TimeSlotDto, other: Option<string>, env: Platform)
    ensures TimeSlotToDomain(dto.(doctorId := other), env) == TimeSlotToDomain(dto, env)
  {
  }

  // ---------------------------------------------------------------- PatientDto

  datatype PatientDto = PatientDto(id: string, name: string, email: string, phone: string, dateOfBirth: string)

  /** Total: an unparseable `date_of_birth` becomes the current date. */
  function PatientToDomain(dto: PatientDto, env: Platform): (r: Patient)
    ensures r.id == dto.id && r.name == dto.name && r.email == dto.email && r.phone == dto.phone
    ensures env.parseDate(dto.dateOfBirth).None? ==> r.dateOfBirth == env.now
    ensures env.parseDate(dto.dateOfBirth).Some? ==> r.dateOfBirth == env.parseDate(dto.dateOfBirth).value
  {
    Patient(dto.id, dto.name, dto.email, dto.phone, env.parseDate(dto.dateOfBirth).GetOr(env.now))
  }

  function PatientFromDomain(patient: Patient, env: Platform): (r: PatientDto)
    ensures r.id == patient.id && r.name == patient.name && r.email == patient.email && r.phone == patient.phone
    ensures r.dateOfBirth == env.formatDate(patient.dateOfBirth)
  {
    PatientDto(patient.id, patient.name, patient.email, patient.phone, env.formatDate(patient.dateOfBirth))
  }

  /** Sending a patient and reading it back keeps its identity and contact
      fields; it is the same patient whenever the date format reads back
      what it writes. */
  lemma PatientRoundTrip(patient: Patient, env: Platform)
    ensures var p := PatientToDomain(PatientFromDomain(patient, env), env);
      p.id == patient.id && p.name == patient.name && p.email == patient.email && p.phone == patient.phone
    ensures env.parseDate(env.formatDate(patient.dateOfBirth)) == Some(patient.dateOfBirth) ==>
      PatientToDomain(PatientFromDomain(patient, env), env) == patient
  {
  }

  // ---------------------------------------------------------------- DoctorDto

  datatype DoctorDto = DoctorDto(
    id: string,
    name: string,
    specialty: string,
    experience: string,
    nextAvailableSlot: string,
    pricePerConsultation: string,
    imageUrl: Option<string>,
    isTelehealthAvailable: bool,
    location: string,
    about: string,
    timeSlots: Option<seq<TimeSlotDto>>)

  /** The surnames the image mapping looks for, in the order it tries them. */
  const Surnames: seq<string> := ["García", "Rodríguez", "López", "Martínez", "González", "Fernández"]

  /** `getImageResourceForDoctor`: drawable `doctor_k` for the first surname
      (k-th in `Surnames`) the name contains, ignoring case; `doctor_1` when
      it contains none. */
  function ImageResourceForDoctor(name: string): (k: nat)
    ensures 1 <= k <= 6
  {
    if ContainsIgnoreCase(name, "García") then 1
    else if ContainsIgnoreCase(name, "Rodríguez") then 2
    else if ContainsIgnoreCase(name, "López") then 3
    else if ContainsIgnoreCase(name, "Martínez") then 4
    else if ContainsIgnoreCase(name, "González") then 5
    else if ContainsIgnoreCase(name, "Fernández") then 6
    else 1
  }

  function MentionedIn(name: string): string -> bool {
    surname => ContainsIgnoreCase(name, surname)
  }

  /** The image chosen is the one of the first surname in the list that the
      name mentions; a name that mentions none gets the first image. */
  lemma {:induction false} ImageIsFirstSurname(name: string)
    ensures var i := Lists.IndexOfFirst(Surnames, MentionedIn(name));
      ImageResourceForDoctor(name) == if i == -1 then 1 else i + 1
  {
    var p := MentionedIn(name);
    var i := Lists.IndexOfFirst(Surnames, p);
    assert p(Surnames[0]) == ContainsIgnoreCase(name, "García");
    assert p(Surnames[1]) == ContainsIgnoreCase(name, "Rodríguez");
    assert p(Surnames[2]) == ContainsIgnoreCase(name, "López");
    assert p(Surnames[3]) == ContainsIgnoreCase(name, "Martínez");
    assert p(Surnames[4]) == ContainsIgnoreCase(name, "González");
    assert p(Surnames[5]) == ContainsIgnoreCase(name, "Fernández");
  }

  /** The slots of a doctor: none when the field is absent, else one per DTO, in order. */
  function SlotsToDomain(slots: Option<seq<TimeSlotDto>>, env: Platform): (r: seq<TimeSlot>)
    ensures slots.None? ==> r == []
    ensures slots.Some? ==> (|r| == |slots.value| &&
      forall i :: 0 <= i < |r| ==> r[i] == TimeSlotToDomain(slots.value[i], env))
  {
    match slots
    case None => []
    case Some(dtos) => seq(|dtos|, i requires 0 <= i < |dtos| => TimeSlotToDomain(dtos[i], env))
  }

  /** Total: an unknown specialty becomes GENERAL_MEDICINE, an unparseable
      price 0, an unparseable date now, and missing slots the empty list. */
  function DoctorToDomain(dto: DoctorDto, env: Platform): (r: Doctor)
    ensures r.id == dto.id && r.name == dto.name && r.experience == dto.experience
    ensures r.isTelehealthAvailable == dto.isTelehealthAvailable
    ensures r.location == dto.location && r.about == dto.about
    ensures SpecialtyName(r.specialty) == dto.specialty ||
      (r.specialty == GeneralMedicine && forall s :: SpecialtyName(s) != dto.specialty)
    ensures env.parseDateTime(dto.nextAvailableSlot).Some? ==>
      r.nextAvailableSlot == env.parseDateTime(dto.nextAvailableSlot).value
    ensures env.parseDateTime(dto.nextAvailableSlot).None? ==> r.nextAvailableSlot == env.now
    ensures env.parseDecimal(dto.pricePerConsultation).Some? ==>
      r.pricePerConsultation == env.parseDecimal(dto.pricePerConsultation).value
    ensures env.parseDecimal(dto.pricePerConsultation).None? ==> r.pricePerConsultation == 0.0
    ensures r.imageResId == ImageResourceForDoctor(dto.name)
    ensures r.availableTimeSlots == SlotsToDomain(dto.timeSlots, env)
  {
    Doctor(
      dto.id,
      dto.name,
      SpecialtyValueOf(dto.specialty).GetOr(GeneralMedicine),
      dto.experience,
      env.parseDateTime(dto.nextAvailableSlot).GetOr(env.now),
      env.parseDecimal(dto.pricePerConsultation).GetOr(0.0),
      ImageResourceForDoctor(dto.name),
      dto.isTelehealthAvailable,
      dto.location,
      dto.about,
      SlotsToDomain(dto.timeSlots, env))
  }

  /** A specialty string that names a constant decodes to that constant. */
  lemma DecodesNamedSpecialty(dto: DoctorDto, env: Platform, s: Specialty)
    requires dto.specialty == SpecialtyName(s)
    ensures DoctorToDomain(dto, env).specialty == s
  {
  }

  // ---------------------------------------------------------------- AppointmentDto

  /** Read DTOs carry the nested `doctor`/`patient`; write DTOs carry only their ids. */
  datatype AppointmentDto = AppointmentDto(
    id: string,
    doctor: Option<DoctorDto>,
    patient: Option<PatientDto>,
    doctorId: Option<string>,
    patientId: Option<string>,
    date: string,
    consultationType: string,
    reason: string,
    status: string)

  /** Kotlin's `try { ConsultationType.valueOf(s) } catch { IN_PERSON }`. */
  function DecodeConsultationType(s: string): (t: ConsultationType)
    ensures ConsultationTypeName(t) == s || (t == InPerson && forall u :: ConsultationTypeName(u) != s)
  {
    ConsultationTypeValueOf(s).GetOr(InPerson)
  }

  /** Kotlin's `try { AppointmentStatus.valueOf(s) } catch { PENDING }`. */
  function DecodeStatus(s: string): (st: AppointmentStatus)
    ensures StatusName(st) == s || (st == Pending && forall u :: StatusName(u) != s)
  {
    StatusValueOf(s).GetOr(Pending)
  }

  /** Fails with IllegalStateException when the nested doctor is absent. */
  function AppointmentToDomain(dto: AppointmentDto, env: Platform): (r: Result<Appointment>)
    ensures r.Err? <==> dto.doctor.None?
    ensures r.Ok? ==> r.value.id == dto.id && r.value.reason == dto.reason
    ensures r.Ok? ==> r.value.doctor == DoctorToDomain(dto.doctor.value, env)
    ensures r.Ok? ==> r.value.consultationType == DecodeConsultationType(dto.consultationType)
    ensures r.Ok? ==> r.value.status == DecodeStatus(dto.status)
    ensures r.Ok? && env.parseDateTime(dto.date).Some? ==> r.value.date == env.parseDateTime(dto.date).value
    ensures r.Ok? && env.parseDateTime(dto.date).None? ==> r.value.date == env.now
  {
    match dto.doctor
    case None => Err("Doctor no puede ser null")
    case Some(d) =>
      Ok(Appointment(
        dto.id,
        DoctorToDomain(d, env),
        env.parseDateTime(dto.date).GetOr(env.now),
        DecodeConsultationType(dto.consultationType),
        dto.reason,
        DecodeStatus(dto.status)))
  }

  /** The DTO sent to create an appointment: ids instead of nested records. */
  function AppointmentFromDomain(appointment: Appointment, patientId: string, env: Platform): (r: AppointmentDto)
    ensures r.id == appointment.id && r.reason == appointment.reason
    ensures r.doctorId == Some(appointment.doctor.id) && r.patientId == Some(patientId)
    ensures r.doctor.None? && r.patient.None?
    ensures r.consultationType == ConsultationTypeName(appointment.consultationType)
    ensures r.status == StatusName(appointment.status)
    ensures r.date == env.formatDateTime(appointment.date)
  {
    AppointmentDto(
      appointment.id, None, None, Some(appointment.doctor.id), Some(patientId),
      env.formatDateTime(appointment.date),
      ConsultationTypeName(appointment.consultationType),
      appointment.reason,
      StatusName(appointment.status))
  }

  /** The enum names written for the server decode to the original values. */
  lemma EnumNamesRoundTrip(appointment: Appointment, patientId: string, env: Platform)
    ensures var dto := AppointmentFromDomain(appointment, patientId, env);
      DecodeConsultationType(dto.consultationType) == appointment.consultationType &&
      DecodeStatus(dto.status) == appointment.status
  {
    var dto := AppointmentFromDomain(appointment, patientId, env);
    assert ConsultationTypeValueOf(dto.consultationType).Some?;
    assert StatusValueOf(dto.status).Some?;
  }

  /** A write DTO is not a valid read DTO: decoding it fails. */
  lemma WriteDtoIsNotReadable(appointment: Appointment, patientId: string, env: Platform)
    ensures AppointmentToDomain(AppointmentFromDomain(appointment, patientId, env), env).Err?
  {
  }

  /** With the nested doctor put back, and a date format that reads back what
      it writes, the appointment survives the trip to the server and back. */
  lemma AppointmentRoundTrip(appointment: Appointment, patientId: string, env: Platform, doctor: DoctorDto)
    requires DoctorToDomain(doctor, env) == appointment.doctor
    requires env.parseDateTime(env.formatDateTime(appointment.date)) == Some(appointment.date)
    ensures AppointmentToDomain(AppointmentFromDomain(appointment, patientId, env).(doctor := Some(doctor)), env)
      == Ok(appointment)
  {
    EnumNamesRoundTrip(appointment, patientId, env);
  }
}
