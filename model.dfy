/** The domain records shared by every screen: doctors, time slots,
    appointments, patients, and the three enums with their Kotlin names. */
module Model {
  import opened Wrappers

  /** A `java.util.Date`, opaque except for its millisecond timestamp. */
  datatype Date = Date(time: int)

  datatype Specialty =
    | GeneralMedicine
    | Cardiology
    | Pediatrics
    | Dermatology
    | Neurology
    | Orthopedics

  /** The Kotlin constant name (`Specialty.name`). */
  function SpecialtyName(s: Specialty): string {
    match s
    case GeneralMedicine => "GENERAL_MEDICINE"
    case Cardiology => "CARDIOLOGY"
    case Pediatrics => "PEDIATRICS"
    case Dermatology => "DERMATOLOGY"
    case Neurology => "NEUROLOGY"
    case Orthopedics => "ORTHOPEDICS"
  }

  /** The name shown in the UI (`Specialty.displayName`). */
  function DisplayName(s: Specialty): string {
    match s
    case GeneralMedicine => "Medicina General"
    case Cardiology => "Cardiología"
    case Pediatrics => "Pediatría"
    case Dermatology => "Dermatología"
    case Neurology => "Neurología"
    case Orthopedics => "Traumatología"
  }

  /** The accent colour (`Specialty.color`), as an ARGB value. */
  function Color(s: Specialty): (c: int)
    ensures 0xFF00_0000 <= c <= 0xFFFF_FFFF
  {
    match s
    case GeneralMedicine => 0xFF4ECDC4
    case Cardiology => 0xFFFF6B9D
    case Pediatrics => 0xFF95E1D3
    case Dermatology => 0xFFFFA07A
    case Neurology => 0xFF9370DB
    case Orthopedics => 0xFF87CEEB
  }

  /** Kotlin's `Specialty.valueOf(name)`, with null where it would throw. */
  function SpecialtyValueOf(name: string): (r: Option<Specialty>)
    ensures r.Some? ==> SpecialtyName(r.value) == name
    ensures r.None? <==> forall s :: SpecialtyName(s) != name
  {
    if name == "GENERAL_MEDICINE" then Some(GeneralMedicine)
    else if name == "CARDIOLOGY" then Some(Cardiology)
    else if name == "PEDIATRICS" then Some(Pediatrics)
    else if name == "DERMATOLOGY" then Some(Dermatology)
    else if name == "NEUROLOGY" then Some(Neurology)
    else if name == "ORTHOPEDICS" then Some(Orthopedics)
    else None
  }

  /** The position of a constant in the enum's declaration (`Specialty.ordinal`). */
  function Ordinal(s: Specialty): nat {
    match s
    case GeneralMedicine => 0
    case Cardiology => 1
    case Pediatrics => 2
    case Dermatology => 3
    case Neurology => 4
    case Orthopedics => 5
  }

  /** `Specialty.getAll()`: every entry, in declaration order. */
  function GetAll(): (r: seq<Specialty>)
    ensures |r| == 6
    ensures forall i :: 0 <= i < |r| ==> Ordinal(r[i]) == i
    ensures forall i, j :: 0 <= i < j < |r| ==> r[i] != r[j]
  {
    [GeneralMedicine, Cardiology, Pediatrics, Dermatology, Neurology, Orthopedics]
  }

  /** `getAll()` lists every specialty. */
  lemma GetAllComplete(s: Specialty)
    ensures s in GetAll()
  {
  }

  /** `Specialty.getDisplayNames()`: the display name of each entry, in order. */
  function GetDisplayNames(): (r: seq<string>)
    ensures |r| == |GetAll()|
    ensures forall i :: 0 <= i < |r| ==> r[i] == DisplayName(GetAll()[i])
  {
    seq(|GetAll()|, i requires 0 <= i < |GetAll()| => DisplayName(GetAll()[i]))
  }

  /** No two specialties share a display name, so a display name identifies
      its specialty. */
  lemma DisplayNameInjective(a: Specialty, b: Specialty)
    ensures DisplayName(a) == DisplayName(b) ==> a == b
  {
    if DisplayName(a) == DisplayName(b) {
      var da, db := DisplayName(a), DisplayName(b);
      assert da[0] == db[0] && |da| == |db|;
      if da[0] == 'P' || da[0] == 'D' || da[0] == 'N' {
        assert da[1] == db[1];
      }
    }
  }

  datatype ConsultationType = InPerson | Telehealth

  function ConsultationTypeName(t: ConsultationType): string {
    match t
    case InPerson => "IN_PERSON"
    case Telehealth => "TELEHEALTH"
  }

  /** Kotlin's `ConsultationType.valueOf(name)`, with null where it would throw. */
  function ConsultationTypeValueOf(name: string): (r: Option<ConsultationType>)
    ensures r.Some? ==> ConsultationTypeName(r.value) == name
    ensures r.None? <==> forall t :: ConsultationTypeName(t) != name
  {
    if name == "IN_PERSON" then Some(InPerson)
    else if name == "TELEHEALTH" then Some(Telehealth)
    else None
  }

  datatype AppointmentStatus = Confirmed | Pending | Cancelled | Completed

  function StatusName(s: AppointmentStatus): string {
    match s
    case Confirmed => "CONFIRMED"
    case Pending => "PENDING"
    case Cancelled => "CANCELLED"
    case Completed => "COMPLETED"
  }

  /** Kotlin's `AppointmentStatus.valueOf(name)`, with null where it would throw. */
  function StatusValueOf(name: string): (r: Option<AppointmentStatus>)
    ensures r.Some? ==> StatusName(r.value) == name
    ensures r.None? <==> forall s :: StatusName(s) != name
  {
    if name == "CONFIRMED" then Some(Confirmed)
    else if name == "PENDING" then Some(Pending)
    else if name == "CANCELLED" then Some(Cancelled)
    else if name == "COMPLETED" then Some(Completed)
    else None
  }

  datatype TimeSlot = TimeSlot(id: string, dateTime: Date, isAvailable: bool)

  /** A doctor; `imageResId` k stands for the drawable `doctor_k`. */
  datatype Doctor = Doctor(
    id: string,
    name: string,
    specialty: Specialty,
    experience: string,
    nextAvailableSlot: Date,
    pricePerConsultation: real,
    imageResId: nat,
    isTelehealthAvailable: bool,
    location: string,
    about: string,
    availableTimeSlots: seq<TimeSlot>)

  /** An appointment; it embeds a snapshot of the doctor, not a reference. */
  datatype Appointment = Appointment(
    id: string,
    doctor: Doctor,
    date: Date,
    consultationType: ConsultationType,
    reason: string,
    status: AppointmentStatus)

  datatype Patient = Patient(id: string, name: string, email: string, phone: string, dateOfBirth: Date)

  /** The predicate `it.id == id` of the repositories' lookups. */
  function DoctorHasId(id: string): Doctor -> bool {
    (d: Doctor) => d.id == id
  }

  function AppointmentHasId(id: string): Appointment -> bool {
    (a: Appointment) => a.id == id
  }
}
