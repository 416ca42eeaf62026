/** The fixed catalog the in-memory repositories start from. Dates are opaque:
    a fixture date is written as the number yyyymmddhhmm of its local time,
    and a doctor's next free slot as its offset in milliseconds from the
    moment the catalog is built. */
module SampleData {
  import opened Model

  function Slot(id: string, stamp: int): TimeSlot {
    TimeSlot(id, Date(stamp), true)
  }

  const SampleTimeSlots: seq<TimeSlot> := [
    Slot("slot_1", 202501270900),
    Slot("slot_2", 202501271030),
    Slot("slot_3", 202501271400),
    Slot("slot_4", 202501271630),
    Slot("slot_5", 202501280900),
    Slot("slot_6", 202501281100),
    Slot("slot_7", 202501281500),
    Slot("slot_8", 202501290930),
    Slot("slot_9", 202501291300),
    Slot("slot_10", 202501291600)
  ]

  const Hour: int := 60 * 60 * 1000
  const Day: int := 24 * Hour

  const DoctorGonzalez: Doctor := Doctor(
    "doc_1", "Dra. María González", Cardiology, "15 años", Date(2 * Hour), 120.0, 1, true,
    "Clínica San Pablo, Surco",
    "Especialista en cardiología con amplia experiencia en el diagnóstico y tratamiento de enfermedades cardiovasculares.",
    SampleTimeSlots)

  const DoctorRamirez: Doctor := Doctor(
    "doc_2", "Dr. Carlos Ramírez", GeneralMedicine, "10 años", Date(Day + 10 * Hour), 80.0, 2, true,
    "Clínica Ricardo Palma, San Isidro",
    "Médico general con enfoque en medicina preventiva y atención primaria.",
    SampleTimeSlots)

  const DoctorMorales: Doctor := Doctor(
    "doc_3", "Dra. Ana Morales", Pediatrics, "12 años", Date(5 * Hour), 100.0, 3, false,
    "Hospital Rebagliati, Jesús María",
    "Pediatra especializada en el cuidado integral de niños y adolescentes.",
    SampleTimeSlots)

  const DoctorTorres: Doctor := Doctor(
    "doc_4", "Dr. Luis Torres", Dermatology, "8 años", Date(5 * Day + 11 * Hour), 110.0, 4, true,
    "Dermacentro, Miraflores",
    "Dermatólogo especializado en dermatología clínica y estética.",
    SampleTimeSlots)

  const DoctorVega: Doctor := Doctor(
    "doc_5", "Dra. Patricia Vega", Neurology, "18 años", Date(6 * Day + 14 * Hour), 150.0, 5, false,
    "Clínica Anglo Americana, San Isidro",
    "Neuróloga con subespecialidad en cefaleas y trastornos del movimiento.",
    SampleTimeSlots)

  const DoctorFlores: Doctor := Doctor(
    "doc_6", "Dr. Roberto Flores", Orthopedics, "14 años", Date(3 * Day + 16 * Hour), 130.0, 6, false,
    "Clínica San Felipe, Jesús María",
    "Traumatólogo especializado en lesiones deportivas y cirugía artroscópica.",
    SampleTimeSlots)

  const SampleDoctors: seq<Doctor> :=
    [DoctorGonzalez, DoctorRamirez, DoctorMorales, DoctorTorres, DoctorVega, DoctorFlores]

  const SampleAppointments: seq<Appointment> := [
    Appointment("apt_1", DoctorGonzalez, Date(202510271500), Telehealth, "Control de presión arterial", Confirmed),
    Appointment("apt_2", DoctorRamirez, Date(202510291000), InPerson, "Chequeo general anual", Confirmed),
    Appointment("apt_3", DoctorMorales, Date(202510252000), InPerson, "Control pediátrico mensual", Pending),
    Appointment("apt_4", DoctorGonzalez, Date(202509201200), Telehealth, "Control de presión arterial", Completed)
  ]
}
