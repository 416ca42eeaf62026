/** The booking screen: three field validators, the checks run before
    booking, and `bookAppointment`, which either appends exactly one
    CONFIRMED appointment to the store or changes nothing but the screen. */
module Booking {
  import opened Wrappers
  import opened Model
  import opened Text
  import opened AppointmentStore
  import DoctorRepository
  import SampleData

  const MaxReasonLength: nat := 500
  const MinReasonLength: nat := 5

  const ReasonTooLong: string := "El motivo no puede exceder 500 caracteres"
  const ReasonTooShort: string := "El motivo debe tener al menos 5 caracteres"
  const NoSlotSelected: string := "Debe seleccionar una fecha y hora"
  const SlotUnavailable: string := "Este horario ya no está disponible"
  const DoctorNotFound: string := "Error: Doctor no encontrado"
  const NoTelehealth: string := "Este doctor no ofrece teleconsulta"
  const FixErrors: string := "Por favor, corrija los errores antes de continuar"

  datatype BookingUiState = BookingUiState(
    doctor: Option<Doctor>,
    selectedDate: string,
    selectedTime: string,
    selectedTimeSlot: Option<TimeSlot>,
    consultationType: ConsultationType,
    reason: string,
    isLoading: bool,
    errorMessage: Option<string>,
    reasonError: Option<string>,
    timeSlotError: Option<string>,
    consultationTypeError: Option<string>)

  const InitialBookingState: BookingUiState :=
    BookingUiState(None, "", "", None, InPerson, "", false, None, None, None, None)

  /** Too long (by untrimmed length) is checked first; a blank reason is never
      too short. Lengths are Kotlin's, in UTF-16 code units. */
  function ValidateReason(reason: string): (error: Option<string>)
    ensures error.Some? <==>
      (Utf16Length(reason) > MaxReasonLength || (!IsBlank(reason) && Utf16Length(Trim(reason)) < MinReasonLength))
    ensures Utf16Length(reason) > MaxReasonLength ==> error == Some(ReasonTooLong)
    ensures Utf16Length(reason) <= MaxReasonLength && error.Some? ==> error == Some(ReasonTooShort)
  {
    if Utf16Length(reason) > MaxReasonLength then Some(ReasonTooLong)
    else if Utf16Length(Trim(reason)) < MinReasonLength && !IsBlank(reason) then Some(ReasonTooShort)
    else None
  }

  /** A reason with no surrounding whitespace is its own trim. */
  lemma TrimOfUnpadded(s: string)
    requires s != [] && !IsWhitespace(s[0]) && !IsWhitespace(s[|s| - 1])
    ensures Trim(s) == s
  {
  }

  /** A reason of 5 to 500 UTF-16 code units that neither starts nor ends
      with whitespace is valid; in particular one of exactly 500 letters is. */
  lemma UnpaddedReasonValid(reason: string)
    requires MinReasonLength <= Utf16Length(reason) <= MaxReasonLength
    requires !IsWhitespace(reason[0]) && !IsWhitespace(reason[|reason| - 1])
    ensures ValidateReason(reason) == None
  {
    TrimOfUnpadded(reason);
    assert !IsBlank(reason) by { assert !IsWhitespace(reason[0]); }
    TrimmedReasonValid(reason);
  }

  /** A non-blank reason that trimming leaves as it is, 5 to 500 units long, is valid. */
  lemma {:induction false} TrimmedReasonValid(reason: string)
    requires Trim(reason) == reason && !IsBlank(reason)
    requires MinReasonLength <= Utf16Length(reason) <= MaxReasonLength
    ensures ValidateReason(reason) == None
  {
  }

  /** The empty reason is valid. */
  lemma EmptyReasonValid()
    ensures ValidateReason("") == None
  {
    assert IsBlank("");
  }

  /** Four characters can be long enough: an emoji beyond the Basic
      Multilingual Plane counts as two code units, so "abc" and one emoji make 5. */
  lemma SurrogatePairCountsTwice()
    ensures ValidateReason("abc\U{1F600}") == None
  {
    var reason := "abc\U{1F600}";
    assert UnitsBefore(reason, 3) == 3;
    assert Utf16Length(reason) == 5;
    TrimOfUnpadded(reason);
    assert !IsBlank(reason) by { assert !IsWhitespace(reason[0]); }
  }

  /** 251 emoji beyond the Basic Multilingual Plane are 502 code units, so
      such a reason is too long although it has only 251 characters. */
  lemma SupplementaryReasonTooLong(reason: string)
    requires |reason| > MaxReasonLength / 2
    requires forall i :: 0 <= i < |reason| ==> reason[i] as int > 0xFFFF
    ensures ValidateReason(reason) == Some(ReasonTooLong)
  {
    Utf16LengthOfSupplementary(reason);
  }

  /** Three letters inside a space on each side are too short: the length
      check uses the trimmed text. */
  lemma PaddedReasonTooShort()
    ensures ValidateReason(" abc ") == Some(ReasonTooShort)
  {
    var padded := " abc ";
    assert !IsWhitespace(padded[1]);
    assert TrimStart(padded) == "abc " by {
      assert padded[1..] == "abc ";
      assert !IsWhitespace("abc "[0]);
    }
    assert TrimEnd("abc ") == "abc" by {
      assert "abc "[..3] == "abc";
      assert !IsWhitespace("abc"[2]);
    }
    assert Trim(padded) == "abc";
    Utf16LengthOfBmp("abc");
  }

  function ValidateTimeSlot(slot: Option<TimeSlot>): (error: Option<string>)
    ensures error.None? <==> slot.Some? && slot.value.isAvailable
    ensures slot.None? ==> error == Some(NoSlotSelected)
    ensures slot.Some? && !slot.value.isAvailable ==> error == Some(SlotUnavailable)
  {
    match slot
    case None => Some(NoSlotSelected)
    case Some(s) => if !s.isAvailable then Some(SlotUnavailable) else None
  }

  function ValidateConsultationType(doctor: Option<Doctor>, t: ConsultationType): (error: Option<string>)
    ensures error.None? <==> doctor.Some? && (t == Telehealth ==> doctor.value.isTelehealthAvailable)
    ensures doctor.None? ==> error == Some(DoctorNotFound)
    ensures doctor.Some? && t == InPerson ==> error.None?
    ensures doctor.Some? && error.Some? ==> error == Some(NoTelehealth)
  {
    match doctor
    case None => Some(DoctorNotFound)
    case Some(d) => if t == Telehealth && !d.isTelehealthAvailable then Some(NoTelehealth) else None
  }

  /** The state `validateAllFields` writes: the three field errors (the
      reason is checked only when it is not blank) and no error message. */
  function WithValidation(st: BookingUiState): BookingUiState {
    st.(timeSlotError := ValidateTimeSlot(st.selectedTimeSlot),
        consultationTypeError := ValidateConsultationType(st.doctor, st.consultationType),
        reasonError := if !IsBlank(st.reason) then ValidateReason(st.reason) else None,
        errorMessage := None)
  }

  predicate AllFieldsValid(st: BookingUiState) {
    var v := WithValidation(st);
    v.timeSlotError.None? && v.consultationTypeError.None? && v.reasonError.None?
  }

  /** Booking is allowed exactly when an available slot and a doctor are
      chosen, telehealth is on offer if asked for, and the reason is blank or
      at most 500 UTF-16 code units long and at least 5 once trimmed (a blank
      reason is not length-checked). */
  lemma {:induction false} AllFieldsValidMeaning(st: BookingUiState)
    ensures AllFieldsValid(st) <==>
      st.selectedTimeSlot.Some? && st.selectedTimeSlot.value.isAvailable &&
      st.doctor.Some? && (st.consultationType == Telehealth ==> st.doctor.value.isTelehealthAvailable) &&
      (IsBlank(st.reason) ||
       (Utf16Length(st.reason) <= MaxReasonLength && Utf16Length(Trim(st.reason)) >= MinReasonLength))
    ensures AllFieldsValid(st) ==> st.doctor.Some? && st.selectedTimeSlot.Some?
  {
    var r := ValidateReason(st.reason);
    var t := ValidateTimeSlot(st.selectedTimeSlot);
    var c := ValidateConsultationType(st.doctor, st.consultationType);
    assert AllFieldsValid(st) <==> t.None? && c.None? && (IsBlank(st.reason) || r.None?);
  }

  class BookingViewModel {
    var uiState: BookingUiState
    const appointmentRepository: AppointmentRepository

    constructor ()
      ensures uiState == InitialBookingState
      ensures fresh(appointmentRepository)
      ensures appointmentRepository.appointments == SampleData.SampleAppointments
    {
      uiState := InitialBookingState;
      appointmentRepository := new AppointmentRepository();
    }

    method LoadDoctor(doctorId: string)
      modifies this
      ensures uiState == old(uiState).(doctor := DoctorRepository.GetDoctorById(doctorId))
    {
      var doctor := DoctorRepository.GetDoctorById(doctorId);
      uiState := uiState.(doctor := doctor);
    }

    /** `dateText` is `Date.toString()`. */
    method OnTimeSlotSelected(timeSlot: TimeSlot, dateText: Date -> string)
      modifies this
      ensures uiState == old(uiState).(selectedTimeSlot := Some(timeSlot), selectedDate := dateText(timeSlot.dateTime))
    {
      uiState := uiState.(selectedTimeSlot := Some(timeSlot), selectedDate := dateText(timeSlot.dateTime));
    }

    method OnConsultationTypeChanged(t: ConsultationType)
      modifies this
      ensures uiState == old(uiState).(consultationType := t)
    {
      uiState := uiState.(consultationType := t);
    }

    method OnReasonChanged(reason: string)
      modifies this
      ensures uiState == old(uiState).(reason := reason, reasonError := ValidateReason(reason))
    {
      uiState := uiState.(reason := reason, reasonError := ValidateReason(reason));
    }

    method ValidateAllFields() returns (valid: bool)
      modifies this
      ensures uiState == WithValidation(old(uiState))
      ensures valid <==> AllFieldsValid(old(uiState))
    {
      var timeSlotError := ValidateTimeSlot(uiState.selectedTimeSlot);
      var consultationTypeError := ValidateConsultationType(uiState.doctor, uiState.consultationType);
      var reasonError := if !IsBlank(uiState.reason) then ValidateReason(uiState.reason) else None;
      uiState := uiState.(timeSlotError := timeSlotError, consultationTypeError := consultationTypeError,
                          reasonError := reasonError, errorMessage := None);
      valid := timeSlotError.None? && consultationTypeError.None? && reasonError.None?;
    }

    /** `stamp` is the decimal text of the clock reading that names the new appointment. */
    method BookAppointment(stamp: string) returns (id: string)
      modifies this, appointmentRepository
      ensures !uiState.isLoading
      ensures !AllFieldsValid(old(uiState)) ==>
        id == "" &&
        appointmentRepository.appointments == old(appointmentRepository.appointments) &&
        uiState == WithValidation(old(uiState)).(isLoading := false, errorMessage := Some(FixErrors))
      ensures AllFieldsValid(old(uiState)) ==>
        id == "apt_" + stamp &&
        |appointmentRepository.appointments| == |old(appointmentRepository.appointments)| + 1 &&
        appointmentRepository.appointments[..|old(appointmentRepository.appointments)|]
          == old(appointmentRepository.appointments) &&
        uiState == WithValidation(old(uiState)).(isLoading := false)
      ensures AllFieldsValid(old(uiState)) ==>
        var a := appointmentRepository.appointments[|appointmentRepository.appointments| - 1];
        a.id == id && a.status == Confirmed &&
        a.doctor == old(uiState).doctor.value &&
        a.date == old(uiState).selectedTimeSlot.value.dateTime &&
        a.consultationType == old(uiState).consultationType &&
        a.reason == Trim(old(uiState).reason)
    {
      AllFieldsValidMeaning(uiState);
      uiState := uiState.(isLoading := true, errorMessage := None);
      var valid := ValidateAllFields();
      if !valid {
        uiState := uiState.(isLoading := false, errorMessage := Some(FixErrors));
        return "";
      }
      var doctor := uiState.doctor.value;
      var timeSlot := uiState.selectedTimeSlot.value;
      var newAppointment := Appointment("apt_" + stamp, doctor, timeSlot.dateTime,
        uiState.consultationType, Trim(uiState.reason), Confirmed);
      appointmentRepository.AddAppointment(newAppointment);
      uiState := uiState.(isLoading := false);
      id := newAppointment.id;
    }

    method ClearError()
      modifies this
      ensures uiState == old(uiState).(errorMessage := None)
    {
      uiState := uiState.(errorMessage := None);
    }
  }
}
