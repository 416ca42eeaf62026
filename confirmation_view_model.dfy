/** The confirmation screen: it looks the booked appointment up by id and
    only ever reads the store. */
module Confirmation {
  import opened Wrappers
  import opened Model
  import opened Lists
  import opened AppointmentStore

  datatype ConfirmationUiState = ConfirmationUiState(appointment: Option<Appointment>, isLoading: bool)

  const InitialConfirmationState: ConfirmationUiState := ConfirmationUiState(None, true)

  class ConfirmationViewModel {
    var uiState: ConfirmationUiState
    const appointmentRepository: AppointmentRepository

    constructor (appointmentRepository: AppointmentRepository)
      ensures uiState == InitialConfirmationState
      ensures this.appointmentRepository == appointmentRepository
    {
      uiState := InitialConfirmationState;
      this.appointmentRepository := appointmentRepository;
    }

    method LoadAppointment(appointmentId: string)
      modifies this
      ensures !uiState.isLoading
      ensures uiState.appointment == Find(appointmentRepository.appointments, AppointmentHasId(appointmentId))
      ensures uiState.appointment.None? <==> forall a :: a in appointmentRepository.appointments ==> a.id != appointmentId
      ensures appointmentRepository.appointments == old(appointmentRepository.appointments)
    {
      var appointment := appointmentRepository.GetAppointmentById(appointmentId);
      uiState := uiState.(appointment := appointment, isLoading := false);
    }
  }

  /** Right after booking, the confirmation screen finds the new appointment:
      ids in the store made by booking are fresh, so the lookup of the id of an
      appended appointment whose id was not yet taken gives that appointment. */
  lemma {:induction false} FindsAppendedAppointment(s: seq<Appointment>, a: Appointment)
    requires forall b :: b in s ==> b.id != a.id
    ensures Find(s + [a], AppointmentHasId(a.id)) == Some(a)
  {
    if s == [] {
      assert s + [a] == [a];
    } else {
      assert (s + [a])[1..] == s[1..] + [a];
      assert !AppointmentHasId(a.id)(s[0]);
      FindsAppendedAppointment(s[1..], a);
    }
  }
}
