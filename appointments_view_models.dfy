/** The "Mis citas" screen of the mobile app: it keeps both tabs in step
    with the repository, recomputing them after every change. */
module MobileAppointments {
  import opened Model
  import opened AppointmentStore
  import opened Appointments

  datatype AppointmentsUiState = AppointmentsUiState(
    selectedTab: int,
    upcomingAppointments: seq<Appointment>,
    pastAppointments: seq<Appointment>)

  class AppointmentsViewModel {
    var uiState: AppointmentsUiState
    const repository: AppointmentRepository

    /** Both tabs show the split of the repository's current list. */
    ghost predicate InSync()
      reads this, repository
    {
      uiState.upcomingAppointments == Upcoming(repository.appointments) &&
      uiState.pastAppointments == Past(repository.appointments)
    }

    /** The state is constructed with tab 0 and both lists already loaded. */
    constructor (repository: AppointmentRepository)
      ensures this.repository == repository
      ensures uiState.selectedTab == 0
      ensures InSync()
    {
      this.repository := repository;
      var all := repository.GetAllAppointments();
      uiState := AppointmentsUiState(0, Upcoming(all), Past(all));
    }

    method LoadAppointments()
      modifies this
      ensures uiState == old(uiState).(upcomingAppointments := uiState.upcomingAppointments,
                                       pastAppointments := uiState.pastAppointments)
      ensures InSync()
    {
      var all := repository.GetAllAppointments();
      uiState := uiState.(upcomingAppointments := Upcoming(all), pastAppointments := Past(all));
    }

    method OnTabSelected(tab: int)
      modifies this
      ensures uiState == old(uiState).(selectedTab := tab)
    {
      uiState := uiState.(selectedTab := tab);
    }

    method CancelAppointment(id: string)
      modifies this, repository
      ensures repository.appointments == CancelById(old(repository.appointments), id)
      ensures uiState.selectedTab == old(uiState.selectedTab)
      ensures InSync()
    {
      repository.CancelAppointment(id);
      LoadAppointments();
    }

    method RescheduleAppointment(id: string, date: Date)
      modifies this, repository
      ensures repository.appointments == RescheduleById(old(repository.appointments), id, date)
      ensures uiState.selectedTab == old(uiState.selectedTab)
      ensures InSync()
    {
      repository.RescheduleAppointment(id, date);
      LoadAppointments();
    }
  }
}

/** The "Mis citas" screen of the first app version. Its repository has no
    reschedule with a date and a time string, so the model takes the function
    that combines the two into a date as a parameter. */
module AppAppointments {
  import opened Model
  import opened AppointmentStore
  import opened Appointments
  import SampleData

  datatype AppointmentsUiState = AppointmentsUiState(
    upcomingAppointments: seq<Appointment>,
    pastAppointments: seq<Appointment>,
    selectedTab: int,
    isLoading: bool)

  class AppointmentsViewModel {
    var uiState: AppointmentsUiState
    const repository: AppointmentRepository

    ghost predicate InSync()
      reads this, repository
    {
      uiState.upcomingAppointments == Upcoming(repository.appointments) &&
      uiState.pastAppointments == Past(repository.appointments)
    }

    /** The view model owns a fresh repository holding the sample appointments. */
    constructor ()
      ensures fresh(repository)
      ensures repository.appointments == SampleData.SampleAppointments
      ensures uiState.selectedTab == 0 && !uiState.isLoading
      ensures InSync()
    {
      var store := new AppointmentRepository();
      repository := store;
      uiState := AppointmentsUiState(Upcoming(store.appointments), Past(store.appointments), 0, false);
    }

    method LoadAppointments()
      modifies this
      ensures uiState == old(uiState).(upcomingAppointments := uiState.upcomingAppointments,
                                       pastAppointments := uiState.pastAppointments)
      ensures InSync()
    {
      var all := repository.GetAllAppointments();
      uiState := uiState.(upcomingAppointments := Upcoming(all), pastAppointments := Past(all));
    }

    method OnTabSelected(tabIndex: int)
      modifies this
      ensures uiState == old(uiState).(selectedTab := tabIndex)
    {
      uiState := uiState.(selectedTab := tabIndex);
    }

    method CancelAppointment(id: string)
      modifies this, repository
      ensures repository.appointments == CancelById(old(repository.appointments), id)
      ensures uiState.selectedTab == old(uiState.selectedTab) && uiState.isLoading == old(uiState.isLoading)
      ensures InSync()
    {
      repository.CancelAppointment(id);
      LoadAppointments();
    }

    method RescheduleAppointment(id: string, newDate: string, newTime: string, toDate: (string, string) -> Date)
      modifies this, repository
      ensures repository.appointments == RescheduleById(old(repository.appointments), id, toDate(newDate, newTime))
      ensures uiState.selectedTab == old(uiState.selectedTab) && uiState.isLoading == old(uiState.isLoading)
      ensures InSync()
    {
      repository.RescheduleAppointment(id, toDate(newDate, newTime));
      LoadAppointments();
    }
  }
}
