/** The home screen of the first app version (`home/Homeviewmodel.kt`): the
    first six catalog doctors, loaded at construction. */
module AppFeaturedHome {
  import opened Model
  import opened Lists
  import DoctorRepository

  const FeaturedCount: nat := 6

  datatype HomeUiState = HomeUiState(featuredDoctors: seq<Doctor>)

  class HomeViewModel {
    var uiState: HomeUiState

    constructor ()
      ensures uiState.featuredDoctors == Take(DoctorRepository.GetAllDoctors(), FeaturedCount)
    {
      uiState := HomeUiState([]);
      new;
      LoadFeaturedDoctors();
    }

    method LoadFeaturedDoctors()
      modifies this
      ensures uiState.featuredDoctors == Take(DoctorRepository.GetAllDoctors(), FeaturedCount)
    {
      var doctors := Take(DoctorRepository.GetAllDoctors(), FeaturedCount);
      uiState := uiState.(featuredDoctors := doctors);
    }
  }

  /** The sample catalog has exactly six doctors, so all of them are featured. */
  lemma FeaturesWholeSampleCatalog()
    ensures Take(DoctorRepository.GetAllDoctors(), FeaturedCount) == DoctorRepository.GetAllDoctors()
  {
  }
}

/** The home screen in `screens/HomeViewModel.kt`: every stored appointment
    (no status filter) and the first three catalog doctors. */
module AppDashboardHome {
  import opened Model
  import opened Lists
  import opened AppointmentStore
  import DoctorRepository

  const FeaturedCount: nat := 3

  datatype HomeUiState = HomeUiState(isLoading: bool, upcomingAppointments: seq<Appointment>, featuredDoctors: seq<Doctor>)

  class HomeViewModel {
    var uiState: HomeUiState
    const appointmentRepository: AppointmentRepository

    constructor (appointmentRepository: AppointmentRepository)
      ensures this.appointmentRepository == appointmentRepository
      ensures uiState == HomeUiState(false, appointmentRepository.appointments,
                                     Take(DoctorRepository.GetAllDoctors(), FeaturedCount))
    {
      uiState := HomeUiState(false, [], []);
      this.appointmentRepository := appointmentRepository;
      new;
      LoadData();
    }

    method LoadData()
      modifies this
      ensures uiState == HomeUiState(false, appointmentRepository.appointments,
                                     Take(DoctorRepository.GetAllDoctors(), FeaturedCount))
      ensures appointmentRepository.appointments == old(appointmentRepository.appointments)
    {
      uiState := uiState.(isLoading := true);
      var appointments := appointmentRepository.GetAllAppointments();
      var doctors := Take(DoctorRepository.GetAllDoctors(), FeaturedCount);
      uiState := uiState.(isLoading := false, upcomingAppointments := appointments, featuredDoctors := doctors);
    }
  }
}

/** The home screen of the mobile app: it follows the doctor flow, and each
    emitted list replaces the featured doctors by its first six entries. */
module MobileHome {
  import opened Model
  import opened Lists

  const FeaturedCount: nat := 6

  datatype HomeUiState = HomeUiState(featuredDoctors: seq<Doctor>)

  class HomeViewModel {
    var uiState: HomeUiState

    /** `emissions` are the lists the doctor flow emits after subscription. */
    constructor (emissions: seq<seq<Doctor>>)
      ensures emissions == [] ==> uiState.featuredDoctors == []
      ensures emissions != [] ==> uiState.featuredDoctors == Take(emissions[|emissions| - 1], FeaturedCount)
    {
      uiState := HomeUiState([]);
      new;
      var i := 0;
      while i < |emissions|
        invariant 0 <= i <= |emissions|
        invariant i == 0 ==> uiState.featuredDoctors == []
        invariant i > 0 ==> uiState.featuredDoctors == Take(emissions[i - 1], FeaturedCount)
      {
        OnDoctors(emissions[i]);
        i := i + 1;
      }
    }

    /** The body of the `collect`: one emission. */
    method OnDoctors(doctors: seq<Doctor>)
      modifies this
      ensures uiState == old(uiState).(featuredDoctors := Take(doctors, FeaturedCount))
    {
      uiState := uiState.(featuredDoctors := Take(doctors, FeaturedCount));
    }
  }
}
