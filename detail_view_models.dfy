/** The doctor detail screen of the mobile app: after a load the screen shows
    either the doctor or the error "Doctor no encontrado", never both. The
    Room-backed repository is represented by its lookup function. */
module MobileDoctorDetail {
  import opened Wrappers
  import opened Model

  const NotFound: string := "Doctor no encontrado"

  datatype DoctorDetailUiState = DoctorDetailUiState(doctor: Option<Doctor>, isLoading: bool, error: Option<string>)

  const InitialDetailState: DoctorDetailUiState := DoctorDetailUiState(None, true, None)

  /** The state `loadDoctor` settles in, given the repository's answer. */
  function AfterLoad(answer: Option<Doctor>): (st: DoctorDetailUiState)
    ensures !st.isLoading
    ensures st.doctor == answer
    ensures st.doctor.Some? <==> st.error.None?
    ensures st.error.Some? ==> st.error == Some(NotFound)
  {
    match answer
    case Some(d) => DoctorDetailUiState(Some(d), false, None)
    case None => DoctorDetailUiState(None, false, Some(NotFound))
  }

  class DoctorDetailViewModel {
    var uiState: DoctorDetailUiState
    /** `doctorRepository.getDoctorById`. */
    const getDoctorById: string -> Option<Doctor>

    constructor (getDoctorById: string -> Option<Doctor>)
      ensures uiState == InitialDetailState
      ensures this.getDoctorById == getDoctorById
    {
      uiState := InitialDetailState;
      this.getDoctorById := getDoctorById;
    }

    method LoadDoctor(doctorId: string)
      modifies this
      ensures uiState == AfterLoad(getDoctorById(doctorId))
    {
      uiState := uiState.(isLoading := true);
      var doctor := getDoctorById(doctorId);
      if doctor.Some? {
        uiState := uiState.(doctor := doctor, isLoading := false, error := None);
      } else {
        uiState := uiState.(doctor := None, isLoading := false, error := Some(NotFound));
      }
    }
  }
}

/** The doctor detail screen of the first app version: the doctor is the
    catalog lookup, which is null for an unknown id. */
module AppDoctorDetail {
  import opened Wrappers
  import opened Model
  import DoctorRepository

  datatype DoctorDetailUiState = DoctorDetailUiState(isLoading: bool, doctor: Option<Doctor>)

  const InitialDetailState: DoctorDetailUiState := DoctorDetailUiState(false, None)

  /** The state after `loadDoctor(doctorId)`. */
  function AfterLoad(doctorId: string): (st: DoctorDetailUiState)
    ensures !st.isLoading
    ensures st.doctor.Some? ==> st.doctor.value in DoctorRepository.GetAllDoctors() && st.doctor.value.id == doctorId
    ensures st.doctor.None? <==> forall d :: d in DoctorRepository.GetAllDoctors() ==> d.id != doctorId
  {
    DoctorDetailUiState(false, DoctorRepository.GetDoctorById(doctorId))
  }

  class DoctorDetailViewModel {
    var uiState: DoctorDetailUiState

    constructor ()
      ensures uiState == InitialDetailState
    {
      uiState := InitialDetailState;
    }

    method LoadDoctor(doctorId: string)
      modifies this
      ensures uiState == AfterLoad(doctorId)
    {
      uiState := uiState.(isLoading := true);
      var doctor := DoctorRepository.GetDoctorById(doctorId);
      uiState := uiState.(isLoading := false, doctor := doctor);
    }
  }

  /** Loading the same id twice leaves the state a single load leaves. */
  method LoadTwiceIsLoadOnce(vm: DoctorDetailViewModel, doctorId: string)
    modifies vm
    ensures vm.uiState == AfterLoad(doctorId)
  {
    vm.LoadDoctor(doctorId);
    var once := vm.uiState;
    vm.LoadDoctor(doctorId);
    assert vm.uiState == once;
  }
}
