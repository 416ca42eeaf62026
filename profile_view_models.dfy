/** The profile screen of the mobile app: a fixed patient and an edit switch. */
module MobileProfile {
  import opened Model

  /** The default patient; `dateOfBirth` is the parse of "15/03/2006" with the
      pattern "dd/MM/yyyy". */
  function DefaultPatient(dateOfBirth: Date): Patient {
    Patient("1", "Aldy Montoya", "aldy.montoya@gmail.com", "+51 987 654 321", dateOfBirth)
  }

  datatype ProfileUiState = ProfileUiState(patient: Patient, isEditing: bool)

  class ProfileViewModel {
    var uiState: ProfileUiState

    constructor (dateOfBirth: Date)
      ensures uiState == ProfileUiState(DefaultPatient(dateOfBirth), false)
    {
      uiState := ProfileUiState(DefaultPatient(dateOfBirth), false);
    }

    method ToggleEditMode()
      modifies this
      ensures uiState.isEditing == !old(uiState).isEditing
      ensures uiState.patient == old(uiState).patient
    {
      uiState := uiState.(isEditing := !uiState.isEditing);
    }
  }

  /** Toggling twice restores the state. */
  method ToggleTwiceRestores(vm: ProfileViewModel)
    modifies vm
    ensures vm.uiState == old(vm.uiState)
  {
    vm.ToggleEditMode();
    vm.ToggleEditMode();
  }
}

/** The profile screen of the first app version; its default patient,
    `SampleData.currentPatient`, is a constructor parameter here. */
module AppProfile {
  import opened Model

  datatype ProfileUiState = ProfileUiState(patient: Patient, isEditing: bool)

  class ProfileViewModel {
    var uiState: ProfileUiState

    constructor (currentPatient: Patient)
      ensures uiState == ProfileUiState(currentPatient, false)
    {
      uiState := ProfileUiState(currentPatient, false);
    }

    method ToggleEditMode()
      modifies this
      ensures uiState.isEditing == !old(uiState).isEditing
      ensures uiState.patient == old(uiState).patient
    {
      uiState := uiState.(isEditing := !uiState.isEditing);
    }
  }

  /** Toggling twice restores the state. */
  method ToggleTwiceRestores(vm: ProfileViewModel)
    modifies vm
    ensures vm.uiState == old(vm.uiState)
  {
    vm.ToggleEditMode();
    vm.ToggleEditMode();
  }
}
