/** The unified appointment repository: reads and writes go to the local
    store, to the remote API, or to both, as the global mode says. The
    remote API is represented by the answers it gives to reads and by the
    log of write requests sent to it. */
module UnifiedAppointments {
  import opened Wrappers
  import opened Model
  import opened Lists
  import opened DataSource
  import opened AppointmentStore
  import opened Appointments

  /** The patient id sent with every remote create. */
  const PatientIdPlaceholder: string := "PATIENT_ID_PLACEHOLDER"

  datatype RemoteRequest =
    | CreateAppointment(appointment: Appointment, patientId: string)
    | CancelRemote(id: string)

  class UnifiedAppointmentRepository {
    const config: DataSourceConfig
    /** `null` when the repository was built without a DAO. */
    const localRepository: AppointmentRepository?
    /** The write requests sent to the API so far, oldest first. */
    var remoteRequests: seq<RemoteRequest>

    constructor (config: DataSourceConfig, localRepository: AppointmentRepository?)
      ensures this.config == config && this.localRepository == localRepository
      ensures remoteRequests == []
    {
      this.config := config;
      this.localRepository := localRepository;
      remoteRequests := [];
    }

    ghost function LocalContents(): Option<seq<Appointment>>
      reads localRepository
    {
      if localRepository == null then None else Some(localRepository.appointments)
    }

    ghost function LocalMap(f: seq<Appointment> -> seq<Appointment>): Option<seq<Appointment>>
      reads localRepository
    {
      if localRepository == null then None else Some(f(localRepository.appointments))
    }

    /** `getAllAppointments`, over the list the API returned. */
    method GetAllAppointments(remote: seq<Appointment>) returns (r: seq<Appointment>)
      ensures r == ListRead(config.currentDataSource, LocalContents(), remote)
    {
      var local := if localRepository == null then None else Some(localRepository.appointments);
      r := SyncListRead(config.currentDataSource, local, [remote]);
    }

    method GetAllAppointmentsFlow(remote: seq<Appointment>) returns (emissions: seq<seq<Appointment>>)
      ensures emissions == FlowRead(config.currentDataSource, LocalContents(), remote)
    {
      var local := if localRepository == null then None else Some(localRepository.appointments);
      emissions := FlowRead(config.currentDataSource, local, remote);
    }

    /** The upcoming tab's flow; the local answer is the status split of the store. */
    method GetUpcomingAppointmentsFlow(remote: seq<Appointment>) returns (emissions: seq<seq<Appointment>>)
      ensures emissions == FlowRead(config.currentDataSource, LocalMap(Upcoming), remote)
    {
      var local := if localRepository == null then None else Some(Upcoming(localRepository.appointments));
      emissions := FlowRead(config.currentDataSource, local, remote);
    }

    method GetPastAppointmentsFlow(remote: seq<Appointment>) returns (emissions: seq<seq<Appointment>>)
      ensures emissions == FlowRead(config.currentDataSource, LocalMap(Past), remote)
    {
      var local := if localRepository == null then None else Some(Past(localRepository.appointments));
      emissions := FlowRead(config.currentDataSource, local, remote);
    }

    /** `getAppointmentById`, over the API's answer for the id. */
    method GetAppointmentById(id: string, remote: Option<Appointment>) returns (r: Option<Appointment>)
      ensures config.currentDataSource == LocalRoom && localRepository == null ==> r.None?
      ensures config.currentDataSource == LocalRoom && localRepository != null ==>
        r == Find(localRepository.appointments, AppointmentHasId(id))
      ensures config.currentDataSource == RemoteApi ==> r == remote
      ensures config.currentDataSource == Hybrid && remote.Some? ==> r == remote
      ensures config.currentDataSource == Hybrid && remote.None? ==>
        r == if localRepository == null then None else Find(localRepository.appointments, AppointmentHasId(id))
    {
      var local: Option<Option<Appointment>> := None;
      if localRepository != null {
        var found := localRepository.GetAppointmentById(id);
        local := Some(found);
        FindIsFirst(localRepository.appointments, AppointmentHasId(id));
      }
      r := OneRead(config.currentDataSource, local, remote);
    }

    /** Local only, remote only with the placeholder patient id, or both. */
    method AddAppointment(appointment: Appointment)
      modifies this, localRepository
      ensures localRepository != null ==> (localRepository.appointments ==
        if config.currentDataSource == RemoteApi then old(localRepository.appointments)
        else old(localRepository.appointments) + [appointment])
      ensures remoteRequests == old(remoteRequests) +
        if config.currentDataSource == LocalRoom then [] else [CreateAppointment(appointment, PatientIdPlaceholder)]
    {
      var mode := config.currentDataSource;
      if mode != RemoteApi && localRepository != null {
        localRepository.AddAppointment(appointment);
      }
      if mode != LocalRoom {
        remoteRequests := remoteRequests + [CreateAppointment(appointment, PatientIdPlaceholder)];
      }
    }

    method CancelAppointment(id: string)
      modifies this, localRepository
      ensures localRepository != null ==> (localRepository.appointments ==
        if config.currentDataSource == RemoteApi then old(localRepository.appointments)
        else CancelById(old(localRepository.appointments), id))
      ensures remoteRequests == old(remoteRequests) +
        if config.currentDataSource == LocalRoom then [] else [CancelRemote(id)]
    {
      var mode := config.currentDataSource;
      if mode != RemoteApi && localRepository != null {
        localRepository.CancelAppointment(id);
      }
      if mode != LocalRoom {
        remoteRequests := remoteRequests + [CancelRemote(id)];
      }
    }

    /** Remote mode does nothing; hybrid mode writes only the local store. */
    method RescheduleAppointment(id: string, newDate: Date)
      modifies this, localRepository
      ensures localRepository != null ==> (localRepository.appointments ==
        if config.currentDataSource == RemoteApi then old(localRepository.appointments)
        else RescheduleById(old(localRepository.appointments), id, newDate))
      ensures remoteRequests == old(remoteRequests)
    {
      if config.currentDataSource != RemoteApi && localRepository != null {
        localRepository.RescheduleAppointment(id, newDate);
      }
    }
  }
}
