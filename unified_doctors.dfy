/** The unified doctor repository: each read goes to the local database, the
    remote API, or (hybrid) the API with the local database as fallback,
    as the global mode says at the time of the call. The local, Room-backed
    repository is represented by its answers. */
module UnifiedDoctors {
  import opened Wrappers
  import opened Model
  import opened Lists
  import opened DataSource
  import opened Dto
  import opened RemoteDoctors

  /** What the local repository answers: its whole list and its advanced search. */
  datatype LocalDoctors = LocalDoctors(all: seq<Doctor>, search: SearchCriteria -> seq<Doctor>)

  /** The remote list: the decoded search result, or nothing on a failed fetch. */
  function RemoteSearchAnswer(f: Fetch<seq<DoctorDto>>, env: Platform, c: SearchCriteria): seq<Doctor> {
    match Received(f)
    case None => []
    case Some(dtos) => SearchResult(DecodeAll(dtos, env), c)
  }

  function DataSourceName(mode: DataSourceType): string {
    match mode
    case LocalRoom => "Room (Local)"
    case RemoteApi => "Retrofit (API)"
    case Hybrid => "Híbrido"
  }

  /** Each mode has its own name. */
  lemma DataSourceNamesDistinct(a: DataSourceType, b: DataSourceType)
    ensures DataSourceName(a) == DataSourceName(b) <==> a == b
  {
    if a != b {
      assert DataSourceName(a)[1] != DataSourceName(b)[1];
    }
  }

  class UnifiedDoctorRepository {
    const config: DataSourceConfig
    /** `None` when the repository was built without a DAO. */
    const localRepository: Option<LocalDoctors>

    constructor (config: DataSourceConfig, localRepository: Option<LocalDoctors>)
      ensures this.config == config && this.localRepository == localRepository
    {
      this.config := config;
      this.localRepository := localRepository;
    }

    function LocalAll(): Option<seq<Doctor>> {
      match localRepository
      case None => None
      case Some(dao) => Some(dao.all)
    }

    /** `getAllDoctorsFlow`, given the remote fetch. */
    function GetAllDoctorsFlow(f: Fetch<seq<DoctorDto>>, env: Platform): (r: seq<seq<Doctor>>)
      reads config
      ensures config.currentDataSource == LocalRoom ==> r == [LocalOrEmpty(LocalAll())]
      ensures config.currentDataSource == RemoteApi ==> r == [GetAllDoctorsFromApi(f, env)]
      ensures config.currentDataSource == Hybrid && GetAllDoctorsFromApi(f, env) != [] ==>
        r == [GetAllDoctorsFromApi(f, env)]
      ensures config.currentDataSource == Hybrid && GetAllDoctorsFromApi(f, env) == [] ==>
        r == (if localRepository.None? then [] else [localRepository.value.all])
    {
      FlowRead(config.currentDataSource, LocalAll(), GetAllDoctorsFromApi(f, env))
    }

    /** `getAllDoctors`: the same choice, read synchronously. */
    method GetAllDoctors(f: Fetch<seq<DoctorDto>>, env: Platform) returns (doctors: seq<Doctor>)
      ensures config.currentDataSource == LocalRoom ==> doctors == LocalOrEmpty(LocalAll())
      ensures config.currentDataSource == RemoteApi ==> doctors == GetAllDoctorsFromApi(f, env)
      ensures config.currentDataSource == Hybrid ==>
        doctors == if GetAllDoctorsFromApi(f, env) != [] then GetAllDoctorsFromApi(f, env) else LocalOrEmpty(LocalAll())
    {
      doctors := SyncListRead(config.currentDataSource, LocalAll(), [GetAllDoctorsFromApi(f, env)]);
    }

    /** `getDoctorById`: in hybrid mode the remote doctor when found, else the local lookup. */
    method GetDoctorById(id: string, f: Fetch<DoctorDto>, env: Platform) returns (doctor: Option<Doctor>)
      ensures config.currentDataSource == LocalRoom && localRepository.None? ==> doctor.None?
      ensures config.currentDataSource == LocalRoom && localRepository.Some? ==>
        doctor == Find(localRepository.value.all, DoctorHasId(id))
      ensures config.currentDataSource == RemoteApi ==> doctor == GetDoctorByIdFromApi(f, env)
      ensures config.currentDataSource == Hybrid && GetDoctorByIdFromApi(f, env).Some? ==>
        doctor == GetDoctorByIdFromApi(f, env)
      ensures config.currentDataSource == Hybrid && GetDoctorByIdFromApi(f, env).None? ==>
        doctor == if localRepository.None? then None else Find(localRepository.value.all, DoctorHasId(id))
    {
      var local := match localRepository
        case None => None
        case Some(dao) => Some(Find(dao.all, DoctorHasId(id)));
      doctor := OneRead(config.currentDataSource, local, GetDoctorByIdFromApi(f, env));
    }

    /** `searchDoctorsAdvanced`: the flow of the chosen source's search. */
    method SearchDoctorsAdvanced(c: SearchCriteria, f: Fetch<seq<DoctorDto>>, env: Platform) returns (emissions: seq<seq<Doctor>>)
      ensures config.currentDataSource == LocalRoom ==>
        emissions == [if localRepository.None? then [] else localRepository.value.search(c)]
      ensures config.currentDataSource == RemoteApi ==> emissions == [RemoteSearchAnswer(f, env, c)]
      ensures config.currentDataSource == Hybrid && RemoteSearchAnswer(f, env, c) != [] ==>
        emissions == [RemoteSearchAnswer(f, env, c)]
      ensures config.currentDataSource == Hybrid && RemoteSearchAnswer(f, env, c) == [] ==>
        emissions == if localRepository.None? then [] else [localRepository.value.search(c)]
    {
      var remote := SearchDoctors(f, env, c);
      var local := match localRepository
        case None => None
        case Some(dao) => Some(dao.search(c));
      emissions := FlowRead(config.currentDataSource, local, remote);
    }

    method GetCurrentDataSourceName() returns (name: string)
      ensures name == "Room (Local)" <==> config.currentDataSource == LocalRoom
      ensures name == "Retrofit (API)" <==> config.currentDataSource == RemoteApi
      ensures name == "Híbrido" <==> config.currentDataSource == Hybrid
    {
      name := DataSourceName(config.currentDataSource);
    }
  }

  /** In hybrid mode a failed fetch of the whole list falls back to the local list. */
  lemma HybridFallsBackOnFailure(f: Fetch<seq<DoctorDto>>, env: Platform, local: Option<seq<Doctor>>)
    requires Received(f).None?
    ensures ListRead(Hybrid, local, GetAllDoctorsFromApi(f, env)) == LocalOrEmpty(local)
    ensures FlowRead(RemoteApi, local, GetAllDoctorsFromApi(f, env)) == [[]]
  {
  }
}
