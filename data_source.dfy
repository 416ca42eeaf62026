/** The global switch between the local database, the remote API and the
    hybrid mode, and the dispatch rules the unified repositories share.
    A Flow is modelled as the sequence of lists it emits; the local and the
    remote flows emit one list each. */
module DataSource {
  import opened Wrappers

  datatype DataSourceType = LocalRoom | RemoteApi | Hybrid

  /** The `DataSourceConfig` object: one mutable mode, LOCAL_ROOM by default. */
  class DataSourceConfig {
    var currentDataSource: DataSourceType

    constructor ()
      ensures currentDataSource == LocalRoom
    {
      currentDataSource := LocalRoom;
    }

    predicate IsUsingLocalData()
      reads this
    {
      currentDataSource == LocalRoom
    }

    predicate IsUsingRemoteData()
      reads this
    {
      currentDataSource == RemoteApi
    }

    predicate IsUsingHybridMode()
      reads this
    {
      currentDataSource == Hybrid
    }
  }

  /** Exactly one of the three mode tests holds, and which one names the mode. */
  lemma ExactlyOneMode(config: DataSourceConfig)
    ensures config.IsUsingLocalData() <==> !config.IsUsingRemoteData() && !config.IsUsingHybridMode()
    ensures config.IsUsingRemoteData() <==> !config.IsUsingLocalData() && !config.IsUsingHybridMode()
    ensures config.IsUsingHybridMode() <==> !config.IsUsingLocalData() && !config.IsUsingRemoteData()
  {
  }

  /** The local store's answer; `None` when no DAO was supplied. */
  function LocalOrEmpty<T>(local: Option<seq<T>>): seq<T> {
    match local
    case None => []
    case Some(s) => s
  }

  /** A synchronous list read: local only, remote only, or the remote list
      unless it is empty and the local one then. */
  function ListRead<T>(mode: DataSourceType, local: Option<seq<T>>, remote: seq<T>): (r: seq<T>)
    ensures mode == LocalRoom ==> r == LocalOrEmpty(local)
    ensures mode == RemoteApi ==> r == remote
    ensures mode == Hybrid ==> (r == remote && remote != []) || (r == LocalOrEmpty(local) && remote == [])
  {
    match mode
    case LocalRoom => LocalOrEmpty(local)
    case RemoteApi => remote
    case Hybrid => if remote != [] then remote else LocalOrEmpty(local)
  }

  /** A list read as a flow. Without a DAO the local flow is a single empty
      list; in hybrid mode it is not replaced, so an empty remote answer and
      no DAO emit nothing at all. */
  function FlowRead<T>(mode: DataSourceType, local: Option<seq<T>>, remote: seq<T>): (r: seq<seq<T>>)
    ensures mode == LocalRoom ==> r == [LocalOrEmpty(local)]
    ensures mode == RemoteApi ==> r == [remote]
    ensures mode == Hybrid && remote != [] ==> r == [remote]
    ensures mode == Hybrid && remote == [] ==> r == if local.None? then [] else [local.value]
  {
    match mode
    case LocalRoom => [LocalOrEmpty(local)]
    case RemoteApi => [remote]
    case Hybrid =>
      if remote != [] then [remote]
      else match local
        case None => []
        case Some(s) => [s]
  }

  /** A single-record read; `local` is `None` without a DAO, else the local lookup. */
  function OneRead<T>(mode: DataSourceType, local: Option<Option<T>>, remote: Option<T>): (r: Option<T>)
    ensures mode == LocalRoom ==> r == (if local.None? then None else local.value)
    ensures mode == RemoteApi ==> r == remote
    ensures mode == Hybrid && remote.Some? ==> r == remote
    ensures mode == Hybrid && remote.None? ==> r == (if local.None? then None else local.value)
  {
    match mode
    case LocalRoom => if local.None? then None else local.value
    case RemoteApi => remote
    case Hybrid => if remote.Some? then remote else if local.None? then None else local.value
  }

  /** `runBlocking { var xs = emptyList(); flow.collect { xs = step(it) }; xs }`:
      the value for the last emission, or the empty list when none came. */
  method CollectLast<T>(emissions: seq<seq<T>>, step: seq<T> -> seq<T>) returns (r: seq<T>)
    ensures emissions == [] ==> r == []
    ensures emissions != [] ==> r == step(emissions[|emissions| - 1])
  {
    r := [];
    var i := 0;
    while i < |emissions|
      invariant 0 <= i <= |emissions|
      invariant i == 0 ==> r == []
      invariant i > 0 ==> r == step(emissions[i - 1])
    {
      r := step(emissions[i]);
      i := i + 1;
    }
  }

  function Identity<T>(): seq<T> -> seq<T> {
    (s: seq<T>) => s
  }

  function OrElse<T>(fallback: seq<T>): seq<T> -> seq<T> {
    (s: seq<T>) => if s != [] then s else fallback
  }

  /** The synchronous list read as the source performs it: the local store
      directly, or a collection over the remote flow. Over a remote flow of
      one list it agrees with `ListRead`. */
  method SyncListRead<T>(mode: DataSourceType, local: Option<seq<T>>, remoteFlow: seq<seq<T>>) returns (r: seq<T>)
    ensures |remoteFlow| == 1 ==> r == ListRead(mode, local, remoteFlow[0])
    ensures mode != LocalRoom && remoteFlow == [] ==> r == []
  {
    match mode {
      case LocalRoom =>
        r := LocalOrEmpty(local);
      case RemoteApi =>
        r := CollectLast(remoteFlow, Identity());
      case Hybrid =>
        r := CollectLast(remoteFlow, OrElse(LocalOrEmpty(local)));
    }
  }

  /** In each single mode, the other source has no influence on a read. */
  lemma ModesIgnoreOtherSource<T>(local: Option<seq<T>>, local': Option<seq<T>>, remote: seq<T>, remote': seq<T>)
    ensures ListRead(LocalRoom, local, remote) == ListRead(LocalRoom, local, remote')
    ensures ListRead(RemoteApi, local, remote) == ListRead(RemoteApi, local', remote)
    ensures FlowRead(LocalRoom, local, remote) == FlowRead(LocalRoom, local, remote')
    ensures FlowRead(RemoteApi, local, remote) == FlowRead(RemoteApi, local', remote)
  {
  }

  /** The flow and the synchronous read agree except in one case: in hybrid
      mode with an empty remote answer and no DAO, the flow emits nothing
      while the synchronous read gives the empty list. */
  lemma {:induction false} FlowAgreesWithListRead<T>(mode: DataSourceType, local: Option<seq<T>>, remote: seq<T>)
    ensures FlowRead(mode, local, remote) == [] <==> mode == Hybrid && remote == [] && local.None?
    ensures FlowRead(mode, local, remote) != [] ==> FlowRead(mode, local, remote) == [ListRead(mode, local, remote)]
  {
    match mode {
      case LocalRoom =>
      case RemoteApi =>
      case Hybrid =>
        if remote == [] && local.Some? {
          assert FlowRead(mode, local, remote) == [local.value];
        }
    }
  }
}
