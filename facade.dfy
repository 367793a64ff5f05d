/**
 * The six facade operations of the `client` type (main.go:121-182). Each makes one
 * round trip through a service stub, here a function from the request it is given to
 * the outcome of the call, and then selects its result. Transport errors of the four
 * containerd calls go through the error mapper `fromGRPC`, which is a parameter; the
 * two CRI calls return them unchanged.
 */
module Facade {
  import opened Wrappers
  import opened Errors
  import opened Containers

  type uint32 = x: int | 0 <= x < 0x1_0000_0000

  /** The outcome of one round trip: a transport error or a response. */
  datatype RoundTrip<R> = Failed(err: Error) | Responded(response: R)

  /** A Go `(value, error)` result pair; `err == None` is a nil error. */
  datatype Reply<T> = Reply(value: T, err: Option<Error>)

  /** Go's convention for result pairs: a non-nil error comes with the zero value. */
  predicate ZeroOnError<T(==)>(r: Reply<T>, zero: T)
  {
    r.err.Some? ==> r.value == zero
  }

  datatype GetContainerRequest = GetContainerRequest(id: string)
  datatype GetContainerResponse = GetContainerResponse(container: WireContainer)

  /** The process states a task can report; `Unknown` is the zero value of the enumeration. */
  datatype TaskStatus = Unknown | Created | Running | Stopped | Paused | Pausing
  datatype Process = Process(pid: uint32, status: TaskStatus)
  datatype GetTaskRequest = GetTaskRequest(containerId: string)
  datatype GetTaskResponse = GetTaskResponse(process: Process)

  /** The version service takes the empty message. */
  datatype VersionRequest = EmptyRequest
  datatype VersionResponse = VersionResponse(version: string, revision: string)

  datatype Mount = Mount(kind: string, source: string, options: seq<string>)
  datatype MountsRequest = MountsRequest(snapshotter: string, key: string)
  datatype MountsResponse = MountsResponse(mounts: seq<Mount>)

  datatype ContainerStatusRequest = ContainerStatusRequest(containerId: string, verbose: bool)
  /** `S` stands for the CRI status record, which this core passes on without reading it. */
  datatype ContainerStatusResponse<S> = ContainerStatusResponse(status: Option<S>, info: map<string, string>)
  datatype ContainerStatsRequest = ContainerStatsRequest(containerId: string)
  /** `T` stands for the CRI stats record, which this core passes on without reading it. */
  datatype ContainerStatsResponse<T> = ContainerStatsResponse(stats: Option<T>)

  /** LoadContainer: fetch one container by id and translate it. */
  function LoadContainer(id: string, fromGRPC: Error -> Error,
                         get: GetContainerRequest -> RoundTrip<GetContainerResponse>): (r: Reply<Option<Container>>)
    ensures ZeroOnError(r, None)
    ensures r.err.None? <==> get(GetContainerRequest(id)).Responded?
    ensures var rt := get(GetContainerRequest(id));
            rt.Failed? ==> r.err == Some(fromGRPC(rt.err))
    ensures var rt := get(GetContainerRequest(id));
            rt.Responded? ==> r.value == Some(ContainerFromProto(rt.response.container))
  {
    match get(GetContainerRequest(id))
    case Failed(e) => Reply(None, Some(fromGRPC(e)))
    case Responded(response) => Reply(Some(ContainerFromProto(response.container)), None)
  }

  /**
   * TaskPid: the pid of the container's task. A task in the Unknown state yields the
   * sentinel error whatever pid it reports; a transport error is mapped and the
   * status is not looked at.
   */
  function TaskPid(id: string, fromGRPC: Error -> Error,
                   get: GetTaskRequest -> RoundTrip<GetTaskResponse>): (r: Reply<uint32>)
    ensures ZeroOnError(r, 0)
    ensures var rt := get(GetTaskRequest(id));
            rt.Failed? ==> r.err == Some(fromGRPC(rt.err))
    ensures var rt := get(GetTaskRequest(id));
            rt.Responded? ==> (r.err == Some(TaskInUnknownState) <==> rt.response.process.status == Unknown)
    ensures var rt := get(GetTaskRequest(id));
            r.err.None? <==> rt.Responded? && rt.response.process.status != Unknown
    ensures r.err.None? ==> r.value == get(GetTaskRequest(id)).response.process.pid
  {
    match get(GetTaskRequest(id))
    case Failed(e) => Reply(0, Some(fromGRPC(e)))
    case Responded(response) =>
      if response.process.status == Unknown then Reply(0, Some(TaskInUnknownState))
      else Reply(response.process.pid, None)
  }

  /** Version: the version string the daemon reports. */
  function Version(fromGRPC: Error -> Error,
                   version: VersionRequest -> RoundTrip<VersionResponse>): (r: Reply<string>)
    ensures ZeroOnError(r, "")
    ensures r.err.None? <==> version(EmptyRequest).Responded?
    ensures var rt := version(EmptyRequest);
            rt.Failed? ==> r.err == Some(fromGRPC(rt.err))
    ensures var rt := version(EmptyRequest);
            rt.Responded? ==> r.value == rt.response.version
  {
    match version(EmptyRequest)
    case Failed(e) => Reply("", Some(fromGRPC(e)))
    case Responded(response) => Reply(response.version, None)
  }

  /** SnapshotMounts: the mounts of one snapshot of one snapshotter, in the order received. */
  function SnapshotMounts(snapshotter: string, key: string, fromGRPC: Error -> Error,
                          mounts: MountsRequest -> RoundTrip<MountsResponse>): (r: Reply<seq<Mount>>)
    ensures ZeroOnError(r, [])
    ensures r.err.None? <==> mounts(MountsRequest(snapshotter, key)).Responded?
    ensures var rt := mounts(MountsRequest(snapshotter, key));
            rt.Failed? ==> r.err == Some(fromGRPC(rt.err))
    ensures var rt := mounts(MountsRequest(snapshotter, key));
            rt.Responded? ==> r.value == rt.response.mounts
  {
    match mounts(MountsRequest(snapshotter, key))
    case Failed(e) => Reply([], Some(fromGRPC(e)))
    case Responded(response) => Reply(response.mounts, None)
  }

  /** ContainerStatus (CRI): always a non-verbose request; the transport error is returned as it came. */
  function ContainerStatus<S>(id: string,
                              status: ContainerStatusRequest -> RoundTrip<ContainerStatusResponse<S>>): (r: Reply<Option<S>>)
    ensures ZeroOnError(r, None)
    ensures r.err.None? <==> status(ContainerStatusRequest(id, false)).Responded?
    ensures var rt := status(ContainerStatusRequest(id, false));
            rt.Failed? ==> r.err == Some(rt.err)
    ensures var rt := status(ContainerStatusRequest(id, false));
            rt.Responded? ==> r.value == rt.response.status
  {
    match status(ContainerStatusRequest(id, false))
    case Failed(e) => Reply(None, Some(e))
    case Responded(response) => Reply(response.status, None)
  }

  /** ContainerStats (CRI): the transport error is returned as it came. */
  function ContainerStats<T>(id: string,
                             stats: ContainerStatsRequest -> RoundTrip<ContainerStatsResponse<T>>): (r: Reply<Option<T>>)
    ensures ZeroOnError(r, None)
    ensures r.err.None? <==> stats(ContainerStatsRequest(id)).Responded?
    ensures var rt := stats(ContainerStatsRequest(id));
            rt.Failed? ==> r.err == Some(rt.err)
    ensures var rt := stats(ContainerStatsRequest(id));
            rt.Responded? ==> r.value == rt.response.stats
  {
    match stats(ContainerStatsRequest(id))
    case Failed(e) => Reply(None, Some(e))
    case Responded(response) => Reply(response.stats, None)
  }

  /** Of everything a task reports in the Unknown state, nothing reaches the caller: the pid is hidden. */
  lemma UnknownStateHidesPid(id: string, fromGRPC: Error -> Error,
                             get1: GetTaskRequest -> RoundTrip<GetTaskResponse>,
                             get2: GetTaskRequest -> RoundTrip<GetTaskResponse>)
    requires get1(GetTaskRequest(id)).Responded? && get1(GetTaskRequest(id)).response.process.status == Unknown
    requires get2(GetTaskRequest(id)).Responded? && get2(GetTaskRequest(id)).response.process.status == Unknown
    ensures TaskPid(id, fromGRPC, get1) == TaskPid(id, fromGRPC, get2) == Reply(0, Some(TaskInUnknownState))
  {
  }

  /**
   * The CRI status call depends on its service only at the non-verbose request for
   * the given id: it sends no other request.
   */
  lemma ContainerStatusAsksOnlyNonVerbose<S>(id: string,
                                           s1: ContainerStatusRequest -> RoundTrip<ContainerStatusResponse<S>>,
                                           s2: ContainerStatusRequest -> RoundTrip<ContainerStatusResponse<S>>)
    requires s1(ContainerStatusRequest(id, false)) == s2(ContainerStatusRequest(id, false))
    ensures ContainerStatus(id, s1) == ContainerStatus(id, s2)
  {
  }

  /**
   * The two error shapes: for one and the same transport error, the CRI status call
   * and the mapped version call report the same error exactly when the mapper leaves
   * that error unchanged.
   */
  lemma CriErrorsBypassMapping<S>(id: string, e: Error, fromGRPC: Error -> Error,
                                  status: ContainerStatusRequest -> RoundTrip<ContainerStatusResponse<S>>,
                                  version: VersionRequest -> RoundTrip<VersionResponse>)
    requires status(ContainerStatusRequest(id, false)) == Failed(e)
    requires version(EmptyRequest) == Failed(e)
    ensures ContainerStatus(id, status).err == Version(fromGRPC, version).err <==> fromGRPC(e) == e
  {
  }
}
