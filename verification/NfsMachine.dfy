/** The NFS side: the store calls, and create and delete as step machines. There is no clean-up; retries converge. */
module NfsMachine {
  import opened Wrappers
  import opened Lists
  import opened Text
  import opened Faults
  import opened Decimal
  import opened Capacity
  import opened Csi

  datatype Dataset = Dataset(id: string, name: string, mountpoint: string, refquota: string)

  /** A share names its directory in path or, on older servers, in paths. */
  datatype Share = Share(id: int, path: string, paths: seq<string>, comment: string)

  /** Which of the two fields the server takes in a create request. */
  datatype Dialect = TakesPath | TakesPaths

  datatype State = State(datasets: seq<Dataset>, shares: seq<Share>, nextId: int, dialect: Dialect)

  datatype ApiError = Failed(code: Code) | NotFound

  type Reply<+T> = Result<T, ApiError>

  /** The first or only directory of a share, whichever field it is in; empty when it has none. */
  function Normalise(share: Share): string {
    if |share.path| > 0 then share.path
    else if |share.paths| > 0 then share.paths[0]
    else ""
  }

  /** The directory a share serves: its path if it has one, otherwise the first of its paths, whatever follows. */
  ghost predicate Serves(share: Share, dir: string) {
    || (share.path != "" && dir == share.path)
    || (share.path == "" && share.paths != [] && dir == share.paths[0])
    || (share.path == "" && share.paths == [] && dir == "")
  }

  lemma NormaliseServes(share: Share, dir: string)
    ensures Normalise(share) == dir <==> Serves(share, dir)
  {
  }

  function DatasetNamed(name: string): Dataset -> bool { (d: Dataset) => d.name == name }

  function DatasetId(id: string): Dataset -> bool { (d: Dataset) => d.id == id }

  function Sharing(mountpoint: string): Share -> bool { (share: Share) => Normalise(share) == mountpoint }

  /** Where the store mounts a dataset. */
  function MountpointOf(dataset: string): string { "/mnt/" + dataset }

  // Calls

  function Read<T>(value: T, f: Fault): Reply<T> {
    if f.Works? then Ok(value) else Err(Failed(f.code))
  }

  function Mutation<T>(before: State, after: State, value: T, f: Fault): (State, Reply<T>) {
    match f
    case Works => (after, Ok(value))
    case Rejected(code) => (before, Err(Failed(code)))
    case LostReply(code) => (after, Err(Failed(code)))
  }

  function CreateDataset(s: State, name: string, quota: nat, f: Fault): (State, Reply<Dataset>) {
    var d := Dataset(name, name, MountpointOf(name), ToDecimal(quota));
    Mutation(s, s.(datasets := s.datasets + [d]), d, f)
  }

  /** A create request in the other dialect is turned down as unprocessable. */
  function CreateShare(s: State, dialect: Dialect, mountpoint: string, comment: string, f: Fault)
    : (State, Reply<Share>)
  {
    if dialect != s.dialect then (s, Err(Failed(Unprocessable)))
    else
      var share :=
        if dialect.TakesPath? then Share(s.nextId, mountpoint, [], comment)
        else Share(s.nextId, "", [mountpoint], comment);
      Mutation(s, s.(shares := s.shares + [share], nextId := s.nextId + 1), share, f)
  }

  /** Deleting a dataset takes its shares along. */
  function DeleteDataset(s: State, id: string, f: Fault): (State, Reply<()>) {
    match First(s.datasets, DatasetId(id))
    case None => (s, Err(ApiError.NotFound))
    case Some(d) =>
      Mutation(s,
        s.(datasets := Keep(s.datasets, Not(DatasetId(id))), shares := Keep(s.shares, Not(Sharing(d.mountpoint)))),
        (), f)
  }

  // The operations

  const VOLUME_PREFIX := "nfs-"
  const KEY_MOUNT_POINT := "mountPoint"
  const KEY_HOST := "host"
  const SHARE_COMMENT := "Share for Kubernetes PV "

  const ACCESS_MODES: set<AccessMode> :=
    {SingleNodeWriter, SingleNodeReaderOnly, MultiNodeReaderOnly, MultiNodeSingleWriter, MultiNodeMultiWriter,
     SingleNodeSingleWriter, SingleNodeMultiWriter}

  datatype Env = Env(storagePath: string, address: string)

  function VolumeId(name: string): string { VOLUME_PREFIX + name }

  function DatasetName(env: Env, v: string): string { env.storagePath + "/" + v }

  function ShareComment(v: string): string { SHARE_COMMENT + TrimPrefix(v, VOLUME_PREFIX) }

  datatype Outcome = Provisioned(response: Created) | Deleted | Failure(status: Status)

  datatype Op =
    // create
    | FindDataset(size: VolumeSize)
    | MakeDataset(size: VolumeSize)
    | FindShare(size: VolumeSize, mountpoint: string)
    | MakeShare(size: VolumeSize, mountpoint: string)
    | MakeShareOldWay(size: VolumeSize, mountpoint: string)
    // delete
    | LookDataset
    | DropDataset(dataset: string)
    // either
    | Finished(outcome: Outcome)

  function Respond(env: Env, v: string, size: VolumeSize, mountpoint: string): Created {
    Created(v, size, map[KEY_MOUNT_POINT := mountpoint, KEY_HOST := env.address])
  }

  function StartCreate(request: CreateRequest): Op {
    if !Supported(request.capabilities, ACCESS_MODES) then Finished(Failure(InvalidArgument))
    else
      match ExtractStorage(request.range)
      case Err(_) => Finished(Failure(OutOfRange))
      case Ok(size) => FindDataset(size)
  }

  function StartDelete(v: string): Op {
    if HasPrefix(v, VOLUME_PREFIX) then LookDataset else Finished(Failure(Status.NotFound))
  }

  function Step(env: Env, v: string, s: State, op: Op, f: Fault): (State, Op) {
    match op
    case FindDataset(size) =>
      if !f.Works? then (s, Finished(Failure(Internal)))
      else (match First(s.datasets, DatasetNamed(DatasetName(env, v)))
            case Some(d) => (s, FindShare(size, d.mountpoint))
            case None => (s, MakeDataset(size)))
    case MakeDataset(size) =>
      var (s', r) := CreateDataset(s, DatasetName(env, v), size, f);
      (s', if r.Ok? then FindShare(size, r.value.mountpoint) else Finished(Failure(Backend)))
    case FindShare(size, mountpoint) =>
      if !f.Works? then (s, Finished(Failure(Internal)))
      else (match First(s.shares, Sharing(mountpoint))
            case Some(_) => (s, Finished(Provisioned(Respond(env, v, size, mountpoint))))
            case None => (s, MakeShare(size, mountpoint)))
    case MakeShare(size, mountpoint) =>
      var (s', r) := CreateShare(s, TakesPath, mountpoint, ShareComment(v), f);
      (s', match r
           case Ok(_) => Finished(Provisioned(Respond(env, v, size, mountpoint)))
           case Err(Failed(Unprocessable)) => MakeShareOldWay(size, mountpoint)
           case Err(_) => Finished(Failure(Backend)))
    case MakeShareOldWay(size, mountpoint) =>
      var (s', r) := CreateShare(s, TakesPaths, mountpoint, ShareComment(v), f);
      (s', if r.Ok? then Finished(Provisioned(Respond(env, v, size, mountpoint))) else Finished(Failure(Backend)))
    case LookDataset =>
      if !f.Works? then (s, Finished(Failure(Backend)))
      else (match First(s.datasets, DatasetNamed(DatasetName(env, v)))
            case Some(d) => (s, DropDataset(d.id))
            case None => (s, Finished(Deleted)))
    case DropDataset(dataset) =>
      var (s', r) := DeleteDataset(s, dataset, f);
      (s', if r.Ok? then Finished(Deleted) else Finished(Failure(Backend)))
    case Finished(_) => (s, op)
  }

  function Remaining(op: Op): nat {
    match op
    case FindDataset(_) => 5
    case MakeDataset(_) => 4
    case FindShare(_, _) => 3
    case MakeShare(_, _) => 2
    case MakeShareOldWay(_, _) => 1
    case LookDataset => 2
    case DropDataset(_) => 1
    case Finished(_) => 0
  }

  /** One operation run to its end on its own, the n-th call suffering the n-th fault. */
  function Run(env: Env, v: string, s: State, op: Op, faults: Faults): (State, Op, Faults)
    decreases Remaining(op)
  {
    if op.Finished? then (s, op, faults)
    else
      var (s', op') := Step(env, v, s, op, Next(faults));
      Run(env, v, s', op', Later(faults))
  }

  datatype System = System(state: State, ops: map<string, Op>)

  datatype Event =
    | Create(request: CreateRequest)
    | Delete(volume: string)
    | Call(volume: string, fault: Fault)
    | Forget(volume: string)

  /** At most one operation is in flight on a volume. */
  function Apply(env: Env, sys: System, event: Event): System {
    match event
    case Create(request) =>
      var v := VolumeId(request.name);
      if v !in sys.ops then sys.(ops := sys.ops[v := StartCreate(request)]) else sys
    case Delete(v) =>
      if v !in sys.ops then sys.(ops := sys.ops[v := StartDelete(v)]) else sys
    case Call(v, fault) =>
      if v in sys.ops then
        var (s', op') := Step(env, v, sys.state, sys.ops[v], fault);
        System(s', sys.ops[v := op'])
      else sys
    case Forget(v) => sys.(ops := sys.ops - {v})
  }

  function Exec(env: Env, sys: System, events: seq<Event>): System
    decreases |events|
  {
    if events == [] then sys else Exec(env, Apply(env, sys, events[0]), events[1..])
  }
}
