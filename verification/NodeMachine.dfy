/**
 Attaching and detaching iSCSI disks on a node as step machines. One volume may be mounted at several
 target paths; they share one session and one persisted connector file.
 */
module NodeMachine {
  import opened Wrappers
  import opened Lists
  import opened Text
  import opened IscsiMachine

  datatype MountPoint = MountPoint(path: string, device: nat)

  /** The persisted connector of a volume; a write that failed half-way leaves a file that cannot be read back. */
  datatype ConnectorFile = Intact(iqn: string) | Torn

  /** The mount table, the attached device of each IQN, the sessions, the connector files by volume, the directories. */
  datatype Node = Node(
    mounts: seq<MountPoint>,
    devices: map<string, nat>,
    sessions: set<string>,
    files: map<string, ConnectorFile>,
    dirs: set<string>)

  datatype NodeFault =
    | Fine
    | Refused   // the call fails and has no effect
    | Unsure    // the call takes effect, and still reports a failure
    | Degraded  // connect finds no device; a file is written in part; any other call is refused

  datatype NodeError = NotExist | Other

  type Answer<+T> = Result<T, NodeError>

  /** base makes the IQNs; owner tells, for each target path in use, the volume it belongs to. */
  datatype NodeEnv = NodeEnv(base: string, owner: map<string, string>)

  function AtPath(path: string): MountPoint -> bool { (m: MountPoint) => m.path == path }

  function OnDevice(device: nat): MountPoint -> bool { (m: MountPoint) => m.device == device }

  // The calls

  function MountedDevices(mounts: seq<MountPoint>): set<nat> {
    set m | m in mounts :: m.device
  }

  /** The device an IQN has or would get: the least one that is neither attached nor mounted. */
  function DeviceFor(n: Node, iqn: string): nat {
    if iqn in n.devices then n.devices[iqn] else LeastFree(n.devices.Values + MountedDevices(n.mounts))
  }

  function Ask<T>(value: T, f: NodeFault): Answer<T> {
    if f.Fine? then Ok(value) else Err(Other)
  }

  function Change<T>(before: Node, after: Node, value: T, f: NodeFault): (Node, Answer<T>) {
    match f
    case Fine => (after, Ok(value))
    case Unsure => (after, Err(Other))
    case _ => (before, Err(Other))
  }

  /** Logs in and attaches the device; may report success without a device path. */
  function Connect(n: Node, iqn: string, f: NodeFault): (Node, Answer<Option<nat>>) {
    if f.Degraded? then (n.(sessions := n.sessions + {iqn}), Ok(None))
    else
      var device := DeviceFor(n, iqn);
      Change(n, n.(sessions := n.sessions + {iqn}, devices := n.devices[iqn := device]), Some(device), f)
  }

  predicate Mounted(n: Node, path: string) {
    First(n.mounts, AtPath(path)).Some?
  }

  function PersistConnector(n: Node, volume: string, iqn: string, f: NodeFault): (Node, Answer<()>) {
    if f.Degraded? then (n.(files := n.files[volume := Torn]), Err(Other))
    else Change(n, n.(files := n.files[volume := Intact(iqn)]), (), f)
  }

  function FormatAndMount(n: Node, device: nat, path: string, f: NodeFault): (Node, Answer<()>) {
    Change(n, n.(mounts := n.mounts + [MountPoint(path, device)]), (), f)
  }

  /** How many mounts the device mounted at the path has; none when nothing is mounted there. */
  function MountCount(n: Node, path: string): nat {
    match First(n.mounts, AtPath(path))
    case None => 0
    case Some(m) => |Keep(n.mounts, OnDevice(m.device))|
  }

  function LoadConnector(n: Node, volume: string, f: NodeFault): Answer<string> {
    if !f.Fine? then Err(Other)
    else if volume !in n.files then Err(NotExist)
    else match n.files[volume] case Torn => Err(Other) case Intact(iqn) => Ok(iqn)
  }

  /** Unmounting a path where nothing is mounted is an error. */
  function Unmount(n: Node, path: string, f: NodeFault): (Node, Answer<()>) {
    if !Mounted(n, path) then (n, Err(Other))
    else Change(n, n.(mounts := Keep(n.mounts, Not(AtPath(path)))), (), f)
  }

  function DisconnectVolume(n: Node, iqn: string, f: NodeFault): (Node, Answer<()>) {
    Change(n, n.(devices := n.devices - {iqn}), (), f)
  }

  function Disconnect(n: Node, iqn: string, f: NodeFault): (Node, Answer<()>) {
    Change(n, n.(sessions := n.sessions - {iqn}, devices := n.devices - {iqn}), (), f)
  }

  predicate Within(dir: string, path: string) {
    dir == path || HasPrefix(dir, path + "/")
  }

  function RemoveAll(n: Node, path: string, f: NodeFault): (Node, Answer<()>) {
    Change(n, n.(dirs := set d | d in n.dirs && !Within(d, path)), (), f)
  }

  function RemoveFile(n: Node, volume: string, f: NodeFault): (Node, Answer<()>) {
    if volume !in n.files then (n, Err(NotExist))
    else Change(n, n.(files := n.files - {volume}), (), f)
  }

  // The operations

  datatype NodeOutcome = Attached | Detached | NodeFailure

  datatype NodeOp =
    // attach
    | Connecting(path: string)
    | CheckingMount(path: string, device: nat)
    | MakingDir(path: string, device: nat)
    | Persisting(path: string, device: nat)
    | Mounting(path: string, device: nat)
    // detach
    | Counting(path: string)
    | CheckingPath(path: string, count: int)
    | Loading(path: string, count: int)
    | Unmounting(path: string, count: int, iqn: string)
    | DroppingDevice(path: string, iqn: string)
    | LoggingOut(path: string, iqn: string)
    | RemovingDir(path: string)
    | RemovingFile(path: string)
    // either
    | Ended(path: string, outcome: NodeOutcome)

  function Failing(op: NodeOp): NodeOp { Ended(op.path, NodeFailure) }

  function NodeStep(env: NodeEnv, v: string, n: Node, op: NodeOp, f: NodeFault): (Node, NodeOp) {
    match op
    case Connecting(path) =>
      var (n', r) := Connect(n, Iqn(env.base, v), f);
      (n', if r.Ok? && r.value.Some? then CheckingMount(path, r.value.value) else Failing(op))
    case CheckingMount(path, device) =>
      (n, if !f.Fine? then Failing(op) else if Mounted(n, path) then Ended(path, Attached) else MakingDir(path, device))
    case MakingDir(path, device) =>
      var (n', r) := Change(n, n.(dirs := n.dirs + {path}), (), f);
      (n', if r.Ok? then Persisting(path, device) else Failing(op))
    case Persisting(path, device) =>
      var (n', r) := PersistConnector(n, v, Iqn(env.base, v), f);
      (n', if r.Ok? then Mounting(path, device) else Failing(op))
    case Mounting(path, device) =>
      var (n', r) := FormatAndMount(n, device, path, f);
      (n', if r.Ok? then Ended(path, Attached) else Failing(op))
    case Counting(path) =>
      (n, if f.Fine? then CheckingPath(path, MountCount(n, path)) else Failing(op))
    case CheckingPath(path, count) =>
      (n, if !f.Fine? then Failing(op) else if path in n.dirs then Loading(path, count) else Ended(path, Detached))
    case Loading(path, count) =>
      (n, match LoadConnector(n, v, f)
          case Ok(iqn) => Unmounting(path, count, iqn)
          case Err(NotExist) => Ended(path, Detached)
          case Err(Other) => Failing(op))
    case Unmounting(path, count, iqn) =>
      var (n', r) := Unmount(n, path, f);
      (n', if r.Err? then Failing(op) else if count - 1 != 0 then Ended(path, Detached) else DroppingDevice(path, iqn))
    case DroppingDevice(path, iqn) =>
      var (n', r) := DisconnectVolume(n, iqn, f);
      (n', if r.Ok? then LoggingOut(path, iqn) else Failing(op))
    case LoggingOut(path, iqn) =>
      (Disconnect(n, iqn, f).0, RemovingDir(path))
    case RemovingDir(path) =>
      (RemoveAll(n, path, f).0, RemovingFile(path))
    case RemovingFile(path) =>
      var (n', r) := RemoveFile(n, v, f);
      (n', if r.Ok? then Ended(path, Detached) else Failing(op))
    case Ended(_, _) => (n, op)
  }

  function StepsLeft(op: NodeOp): nat {
    match op
    case Connecting(_) => 5
    case CheckingMount(_, _) => 4
    case MakingDir(_, _) => 3
    case Persisting(_, _) => 2
    case Mounting(_, _) => 1
    case Counting(_) => 8
    case CheckingPath(_, _) => 7
    case Loading(_, _) => 6
    case Unmounting(_, _, _) => 5
    case DroppingDevice(_, _) => 4
    case LoggingOut(_, _) => 3
    case RemovingDir(_) => 2
    case RemovingFile(_) => 1
    case Ended(_, _) => 0
  }

  function NextFault(faults: seq<NodeFault>): NodeFault {
    if faults == [] then Fine else faults[0]
  }

  function LaterFaults(faults: seq<NodeFault>): seq<NodeFault> {
    if faults == [] then [] else faults[1..]
  }

  function NodeRun(env: NodeEnv, v: string, n: Node, op: NodeOp, faults: seq<NodeFault>): (Node, NodeOp, seq<NodeFault>)
    decreases StepsLeft(op)
  {
    if op.Ended? then (n, op, faults)
    else
      var (n', op') := NodeStep(env, v, n, op, NextFault(faults));
      NodeRun(env, v, n', op', LaterFaults(faults))
  }

  // Several volumes at once; the calls for one volume come one after the other.

  datatype NodeSystem = NodeSystem(node: Node, ops: map<string, NodeOp>)

  datatype NodeEvent =
    | Publish(volume: string, path: string)
    | Unpublish(volume: string, path: string)
    | NodeCall(volume: string, fault: NodeFault)
    | Answered(volume: string)  // the operation has answered, or the driver has crashed
    | Reboot                    // mounts, sessions and devices are lost, files and directories stay

  predicate MayStart(env: NodeEnv, sys: NodeSystem, v: string, path: string) {
    v !in sys.ops && path in env.owner && env.owner[path] == v
  }

  function NodeApply(env: NodeEnv, sys: NodeSystem, event: NodeEvent): NodeSystem {
    match event
    case Publish(v, path) =>
      if MayStart(env, sys, v, path) then sys.(ops := sys.ops[v := Connecting(path)]) else sys
    case Unpublish(v, path) =>
      if MayStart(env, sys, v, path) then sys.(ops := sys.ops[v := Counting(path)]) else sys
    case NodeCall(v, fault) =>
      if v in sys.ops then
        var (n', op') := NodeStep(env, v, sys.node, sys.ops[v], fault);
        NodeSystem(n', sys.ops[v := op'])
      else sys
    case Answered(v) => sys.(ops := sys.ops - {v})
    case Reboot => NodeSystem(sys.node.(mounts := [], devices := map[], sessions := {}), map[])
  }

  function NodeExec(env: NodeEnv, sys: NodeSystem, events: seq<NodeEvent>): NodeSystem
    decreases |events|
  {
    if events == [] then sys else NodeExec(env, NodeApply(env, sys, events[0]), events[1..])
  }
}
