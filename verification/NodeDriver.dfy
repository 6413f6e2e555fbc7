/** The node as an object that attach and detach change step by step. */
module NodeDriver {
  import opened Wrappers
  import opened Lists
  import opened IscsiMachine
  import opened NodeMachine
  import opened NodeInvariant
  import opened NodeRuns
  import opened NodeAnswers
  import Calls = NodeMachine

  class Host {
    const env: NodeEnv
    var mounts: seq<MountPoint>
    var devices: map<string, nat>
    var sessions: set<string>
    var files: map<string, ConnectorFile>
    var dirs: set<string>
    /** What will go wrong with the calls to come. */
    var faults: seq<NodeFault>

    constructor (env: NodeEnv, n: Node, faults: seq<NodeFault>)
      ensures this.env == env && State() == n && this.faults == faults
    {
      this.env := env;
      mounts, devices, sessions, files, dirs := n.mounts, n.devices, n.sessions, n.files, n.dirs;
      this.faults := faults;
    }

    function State(): Node
      reads this
    {
      Node(mounts, devices, sessions, files, dirs)
    }

    /** What is still to come when the operation on v has got to op. */
    ghost function Ahead(v: string, op: NodeOp): (Node, NodeOp, seq<NodeFault>)
      reads this
    {
      NodeRun(env, v, State(), op, faults)
    }

    method TakeFault() returns (f: NodeFault)
      modifies this`faults
      ensures f == NextFault(old(faults)) && faults == LaterFaults(old(faults))
    {
      f := NextFault(faults);
      faults := LaterFaults(faults);
    }

    // Library calls

    method Connect(iqn: string) returns (r: Answer<Option<nat>>)
      modifies this`sessions, this`devices, this`faults
      ensures (State(), r) == Calls.Connect(old(State()), iqn, NextFault(old(faults)))
      ensures faults == LaterFaults(old(faults))
    {
      var f := TakeFault();
      if f.Degraded? {
        sessions := sessions + {iqn};
        return Ok(None);
      }
      var device := DeviceFor(State(), iqn);
      if !f.Refused? {
        sessions := sessions + {iqn};
        devices := devices[iqn := device];
      }
      r := Ask(Some(device), f);
    }

    method IsLikelyNotMountPoint(path: string) returns (r: Answer<bool>)
      modifies this`faults
      ensures r == Ask(!Mounted(State(), path), NextFault(old(faults))) && faults == LaterFaults(old(faults))
    {
      var f := TakeFault();
      var found := FindFirst(mounts, AtPath(path));
      r := Ask(found.None?, f);
    }

    method MkdirAll(path: string) returns (r: Answer<()>)
      modifies this`dirs, this`faults
      ensures
        (State(), r) == Change(old(State()), old(State()).(dirs := old(dirs) + {path}), (), NextFault(old(faults)))
      ensures faults == LaterFaults(old(faults))
    {
      var f := TakeFault();
      if f.Fine? || f.Unsure? {
        dirs := dirs + {path};
      }
      r := Ask((), f);
    }

    method PersistConnector(volume: string, iqn: string) returns (r: Answer<()>)
      modifies this`files, this`faults
      ensures (State(), r) == Calls.PersistConnector(old(State()), volume, iqn, NextFault(old(faults)))
      ensures faults == LaterFaults(old(faults))
    {
      var f := TakeFault();
      if f.Fine? || f.Unsure? {
        files := files[volume := Intact(iqn)];
      } else if f.Degraded? {
        files := files[volume := Torn];
      }
      r := Ask((), f);
    }

    method FormatAndMount(device: nat, path: string) returns (r: Answer<()>)
      modifies this`mounts, this`faults
      ensures (State(), r) == Calls.FormatAndMount(old(State()), device, path, NextFault(old(faults)))
      ensures faults == LaterFaults(old(faults))
    {
      var f := TakeFault();
      if f.Fine? || f.Unsure? {
        mounts := mounts + [MountPoint(path, device)];
      }
      r := Ask((), f);
    }

    /** Goes over the mount table twice: for the device at the path, and for all mounts of that device. */
    method GetDeviceNameFromMount(path: string) returns (r: Answer<nat>)
      modifies this`faults
      ensures r == Ask(MountCount(State(), path), NextFault(old(faults))) && faults == LaterFaults(old(faults))
    {
      var f := TakeFault();
      var found := FindFirst(mounts, AtPath(path));
      if found.None? {
        return Ask(0, f);
      }
      var count := CountMounts(mounts, found.value.device);
      r := Ask(count, f);
    }

    static method CountMounts(mounts: seq<MountPoint>, device: nat) returns (count: nat)
      ensures count == |Keep(mounts, OnDevice(device))|
    {
      count := 0;
      for i := 0 to |mounts|
        invariant count + |Keep(mounts[i..], OnDevice(device))| == |Keep(mounts, OnDevice(device))|
      {
        if mounts[i].device == device {
          count := count + 1;
        }
      }
    }

    method PathExists(path: string) returns (r: Answer<bool>)
      modifies this`faults
      ensures r == Ask(path in dirs, NextFault(old(faults))) && faults == LaterFaults(old(faults))
    {
      var f := TakeFault();
      r := Ask(path in dirs, f);
    }

    method GetConnectorFromFile(volume: string) returns (r: Answer<string>)
      modifies this`faults
      ensures r == LoadConnector(State(), volume, NextFault(old(faults))) && faults == LaterFaults(old(faults))
    {
      var f := TakeFault();
      r := LoadConnector(State(), volume, f);
    }

    method Unmount(path: string) returns (r: Answer<()>)
      modifies this`mounts, this`faults
      ensures (State(), r) == Calls.Unmount(old(State()), path, NextFault(old(faults)))
      ensures faults == LaterFaults(old(faults))
    {
      var f := TakeFault();
      var found := FindFirst(mounts, AtPath(path));
      if found.None? {
        return Err(Other);
      }
      if f.Fine? || f.Unsure? {
        mounts := FindAll(mounts, Not(AtPath(path)));
      }
      r := Ask((), f);
    }

    method DisconnectVolume(iqn: string) returns (r: Answer<()>)
      modifies this`devices, this`faults
      ensures (State(), r) == Calls.DisconnectVolume(old(State()), iqn, NextFault(old(faults)))
      ensures faults == LaterFaults(old(faults))
    {
      var f := TakeFault();
      if f.Fine? || f.Unsure? {
        devices := devices - {iqn};
      }
      r := Ask((), f);
    }

    method Disconnect(iqn: string)
      modifies this`devices, this`sessions, this`faults
      ensures State() == Calls.Disconnect(old(State()), iqn, NextFault(old(faults))).0
      ensures faults == LaterFaults(old(faults))
    {
      var f := TakeFault();
      if f.Fine? || f.Unsure? {
        devices := devices - {iqn};
        sessions := sessions - {iqn};
      }
    }

    method RemoveAll(path: string) returns (r: Answer<()>)
      modifies this`dirs, this`faults
      ensures (State(), r) == Calls.RemoveAll(old(State()), path, NextFault(old(faults)))
      ensures faults == LaterFaults(old(faults))
    {
      var f := TakeFault();
      if f.Fine? || f.Unsure? {
        dirs := set d | d in dirs && !Within(d, path);
      }
      r := Ask((), f);
    }

    method RemoveFile(volume: string) returns (r: Answer<()>)
      modifies this`files, this`faults
      ensures (State(), r) == Calls.RemoveFile(old(State()), volume, NextFault(old(faults)))
      ensures faults == LaterFaults(old(faults))
    {
      var f := TakeFault();
      if volume !in files {
        return Err(NotExist);
      }
      if f.Fine? || f.Unsure? {
        files := files - {volume};
      }
      r := Ask((), f);
    }

    // The driver's own procedures

    /** Connects the volume, and unless the target path is mounted already, makes it, persists the connector and
        mounts the device there. */
    method AttachDisk(v: string, path: string) returns (ok: bool)
      modifies this
      ensures (State(), Ended(path, if ok then Attached else NodeFailure), faults) ==
        NodeRun(env, v, old(State()), Connecting(path), old(faults))
      ensures
        old(Separate(env) && NodeOk(env, State()) && path in env.owner && env.owner[path] == v) ==>
          NodeOk(env, State()) && (ok ==> Mounted(State(), path))
    {
      hide NodeRun, NodeOk, Separate, Mounted;
      KeptByNodeRun(env, v, State(), Connecting(path), faults);
      EndOfNodeRun(env, v, path);
      OneNodeStep(env, v, State(), Connecting(path), faults);
      var connected := Connect(Iqn(env.base, v));
      if connected.Err? || connected.value.None? {
        return false;
      }
      var device := connected.value.value;
      OneNodeStep(env, v, State(), CheckingMount(path, device), faults);
      var notMnt := IsLikelyNotMountPoint(path);
      if notMnt.Err? {
        return false;
      }
      if !notMnt.value {
        return true;
      }
      ok := MountDisk(v, path, device);
    }

    method MountDisk(v: string, path: string, device: nat) returns (ok: bool)
      modifies this`dirs, this`files, this`mounts, this`faults
      ensures old(Ahead(v, MakingDir(path, device))) ==
        (State(), Ended(path, if ok then Attached else NodeFailure), faults)
    {
      hide NodeRun;
      EndOfNodeRun(env, v, path);
      OneNodeStep(env, v, State(), MakingDir(path, device), faults);
      var made := MkdirAll(path);
      if made.Err? {
        return false;
      }
      OneNodeStep(env, v, State(), Persisting(path, device), faults);
      var persisted := PersistConnector(v, Iqn(env.base, v));
      if persisted.Err? {
        return false;
      }
      OneNodeStep(env, v, State(), Mounting(path, device), faults);
      var mounted := FormatAndMount(device, path);
      ok := mounted.Ok?;
    }

    /** Unmounts the target path, and with the last mount of the device disconnects the volume and removes the
        path and the connector file. */
    method DetachDisk(v: string, path: string) returns (ok: bool)
      modifies this
      ensures (State(), Ended(path, if ok then Detached else NodeFailure), faults) ==
        NodeRun(env, v, old(State()), Counting(path), old(faults))
      ensures
        old(Separate(env) && NodeOk(env, State()) && path in env.owner && env.owner[path] == v) ==>
          NodeOk(env, State()) && (ok ==> !Mounted(State(), path))
      ensures old(NodeOk(env, State()) && path in env.owner && env.owner[path] == v) ==>
        (ok <==> Succeeds(v, old(State()), path, old(faults)))
    {
      hide NodeRun, NodeOk, Separate, Mounted, MountCount, Succeeds;
      KeptByNodeRun(env, v, State(), Counting(path), faults);
      DetachSucceeds(env, v, State(), path, faults);
      EndOfNodeRun(env, v, path);
      OneNodeStep(env, v, State(), Counting(path), faults);
      var counted := GetDeviceNameFromMount(path);
      if counted.Err? {
        return false;
      }
      var cnt: int := counted.value;
      OneNodeStep(env, v, State(), CheckingPath(path, cnt), faults);
      var present := PathExists(path);
      if present.Err? {
        return false;
      }
      if !present.value {
        return true;
      }
      OneNodeStep(env, v, State(), Loading(path, cnt), faults);
      var connector := GetConnectorFromFile(v);
      if connector.Err? {
        return connector.error == NotExist;
      }
      OneNodeStep(env, v, State(), Unmounting(path, cnt, connector.value), faults);
      var unmounted := Unmount(path);
      if unmounted.Err? {
        return false;
      }
      cnt := cnt - 1;
      if cnt != 0 {
        return true;
      }
      ok := DetachDevice(v, path, connector.value);
    }

    method DetachDevice(v: string, path: string, iqn: string) returns (ok: bool)
      modifies this`devices, this`sessions, this`dirs, this`files, this`faults
      ensures old(Ahead(v, DroppingDevice(path, iqn))) ==
        (State(), Ended(path, if ok then Detached else NodeFailure), faults)
    {
      hide NodeRun, NodeStep;
      EndOfNodeRun(env, v, path);
      AtTearDown(env, v, path, iqn);
      OneNodeStep(env, v, State(), DroppingDevice(path, iqn), faults);
      var dropped := DisconnectVolume(iqn);
      if dropped.Err? {
        return false;
      }
      OneNodeStep(env, v, State(), LoggingOut(path, iqn), faults);
      Disconnect(iqn);
      OneNodeStep(env, v, State(), RemovingDir(path), faults);
      var _ := RemoveAll(path);
      OneNodeStep(env, v, State(), RemovingFile(path), faults);
      var removed := RemoveFile(v);
      ok := removed.Ok?;
    }
  }

  lemma DetachSucceeds(env: NodeEnv, v: string, n: Node, path: string, faults: seq<NodeFault>)
    ensures NodeOk(env, n) && path in env.owner && env.owner[path] == v ==>
      NodeRun(env, v, n, Counting(path), faults).1 ==
      Ended(path, if Succeeds(v, n, path, faults) then Detached else NodeFailure)
  {
    hide NodeRun, NodeOk, Succeeds;
    if NodeOk(env, n) && path in env.owner && env.owner[path] == v {
      DetachReads(env, v, n, path, faults);
    }
  }

  lemma KeptByNodeRun(env: NodeEnv, v: string, n: Node, op: NodeOp, faults: seq<NodeFault>)
    requires op.Connecting? || op.Counting?
    ensures
      var (n', op', _) := NodeRun(env, v, n, op, faults);
      Separate(env) && NodeOk(env, n) && op.path in env.owner && env.owner[op.path] == v ==>
        && NodeOk(env, n')
        && (op' == Ended(op.path, Attached) ==> Mounted(n', op.path))
        && (op' == Ended(op.path, Detached) ==> !Mounted(n', op.path))
  {
    hide NodeRun, NodeOk, Separate, Mounted;
    if Separate(env) && NodeOk(env, n) && op.path in env.owner && env.owner[op.path] == v {
      NodeRunKeeps(env, v, n, op, faults);
    }
  }
}
