/** What an attach and a detach do and answer, call by call, spelt out. */
module NodeAnswers {
  import opened Lists
  import opened NodeMachine
  import opened NodeInvariant
  import opened NodeRuns
  import opened NodeRetries

  /** Something is mounted at the path. */
  ghost predicate MountedAt(n: Node, path: string) {
    exists m :: m in n.mounts && m.path == path
  }

  /** What is mounted at the path is mounted somewhere else, too. */
  ghost predicate MountedElsewhere(n: Node, path: string) {
    exists m, m' :: m in n.mounts && m' in n.mounts && m.path == path && m'.path != path && m'.device == m.device
  }

  lemma MountedReads(n: Node, path: string)
    ensures Mounted(n, path) <==> MountedAt(n, path)
  {
    hide First;
  }

  /** The count decides: it is one exactly when the device is mounted nowhere else. */
  lemma LastMountDecides(env: NodeEnv, n: Node, path: string)
    requires NodeOk(env, n) && MountedAt(n, path)
    ensures MountCount(n, path) == 1 <==> !MountedElsewhere(n, path)
  {
    hide Keep, First;
    MountedReads(n, path);
    var m := First(n.mounts, AtPath(path)).value;
    var same := Keep(n.mounts, OnDevice(m.device));
    assert m in same;
    assert forall x | x in n.mounts && x.path == path :: x == m by {
      forall x | x in n.mounts && x.path == path ensures x == m {
        assert x in Keep(n.mounts, AtPath(path)) && m in Keep(n.mounts, AtPath(path));
      }
    }
    if MountedElsewhere(n, path) {
      var x, x' :| x in n.mounts && x' in n.mounts && x.path == path && x'.path != path && x'.device == x.device;
      assert x' in same && x' != m;
    } else if |same| > 1 {
      assert same[0] in same && same[1] in same;
      assert same[0] == m && same[1] == m;
      TwiceAtPath(n, m, path);
    }
  }

  lemma TwiceAtPath(n: Node, m: MountPoint, path: string)
    requires m.path == path && |Keep(n.mounts, AtPath(path))| <= 1
    requires forall x | x in n.mounts && x.device == m.device :: x == m
    ensures |Keep(n.mounts, OnDevice(m.device))| <= 1
  {
    hide Keep;
    FewerKept(n.mounts, OnDevice(m.device), AtPath(path));
    KeepAll(Keep(n.mounts, OnDevice(m.device)), AtPath(path));
  }

  /** A detach gets its path unmounted: path and readable file are there, something is mounted, the first three calls
      work and the fourth has its effect. */
  ghost predicate Takes(v: string, n: Node, path: string, faults: seq<NodeFault>) {
    && path in n.dirs && v in n.files && n.files[v] != Torn && MountedAt(n, path)
    && FaultAt(faults, 0).Fine? && FaultAt(faults, 1).Fine? && FaultAt(faults, 2).Fine?
    && (FaultAt(faults, 3).Fine? || FaultAt(faults, 3).Unsure?)
  }

  /** It was the last mount, and the detach goes on. */
  ghost predicate GoesOn(v: string, n: Node, path: string, faults: seq<NodeFault>) {
    Takes(v, n, path, faults) && FaultAt(faults, 3).Fine? && !MountedElsewhere(n, path)
  }

  /** It goes on past the device. */
  ghost predicate LogsOut(v: string, n: Node, path: string, faults: seq<NodeFault>) {
    GoesOn(v, n, path, faults) && FaultAt(faults, 4).Fine?
  }

  /** Success, on every return path: the path is missing; the file is missing; the path was unmounted and the device is
      mounted elsewhere; or the device was dropped and the file removed, whatever the log-out and the removal of the
      path did. */
  ghost predicate Succeeds(v: string, n: Node, path: string, faults: seq<NodeFault>) {
    && FaultAt(faults, 0).Fine? && FaultAt(faults, 1).Fine?
    && (|| path !in n.dirs
        || (v !in n.files && FaultAt(faults, 2).Fine?)
        || (Takes(v, n, path, faults) && FaultAt(faults, 3).Fine? &&
              (MountedElsewhere(n, path) || (FaultAt(faults, 4).Fine? && FaultAt(faults, 7).Fine?))))
  }

  /** Everything a detach does, from any node in order and with any faults. */
  lemma DetachReads(env: NodeEnv, v: string, n: Node, path: string, faults: seq<NodeFault>)
    requires NodeOk(env, n) && path in env.owner && env.owner[path] == v
    ensures
      var (n', op', _) := NodeRun(env, v, n, Counting(path), faults);
      var iqn := env.base + ":" + v;
      && op' == Ended(path, if Succeeds(v, n, path, faults) then Detached else NodeFailure)
      && (forall m :: m in n'.mounts <==> m in n.mounts && !(m.path == path && Takes(v, n, path, faults)))
      && n'.devices ==
           (if GoesOn(v, n, path, faults) && TakesEffect(FaultAt(faults, 4)) then n.devices - {iqn} else n.devices)
      && n'.sessions ==
           (if LogsOut(v, n, path, faults) && TakesEffect(FaultAt(faults, 5)) then n.sessions - {iqn} else n.sessions)
      && (forall d :: d in n'.dirs <==>
            && d in n.dirs
            && !((d == path || path + "/" <= d) && LogsOut(v, n, path, faults) && TakesEffect(FaultAt(faults, 6))))
      && n'.files ==
           if LogsOut(v, n, path, faults) && TakesEffect(FaultAt(faults, 7)) then n.files - {v} else n.files
  {
    hide NodeRun, Keep, First, MountCount, NodeOk;
    MountedReads(n, path);
    FourLater(faults);
    if Detachable(v, n, path) {
      LastMountDecides(env, n, path);
      DetachToUnmount(env, v, n, path, faults);
      var n1 := n.(mounts := Keep(n.mounts, Not(AtPath(path))));
      var rest := LaterFaults(LaterFaults(LaterFaults(LaterFaults(faults))));
      assert forall k: nat :: FaultAt(rest, k) == FaultAt(faults, k + 4);
      if GoesOn(v, n, path, faults) {
        TearDownReads(env, v, n1, path, rest);
      }
    } else {
      IdleDetach(env, v, n, path, faults);
    }
  }

  lemma TearDownReads(env: NodeEnv, v: string, n: Node, path: string, faults: seq<NodeFault>)
    requires v in n.files
    ensures
      var (n', op', _) := NodeRun(env, v, n, DroppingDevice(path, IqnOf(env, v)), faults);
      var iqn, on := env.base + ":" + v, FaultAt(faults, 0).Fine?;
      && op' == Ended(path, if on && FaultAt(faults, 3).Fine? then Detached else NodeFailure)
      && n'.mounts == n.mounts
      && n'.devices == (if TakesEffect(FaultAt(faults, 0)) then n.devices - {iqn} else n.devices)
      && n'.sessions == (if on && TakesEffect(FaultAt(faults, 1)) then n.sessions - {iqn} else n.sessions)
      && (forall d :: d in n'.dirs <==>
            d in n.dirs && !((d == path || path + "/" <= d) && on && TakesEffect(FaultAt(faults, 2))))
      && n'.files == if on && TakesEffect(FaultAt(faults, 3)) then n.files - {v} else n.files
  {
    hide NodeRun;
    TearDownRun(env, v, n, path, faults);
    FiveFaults(faults);
    var iqn := env.base + ":" + v;
    assert iqn == IqnOf(env, v) && n.devices - {iqn} - {iqn} == n.devices - {iqn};
  }

  /** Everything an attach does, from any node and with any faults: it logs in first; on a path that is mounted it stops
      there; otherwise it makes the path, writes the file and mounts the device, each only when the one before has
      worked. */
  lemma AttachReads(env: NodeEnv, v: string, n: Node, path: string, faults: seq<NodeFault>)
    ensures
      var (n', op', _) := NodeRun(env, v, n, Connecting(path), faults);
      var iqn, f := env.base + ":" + v, ((k: nat) => FaultAt(faults, k));
      var unmounted := f(0).Fine? && f(1).Fine? && !MountedAt(n, path);
      && op' == Ended(path, if f(0).Fine? && f(1).Fine? &&
                               (MountedAt(n, path) || (f(2).Fine? && f(3).Fine? && f(4).Fine?))
                            then Attached else NodeFailure)
      && n'.sessions == (if f(0).Refused? then n.sessions else n.sessions + {iqn})
      && n'.devices.Keys == (if f(0).Refused? || f(0).Degraded? then n.devices.Keys else n.devices.Keys + {iqn})
      && n'.dirs == (if unmounted && TakesEffect(f(2)) then n.dirs + {path} else n.dirs)
      && n'.files ==
           (if unmounted && f(2).Fine? && !f(3).Refused? then n.files[v := if f(3).Degraded? then Torn else Intact(iqn)]
            else n.files)
      && (if unmounted && f(2).Fine? && f(3).Fine? && TakesEffect(f(4)) then
            iqn in n'.devices && n'.mounts == n.mounts + [MountPoint(path, n'.devices[iqn])]
          else n'.mounts == n.mounts)
      && (forall i | i in n.devices :: i in n'.devices && n'.devices[i] == n.devices[i])
      && (iqn !in n.devices && iqn in n'.devices ==>
            n'.devices[iqn] !in n.devices.Values && forall m | m in n.mounts :: m.device != n'.devices[iqn])
  {
    hide NodeRun, First, Mounted;
    MountedReads(n, path);
    AttachUnderFaults(env, v, n, path, faults);
    AttachDevices(env, v, n, path, faults);
  }

  /** Only the first call of an attach touches sessions and devices. */
  lemma AttachDevices(env: NodeEnv, v: string, n: Node, path: string, faults: seq<NodeFault>)
    ensures
      var n' := NodeRun(env, v, n, Connecting(path), faults).0;
      var n1 := Connect(n, IqnOf(env, v), NextFault(faults)).0;
      n'.sessions == n1.sessions && n'.devices == n1.devices
  {
    hide NodeRun, Connect, Mounted;
    OneNodeStep(env, v, n, Connecting(path), faults);
    var (n1, op) := NodeStep(env, v, n, Connecting(path), NextFault(faults));
    MakingKeepsDevices(env, v, n1, op, LaterFaults(faults));
  }

  lemma {:induction false} MakingKeepsDevices(env: NodeEnv, v: string, n: Node, op: NodeOp, faults: seq<NodeFault>)
    requires op.CheckingMount? || op.MakingDir? || op.Persisting? || op.Mounting? || op.Ended?
    ensures
      var n' := NodeRun(env, v, n, op, faults).0;
      n'.sessions == n.sessions && n'.devices == n.devices
    decreases StepsLeft(op)
  {
    hide NodeStep;
    if op.Ended? {
    } else {
      var (n', op') := NodeStep(env, v, n, op, NextFault(faults));
      MakingStep(env, v, n, op, NextFault(faults));
      NodeStepShrinks(env, v, n, op, NextFault(faults));
      MakingKeepsDevices(env, v, n', op', LaterFaults(faults));
    }
  }

  lemma MakingStep(env: NodeEnv, v: string, n: Node, op: NodeOp, f: NodeFault)
    requires op.CheckingMount? || op.MakingDir? || op.Persisting? || op.Mounting?
    ensures
      var (n', op') := NodeStep(env, v, n, op, f);
      && n'.sessions == n.sessions && n'.devices == n.devices
      && (op'.MakingDir? || op'.Persisting? || op'.Mounting? || op'.Ended?)
  {
    hide First;
  }
}
