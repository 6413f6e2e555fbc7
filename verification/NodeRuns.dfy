/** One attach or detach run on its own, when every call works. */
module NodeRuns {
  import opened Lists
  import opened NodeMachine
  import opened NodeInvariant

  function AttachRun(env: NodeEnv, v: string, n: Node, path: string): (Node, NodeOp, seq<NodeFault>) {
    NodeRun(env, v, n, Connecting(path), [])
  }

  function DetachRun(env: NodeEnv, v: string, n: Node, path: string): (Node, NodeOp, seq<NodeFault>) {
    NodeRun(env, v, n, Counting(path), [])
  }

  lemma {:induction false} NodeRunKeeps(env: NodeEnv, v: string, n: Node, op: NodeOp, faults: seq<NodeFault>)
    requires Separate(env) && NodeOk(env, n) && NodeOpOk(env, v, n, op)
    ensures
      var (n', op', _) := NodeRun(env, v, n, op, faults);
      op'.Ended? && op'.path == op.path && NodeOk(env, n') && NodeOpOk(env, v, n', op')
    decreases StepsLeft(op)
  {
    hide NodeOk, NodeStep, Separate;
    if op.Ended? {
    } else {
      var (n', op') := NodeStep(env, v, n, op, NextFault(faults));
      NodeStepKeeps(env, v, n, op, NextFault(faults));
      NodeStepShrinks(env, v, n, op, NextFault(faults));
      NodeRunKeeps(env, v, n', op', LaterFaults(faults));
    }
  }

  lemma NodeStepShrinks(env: NodeEnv, v: string, n: Node, op: NodeOp, f: NodeFault)
    requires !op.Ended?
    ensures
      var op' := NodeStep(env, v, n, op, f).1;
      StepsLeft(op') < StepsLeft(op) && op'.path == op.path
  {
    hide Keep, First;
  }

  lemma OneNodeStep(env: NodeEnv, v: string, n: Node, op: NodeOp, faults: seq<NodeFault>)
    requires !op.Ended?
    ensures
      var (n', op') := NodeStep(env, v, n, op, NextFault(faults));
      NodeRun(env, v, n, op, faults) == NodeRun(env, v, n', op', LaterFaults(faults))
  {
    hide NodeStep;
  }

  lemma EndOfNodeRun(env: NodeEnv, v: string, path: string)
    ensures
      forall n, outcome, faults ::
        NodeRun(env, v, n, Ended(path, outcome), faults) == (n, Ended(path, outcome), faults)
  {
  }

  lemma AtTearDown(env: NodeEnv, v: string, path: string, iqn: string)
    ensures
      forall n, f ::
        NodeStep(env, v, n, DroppingDevice(path, iqn), f) ==
        var (n', r) := DisconnectVolume(n, iqn, f);
        (n', if r.Ok? then LoggingOut(path, iqn) else Ended(path, NodeFailure))
    ensures
      forall n, f ::
        NodeStep(env, v, n, LoggingOut(path, iqn), f) == (Disconnect(n, iqn, f).0, RemovingDir(path))
    ensures
      forall n, f ::
        NodeStep(env, v, n, RemovingDir(path), f) == (RemoveAll(n, path, f).0, RemovingFile(path))
    ensures
      forall n, f ::
        NodeStep(env, v, n, RemovingFile(path), f) ==
        var (n', r) := RemoveFile(n, v, f);
        (n', Ended(path, if r.Ok? then Detached else NodeFailure))
  {
    hide Change, Keep, First;
  }

  // Attach

  /** The node with the volume attached and mounted at one more path. */
  function WithMount(env: NodeEnv, v: string, n: Node, path: string): Node {
    var iqn, device := IqnOf(env, v), DeviceFor(n, IqnOf(env, v));
    Node(n.mounts + [MountPoint(path, device)], n.devices[iqn := device], n.sessions + {iqn},
         n.files[v := Intact(iqn)], n.dirs + {path})
  }

  /** Attaching always succeeds when its calls work, and on a path already mounted it changes nothing. */
  lemma AttachEffect(env: NodeEnv, v: string, n: Node, path: string)
    requires NodeOk(env, n) && path in env.owner && env.owner[path] == v
    ensures AttachRun(env, v, n, path) ==
      (if Mounted(n, path) then n else WithMount(env, v, n, path), Ended(path, Attached), [])
  {
    hide NodeRun, Keep, First;
    var iqn, device := IqnOf(env, v), DeviceFor(n, IqnOf(env, v));
    var n1 := n.(sessions := n.sessions + {iqn}, devices := n.devices[iqn := device]);
    OneNodeStep(env, v, n, Connecting(path), []);
    OneNodeStep(env, v, n1, CheckingMount(path, device), []);
    EndOfNodeRun(env, v, path);
    if Mounted(n, path) {
      AlreadyAttached(env, v, n, path);
    } else {
      var n2 := n1.(dirs := n1.dirs + {path});
      var n3 := n2.(files := n2.files[v := Intact(iqn)]);
      OneNodeStep(env, v, n1, MakingDir(path, device), []);
      OneNodeStep(env, v, n2, Persisting(path, device), []);
      OneNodeStep(env, v, n3, Mounting(path, device), []);
    }
  }

  lemma AlreadyAttached(env: NodeEnv, v: string, n: Node, path: string)
    requires NodeOk(env, n) && path in env.owner && env.owner[path] == v && Mounted(n, path)
    ensures n.sessions + {IqnOf(env, v)} == n.sessions
    ensures n.devices[IqnOf(env, v) := DeviceFor(n, IqnOf(env, v))] == n.devices
    ensures path in n.dirs && v in n.files
  {
    hide Keep;
    assert Backed(env, n, First(n.mounts, AtPath(path)).value);
  }

  /** Publishing a second time changes nothing. */
  lemma AttachTwice(env: NodeEnv, v: string, n: Node, path: string)
    requires Separate(env) && NodeOk(env, n) && path in env.owner && env.owner[path] == v
    ensures
      var first := AttachRun(env, v, n, path);
      AttachRun(env, v, first.0, path) == first
  {
    hide NodeRun, Keep, First, NodeOk, Separate;
    AttachEffect(env, v, n, path);
    NodeRunKeeps(env, v, n, Connecting(path), []);
    AttachEffect(env, v, AttachRun(env, v, n, path).0, path);
  }

  // Detach

  /** Detaching gets as far as unmounting. */
  predicate Detachable(v: string, n: Node, path: string) {
    path in n.dirs && v in n.files && n.files[v].Intact? && Mounted(n, path)
  }

  /** The node after a mount is gone: without session, device, file and directory when it was the last one. */
  function WithoutMount(env: NodeEnv, v: string, n: Node, path: string): Node {
    var mounts := Keep(n.mounts, Not(AtPath(path)));
    if MountCount(n, path) != 1 then n.(mounts := mounts)
    else
      Node(mounts, n.devices - {IqnOf(env, v)}, n.sessions - {IqnOf(env, v)}, n.files - {v},
           set d | d in n.dirs && !Within(d, path))
  }

  /** When its calls work, detaching unmounts a mounted path, and tears the session down exactly with the last
      mount. On a path that is not mounted it succeeds exactly when the path or the connector file is missing. */
  lemma DetachEffect(env: NodeEnv, v: string, n: Node, path: string)
    requires NodeOk(env, n) && path in env.owner && env.owner[path] == v
    ensures
      var (n', op', faults) := DetachRun(env, v, n, path);
      && faults == []
      && op' == Ended(path, if path !in n.dirs || v !in n.files || Detachable(v, n, path) then Detached
                            else NodeFailure)
      && n' == if Detachable(v, n, path) then WithoutMount(env, v, n, path) else n
  {
    hide NodeRun, Keep, First, MountCount, NodeOk;
    var count := MountCount(n, path);
    OneNodeStep(env, v, n, Counting(path), []);
    OneNodeStep(env, v, n, CheckingPath(path, count), []);
    EndOfNodeRun(env, v, path);
    if path in n.dirs {
      OneNodeStep(env, v, n, Loading(path, count), []);
      if v in n.files && n.files[v].Intact? {
        FileIqn(env, v, n);
        OneNodeStep(env, v, n, Unmounting(path, count, IqnOf(env, v)), []);
        if Mounted(n, path) {
          TearDown(env, v, n, path);
        }
      }
    }
  }

  lemma FileIqn(env: NodeEnv, v: string, n: Node)
    requires NodeOk(env, n) && v in n.files && n.files[v].Intact?
    ensures n.files[v].iqn == IqnOf(env, v)
  {
    hide Keep;
  }

  lemma TearDown(env: NodeEnv, v: string, n: Node, path: string)
    requires v in n.files && Mounted(n, path)
    ensures
      var n1 := n.(mounts := Keep(n.mounts, Not(AtPath(path))));
      var next := if MountCount(n, path) - 1 != 0 then Ended(path, Detached) else DroppingDevice(path, IqnOf(env, v));
      NodeRun(env, v, n1, next, []) ==
        (WithoutMount(env, v, n, path), Ended(path, Detached), [])
  {
    hide NodeRun, Keep, First, MountCount;
    var iqn := IqnOf(env, v);
    var n1 := n.(mounts := Keep(n.mounts, Not(AtPath(path))));
    if MountCount(n, path) == 1 {
      var n2 := n1.(devices := n1.devices - {iqn});
      var n3 := n2.(sessions := n2.sessions - {iqn});
      var n4 := n3.(dirs := set d | d in n3.dirs && !Within(d, path));
      OneNodeStep(env, v, n1, DroppingDevice(path, iqn), []);
      OneNodeStep(env, v, n2, LoggingOut(path, iqn), []);
      assert n2.devices - {iqn} == n2.devices;
      OneNodeStep(env, v, n3, RemovingDir(path), []);
      OneNodeStep(env, v, n4, RemovingFile(path), []);
    }
    EndOfNodeRun(env, v, path);
  }

  /** Unpublishing a second time is not always harmless: after unmounting a path, the same call again succeeds
      exactly when the first one took the volume's last mount. Otherwise the path and the file are still there,
      nothing is mounted, and the unmount fails. */
  lemma DetachTwice(env: NodeEnv, v: string, n: Node, path: string)
    requires Separate(env) && NodeOk(env, n) && path in env.owner && env.owner[path] == v && Detachable(v, n, path)
    ensures
      var first := DetachRun(env, v, n, path);
      var second := DetachRun(env, v, first.0, path);
      && first.1 == Ended(path, Detached)
      && second.0 == first.0
      && (second.1 == Ended(path, Detached) <==> MountCount(n, path) == 1)
  {
    hide NodeRun, Keep, First, NodeOk, Separate, MountCount;
    DetachEffect(env, v, n, path);
    NodeRunKeeps(env, v, n, Counting(path), []);
    DetachEffect(env, v, DetachRun(env, v, n, path).0, path);
  }

  /** Attaching a volume that is mounted nowhere and detaching it again leaves the mount table as it was and no
      trace of the volume: no session, no device, no file, no directory. */
  lemma AttachThenDetach(env: NodeEnv, v: string, n: Node, path: string)
    requires Separate(env) && NodeOk(env, n) && Unused(env, v, n) && path in env.owner && env.owner[path] == v
    ensures
      var attached := AttachRun(env, v, n, path);
      var detached := DetachRun(env, v, attached.0, path);
      && attached.1 == Ended(path, Attached) && detached.1 == Ended(path, Detached)
      && detached.0 == Node(n.mounts, n.devices - {IqnOf(env, v)}, n.sessions - {IqnOf(env, v)}, n.files - {v},
                            set d | d in n.dirs && !Within(d, path))
  {
    hide NodeRun, Keep, First, NodeOk, Separate, MountCount;
    AttachEffect(env, v, n, path);
    NodeRunKeeps(env, v, n, Connecting(path), []);
    UnusedUnmounted(env, v, n, path);
    var n' := WithMount(env, v, n, path);
    DetachEffect(env, v, n', path);
    LoneMount(env, v, n, path);
    MountAndBack(env, v, n, path);
  }

  lemma LoneMount(env: NodeEnv, v: string, n: Node, path: string)
    requires NodeOk(env, n) && Unused(env, v, n) && path in env.owner && env.owner[path] == v
    ensures Mounted(WithMount(env, v, n, path), path) && MountCount(WithMount(env, v, n, path), path) == 1
    ensures Keep(WithMount(env, v, n, path).mounts, Not(AtPath(path))) == n.mounts
  {
    hide Keep, First;
    var device := DeviceFor(n, IqnOf(env, v));
    var m := MountPoint(path, device);
    UnusedUnmounted(env, v, n, path);
    FirstIsHead(n.mounts, AtPath(path));
    KeepOne(n.mounts, m, AtPath(path));
    FirstIsHead(n.mounts + [m], AtPath(path));
    if IqnOf(env, v) in n.devices { DevicesApart(env, v, n); } else { FreshDevice(n); }
    KeepOne(n.mounts, m, OnDevice(device));
    KeepNone(n.mounts, OnDevice(device));
    KeepOne(n.mounts, m, Not(AtPath(path)));
    KeepAll(n.mounts, Not(AtPath(path)));
  }

  lemma MountAndBack(env: NodeEnv, v: string, n: Node, path: string)
    ensures
      var n', iqn := WithMount(env, v, n, path), IqnOf(env, v);
      && n'.devices - {iqn} == n.devices - {iqn} && n'.sessions - {iqn} == n.sessions - {iqn}
      && n'.files - {v} == n.files - {v}
      && (set d | d in n'.dirs && !Within(d, path)) == (set d | d in n.dirs && !Within(d, path))
  {
  }

  /** Detaching one of several mounts leaves the others, their session and their file alone. */
  lemma OthersStayMounted(env: NodeEnv, v: string, n: Node, path: string, other: string)
    requires NodeOk(env, n) && path in env.owner && env.owner[path] == v && other in env.owner && env.owner[other] == v
    requires path != other && Mounted(n, path) && Mounted(n, other)
    ensures
      var n' := DetachRun(env, v, n, path).0;
      Mounted(n', other) && n'.devices == n.devices && n'.sessions == n.sessions && n'.files == n.files
  {
    hide NodeRun, NodeOk, Keep, First;
    DetachEffect(env, v, n, path);
    SharedDevice(env, v, n, path, other);
    KeepThrough(n.mounts, Not(AtPath(path)), AtPath(other));
    FirstIsHead(n.mounts, AtPath(other));
    FirstIsHead(Keep(n.mounts, Not(AtPath(path))), AtPath(other));
  }

  lemma SharedDevice(env: NodeEnv, v: string, n: Node, path: string, other: string)
    requires NodeOk(env, n) && path in env.owner && env.owner[path] == v && other in env.owner && env.owner[other] == v
    requires path != other && Mounted(n, path) && Mounted(n, other)
    ensures MountCount(n, path) != 1
  {
    hide Keep, First;
    var m, m' := First(n.mounts, AtPath(path)).value, First(n.mounts, AtPath(other)).value;
    assert Backed(env, n, m) && Backed(env, n, m');
    var same := Keep(n.mounts, OnDevice(m.device));
    assert m in same && m' in same;
  }

  // One volume at two paths

  const TWO_PATHS := NodeEnv("iqn", map["/a" := "v", "/b" := "v"])
  const NOTHING_YET := Node([], map[], {}, map[], {})

  /** The volume published at both paths. */
  function AtBoth(): Node {
    AttachRun(TWO_PATHS, "v", AttachRun(TWO_PATHS, "v", NOTHING_YET, "/a").0, "/b").0
  }

  lemma AtBothMounted()
    ensures Separate(TWO_PATHS) && NodeOk(TWO_PATHS, AtBoth())
    ensures Detachable("v", AtBoth(), "/a") && Mounted(AtBoth(), "/b")
  {
    hide NodeRun, Keep, First;
    var n := AttachRun(TWO_PATHS, "v", NOTHING_YET, "/a").0;
    EmptyNodeOk();
    AttachEffect(TWO_PATHS, "v", NOTHING_YET, "/a");
    NodeRunKeeps(TWO_PATHS, "v", NOTHING_YET, Connecting("/a"), []);
    AttachEffect(TWO_PATHS, "v", n, "/b");
    NodeRunKeeps(TWO_PATHS, "v", n, Connecting("/b"), []);
    NowMounted(AtBoth(), First(n.mounts, AtPath("/a")).value);
  }

  /** What is assumed of a node at the start can be met. */
  lemma EmptyNodeFresh()
    ensures FreshNode(TWO_PATHS, NOTHING_YET)
  {
    EmptyNodeOk();
  }

  lemma EmptyNodeOk()
    ensures Separate(TWO_PATHS) && NodeOk(TWO_PATHS, NOTHING_YET) && !Mounted(NOTHING_YET, "/a")
  {
  }

  /** Unpublishing the same path twice while the volume is still published at the other one: the second call fails. */
  lemma SecondDetachFails()
    ensures
      var first := DetachRun(TWO_PATHS, "v", AtBoth(), "/a");
      var second := DetachRun(TWO_PATHS, "v", first.0, "/a");
      first.1 == Ended("/a", Detached) && second.1 == Ended("/a", NodeFailure)
  {
    hide NodeRun, Keep, First, NodeOk, Separate, MountCount;
    AtBothMounted();
    SharedDevice(TWO_PATHS, "v", AtBoth(), "/a", "/b");
    DetachTwice(TWO_PATHS, "v", AtBoth(), "/a");
    NodeRunKeeps(TWO_PATHS, "v", AtBoth(), Counting("/a"), []);
    DetachEffect(TWO_PATHS, "v", DetachRun(TWO_PATHS, "v", AtBoth(), "/a").0, "/a");
  }
}
