/** What every step of attaching and detaching keeps, whichever calls fail, over all volumes and target paths. */
module NodeInvariant {
  import opened Lists
  import opened IscsiMachine
  import opened IscsiSafety
  import opened NodeMachine

  function IqnOf(env: NodeEnv, v: string): string { Iqn(env.base, v) }

  function MountOf(env: NodeEnv, v: string): MountPoint -> bool {
    (m: MountPoint) => m.path in env.owner && env.owner[m.path] == v
  }

  /** No target path lies below another one. */
  ghost predicate Separate(env: NodeEnv) {
    forall p, q | p in env.owner && q in env.owner && Within(q, p) :: q == p
  }

  /** A mounted target path: its volume has a session with this very device, a connector file, and the path exists. */
  ghost predicate Backed(env: NodeEnv, n: Node, m: MountPoint) {
    m.path in env.owner &&
    var v := env.owner[m.path];
    && IqnOf(env, v) in n.sessions
    && IqnOf(env, v) in n.devices && n.devices[IqnOf(env, v)] == m.device
    && v in n.files
    && m.path in n.dirs
  }

  ghost predicate NodeOk(env: NodeEnv, n: Node) {
    && (forall p :: |Keep(n.mounts, AtPath(p))| <= 1)
    && (forall m | m in n.mounts && m.path in env.owner :: Backed(env, n, m))
    && (forall m | m in n.mounts && m.path !in env.owner :: m.device !in n.devices.Values)
    && (forall i, j | i in n.devices && j in n.devices && n.devices[i] == n.devices[j] :: i == j)
    && (forall v | v in n.files && n.files[v].Intact? :: n.files[v].iqn == IqnOf(env, v))
  }

  ghost predicate HasDevice(env: NodeEnv, v: string, n: Node, device: nat) {
    var iqn := IqnOf(env, v);
    iqn in n.sessions && iqn in n.devices && n.devices[iqn] == device
  }

  /** No target path of the volume is mounted. */
  ghost predicate Unused(env: NodeEnv, v: string, n: Node) {
    forall m | m in n.mounts :: !MountOf(env, v)(m)
  }

  ghost predicate NodeOpOk(env: NodeEnv, v: string, n: Node, op: NodeOp) {
    && op.path in env.owner && env.owner[op.path] == v
    && match op
       case CheckingMount(path, device) => HasDevice(env, v, n, device)
       case MakingDir(path, device) => HasDevice(env, v, n, device) && !Mounted(n, path)
       case Persisting(path, device) => HasDevice(env, v, n, device) && !Mounted(n, path) && path in n.dirs
       case Mounting(path, device) =>
         HasDevice(env, v, n, device) && !Mounted(n, path) && path in n.dirs && v in n.files
       case CheckingPath(path, count) => count == MountCount(n, path)
       case Loading(path, count) => count == MountCount(n, path) && path in n.dirs
       case Unmounting(path, count, iqn) => count == MountCount(n, path) && iqn == IqnOf(env, v)
       case DroppingDevice(path, iqn) => Unused(env, v, n) && iqn == IqnOf(env, v)
       case LoggingOut(path, iqn) => Unused(env, v, n) && iqn == IqnOf(env, v)
       case RemovingDir(path) => Unused(env, v, n)
       case RemovingFile(path) => Unused(env, v, n)
       case Ended(path, Attached) => Mounted(n, path)
       case Ended(path, Detached) => !Mounted(n, path)
       case _ => true
  }

  ghost predicate NodeInv(env: NodeEnv, sys: NodeSystem) {
    && Separate(env)
    && NodeOk(env, sys.node)
    && forall v | v in sys.ops :: NodeOpOk(env, v, sys.node, sys.ops[v])
  }

  /** Nothing changes but what belongs to volume v. */
  ghost predicate OnlyOwn(env: NodeEnv, v: string, n: Node, n': Node) {
    && Keep(n'.mounts, Not(MountOf(env, v))) == Keep(n.mounts, Not(MountOf(env, v)))
    && n'.sessions - {IqnOf(env, v)} == n.sessions - {IqnOf(env, v)}
    && n'.devices - {IqnOf(env, v)} == n.devices - {IqnOf(env, v)}
    && n'.files - {v} == n.files - {v}
    && (forall p | p in env.owner && env.owner[p] != v :: p in n'.dirs <==> p in n.dirs)
  }

  lemma OwnIqn(env: NodeEnv, v: string, w: string)
    ensures IqnOf(env, v) == IqnOf(env, w) ==> v == w
  {
    IqnsDistinct(env.base, w);
  }

  // Other volumes

  lemma OtherPath(env: NodeEnv, v: string, n: Node, n': Node, path: string)
    requires OnlyOwn(env, v, n, n') && path in env.owner && env.owner[path] != v
    ensures First(n'.mounts, AtPath(path)) == First(n.mounts, AtPath(path))
    ensures Mounted(n', path) == Mounted(n, path)
  {
    hide Keep, First;
    KeepThrough(n.mounts, Not(MountOf(env, v)), AtPath(path));
    KeepThrough(n'.mounts, Not(MountOf(env, v)), AtPath(path));
    FirstIsHead(n.mounts, AtPath(path));
    FirstIsHead(n'.mounts, AtPath(path));
  }

  lemma OtherCount(env: NodeEnv, v: string, w: string, n: Node, n': Node, path: string)
    requires OnlyOwn(env, v, n, n') && NodeOk(env, n) && NodeOk(env, n') && v != w
    requires path in env.owner && env.owner[path] == w
    ensures MountCount(n', path) == MountCount(n, path)
  {
    hide Keep, First;
    OtherPath(env, v, n, n', path);
    if Mounted(n, path) {
      var m := First(n.mounts, AtPath(path)).value;
      OwnIqn(env, v, w);
      assert Backed(env, n, m);
      assert IqnOf(env, w) in n'.devices - {IqnOf(env, v)} && n'.devices[IqnOf(env, w)] == m.device;
      assert forall x | x in n.mounts && MountOf(env, v)(x) :: Backed(env, n, x) && x.device != m.device;
      assert forall x | x in n'.mounts && MountOf(env, v)(x) :: Backed(env, n', x) && x.device != m.device;
      KeepThrough(n.mounts, Not(MountOf(env, v)), OnDevice(m.device));
      KeepThrough(n'.mounts, Not(MountOf(env, v)), OnDevice(m.device));
    }
  }

  lemma OtherUnused(env: NodeEnv, v: string, w: string, n: Node, n': Node)
    requires OnlyOwn(env, v, n, n') && v != w && Unused(env, w, n)
    ensures Unused(env, w, n')
  {
    hide Keep;
    assert forall m | m in n'.mounts && MountOf(env, w)(m) :: m in Keep(n'.mounts, Not(MountOf(env, v)));
  }

  lemma OtherDevice(env: NodeEnv, v: string, w: string, n: Node, n': Node, device: nat)
    requires OnlyOwn(env, v, n, n') && v != w && HasDevice(env, w, n, device)
    ensures HasDevice(env, w, n', device)
  {
    hide Keep;
    OwnIqn(env, v, w);
    assert IqnOf(env, w) in n'.sessions - {IqnOf(env, v)};
    assert IqnOf(env, w) in n'.devices - {IqnOf(env, v)};
  }

  lemma OtherNodeOp(env: NodeEnv, v: string, w: string, n: Node, n': Node, op: NodeOp)
    requires OnlyOwn(env, v, n, n') && NodeOk(env, n) && NodeOk(env, n') && v != w
    requires NodeOpOk(env, w, n, op)
    ensures NodeOpOk(env, w, n', op)
  {
    hide Keep, First, HasDevice, MountCount, Unused, NodeOk, IqnOf;
    OtherPath(env, v, n, n', op.path);
    OtherCount(env, v, w, n, n', op.path);
    if Unused(env, w, n) {
      OtherUnused(env, v, w, n, n');
    }
    match op {
      case CheckingMount(_, device) => OtherDevice(env, v, w, n, n', device);
      case MakingDir(_, device) => OtherDevice(env, v, w, n, n', device);
      case Persisting(_, device) => OtherDevice(env, v, w, n, n', device);
      case Mounting(_, device) =>
        OtherDevice(env, v, w, n, n', device);
        assert w in n.files - {v};
      case _ =>
    }
  }

  // The calls

  lemma FreshDevice(n: Node)
    ensures
      var device := LeastFree(n.devices.Values + MountedDevices(n.mounts));
      device !in n.devices.Values && forall m | m in n.mounts :: m.device != device
  {
    assert forall m | m in n.mounts :: m.device in MountedDevices(n.mounts);
  }

  lemma ConnectKeeps(env: NodeEnv, v: string, n: Node, f: NodeFault)
    requires NodeOk(env, n)
    ensures
      var (n', r) := Connect(n, IqnOf(env, v), f);
      && NodeOk(env, n') && OnlyOwn(env, v, n, n')
      && (r.Ok? && r.value.Some? ==> HasDevice(env, v, n', r.value.value))
  {
    hide Keep, First;
    var iqn := IqnOf(env, v);
    var n' := Connect(n, iqn, f).0;
    FreshDevice(n);
    if iqn in n.devices {
      assert n.devices[iqn := n.devices[iqn]] == n.devices;
    } else {
      assert forall x | x in n'.devices.Values :: x in n.devices.Values || x == DeviceFor(n, iqn);
    }
  }

  lemma MkdirKeeps(env: NodeEnv, v: string, n: Node, path: string, f: NodeFault)
    requires NodeOk(env, n) && path in env.owner && env.owner[path] == v
    ensures
      var (n', r) := Change(n, n.(dirs := n.dirs + {path}), (), f);
      NodeOk(env, n') && OnlyOwn(env, v, n, n') && n'.mounts == n.mounts && (r.Ok? ==> path in n'.dirs)
  {
    hide Keep, First;
  }

  lemma PersistKeeps(env: NodeEnv, v: string, n: Node, f: NodeFault)
    requires NodeOk(env, n)
    ensures
      var (n', r) := PersistConnector(n, v, IqnOf(env, v), f);
      && NodeOk(env, n') && OnlyOwn(env, v, n, n') && n'.(files := n.files) == n
      && (r.Ok? ==> v in n'.files)
  {
    hide Keep, First;
  }

  lemma OneMountEach(n: Node, m: MountPoint)
    requires (forall p :: |Keep(n.mounts, AtPath(p))| <= 1) && !Mounted(n, m.path)
    ensures forall p :: |Keep(n.mounts + [m], AtPath(p))| <= 1
  {
    hide Keep, First;
    FirstIsHead(n.mounts, AtPath(m.path));
    forall p ensures |Keep(n.mounts + [m], AtPath(p))| <= 1 {
      KeepOne(n.mounts, m, AtPath(p));
    }
  }

  lemma NowMounted(n: Node, m: MountPoint)
    requires m in n.mounts
    ensures Mounted(n, m.path)
  {
    hide First;
    assert AtPath(m.path)(m);
  }

  lemma MountKeeps(env: NodeEnv, v: string, n: Node, device: nat, path: string, f: NodeFault)
    requires NodeOk(env, n) && NodeOpOk(env, v, n, Mounting(path, device))
    ensures
      var (n', r) := FormatAndMount(n, device, path, f);
      NodeOk(env, n') && OnlyOwn(env, v, n, n') && (r.Ok? ==> Mounted(n', path))
  {
    hide Keep, First, Mounted;
    var m := MountPoint(path, device);
    var n' := n.(mounts := n.mounts + [m]);
    KeepOne(n.mounts, m, Not(MountOf(env, v)));
    OneMountEach(n, m);
    NowMounted(n', m);
    assert Backed(env, n', m);
    assert forall x | x in n'.mounts :: x in n.mounts || x == m;
    assert forall x | x in n.mounts && x.path in env.owner :: Backed(env, n, x) && Backed(env, n', x);
  }

  lemma UnmountKeeps(env: NodeEnv, v: string, n: Node, path: string)
    requires NodeOk(env, n) && path in env.owner && env.owner[path] == v
    ensures
      var n' := n.(mounts := Keep(n.mounts, Not(AtPath(path))));
      NodeOk(env, n') && OnlyOwn(env, v, n, n') && !Mounted(n', path)
  {
    hide Keep, First;
    var n' := n.(mounts := Keep(n.mounts, Not(AtPath(path))));
    forall p ensures |Keep(n'.mounts, AtPath(p))| <= 1 {
      FewerKept(n.mounts, Not(AtPath(path)), AtPath(p));
    }
    KeepThrough(n.mounts, Not(AtPath(path)), Not(MountOf(env, v)));
  }

  /** When the only mount of the device goes, no target path of the volume stays mounted. */
  lemma LastUnmount(env: NodeEnv, v: string, n: Node, path: string)
    requires NodeOk(env, n) && path in env.owner && env.owner[path] == v
    requires Mounted(n, path) && MountCount(n, path) == 1
    ensures Unused(env, v, n.(mounts := Keep(n.mounts, Not(AtPath(path)))))
  {
    hide Keep, First;
    var m := First(n.mounts, AtPath(path)).value;
    var same := Keep(n.mounts, OnDevice(m.device));
    assert Backed(env, n, m) && m in same;
    assert forall x | x in n.mounts && MountOf(env, v)(x) :: Backed(env, n, x) && x in same;
    assert forall x | x in same :: x == same[0];
  }

  lemma DropKeeps(env: NodeEnv, v: string, n: Node, f: NodeFault)
    requires NodeOk(env, n) && Unused(env, v, n)
    ensures NodeOk(env, DisconnectVolume(n, IqnOf(env, v), f).0)
    ensures OnlyOwn(env, v, n, DisconnectVolume(n, IqnOf(env, v), f).0)
    ensures NodeOk(env, Disconnect(n, IqnOf(env, v), f).0) && OnlyOwn(env, v, n, Disconnect(n, IqnOf(env, v), f).0)
  {
    hide Keep, First;
    var n1 := n.(devices := n.devices - {IqnOf(env, v)});
    assert forall x | x in n1.devices.Values :: x in n.devices.Values;
    forall m | m in n.mounts && m.path in env.owner ensures Backed(env, n1, m) {
      assert Backed(env, n, m);
      OwnIqn(env, v, env.owner[m.path]);
    }
  }

  lemma RemoveDirKeeps(env: NodeEnv, v: string, n: Node, path: string, f: NodeFault)
    requires NodeOk(env, n) && Separate(env) && path in env.owner && env.owner[path] == v && Unused(env, v, n)
    ensures var n' := RemoveAll(n, path, f).0; NodeOk(env, n') && OnlyOwn(env, v, n, n') && n'.mounts == n.mounts
  {
    hide Keep, First;
  }

  lemma RemoveFileKeeps(env: NodeEnv, v: string, n: Node, f: NodeFault)
    requires NodeOk(env, n) && Unused(env, v, n)
    ensures var n' := RemoveFile(n, v, f).0; NodeOk(env, n') && OnlyOwn(env, v, n, n') && n'.mounts == n.mounts
  {
    hide Keep, First;
  }

  lemma StillNode(env: NodeEnv, v: string, n: Node)
    ensures OnlyOwn(env, v, n, n)
  {
    hide Keep;
  }

  // The steps

  lemma AttachStepKeeps(env: NodeEnv, v: string, n: Node, op: NodeOp, f: NodeFault)
    requires Separate(env) && NodeOk(env, n) && NodeOpOk(env, v, n, op)
    requires op.Connecting? || op.CheckingMount? || op.MakingDir? || op.Persisting? || op.Mounting?
    ensures
      var (n', op') := NodeStep(env, v, n, op, f);
      NodeOk(env, n') && OnlyOwn(env, v, n, n') && NodeOpOk(env, v, n', op')
  {
    hide Keep, First, NodeOk, OnlyOwn;
    StillNode(env, v, n);
    match op {
      case Connecting(path) => ConnectKeeps(env, v, n, f);
      case CheckingMount(_, _) =>
      case MakingDir(path, _) => MkdirKeeps(env, v, n, path, f);
      case Persisting(_, _) => PersistKeeps(env, v, n, f);
      case Mounting(path, device) => MountKeeps(env, v, n, device, path, f);
    }
  }

  lemma UnpublishedByEarlyReturn(env: NodeEnv, v: string, n: Node, path: string)
    requires NodeOk(env, n) && path in env.owner && env.owner[path] == v
    ensures Mounted(n, path) ==> path in n.dirs && v in n.files
  {
    hide Keep;
    if Mounted(n, path) {
      assert Backed(env, n, First(n.mounts, AtPath(path)).value);
    }
  }

  lemma DetachStepKeeps(env: NodeEnv, v: string, n: Node, op: NodeOp, f: NodeFault)
    requires Separate(env) && NodeOk(env, n) && NodeOpOk(env, v, n, op)
    requires op.Counting? || op.CheckingPath? || op.Loading? || op.Unmounting?
    ensures
      var (n', op') := NodeStep(env, v, n, op, f);
      NodeOk(env, n') && OnlyOwn(env, v, n, n') && NodeOpOk(env, v, n', op')
  {
    hide Keep, First, OnlyOwn, Backed;
    StillNode(env, v, n);
    UnpublishedByEarlyReturn(env, v, n, op.path);
    if op.Unmounting? && Mounted(n, op.path) {
      UnmountKeeps(env, v, n, op.path);
      if op.count == 1 {
        LastUnmount(env, v, n, op.path);
      }
    }
  }

  lemma TearDownKeeps(env: NodeEnv, v: string, n: Node, op: NodeOp, f: NodeFault)
    requires Separate(env) && NodeOk(env, n) && NodeOpOk(env, v, n, op)
    requires op.DroppingDevice? || op.LoggingOut? || op.RemovingDir? || op.RemovingFile?
    ensures
      var (n', op') := NodeStep(env, v, n, op, f);
      NodeOk(env, n') && OnlyOwn(env, v, n, n') && NodeOpOk(env, v, n', op')
  {
    hide Keep, First, NodeOk, OnlyOwn;
    match op {
      case DroppingDevice(_, _) => DropKeeps(env, v, n, f);
      case LoggingOut(_, _) => DropKeeps(env, v, n, f);
      case RemovingDir(path) => RemoveDirKeeps(env, v, n, path, f);
      case RemovingFile(path) =>
        RemoveFileKeeps(env, v, n, f);
        UnusedUnmounted(env, v, n, path);
    }
  }

  lemma UnusedUnmounted(env: NodeEnv, v: string, n: Node, path: string)
    requires Unused(env, v, n) && path in env.owner && env.owner[path] == v
    ensures forall n': Node | n'.mounts == n.mounts :: !Mounted(n', path)
  {
  }

  lemma NodeStepKeeps(env: NodeEnv, v: string, n: Node, op: NodeOp, f: NodeFault)
    requires Separate(env) && NodeOk(env, n) && NodeOpOk(env, v, n, op)
    ensures
      var (n', op') := NodeStep(env, v, n, op, f);
      NodeOk(env, n') && OnlyOwn(env, v, n, n') && NodeOpOk(env, v, n', op')
  {
    hide NodeOk, OnlyOwn, NodeOpOk;
    if op.Connecting? || op.CheckingMount? || op.MakingDir? || op.Persisting? || op.Mounting? {
      AttachStepKeeps(env, v, n, op, f);
    } else if op.Counting? || op.CheckingPath? || op.Loading? || op.Unmounting? {
      DetachStepKeeps(env, v, n, op, f);
    } else if op.Ended? {
      StillNode(env, v, n);
    } else {
      TearDownKeeps(env, v, n, op, f);
    }
  }

  // All runs

  lemma NodeCallKeeps(env: NodeEnv, sys: NodeSystem, v: string, fault: NodeFault)
    requires NodeInv(env, sys) && v in sys.ops
    ensures NodeInv(env, NodeApply(env, sys, NodeCall(v, fault)))
  {
    hide NodeOk, OnlyOwn, NodeOpOk, NodeStep, Separate;
    var (n', op') := NodeStep(env, v, sys.node, sys.ops[v], fault);
    NodeStepKeeps(env, v, sys.node, sys.ops[v], fault);
    forall w | w in sys.ops && w != v ensures NodeOpOk(env, w, n', sys.ops[w]) {
      OtherNodeOp(env, v, w, sys.node, n', sys.ops[w]);
    }
  }

  lemma RebootKeeps(env: NodeEnv, n: Node)
    requires NodeOk(env, n)
    ensures NodeOk(env, n.(mounts := [], devices := map[], sessions := {}))
  {
  }

  lemma NodeApplyKeeps(env: NodeEnv, sys: NodeSystem, event: NodeEvent)
    requires NodeInv(env, sys)
    ensures NodeInv(env, NodeApply(env, sys, event))
  {
    hide NodeOk, NodeStep, Separate;
    match event {
      case NodeCall(v, fault) => if v in sys.ops { NodeCallKeeps(env, sys, v, fault); }
      case Reboot => RebootKeeps(env, sys.node);
      case _ =>
    }
  }

  lemma {:induction false} NodeExecKeeps(env: NodeEnv, sys: NodeSystem, events: seq<NodeEvent>)
    requires NodeInv(env, sys)
    ensures NodeInv(env, NodeExec(env, sys, events))
    decreases |events|
  {
    hide NodeInv, NodeApply;
    if events == [] {
    } else {
      NodeApplyKeeps(env, sys, events[0]);
      NodeExecKeeps(env, NodeApply(env, sys, events[0]), events[1..]);
    }
  }

  /** A node before the driver has done anything: whatever is mounted has nothing to do with it. */
  ghost predicate FreshNode(env: NodeEnv, n: Node) {
    && Separate(env)
    && (forall p :: |Keep(n.mounts, AtPath(p))| <= 1)
    && (forall m | m in n.mounts :: m.path !in env.owner)
    && n.devices == map[] && n.files == map[]
  }

  lemma ReachableNode(env: NodeEnv, n: Node, events: seq<NodeEvent>)
    requires FreshNode(env, n)
    ensures NodeInv(env, NodeExec(env, NodeSystem(n, map[]), events))
  {
    NodeExecKeeps(env, NodeSystem(n, map[]), events);
  }

  /** A mount of a target path always has its session, its device and its connector file. */
  lemma MountsBacked(env: NodeEnv, n0: Node, events: seq<NodeEvent>, m: MountPoint)
    requires FreshNode(env, n0)
    requires m in NodeExec(env, NodeSystem(n0, map[]), events).node.mounts && m.path in env.owner
    ensures Backed(env, NodeExec(env, NodeSystem(n0, map[]), events).node, m)
  {
    hide NodeExec, Backed;
    ReachableNode(env, n0, events);
  }

  /** A publish that succeeds has mounted its path; an unpublish that succeeds has left it unmounted, on its early
      returns too. */
  lemma AnswersHonest(env: NodeEnv, n0: Node, events: seq<NodeEvent>, v: string)
    requires FreshNode(env, n0) && v in NodeExec(env, NodeSystem(n0, map[]), events).ops
    ensures
      var sys := NodeExec(env, NodeSystem(n0, map[]), events);
      match sys.ops[v]
      case Ended(path, Attached) => exists m :: m in sys.node.mounts && m.path == path && Backed(env, sys.node, m)
      case Ended(path, Detached) => forall m | m in sys.node.mounts :: m.path != path
      case _ => true
  {
    hide NodeExec, Backed, Keep, First;
    ReachableNode(env, n0, events);
    var sys := NodeExec(env, NodeSystem(n0, map[]), events);
    assert NodeOpOk(env, v, sys.node, sys.ops[v]);
  }

  /** Tearing down never hits anything in use: when a step drops a device, ends a session, removes a target path
      or removes a connector file, no target path of that volume is mounted, and nothing is mounted from the device. */
  lemma TearDownSafe(env: NodeEnv, n0: Node, events: seq<NodeEvent>, v: string)
    requires FreshNode(env, n0) && v in NodeExec(env, NodeSystem(n0, map[]), events).ops
    ensures
      var sys := NodeExec(env, NodeSystem(n0, map[]), events);
      var n, op := sys.node, sys.ops[v];
      && (op.DroppingDevice? || op.LoggingOut? || op.RemovingDir? || op.RemovingFile? ==>
            forall m | m in n.mounts && m.path in env.owner :: env.owner[m.path] != v)
      && (op.DroppingDevice? || op.LoggingOut? ==>
            && op.iqn == IqnOf(env, v)
            && (op.iqn in n.devices ==> forall m | m in n.mounts :: m.device != n.devices[op.iqn]))
      && (op.RemovingDir? ==> forall m | m in n.mounts && m.path in env.owner :: !Within(m.path, op.path))
  {
    hide NodeExec, Keep, First;
    ReachableNode(env, n0, events);
    var sys := NodeExec(env, NodeSystem(n0, map[]), events);
    assert NodeOpOk(env, v, sys.node, sys.ops[v]);
    if Unused(env, v, sys.node) && IqnOf(env, v) in sys.node.devices {
      DevicesApart(env, v, sys.node);
    }
  }

  lemma DevicesApart(env: NodeEnv, v: string, n: Node)
    requires NodeOk(env, n) && Unused(env, v, n) && IqnOf(env, v) in n.devices
    ensures forall m | m in n.mounts :: m.device != n.devices[IqnOf(env, v)]
  {
    hide Keep;
    forall m | m in n.mounts ensures m.device != n.devices[IqnOf(env, v)] {
      if m.path in env.owner {
        assert Backed(env, n, m);
        OwnIqn(env, v, env.owner[m.path]);
      }
    }
  }
}
