/** What becomes of an attach or a detach that fails, and exactly when a detach after it works. */
module NodeRetries {
  import opened Lists
  import opened NodeMachine
  import opened NodeInvariant
  import opened NodeRuns

  function FaultAt(faults: seq<NodeFault>, k: nat): NodeFault {
    if k < |faults| then faults[k] else Fine
  }

  /** The call has its effect, whether or not it says so. */
  predicate TakesEffect(f: NodeFault) {
    f.Fine? || f.Unsure?
  }

  lemma LaterFaultAt(faults: seq<NodeFault>, k: nat)
    ensures FaultAt(LaterFaults(faults), k) == FaultAt(faults, k + 1)
    ensures NextFault(faults) == FaultAt(faults, 0)
  {
  }

  /** Path and connector file are there, and nothing is mounted at the path or the file cannot be read. */
  predicate Blocked(v: string, n: Node, path: string) {
    path in n.dirs && v in n.files && (!Mounted(n, path) || n.files[v].Torn?)
  }

  /** The first attempt gets the path unmounted. */
  predicate Unmounts(faults: seq<NodeFault>) {
    FaultAt(faults, 0).Fine? && FaultAt(faults, 1).Fine? && FaultAt(faults, 2).Fine? && TakesEffect(FaultAt(faults, 3))
  }

  /** It goes on to tear down, and a removal of the path or of the connector file takes effect. */
  predicate TearsDown(n: Node, path: string, faults: seq<NodeFault>) {
    && MountCount(n, path) == 1
    && FaultAt(faults, 3).Fine? && FaultAt(faults, 4).Fine?
    && (TakesEffect(FaultAt(faults, 6)) || TakesEffect(FaultAt(faults, 7)))
  }

  /** Going by the node before the first attempt and by its faults: a second one will succeed. */
  predicate RetryWorks(v: string, n: Node, path: string, faults: seq<NodeFault>) {
    || path !in n.dirs || v !in n.files
    || (Detachable(v, n, path) && (Unmounts(faults) ==> TearsDown(n, path, faults)))
  }

  // The first attempt

  lemma DetachToUnmount(env: NodeEnv, v: string, n: Node, path: string, faults: seq<NodeFault>)
    requires NodeOk(env, n) && path in env.owner && env.owner[path] == v && Detachable(v, n, path)
    ensures
      var n' := n.(mounts := Keep(n.mounts, Not(AtPath(path))));
      var rest := LaterFaults(LaterFaults(LaterFaults(LaterFaults(faults))));
      var run := NodeRun(env, v, n, Counting(path), faults);
      if !Unmounts(faults) then run.0 == n && run.1 == Ended(path, NodeFailure)
      else if FaultAt(faults, 3).Unsure? then run.0 == n' && run.1 == Ended(path, NodeFailure)
      else if MountCount(n, path) != 1 then run.0 == n' && run.1 == Ended(path, Detached)
      else run == NodeRun(env, v, n', DroppingDevice(path, IqnOf(env, v)), rest)
  {
    hide NodeRun, Keep, First, MountCount, NodeOk;
    var count := MountCount(n, path);
    var f1 := LaterFaults(faults);
    var f2 := LaterFaults(f1);
    var f3 := LaterFaults(f2);
    LaterFaultAt(faults, 0);
    LaterFaultAt(f1, 0);
    LaterFaultAt(f2, 0);
    LaterFaultAt(f3, 0);
    FileIqn(env, v, n);
    EndOfNodeRun(env, v, path);
    OneNodeStep(env, v, n, Counting(path), faults);
    OneNodeStep(env, v, n, CheckingPath(path, count), f1);
    OneNodeStep(env, v, n, Loading(path, count), f2);
    OneNodeStep(env, v, n, Unmounting(path, count, IqnOf(env, v)), f3);
  }

  /** The tail of a detach, call by call. */
  lemma TearDownRun(env: NodeEnv, v: string, n: Node, path: string, faults: seq<NodeFault>)
    ensures
      var iqn := IqnOf(env, v);
      var f1 := LaterFaults(faults);
      var f2 := LaterFaults(f1);
      var n1 := DisconnectVolume(n, iqn, NextFault(faults)).0;
      var n3 := RemoveAll(Disconnect(n1, iqn, NextFault(f1)).0, path, NextFault(f2)).0;
      var (n', op', _) := NodeRun(env, v, n, DroppingDevice(path, iqn), faults);
      var (n4, removed) := RemoveFile(n3, v, NextFault(LaterFaults(f2)));
      && n' == (if NextFault(faults).Fine? then n4 else n1)
      && op' == Ended(path, if NextFault(faults).Fine? && removed.Ok? then Detached else NodeFailure)
  {
    hide NodeRun, NodeStep, Keep, First, IqnOf, Disconnect, RemoveAll, RemoveFile;
    var iqn := IqnOf(env, v);
    var f1 := LaterFaults(faults);
    var f2 := LaterFaults(f1);
    var n1 := DisconnectVolume(n, iqn, NextFault(faults)).0;
    var n2 := Disconnect(n1, iqn, NextFault(f1)).0;
    var n3 := RemoveAll(n2, path, NextFault(f2)).0;
    AtTearDown(env, v, path, iqn);
    EndOfNodeRun(env, v, path);
    OneNodeStep(env, v, n, DroppingDevice(path, iqn), faults);
    OneNodeStep(env, v, n1, LoggingOut(path, iqn), f1);
    OneNodeStep(env, v, n2, RemovingDir(path), f2);
    OneNodeStep(env, v, n3, RemovingFile(path), LaterFaults(f2));
  }

  /** What is left then of path and connector file, under any faults. */
  lemma TearDownUnderFaults(env: NodeEnv, v: string, n: Node, path: string, faults: seq<NodeFault>)
    requires v in n.files && path in n.dirs && !Mounted(n, path)
    ensures
      var (n', op', _) := NodeRun(env, v, n, DroppingDevice(path, IqnOf(env, v)), faults);
      && op'.Ended? && n'.mounts == n.mounts && (v in n'.files ==> n'.files[v] == n.files[v])
      && (path in n'.dirs <==> !(FaultAt(faults, 0).Fine? && TakesEffect(FaultAt(faults, 2))))
      && (v in n'.files <==> !(FaultAt(faults, 0).Fine? && TakesEffect(FaultAt(faults, 3))))
  {
    hide NodeRun, Mounted, IqnOf;
    TearDownRun(env, v, n, path, faults);
    FiveFaults(faults);
  }

  lemma BlockedAfterDetach(env: NodeEnv, v: string, n: Node, path: string, faults: seq<NodeFault>)
    requires NodeOk(env, n) && path in env.owner && env.owner[path] == v && Detachable(v, n, path)
    ensures
      var n' := NodeRun(env, v, n, Counting(path), faults).0;
      Blocked(v, n', path) <==> !RetryWorks(v, n, path, faults)
  {
    hide NodeRun, Keep, First, MountCount, NodeOk;
    var n1 := n.(mounts := Keep(n.mounts, Not(AtPath(path))));
    Unmounted(n, path);
    DetachToUnmount(env, v, n, path, faults);
    if Unmounts(faults) && FaultAt(faults, 3).Fine? && MountCount(n, path) == 1 {
      var rest := LaterFaults(LaterFaults(LaterFaults(LaterFaults(faults))));
      TearDownUnderFaults(env, v, n1, path, rest);
      FourLater(faults);
    }
  }

  lemma FourLater(faults: seq<NodeFault>)
    ensures
      var rest := LaterFaults(LaterFaults(LaterFaults(LaterFaults(faults))));
      forall k: nat :: FaultAt(rest, k) == FaultAt(faults, k + 4)
  {
    var f1 := LaterFaults(faults);
    var f2 := LaterFaults(f1);
    var f3 := LaterFaults(f2);
    forall k: nat ensures FaultAt(LaterFaults(f3), k) == FaultAt(faults, k + 4) {
      LaterFaultAt(f3, k);
      LaterFaultAt(f2, k + 1);
      LaterFaultAt(f1, k + 2);
      LaterFaultAt(faults, k + 3);
    }
  }

  lemma Unmounted(n: Node, path: string)
    ensures
      forall n': Node | n'.mounts == Keep(n.mounts, Not(AtPath(path))) :: !Mounted(n', path)
  {
  }

  // The attempts after it

  /** A detach that cannot get as far as unmounting changes nothing, whatever its calls do, and succeeds only when it
      finds the path or the file missing. */
  lemma IdleDetach(env: NodeEnv, v: string, n: Node, path: string, faults: seq<NodeFault>)
    requires !Detachable(v, n, path)
    ensures
      var (n', op', _) := NodeRun(env, v, n, Counting(path), faults);
      && n' == n
      && op' == Ended(path, if FaultAt(faults, 0).Fine? && FaultAt(faults, 1).Fine? &&
                               (path !in n.dirs || (v !in n.files && FaultAt(faults, 2).Fine?))
                            then Detached else NodeFailure)
  {
    hide NodeRun, Keep, First, MountCount;
    var count := MountCount(n, path);
    var f1 := LaterFaults(faults);
    var f2 := LaterFaults(f1);
    var f3 := LaterFaults(f2);
    FiveFaults(faults);
    EndOfNodeRun(env, v, path);
    OneNodeStep(env, v, n, Counting(path), faults);
    OneNodeStep(env, v, n, CheckingPath(path, count), f1);
    OneNodeStep(env, v, n, Loading(path, count), f2);
    if v in n.files && n.files[v].Intact? {
      OneNodeStep(env, v, n, Unmounting(path, count, n.files[v].iqn), f3);
    }
  }

  /** The node after several detaches of the path, each with its own faults. */
  function DetachAttempts(env: NodeEnv, v: string, n: Node, path: string, attempts: seq<seq<NodeFault>>): Node
    decreases |attempts|
  {
    if attempts == [] then n
    else DetachAttempts(env, v, NodeRun(env, v, n, Counting(path), attempts[0]).0, path, attempts[1..])
  }

  lemma {:induction false} BlockedThroughout(env: NodeEnv, v: string, n: Node, path: string,
                                             attempts: seq<seq<NodeFault>>)
    requires Blocked(v, n, path)
    ensures DetachAttempts(env, v, n, path, attempts) == n
    decreases |attempts|
  {
    hide NodeRun;
    if attempts == [] {
    } else {
      IdleDetach(env, v, n, path, attempts[0]);
      BlockedThroughout(env, v, n, path, attempts[1..]);
    }
  }

  /** What Blocked means: a detach whose calls work fails exactly then, and then so does every detach of the path,
      whatever its faults, and any number of them leaves the node as it is. */
  lemma DetachFailsIfBlocked(env: NodeEnv, v: string, n: Node, path: string, faults: seq<NodeFault>,
                             attempts: seq<seq<NodeFault>>)
    requires NodeOk(env, n) && path in env.owner && env.owner[path] == v
    ensures
      && DetachRun(env, v, n, path).1 == Ended(path, if Blocked(v, n, path) then NodeFailure else Detached)
      && (Blocked(v, n, path) ==>
            && NodeRun(env, v, n, Counting(path), faults).1 == Ended(path, NodeFailure)
            && DetachAttempts(env, v, n, path, attempts) == n)
  {
    hide NodeRun, NodeOk, Mounted, MountCount;
    DetachEffect(env, v, n, path);
    if Blocked(v, n, path) {
      IdleDetach(env, v, n, path, faults);
      BlockedThroughout(env, v, n, path, attempts);
    }
  }

  /** A detach with any faults, from any node in order, and then another whose calls work. The second succeeds exactly
      when the path or the connector file was missing to begin with, or the first could have unmounted and either did
      not, or went on to remove the path or the connector file. Otherwise no further detach helps. */
  lemma DetachRetried(env: NodeEnv, v: string, n: Node, path: string, faults: seq<NodeFault>,
                      attempts: seq<seq<NodeFault>>)
    requires Separate(env) && NodeOk(env, n) && path in env.owner && env.owner[path] == v
    ensures
      var n' := NodeRun(env, v, n, Counting(path), faults).0;
      && DetachRun(env, v, n', path).1 == Ended(path, if RetryWorks(v, n, path, faults) then Detached else NodeFailure)
      && (Blocked(v, n', path) <==> !RetryWorks(v, n, path, faults))
      && (!RetryWorks(v, n, path, faults) ==> DetachAttempts(env, v, n', path, attempts) == n')
  {
    hide NodeRun, NodeOk, Separate, Mounted, MountCount;
    var n' := NodeRun(env, v, n, Counting(path), faults).0;
    NodeRunKeeps(env, v, n, Counting(path), faults);
    if Detachable(v, n, path) {
      BlockedAfterDetach(env, v, n, path, faults);
    } else {
      IdleDetach(env, v, n, path, faults);
    }
    DetachFailsIfBlocked(env, v, n', path, [], attempts);
  }

  // An attach with faults, and then a detach

  /** The attach finds the path unmounted and makes it. */
  predicate MakesPath(n: Node, path: string, faults: seq<NodeFault>) {
    !Mounted(n, path) && FaultAt(faults, 0).Fine? && FaultAt(faults, 1).Fine? && TakesEffect(FaultAt(faults, 2))
  }

  /** It gets to writing the connector file, and the write leaves something. */
  predicate WritesFile(n: Node, path: string, faults: seq<NodeFault>) {
    MakesPath(n, path, faults) && FaultAt(faults, 2).Fine? && !FaultAt(faults, 3).Refused?
  }

  /** It gets to mounting, and the mount takes effect. */
  predicate Mounts(n: Node, path: string, faults: seq<NodeFault>) {
    WritesFile(n, path, faults) && FaultAt(faults, 3).Fine? && TakesEffect(FaultAt(faults, 4))
  }

  /** All calls the attach makes work. */
  predicate AttachWorks(n: Node, path: string, faults: seq<NodeFault>) {
    && FaultAt(faults, 0).Fine? && FaultAt(faults, 1).Fine?
    && (Mounted(n, path) ||
          (FaultAt(faults, 2).Fine? && FaultAt(faults, 3).Fine? && FaultAt(faults, 4).Fine?))
  }

  /** What an attach leaves, whatever its calls do, and what it answers. */
  lemma AttachUnderFaults(env: NodeEnv, v: string, n: Node, path: string, faults: seq<NodeFault>)
    ensures
      var (n', op', _) := NodeRun(env, v, n, Connecting(path), faults);
      var m := MountPoint(path, DeviceFor(n, IqnOf(env, v)));
      var file := if FaultAt(faults, 3).Degraded? then Torn else Intact(IqnOf(env, v));
      && op' == Ended(path, if AttachWorks(n, path, faults) then Attached else NodeFailure)
      && (FaultAt(faults, 0).Fine? ==> IqnOf(env, v) in n'.sessions)
      && n'.mounts == (if Mounts(n, path, faults) then n.mounts + [m] else n.mounts)
      && n'.dirs == (if MakesPath(n, path, faults) then n.dirs + {path} else n.dirs)
      && n'.files == if WritesFile(n, path, faults) then n.files[v := file] else n.files
  {
    hide NodeRun, Keep, First, DeviceFor;
    var iqn := IqnOf(env, v);
    var device := DeviceFor(n, iqn);
    var f1 := LaterFaults(faults);
    var f2 := LaterFaults(f1);
    var f3 := LaterFaults(f2);
    var f4 := LaterFaults(f3);
    FiveFaults(faults);
    EndOfNodeRun(env, v, path);
    OneNodeStep(env, v, n, Connecting(path), faults);
    if FaultAt(faults, 0).Fine? {
      var n1 := Connect(n, iqn, Fine).0;
      OneNodeStep(env, v, n1, CheckingMount(path, device), f1);
      if FaultAt(faults, 1).Fine? && !Mounted(n, path) {
        var n2 := n1.(dirs := n1.dirs + {path});
        var n3 := PersistConnector(n2, v, iqn, Fine).0;
        OneNodeStep(env, v, n1, MakingDir(path, device), f2);
        OneNodeStep(env, v, n2, Persisting(path, device), f3);
        OneNodeStep(env, v, n3, Mounting(path, device), f4);
      }
    }
  }

  lemma FiveFaults(faults: seq<NodeFault>)
    ensures
      var f1 := LaterFaults(faults);
      var f2 := LaterFaults(f1);
      var f3 := LaterFaults(f2);
      && NextFault(faults) == FaultAt(faults, 0) && NextFault(f1) == FaultAt(faults, 1)
      && NextFault(f2) == FaultAt(faults, 2) && NextFault(f3) == FaultAt(faults, 3)
      && NextFault(LaterFaults(f3)) == FaultAt(faults, 4)
  {
    FourLater(faults);
  }

  lemma StillMounted(n: Node, n': Node, path: string, m: MountPoint)
    requires n'.mounts == n.mounts || n'.mounts == n.mounts + [m]
    ensures Mounted(n', path) <==> Mounted(n, path) || (n'.mounts == n.mounts + [m] && m.path == path)
  {
    hide Keep, First;
    KeepOne(n.mounts, m, AtPath(path));
    FirstIsHead(n.mounts, AtPath(path));
    FirstIsHead(n'.mounts, AtPath(path));
  }

  /** Going by the node before an attach and by its faults: a detach of the same path will fail. */
  predicate PublishBlocks(v: string, n: Node, path: string, faults: seq<NodeFault>) {
    if !MakesPath(n, path, faults) then Blocked(v, n, path)
    else if !WritesFile(n, path, faults) then v in n.files
    else !Mounts(n, path, faults)
  }

  /** An attach with any faults, from any node in order, and then a detach of the path whose calls work: it fails
      exactly under PublishBlocks, and then no further detach helps. */
  lemma PublishThenUnpublish(env: NodeEnv, v: string, n: Node, path: string, faults: seq<NodeFault>,
                             attempts: seq<seq<NodeFault>>)
    requires Separate(env) && NodeOk(env, n) && path in env.owner && env.owner[path] == v
    ensures
      var n' := NodeRun(env, v, n, Connecting(path), faults).0;
      && DetachRun(env, v, n', path).1 ==
           Ended(path, if PublishBlocks(v, n, path, faults) then NodeFailure else Detached)
      && (PublishBlocks(v, n, path, faults) ==> DetachAttempts(env, v, n', path, attempts) == n')
  {
    hide NodeRun, NodeOk, Separate, Mounted, DeviceFor, IqnOf;
    var n' := NodeRun(env, v, n, Connecting(path), faults).0;
    NodeRunKeeps(env, v, n, Connecting(path), faults);
    AttachUnderFaults(env, v, n, path, faults);
    StillMounted(n, n', path, MountPoint(path, DeviceFor(n, IqnOf(env, v))));
    DetachFailsIfBlocked(env, v, n', path, [], attempts);
  }

  /** In the ordinary case, a first publish that fails and the unpublish that answers it, the unpublish fails exactly
      when the connector file got written, in full or in part, and the mount did not take effect. */
  lemma FirstPublishThenUnpublish(env: NodeEnv, v: string, n: Node, path: string, faults: seq<NodeFault>)
    requires Separate(env) && NodeOk(env, n) && path in env.owner && env.owner[path] == v
    requires v !in n.files && !Mounted(n, path)
    ensures
      var F := k => FaultAt(faults, k);
      DetachRun(env, v, NodeRun(env, v, n, Connecting(path), faults).0, path).1 == Ended(path, NodeFailure) <==>
        && F(0).Fine? && F(1).Fine? && F(2).Fine?
        && (F(3).Unsure? || F(3).Degraded? || (F(3).Fine? && !TakesEffect(F(4))))
  {
    hide NodeRun, NodeOk, Separate, Mounted;
    PublishThenUnpublish(env, v, n, path, faults, []);
  }

  /** The same when the attach is at another path of the volume: it can block this one by tearing the connector file,
      and free it by writing the file anew. */
  predicate PublishElsewhereBlocks(v: string, n: Node, path: string, other: string, faults: seq<NodeFault>) {
    if !WritesFile(n, other, faults) then Blocked(v, n, path)
    else path in n.dirs && (FaultAt(faults, 3).Degraded? || !Mounted(n, path))
  }

  lemma PublishElsewhereThenUnpublish(env: NodeEnv, v: string, n: Node, path: string, other: string,
                                      faults: seq<NodeFault>, attempts: seq<seq<NodeFault>>)
    requires Separate(env) && NodeOk(env, n) && path in env.owner && env.owner[path] == v
    requires other in env.owner && env.owner[other] == v && other != path
    ensures
      var n' := NodeRun(env, v, n, Connecting(other), faults).0;
      && DetachRun(env, v, n', path).1 ==
           Ended(path, if PublishElsewhereBlocks(v, n, path, other, faults) then NodeFailure else Detached)
      && (PublishElsewhereBlocks(v, n, path, other, faults) ==> DetachAttempts(env, v, n', path, attempts) == n')
  {
    hide NodeRun, NodeOk, Separate, Mounted, DeviceFor, IqnOf;
    var n' := NodeRun(env, v, n, Connecting(other), faults).0;
    NodeRunKeeps(env, v, n, Connecting(other), faults);
    AttachUnderFaults(env, v, n, other, faults);
    StillMounted(n, n', path, MountPoint(other, DeviceFor(n, IqnOf(env, v))));
    DetachFailsIfBlocked(env, v, n', path, [], attempts);
  }

  /** Which publish is a way out: one whose calls work, at a path not mounted yet. For a path that is not mounted it
      has to be at the path itself; for one that is mounted, its file torn, at any other. */
  lemma WayOut(env: NodeEnv, v: string, n: Node, path: string, other: string)
    requires Separate(env) && NodeOk(env, n) && path in env.owner && env.owner[path] == v && Blocked(v, n, path)
    requires other in env.owner && env.owner[other] == v
    ensures
      var attached := AttachRun(env, v, n, other);
      && attached.1 == Ended(other, Attached)
      && (DetachRun(env, v, attached.0, path).1 == Ended(path, Detached) <==>
            !Mounted(n, other) && (other == path || Mounted(n, path)))
  {
    hide NodeRun, NodeOk, Separate, Mounted;
    AttachEffect(env, v, n, other);
    if other == path {
      PublishThenUnpublish(env, v, n, path, [], []);
    } else {
      PublishElsewhereThenUnpublish(env, v, n, path, other, [], []);
    }
  }

  // Two paths of one volume

  const FIFTH_REFUSED := [Fine, Fine, Fine, Fine, Refused]
  const WRITE_TORN := [Fine, Fine, Fine, Degraded]

  lemma AtOneDetachable()
    ensures
      var n := AttachRun(TWO_PATHS, "v", NOTHING_YET, "/a").0;
      && Separate(TWO_PATHS) && NodeOk(TWO_PATHS, n) && Detachable("v", n, "/a")
      && MountCount(n, "/a") == 1 && !Mounted(n, "/b")
      && n.files.Keys == {"v"} && n.sessions == {IqnOf(TWO_PATHS, "v")} == n.devices.Keys
  {
    hide NodeRun, Keep, First;
    EmptyNodeOk();
    LoneMount(TWO_PATHS, "v", NOTHING_YET, "/a");
    AttachEffect(TWO_PATHS, "v", NOTHING_YET, "/a");
    NodeRunKeeps(TWO_PATHS, "v", NOTHING_YET, Connecting("/a"), []);
  }

  /** The only mount of a volume is taken, the disconnect behind it is refused: the detach fails, no later one
      succeeds, and session, device and connector file stay. */
  lemma LeftBehind(attempts: seq<seq<NodeFault>>)
    ensures
      var n := AttachRun(TWO_PATHS, "v", NOTHING_YET, "/a").0;
      var (n', op', _) := NodeRun(TWO_PATHS, "v", n, Counting("/a"), FIFTH_REFUSED);
      && op' == Ended("/a", NodeFailure) && !Mounted(n', "/a")
      && DetachRun(TWO_PATHS, "v", n', "/a").1 == Ended("/a", NodeFailure)
      && DetachAttempts(TWO_PATHS, "v", n', "/a", attempts) == n'
      && n'.sessions == {IqnOf(TWO_PATHS, "v")} == n'.devices.Keys && n'.files.Keys == {"v"}
  {
    hide NodeRun, Keep, First, MountCount, NodeOk, Separate;
    var n := AttachRun(TWO_PATHS, "v", NOTHING_YET, "/a").0;
    AtOneDetachable();
    DetachRetried(TWO_PATHS, "v", n, "/a", FIFTH_REFUSED, attempts);
    BlockedAfterDetach(TWO_PATHS, "v", n, "/a", FIFTH_REFUSED);
    RefusedDrop(n);
  }

  lemma RefusedDrop(n: Node)
    requires NodeOk(TWO_PATHS, n) && Detachable("v", n, "/a")
    ensures
      var (n', op', _) := NodeRun(TWO_PATHS, "v", n, Counting("/a"), FIFTH_REFUSED);
      && n' == n.(mounts := Keep(n.mounts, Not(AtPath("/a"))))
      && (MountCount(n, "/a") == 1 ==> op' == Ended("/a", NodeFailure))
  {
    hide NodeRun, Keep, First, MountCount, NodeOk, IqnOf;
    var n' := n.(mounts := Keep(n.mounts, Not(AtPath("/a"))));
    DetachToUnmount(TWO_PATHS, "v", n, "/a", FIFTH_REFUSED);
    EndOfNodeRun(TWO_PATHS, "v", "/a");
    OneNodeStep(TWO_PATHS, "v", n', DroppingDevice("/a", IqnOf(TWO_PATHS, "v")), [Refused]);
  }

  /** A first publish whose mount is refused: no unpublish succeeds after it, and the session stays. */
  lemma PublishLeavesBehind(attempts: seq<seq<NodeFault>>)
    ensures
      var (n', op', _) := NodeRun(TWO_PATHS, "v", NOTHING_YET, Connecting("/a"), FIFTH_REFUSED);
      && op' == Ended("/a", NodeFailure) && IqnOf(TWO_PATHS, "v") in n'.sessions
      && DetachRun(TWO_PATHS, "v", n', "/a").1 == Ended("/a", NodeFailure)
      && DetachAttempts(TWO_PATHS, "v", n', "/a", attempts) == n'
  {
    hide NodeRun, NodeOk, Separate, Mounted, IqnOf;
    EmptyNodeOk();
    PublishThenUnpublish(TWO_PATHS, "v", NOTHING_YET, "/a", FIFTH_REFUSED, attempts);
    AttachUnderFaults(TWO_PATHS, "v", NOTHING_YET, "/a", FIFTH_REFUSED);
  }

  /** Published at one path, then at the other with the write of the file cut short: the first path is mounted and no
      unpublish of it succeeds. Publishing there again changes nothing; publishing at the other path frees it. */
  lemma TornByNeighbour(attempts: seq<seq<NodeFault>>)
    ensures
      var n := AttachRun(TWO_PATHS, "v", NOTHING_YET, "/a").0;
      var n' := NodeRun(TWO_PATHS, "v", n, Connecting("/b"), WRITE_TORN).0;
      && Mounted(n', "/a") && RetryWorks("v", n, "/a", [])
      && DetachRun(TWO_PATHS, "v", n', "/a").1 == Ended("/a", NodeFailure)
      && DetachAttempts(TWO_PATHS, "v", n', "/a", attempts) == n'
      && AttachRun(TWO_PATHS, "v", n', "/a").0 == n'
      && DetachRun(TWO_PATHS, "v", AttachRun(TWO_PATHS, "v", n', "/b").0, "/a").1 == Ended("/a", Detached)
  {
    hide NodeRun, NodeOk, Separate, Mounted, IqnOf, DeviceFor, MountCount;
    var n := AttachRun(TWO_PATHS, "v", NOTHING_YET, "/a").0;
    var n' := NodeRun(TWO_PATHS, "v", n, Connecting("/b"), WRITE_TORN).0;
    AtOneDetachable();
    NodeRunKeeps(TWO_PATHS, "v", n, Connecting("/b"), WRITE_TORN);
    AttachUnderFaults(TWO_PATHS, "v", n, "/b", WRITE_TORN);
    StillMounted(n, n', "/a", MountPoint("/b", 0));
    StillMounted(n, n', "/b", MountPoint("/b", 0));
    PublishElsewhereThenUnpublish(TWO_PATHS, "v", n, "/a", "/b", WRITE_TORN, attempts);
    AttachEffect(TWO_PATHS, "v", n', "/a");
    WayOut(TWO_PATHS, "v", n', "/a", "/b");
  }
}
