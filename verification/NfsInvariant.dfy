/** What holds in every reachable NFS state, and what single runs reach. No assumption on the names is needed here. */
module NfsInvariant {
  import opened Wrappers
  import opened Lists
  import opened Faults
  import opened Decimal
  import opened Capacity
  import opened NfsMachine

  datatype Slice = Slice(datasets: seq<Dataset>, shares: seq<Share>)

  const NOTHING := Slice([], [])

  function Mountpoint(env: Env, v: string): string { MountpointOf(DatasetName(env, v)) }

  ghost function Own(env: Env, v: string, s: State): Slice {
    Slice(Keep(s.datasets, DatasetNamed(DatasetName(env, v))), Keep(s.shares, Sharing(Mountpoint(env, v))))
  }

  ghost function Rest(env: Env, v: string, s: State): Slice {
    Slice(Keep(s.datasets, Not(DatasetNamed(DatasetName(env, v)))), Keep(s.shares, Not(Sharing(Mountpoint(env, v)))))
  }

  ghost predicate Made(env: Env, v: string, d: Dataset) {
    d.mountpoint == Mountpoint(env, v) && exists n: VolumeSize :: d.refquota == ToDecimal(n)
  }

  ghost predicate VolumeOk(env: Env, v: string, s: State) {
    var o := Own(env, v, s);
    && |o.datasets| <= 1 && |o.shares| <= 1
    && (o.datasets != [] ==> Made(env, v, o.datasets[0]))
    && (o.shares != [] ==> o.datasets != [])
  }

  /** The datasets carry their name as id, and every volume is in order. */
  ghost predicate Good(env: Env, s: State) {
    (forall d | d in s.datasets :: d.id == d.name) && forall v :: VolumeOk(env, v, s)
  }

  ghost predicate HasDataset(env: Env, v: string, s: State) {
    |Own(env, v, s).datasets| == 1
  }

  ghost predicate OpOk(env: Env, v: string, s: State, op: Op) {
    var o := Own(env, v, s);
    match op
    case MakeDataset(_) => o.datasets == []
    case FindShare(_, mountpoint) => |o.datasets| == 1 && mountpoint == Mountpoint(env, v)
    case MakeShare(_, mountpoint) => |o.datasets| == 1 && mountpoint == Mountpoint(env, v) && o.shares == []
    case MakeShareOldWay(_, mountpoint) =>
      |o.datasets| == 1 && mountpoint == Mountpoint(env, v) && (o.shares == [] || s.dialect == TakesPath)
    case DropDataset(ds) => |o.datasets| == 1 && ds == DatasetName(env, v)
    case Finished(Provisioned(response)) =>
      |o.datasets| == 1 && |o.shares| == 1 && response.volumeId == v &&
      response.context == map[KEY_MOUNT_POINT := Mountpoint(env, v), KEY_HOST := env.address]
    case Finished(Deleted) => o == NOTHING
    case _ => true
  }

  ghost predicate Inv(env: Env, sys: System) {
    Good(env, sys.state) && forall v | v in sys.ops :: OpOk(env, v, sys.state, sys.ops[v])
  }

  /** A change that is the volume's own business and leaves it in order. */
  ghost predicate OwnChange(env: Env, v: string, s: State, s': State) {
    && Rest(env, v, s') == Rest(env, v, s) && s'.dialect == s.dialect
    && (forall d | d in s'.datasets :: d.id == d.name) && VolumeOk(env, v, s')
  }

  lemma MountpointsApart(env: Env, v: string, w: string)
    ensures Mountpoint(env, v) == Mountpoint(env, w) ==> v == w
    ensures DatasetName(env, v) == DatasetName(env, w) ==> v == w
  {
    var n := |env.storagePath| + 1;
    assert DatasetName(env, v)[n..] == v && DatasetName(env, w)[n..] == w;
    assert Mountpoint(env, v)[5..] == DatasetName(env, v) && Mountpoint(env, w)[5..] == DatasetName(env, w);
  }

  lemma OthersUntouched(env: Env, v: string, w: string, s: State, s': State)
    requires Rest(env, v, s') == Rest(env, v, s) && v != w
    ensures Own(env, w, s') == Own(env, w, s)
  {
    hide Keep;
    MountpointsApart(env, v, w);
    KeepThrough(s.datasets, Not(DatasetNamed(DatasetName(env, v))), DatasetNamed(DatasetName(env, w)));
    KeepThrough(s'.datasets, Not(DatasetNamed(DatasetName(env, v))), DatasetNamed(DatasetName(env, w)));
    KeepThrough(s.shares, Not(Sharing(Mountpoint(env, v))), Sharing(Mountpoint(env, w)));
    KeepThrough(s'.shares, Not(Sharing(Mountpoint(env, v))), Sharing(Mountpoint(env, w)));
  }

  // The steps

  lemma NoChange(env: Env, v: string, s: State)
    requires Good(env, s)
    ensures OwnChange(env, v, s, s)
  {
  }

  lemma DatasetCreated(env: Env, v: string, s: State, size: VolumeSize)
    requires Good(env, s) && Own(env, v, s).datasets == []
    ensures
      var s' := CreateDataset(s, DatasetName(env, v), size, Works).0;
      OwnChange(env, v, s, s') && Own(env, v, s') ==
        Slice([Dataset(DatasetName(env, v), DatasetName(env, v), Mountpoint(env, v), ToDecimal(size))], [])
  {
    hide Keep;
    var name := DatasetName(env, v);
    var d := Dataset(name, name, MountpointOf(name), ToDecimal(size));
    assert VolumeOk(env, v, s);
    KeepOne(s.datasets, d, DatasetNamed(name));
    KeepOne(s.datasets, d, Not(DatasetNamed(name)));
  }

  lemma ShareCreated(env: Env, v: string, s: State, dialect: Dialect)
    requires Good(env, s) && |Own(env, v, s).datasets| == 1 && Own(env, v, s).shares == [] && dialect == s.dialect
    ensures
      var (s', r) := CreateShare(s, dialect, Mountpoint(env, v), ShareComment(v), Works);
      r.Ok? && OwnChange(env, v, s, s') && Own(env, v, s') == Own(env, v, s).(shares := [r.value]) &&
      Normalise(r.value) == Mountpoint(env, v) && r.value.comment == ShareComment(v)
  {
    hide Keep;
    var share := CreateShare(s, dialect, Mountpoint(env, v), ShareComment(v), Works).1.value;
    assert VolumeOk(env, v, s);
    KeepOne(s.shares, share, Sharing(Mountpoint(env, v)));
    KeepOne(s.shares, share, Not(Sharing(Mountpoint(env, v))));
  }

  lemma FirstOwn(env: Env, v: string, s: State)
    requires Good(env, s)
    ensures |Own(env, v, s).datasets| <= 1 && |Own(env, v, s).shares| <= 1
    ensures Own(env, v, s).datasets == [] ==> Own(env, v, s) == NOTHING
    ensures First(s.datasets, DatasetNamed(DatasetName(env, v))) ==
      if Own(env, v, s).datasets == [] then None else Some(Own(env, v, s).datasets[0])
    ensures First(s.shares, Sharing(Mountpoint(env, v))).None? <==> Own(env, v, s).shares == []
    ensures Own(env, v, s).datasets != [] ==>
      && Own(env, v, s).datasets[0].id == DatasetName(env, v)
      && Own(env, v, s).datasets[0].mountpoint == Mountpoint(env, v)
  {
    hide Keep, First;
    FirstIsHead(s.datasets, DatasetNamed(DatasetName(env, v)));
    FirstIsHead(s.shares, Sharing(Mountpoint(env, v)));
    assert VolumeOk(env, v, s);
    if Own(env, v, s).datasets != [] {
      assert Own(env, v, s).datasets[0] in s.datasets;
    }
  }

  lemma DatasetDeleted(env: Env, v: string, s: State)
    requires Good(env, s) && |Own(env, v, s).datasets| == 1
    ensures
      var (s', r) := DeleteDataset(s, DatasetName(env, v), Works);
      r.Ok? && OwnChange(env, v, s, s') && Own(env, v, s') == NOTHING && s'.nextId == s.nextId
  {
    hide Keep, First;
    var name, mountpoint := DatasetName(env, v), Mountpoint(env, v);
    FirstSame(s.datasets, DatasetId(name), DatasetNamed(name));
    FirstOwn(env, v, s);
    var s' := s.(datasets := Keep(s.datasets, Not(DatasetId(name))),
                 shares := Keep(s.shares, Not(Sharing(mountpoint))));
    assert DeleteDataset(s, name, Works).0 == s';
    KeepNone(s'.datasets, DatasetNamed(name));
    KeepNone(s'.shares, Sharing(mountpoint));
    KeepThrough(s.datasets, Not(DatasetId(name)), Not(DatasetNamed(name)));
    KeepThrough(s.shares, Not(Sharing(mountpoint)), Not(Sharing(mountpoint)));
  }

  lemma StepKeeps(env: Env, v: string, s: State, op: Op, f: Fault)
    requires Good(env, s) && OpOk(env, v, s, op)
    ensures var (s', op') := Step(env, v, s, op, f); OwnChange(env, v, s, s') && OpOk(env, v, s', op')
  {
    hide Keep, First, Rest, VolumeOk, Good;
    NoChange(env, v, s);
    FirstOwn(env, v, s);
    match op {
      case MakeDataset(size) => DatasetCreated(env, v, s, size);
      case MakeShare(_, _) => if s.dialect == TakesPath { ShareCreated(env, v, s, TakesPath); }
      case MakeShareOldWay(_, _) => if s.dialect == TakesPaths { ShareCreated(env, v, s, TakesPaths); }
      case DropDataset(_) => DatasetDeleted(env, v, s);
      case _ =>
    }
  }

  lemma OwnChangeKeepsGood(env: Env, v: string, s: State, s': State)
    requires Good(env, s) && OwnChange(env, v, s, s')
    ensures Good(env, s')
  {
    hide Keep, Rest;
    forall w ensures VolumeOk(env, w, s') {
      if w != v {
        OthersUntouched(env, v, w, s, s');
        assert VolumeOk(env, w, s);
      }
    }
  }

  lemma OtherOp(env: Env, v: string, w: string, s: State, s': State, op: Op)
    requires OwnChange(env, v, s, s') && v != w && OpOk(env, w, s, op)
    ensures OpOk(env, w, s', op)
  {
    hide Keep, Rest;
    OthersUntouched(env, v, w, s, s');
  }

  // Every run

  lemma CallKeeps(env: Env, sys: System, v: string, fault: Fault)
    requires Inv(env, sys) && v in sys.ops
    ensures
      var sys' := Apply(env, sys, Call(v, fault));
      Inv(env, sys') && OwnChange(env, v, sys.state, sys'.state)
  {
    hide Step, Own, Good, OwnChange, OpOk;
    var (s', op') := Step(env, v, sys.state, sys.ops[v], fault);
    StepKeeps(env, v, sys.state, sys.ops[v], fault);
    OwnChangeKeepsGood(env, v, sys.state, s');
    forall w | w in sys.ops && w != v ensures OpOk(env, w, s', sys.ops[w]) {
      OtherOp(env, v, w, sys.state, s', sys.ops[w]);
    }
  }

  lemma ApplyKeeps(env: Env, sys: System, event: Event)
    requires Inv(env, sys)
    ensures Inv(env, Apply(env, sys, event))
  {
    hide Step, Own, Good;
    if event.Call? && event.volume in sys.ops {
      CallKeeps(env, sys, event.volume, event.fault);
    }
  }

  lemma {:induction false} ExecKeeps(env: Env, sys: System, events: seq<Event>)
    requires Inv(env, sys)
    ensures Inv(env, Exec(env, sys, events))
    decreases |events|
  {
    hide Inv, Apply;
    if events == [] {
    } else {
      ApplyKeeps(env, sys, events[0]);
      ExecKeeps(env, Apply(env, sys, events[0]), events[1..]);
    }
  }

  /** A store without any volume yet; other datasets and shares may be there. */
  ghost predicate Vacant(env: Env, s: State) {
    (forall d | d in s.datasets :: d.id == d.name) && forall v :: Own(env, v, s) == NOTHING
  }

  lemma ReachableInv(env: Env, s: State, events: seq<Event>)
    requires Vacant(env, s)
    ensures Inv(env, Exec(env, System(s, map[]), events))
  {
    forall v ensures VolumeOk(env, v, s) {
      assert Own(env, v, s) == NOTHING;
    }
    ExecKeeps(env, System(s, map[]), events);
  }

  /** At most one dataset and one share for every volume, and no share without its dataset; in either dialect. */
  lemma VolumesSafe(env: Env, s0: State, events: seq<Event>, v: string)
    requires Vacant(env, s0)
    ensures
      var s := Exec(env, System(s0, map[]), events).state;
      var name, dir := env.storagePath + "/" + v, "/mnt/" + (env.storagePath + "/" + v);
      && (forall i: nat, j: nat | i < |s.datasets| && j < |s.datasets| ::
            s.datasets[i].name == s.datasets[j].name == name ==> i == j)
      && (forall i: nat, j: nat | i < |s.shares| && j < |s.shares| ::
            Serves(s.shares[i], dir) && Serves(s.shares[j], dir) ==> i == j)
      && (forall share | share in s.shares && Serves(share, dir) ::
            exists d :: d in s.datasets && d.name == name && d.mountpoint == dir)
  {
    hide Exec, Keep, Serves;
    ReachableInv(env, s0, events);
    var s := Exec(env, System(s0, map[]), events).state;
    var dir := "/mnt/" + (env.storagePath + "/" + v);
    assert dir == Mountpoint(env, v) && VolumeOk(env, v, s);
    forall i: nat, j: nat | i < |s.datasets| && j < |s.datasets|
      ensures s.datasets[i].name == s.datasets[j].name == env.storagePath + "/" + v ==> i == j
    {
      if s.datasets[i].name == s.datasets[j].name == env.storagePath + "/" + v {
        AtMostOnePosition(s.datasets, DatasetNamed(DatasetName(env, v)), i, j);
      }
    }
    forall i: nat, j: nat | i < |s.shares| && j < |s.shares|
      ensures Serves(s.shares[i], dir) && Serves(s.shares[j], dir) ==> i == j
    {
      NormaliseServes(s.shares[i], dir);
      NormaliseServes(s.shares[j], dir);
      if Serves(s.shares[i], dir) && Serves(s.shares[j], dir) {
        AtMostOnePosition(s.shares, Sharing(dir), i, j);
      }
    }
    forall share | share in s.shares && Serves(share, dir)
      ensures exists d :: d in s.datasets && d.name == env.storagePath + "/" + v && d.mountpoint == dir
    {
      NormaliseServes(share, dir);
      assert share in Own(env, v, s).shares;
      assert Own(env, v, s).datasets[0] in Own(env, v, s).datasets;
    }
  }

  /** A step for one volume leaves every object of every other volume, and every foreign object, as it is. */
  lemma NonInterference(env: Env, s0: State, events: seq<Event>, v: string, fault: Fault)
    requires Vacant(env, s0)
    ensures
      var sys := Exec(env, System(s0, map[]), events);
      var sys' := Apply(env, sys, Call(v, fault));
      Rest(env, v, sys'.state) == Rest(env, v, sys.state) &&
      forall w | w != v :: Own(env, w, sys'.state) == Own(env, w, sys.state)
  {
    hide Exec, Step, Own, Rest, Inv;
    ReachableInv(env, s0, events);
    var sys := Exec(env, System(s0, map[]), events);
    if v in sys.ops {
      CallKeeps(env, sys, v, fault);
      forall w | w != v ensures Own(env, w, Apply(env, sys, Call(v, fault)).state) == Own(env, w, sys.state) {
        OthersUntouched(env, v, w, sys.state, Apply(env, sys, Call(v, fault)).state);
      }
    }
  }

  /** A create that answered has left dataset and share; a delete that answered has left neither. */
  lemma AnswersHonest(env: Env, s0: State, events: seq<Event>, v: string)
    requires Vacant(env, s0) && v in Exec(env, System(s0, map[]), events).ops
    ensures
      var sys := Exec(env, System(s0, map[]), events);
      match sys.ops[v]
      case Finished(Provisioned(response)) =>
        && response.volumeId == v
        && exists d, share :: d in sys.state.datasets && share in sys.state.shares &&
             d.name == env.storagePath + "/" + v && Serves(share, d.mountpoint) &&
             response.context == map["mountPoint" := d.mountpoint, "host" := env.address]
      case Finished(Deleted) => Own(env, v, sys.state) == NOTHING
      case _ => true
  {
    hide Exec, Keep;
    ReachableInv(env, s0, events);
    var sys := Exec(env, System(s0, map[]), events);
    assert OpOk(env, v, sys.state, sys.ops[v]);
    assert VolumeOk(env, v, sys.state);
    var o := Own(env, v, sys.state);
    if o.datasets != [] && o.shares != [] {
      assert o.datasets[0] in o.datasets && o.shares[0] in o.shares;
      NormaliseServes(o.shares[0], o.datasets[0].mountpoint);
    }
  }
}
