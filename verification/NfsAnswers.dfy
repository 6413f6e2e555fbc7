/** What an NFS create answers, what it makes and what it refuses, spelt out. */
module NfsAnswers {
  import opened Wrappers
  import opened Lists
  import opened Faults
  import opened Decimal
  import opened Capacity
  import opened Csi
  import opened NfsMachine
  import opened NfsInvariant
  import opened NfsRuns

  // One run, with any faults, on any store

  /** The capabilities NFS volumes can have. */
  ghost predicate ModesServed(request: CreateRequest) {
    forall c | c in request.capabilities ::
      c.access == Mount &&
      c.mode in {SingleNodeWriter, SingleNodeReaderOnly, MultiNodeReaderOnly, MultiNodeSingleWriter,
                 MultiNodeMultiWriter, SingleNodeSingleWriter, SingleNodeMultiWriter}
  }

  lemma ModesSupported(request: CreateRequest)
    ensures Supported(request.capabilities, ACCESS_MODES) <==> ModesServed(request)
    ensures ModesServed(request) <==>
      forall c | c in request.capabilities :: c.access != Block && c.mode != UnknownMode
  {
  }

  /** A dataset of the volume's name is mounted at the directory. */
  ghost predicate MountedAt(env: Env, v: string, s: State, dir: string) {
    exists d :: d in s.datasets && d.name == env.storagePath + "/" + v && d.mountpoint == dir
  }

  ghost predicate ServedAt(s: State, dir: string) {
    exists share :: share in s.shares && Serves(share, dir)
  }

  /** The answer for volume v: its id, and a context of the directory its dataset is mounted at, which a share serves,
      and the server's address. */
  ghost predicate AnswerReads(env: Env, v: string, s: State, response: Created) {
    && response.volumeId == v
    && response.context.Keys == {"mountPoint", "host"} && response.context["host"] == env.address
    && MountedAt(env, v, s, response.context["mountPoint"]) && ServedAt(s, response.context["mountPoint"])
  }

  /** The operation serves the request, as far as it has got. */
  ghost predicate Serving(env: Env, v: string, s: State, request: CreateRequest, op: Op) {
    var size := ExtractStorage(request.range);
    match op
    case FindDataset(n) => size == Result<Int64, SizeError>.Ok(n)
    case MakeDataset(n) => size == Result<Int64, SizeError>.Ok(n)
    case FindShare(n, dir) => size == Result<Int64, SizeError>.Ok(n) && MountedAt(env, v, s, dir)
    case MakeShare(n, dir) => size == Result<Int64, SizeError>.Ok(n) && MountedAt(env, v, s, dir)
    case MakeShareOldWay(n, dir) => size == Result<Int64, SizeError>.Ok(n) && MountedAt(env, v, s, dir)
    case Finished(Provisioned(response)) =>
      size == Result<Int64, SizeError>.Ok(response.capacity) && AnswerReads(env, v, s, response)
    case Finished(Failure(_)) => true
    case _ => false
  }

  lemma StepServes(env: Env, v: string, s: State, request: CreateRequest, op: Op, f: Fault)
    requires Serving(env, v, s, request, op)
    ensures var (s', op') := Step(env, v, s, op, f); Serving(env, v, s', request, op')
  {
    hide First, ExtractStorage;
    match op {
      case MakeDataset(size) => DatasetMounted(env, v, s, size);
      case FindShare(_, dir) => ShareFound(s, dir);
      case MakeShare(_, dir) => ShareMade(s, TakesPath, dir, ShareComment(v), f);
      case MakeShareOldWay(_, dir) => ShareMade(s, TakesPaths, dir, ShareComment(v), f);
      case _ =>
    }
  }

  lemma DatasetMounted(env: Env, v: string, s: State, size: VolumeSize)
    ensures
      var (s', r) := CreateDataset(s, DatasetName(env, v), size, Works);
      r.Ok? && MountedAt(env, v, s', r.value.mountpoint)
  {
    var (s', r) := CreateDataset(s, DatasetName(env, v), size, Works);
    assert r.value in s'.datasets;
  }

  /** On any store: a share is found exactly when one serves the directory. */
  lemma ShareFound(s: State, dir: string)
    ensures First(s.shares, Sharing(dir)).Some? <==> ServedAt(s, dir)
  {
    hide First, Normalise, Serves;
    forall share ensures Normalise(share) == dir <==> Serves(share, dir) {
      NormaliseServes(share, dir);
    }
  }

  lemma ShareMade(s: State, dialect: Dialect, dir: string, comment: string, f: Fault)
    ensures
      var (s', r) := CreateShare(s, dialect, dir, comment, f);
      (r.Ok? ==> ServedAt(s', dir)) && s'.datasets == s.datasets
  {
    var (s', r) := CreateShare(s, dialect, dir, comment, f);
    if r.Ok? {
      assert r.value in s'.shares && Serves(r.value, dir);
    }
  }

  lemma {:induction false} RunServes(env: Env, v: string, s: State, request: CreateRequest, op: Op, faults: Faults)
    requires Serving(env, v, s, request, op)
    ensures
      var (s', op', _) := Run(env, v, s, op, faults);
      op'.Finished? && Serving(env, v, s', request, op')
    decreases Remaining(op)
  {
    hide Step, Serving;
    if op.Finished? {
    } else {
      var (s', op') := Step(env, v, s, op, Next(faults));
      StepServes(env, v, s, request, op, Next(faults));
      StepShrinks(env, v, s, op, Next(faults));
      RunServes(env, v, s', request, op', Later(faults));
    }
  }

  /** Whatever the store, whatever fails: a create that succeeds was asked for capabilities that can be served and a
      size that can be, and answers with that size and as said above. */
  lemma SuccessReads(env: Env, v: string, s: State, request: CreateRequest, faults: Faults)
    ensures
      var (s', op', _) := Run(env, v, s, StartCreate(request), faults);
      op'.Finished? && op'.outcome.Provisioned? ==>
        && ModesServed(request) && ExtractStorage(request.range).Ok?
        && AnswerReads(env, v, s', op'.outcome.response)
        && op'.outcome.response.capacity == ExtractStorage(request.range).value
  {
    hide Run, AnswerReads, ExtractStorage, ModesServed;
    ModesSupported(request);
    RunEnds(env, v);
    RunServes(env, v, s, request, StartCreate(request), faults);
  }

  /** Whatever the store: capabilities that cannot be served are an invalid argument, a size that cannot be is out of
      range, in this order, without a call. */
  lemma Refused(env: Env, v: string, s: State, request: CreateRequest, faults: Faults)
    ensures !ModesServed(request) ==>
      Run(env, v, s, StartCreate(request), faults) == (s, Finished(Failure(InvalidArgument)), faults)
    ensures ModesServed(request) && ExtractStorage(request.range).Err? ==>
      Run(env, v, s, StartCreate(request), faults) == (s, Finished(Failure(OutOfRange)), faults)
  {
    hide Run, ExtractStorage, ModesServed;
    ModesSupported(request);
    RunEnds(env, v);
  }

  /** A create whose calls all work, from any store in order, in plain words: refused as above, and otherwise the volume
      is made, at the directory of its name, and the answer gives its size. */
  lemma CreateReads(env: Env, v: string, s: State, request: CreateRequest)
    requires Good(env, s)
    ensures
      var (s', op', _) := Run(env, v, s, StartCreate(request), []);
      if !ModesServed(request) then s' == s && op' == Finished(Failure(InvalidArgument))
      else if ExtractStorage(request.range).Err? then s' == s && op' == Finished(Failure(OutOfRange))
      else
        && op'.Finished? && op'.outcome.Provisioned? && AnswerReads(env, v, s', op'.outcome.response)
        && op'.outcome.response.context["mountPoint"] == "/mnt/" + (env.storagePath + "/" + v)
        && op'.outcome.response.capacity == ExtractStorage(request.range).value
        && |Own(env, v, s').datasets| == 1 && |Own(env, v, s').shares| == 1 && Rest(env, v, s') == Rest(env, v, s)
  {
    hide Run, AnswerReads, Own, Rest, Good, ModesServed, ExtractStorage;
    ModesSupported(request);
    CreateAnswers(env, v, s, request);
    SuccessReads(env, v, s, request, []);
  }

  // What is looked for, and what is made

  /** On any store, when its call works: create takes the first dataset of the volume's name, of which it reads the
      directory, and makes one only where there is none. */
  lemma CreateAdopts(env: Env, v: string, s: State, size: VolumeSize)
    ensures
      match Step(env, v, s, FindDataset(size), Works).1
      case FindShare(n, dir) =>
        && n == size
        && exists i: nat :: i < |s.datasets| && s.datasets[i].mountpoint == dir &&
             s.datasets[i].name == env.storagePath + "/" + v &&
             forall j | 0 <= j < i :: s.datasets[j].name != env.storagePath + "/" + v
      case MakeDataset(n) => n == size && forall d | d in s.datasets :: d.name != env.storagePath + "/" + v
      case _ => false
  {
    hide First;
    FirstIsAt(s.datasets, DatasetNamed(DatasetName(env, v)));
  }

  /** The share look-up on any store: where a share serves the directory, by its path or by the first of its paths,
      nothing is made; where none does, one is, with the directory in the field the server takes and the comment for the
      name the volume was asked under. */
  lemma SharesOnce(env: Env, name: string, s: State, size: VolumeSize, dir: string)
    ensures
      var v := "nfs-" + name;
      var (s', op', _) := Run(env, v, s, FindShare(size, dir), []);
      && op' == Finished(Provisioned(Created(v, size, map["mountPoint" := dir, "host" := env.address])))
      && (ServedAt(s, dir) ==> s' == s)
      && (!ServedAt(s, dir) ==>
            var path, paths := if s.dialect.TakesPath? then dir else "", if s.dialect.TakesPath? then [] else [dir];
            s' == s.(shares := s.shares + [Share(s.nextId, path, paths, "Share for Kubernetes PV " + name)],
                     nextId := s.nextId + 1))
  {
    hide Run, First;
    var v := "nfs-" + name;
    ShareFound(s, dir);
    RunEnds(env, v);
    OneStep(env, v, s, FindShare(size, dir), []);
    if !ServedAt(s, dir) {
      assert ShareComment(v) == "Share for Kubernetes PV " + name;
      OneStep(env, v, s, MakeShare(size, dir), []);
      OneStep(env, v, s, MakeShareOldWay(size, dir), []);
    }
  }

  /** The dataset and the share a create makes for a volume that has none, field by field. */
  lemma CreateFromNothing(env: Env, s: State, request: CreateRequest)
    requires Good(env, s) && Own(env, "nfs-" + request.name, s) == NOTHING
    requires ModesServed(request) && ExtractStorage(request.range).Ok?
    ensures
      var v, size := "nfs-" + request.name, ExtractStorage(request.range).value;
      var name, dir := env.storagePath + "/" + v, "/mnt/" + (env.storagePath + "/" + v);
      var path, paths := if s.dialect.TakesPath? then dir else "", if s.dialect.TakesPath? then [] else [dir];
      var share := Share(s.nextId, path, paths, "Share for Kubernetes PV " + request.name);
      var (s', op', _) := Run(env, VolumeId(request.name), s, StartCreate(request), []);
      && op' == Finished(Provisioned(Created(v, size, map["mountPoint" := dir, "host" := env.address])))
      && s' == s.(datasets := s.datasets + [Dataset(name, name, dir, ToDecimal(size))],
                  shares := s.shares + [share], nextId := s.nextId + 1)
  {
    hide Run, Own, Good, ExtractStorage, ModesServed, First, ServedAt;
    var v, size := "nfs-" + request.name, ExtractStorage(request.range).value;
    var name, dir := env.storagePath + "/" + v, "/mnt/" + (env.storagePath + "/" + v);
    assert name == DatasetName(env, v) && dir == Mountpoint(env, v);
    ModesSupported(request);
    FirstOwn(env, v, s);
    OneStep(env, v, s, FindDataset(size), []);
    OneStep(env, v, s, MakeDataset(size), []);
    var s1 := s.(datasets := s.datasets + [Dataset(name, name, dir, ToDecimal(size))]);
    ShareFound(s, dir);
    assert ServedAt(s1, dir) <==> ServedAt(s, dir) by { ServedBySame(s, s1, dir); }
    SharesOnce(env, request.name, s1, size, dir);
  }

  lemma ServedBySame(s: State, s': State, dir: string)
    requires s'.shares == s.shares
    ensures ServedAt(s', dir) <==> ServedAt(s, dir)
  {
  }

  // Statuses

  /** What a create reports when one of its calls fails: an internal error for a look-up, the error of the call itself
      when it was to make something. Only a share turned down as unprocessable is tried again, in the older dialect. */
  lemma FailureReads(env: Env, v: string, s: State, op: Op, f: Fault)
    requires !f.Works?
    ensures
      var (s', op') := Step(env, v, s, op, f);
      match op
      case FindDataset(_) => s' == s && op' == Finished(Failure(Internal))
      case FindShare(_, _) => s' == s && op' == Finished(Failure(Internal))
      case MakeDataset(_) => op' == Finished(Failure(Backend))
      case MakeShare(size, dir) =>
        op' == if s.dialect.TakesPaths? || f.code == Unprocessable then MakeShareOldWay(size, dir)
               else Finished(Failure(Backend))
      case MakeShareOldWay(_, _) => op' == Finished(Failure(Backend))
      case LookDataset => s' == s && op' == Finished(Failure(Backend))
      case DropDataset(_) => op' == Finished(Failure(Backend))
      case Finished(_) => op' == op
  {
    hide First, Keep;
  }

  /** What delete goes for on any store: the first dataset of the volume's name. */
  lemma DeleteFinds(env: Env, v: string, s: State)
    ensures
      match Step(env, v, s, LookDataset, Works).1
      case DropDataset(id) =>
        exists i: nat :: i < |s.datasets| && s.datasets[i].id == id &&
          s.datasets[i].name == env.storagePath + "/" + v &&
          forall j | 0 <= j < i :: s.datasets[j].name != env.storagePath + "/" + v
      case Finished(outcome) =>
        outcome == Deleted && forall d | d in s.datasets :: d.name != env.storagePath + "/" + v
      case _ => false
  {
    hide First;
    FirstIsAt(s.datasets, DatasetNamed(DatasetName(env, v)));
  }

  /** A delete is refused as not found exactly when the id does not start like one of this driver's, and then without
      touching the store; every other failure is the error of a call. */
  lemma DeleteStatus(env: Env, v: string, s: State, faults: Faults)
    ensures
      var (s', op', _) := Run(env, v, s, StartDelete(v), faults);
      if "nfs-" <= v then op' == Finished(Deleted) || op' == Finished(Failure(Backend))
      else s' == s && op' == Finished(Failure(Status.NotFound))
  {
    hide Run, First, Keep;
    RunEnds(env, v);
    if "nfs-" <= v {
      OneStep(env, v, s, LookDataset, faults);
      DeleteKeepsIds(env, v, s, LookDataset, Next(faults));
      var op1 := Step(env, v, s, LookDataset, Next(faults)).1;
      if op1.DropDataset? {
        var s1 := Step(env, v, s, LookDataset, Next(faults)).0;
        OneStep(env, v, s1, op1, Later(faults));
        DeleteKeepsIds(env, v, s1, op1, Next(Later(faults)));
      }
    }
  }
}
