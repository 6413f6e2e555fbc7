/** What an iSCSI create answers, what it makes and what it refuses, spelt out. */
module IscsiAnswers {
  import opened Wrappers
  import opened Lists
  import opened Faults
  import opened Decimal
  import opened Capacity
  import opened Csi
  import opened IscsiApi
  import opened IscsiMachine
  import opened IscsiInvariant
  import opened IscsiSteps
  import opened IscsiSafety
  import opened IscsiRuns
  import opened IscsiRollback

  // The answer

  /** The text is the address of the listener: its ip, a colon, its port in decimal. */
  ghost predicate AddressReads(a: string, l: Listen) {
    && |a| > |l.ip| && a[..|l.ip|] == l.ip && a[|l.ip|] == ':'
    && a[|l.ip| + 1..] == ToDecimal(l.port) && ParseInt64(a[|l.ip| + 1..]) == Some(l.port)
  }

  /** The answer for volume v: its id, and a context of the address of the portal's first listener, the volume's IQN,
      unit 0 and no further portals. */
  ghost predicate AnswerReads(env: Env, v: string, s: State, response: Created) {
    && response.volumeId == v
    && env.portalId in s.portals && s.portals[env.portalId] != []
    && response.context.Keys == {"targetPortal", "iqn", "lun", "portals"}
    && AddressReads(response.context["targetPortal"], s.portals[env.portalId][0])
    && response.context["iqn"] == s.basename + ":" + v
    && response.context["lun"] == "0" && response.context["portals"] == "[]"
  }

  lemma AddressOf(l: Listen)
    ensures AddressReads(PortalAddress(l), l)
  {
    hide ParseInt64, ToDecimal;
    DecimalRoundTrip(l.port);
    ColonBetween(l.ip, ToDecimal(l.port));
  }

  lemma ColonBetween(a: string, b: string)
    ensures
      var c := a + ":" + b;
      |c| == |a| + 1 + |b| && c[..|a|] == a && c[|a|] == ':' && c[|a| + 1..] == b
  {
  }

  lemma AnswerSpelt(env: Env, v: string, s: State, response: Created)
    requires AnswerOk(env, v, s, response)
    ensures AnswerReads(env, v, s, response)
  {
    AddressOf(s.portals[env.portalId][0]);
  }

  /** Over any run: every answer with success reads like this. */
  lemma SuccessAnswer(env: Env, volumes: set<string>, s0: State, events: seq<Event>, v: string)
    requires Vacant(env, volumes, s0)
    requires v in Exec(env, volumes, System(s0, map[]), events).ops
    requires Exec(env, volumes, System(s0, map[]), events).ops[v].Finished?
    requires Exec(env, volumes, System(s0, map[]), events).ops[v].outcome.Provisioned?
    ensures
      var sys := Exec(env, volumes, System(s0, map[]), events);
      AnswerReads(env, v, sys.state, sys.ops[v].outcome.response)
  {
    hide Exec, AnswerOk, AnswerReads, Vacant;
    ReachablePlanned(env, volumes, s0, events);
    var sys := Exec(env, volumes, System(s0, map[]), events);
    assert Planned(env, v, sys.state, sys.ops[v]);
    AnswerSpelt(env, v, sys.state, sys.ops[v].outcome.response);
  }

  // One run, with any faults, on any store

  /** The capabilities iSCSI volumes can have. */
  ghost predicate ModesServed(request: CreateRequest) {
    forall c | c in request.capabilities ::
      c.access == Mount &&
      c.mode in {SingleNodeWriter, SingleNodeReaderOnly, SingleNodeSingleWriter, SingleNodeMultiWriter}
  }

  lemma ModesSupported(request: CreateRequest)
    ensures Supported(request.capabilities, ACCESS_MODES) <==> ModesServed(request)
  {
  }

  /** The operation serves the request, as far as it has got. */
  ghost predicate Serving(env: Env, v: string, s: State, request: CreateRequest, op: Op) {
    var size := ExtractStorage(request.range);
    && Planned(env, v, s, op)
    && (op.ReadGlobal? || op.ReadPortal? ==> op.request == request)
    && (PlanOf(op).Some? ==> size.Ok? && PlanOf(op).value.size == size.value)
    && (op.Finished? && op.outcome.Provisioned? ==> size.Ok? && op.outcome.response.capacity == size.value)
  }

  lemma StepServes(env: Env, v: string, s: State, request: CreateRequest, op: Op, f: Fault)
    requires Serving(env, v, s, request, op) && !op.Finished?
    ensures Serving(env, v, s, request, Step(env, v, s, op, f).1)
  {
    hide Planned, ExtractStorage;
    StepPlanned(env, v, s, op, f);
    if op.ReadGlobal? || op.ReadPortal? {
      ReadServes(env, v, s, request, op, f);
    } else {
      hide Step;
      SamePlan(env, v, s, op, f);
    }
  }

  lemma ReadServes(env: Env, v: string, s: State, request: CreateRequest, op: Op, f: Fault)
    requires (op.ReadGlobal? || op.ReadPortal?) && op.request == request
    ensures
      var op' := Step(env, v, s, op, f).1;
      && (op'.ReadGlobal? || op'.ReadPortal? ==> op'.request == request)
      && (PlanOf(op').Some? ==>
            ExtractStorage(request.range).Ok? && PlanOf(op').value.size == ExtractStorage(request.range).value)
      && (op'.Finished? ==> op'.outcome.Failure?)
  {
    hide ExtractStorage;
  }

  /** No call changes the store's settings. */
  lemma StepSettings(env: Env, v: string, s: State, op: Op, f: Fault)
    ensures
      var s' := Step(env, v, s, op, f).0;
      s'.basename == s.basename && s'.portals == s.portals
  {
    hide First, Keep, Remove;
    if op.Undo? && op.todo != [] {
      OneKindRemoved(s, op.todo[0], f);
    }
  }

  lemma SameServing(env: Env, v: string, s: State, s': State, request: CreateRequest, op: Op)
    requires Serving(env, v, s, request, op) && s'.basename == s.basename && s'.portals == s.portals
    ensures Serving(env, v, s', request, op)
  {
    hide PlanOk, AnswerOk, ExtractStorage, Planned;
    SamePlanned(env, v, s, s', op);
  }

  lemma {:induction false} RunServes(env: Env, v: string, s: State, request: CreateRequest, op: Op, faults: Faults)
    requires Serving(env, v, s, request, op)
    ensures
      var (s', op', _) := Run(env, v, s, op, faults);
      Serving(env, v, s', request, op')
    decreases Remaining(op)
  {
    hide Step, Serving;
    if op.Finished? {
    } else {
      var (s', op') := Step(env, v, s, op, Next(faults));
      StepServes(env, v, s, request, op, Next(faults));
      StepSettings(env, v, s, op, Next(faults));
      SameServing(env, v, s, s', request, op');
      StepShrinks(env, v, s, op, Next(faults));
      RunServes(env, v, s', request, op', Later(faults));
    }
  }

  /** Whatever the store, whatever fails: a create that succeeds was asked for capabilities that can be served and a
      size that can be, and answers with that size and as said above. */
  lemma SuccessReads(env: Env, v: string, s: State, request: CreateRequest, faults: Faults)
    ensures
      var (s', op', _) := Run(env, v, s, StartCreate(request), faults);
      op'.Finished? && op'.outcome.Provisioned? ==>
        && ModesServed(request) && ExtractStorage(request.range).Ok?
        && AnswerReads(env, v, s', op'.outcome.response)
        && op'.outcome.response.capacity == ExtractStorage(request.range).value
  {
    hide Run, AnswerReads, AnswerOk, ExtractStorage;
    var op := StartCreate(request);
    ModesSupported(request);
    StartServes(env, v, s, request);
    RunServes(env, v, s, request, op, faults);
    var (s', op', _) := Run(env, v, s, op, faults);
    if op'.Finished? && op'.outcome.Provisioned? {
      AnswerSpelt(env, v, s', op'.outcome.response);
      if !Supported(request.capabilities, ACCESS_MODES) {
        RunEnds(env, v, s, Failure(InvalidArgument), faults);
      }
    }
  }

  /** Whatever the store: capabilities that cannot be served, block volumes and the three multi-node modes among them,
      are an invalid argument, without a call. */
  lemma ModesRefused(env: Env, v: string, s: State, request: CreateRequest, faults: Faults)
    ensures
      (exists c :: c in request.capabilities &&
         (c.access == Block ||
            c.mode in {UnknownMode, MultiNodeReaderOnly, MultiNodeSingleWriter, MultiNodeMultiWriter}))
      ==> !ModesServed(request)
    ensures !ModesServed(request) ==>
      Run(env, v, s, StartCreate(request), faults) == (s, Finished(Failure(InvalidArgument)), faults)
  {
    hide Run;
    ModesSupported(request);
    RunEnds(env, v, s, Failure(InvalidArgument), faults);
  }

  lemma StartServes(env: Env, v: string, s: State, request: CreateRequest)
    ensures Serving(env, v, s, request, StartCreate(request))
  {
  }

  /** A create whose calls all work, from any store in order, in plain words: unsupported capabilities are an invalid
      argument, a portal that is missing or listens nowhere is an internal error, a size that cannot be served is out of
      range, in this order, and nothing is changed; otherwise the volume is made and the answer gives its size. */
  lemma CreateReads(env: Env, v: string, s: State, request: CreateRequest)
    requires InOrder(env, v, s)
    ensures
      var (s', op', _) := Run(env, v, s, StartCreate(request), []);
      if !ModesServed(request) then s' == s && op' == Finished(Failure(InvalidArgument))
      else if env.portalId !in s.portals || s.portals[env.portalId] == [] then
        s' == s && op' == Finished(Failure(Internal))
      else if ExtractStorage(request.range).Err? then s' == s && op' == Finished(Failure(OutOfRange))
      else
        && op'.Finished? && op'.outcome.Provisioned? && AnswerReads(env, v, s', op'.outcome.response)
        && op'.outcome.response.capacity == ExtractStorage(request.range).value
        && Complete(Own(env, v, s')) && Rest(env, v, s') == Rest(env, v, s)
  {
    hide Run, AnswerReads, Own, Rest, IdsOk, VolumeOk, Complete;
    ModesSupported(request);
    CreateConverges(env, v, s, request);
    SuccessReads(env, v, s, request, []);
  }

  /** The status a create reports when its k-th call fails: an internal error when that was a look-up or a reading of
      the settings, the error of the call itself when it was to make something. */
  lemma FailureReads(env: Env, v: string, s: State, request: CreateRequest, k: nat, f: Fault, cleanup: Faults)
    requires InOrder(env, v, s) && !After(env, v, s, StartCreate(request), k).1.Finished? && !f.Works?
    ensures
      var op := After(env, v, s, StartCreate(request), k).1;
      Run(env, v, s, StartCreate(request), WorksFor(k, [f] + cleanup)).1 == Finished(Failure(
        if op.MakeDataset? || op.MakeExtent? || op.MakeInitiator? || op.MakeTarget? || op.MakeMapping? then Backend
        else Internal))
  {
    hide Run, Step, Own, Rest, IdsOk, VolumeOk, Grown, RemoveAll, SameObjects, Restores, KindsOf;
    FailedCreateRestores(env, v, s, request, k, f, cleanup);
    StaysFinished(env, v, s, StartCreate(request), k);
    FailedRun(env, v, s, s, StartCreate(request), k, f, cleanup);
  }

  // What is made

  lemma MakesZvol(env: Env, v: string, s: State, plan: Plan)
    requires InOrder(env, v, s) && Own(env, v, s) == NOTHING
    ensures
      var name := env.storagePath + "/" + v;
      var s' := s.(datasets := s.datasets + [Dataset(name, name, Volume, ToDecimal(plan.size))]);
      && Run(env, v, s, FindDataset(plan), []) == Run(env, v, s', FindExtent(plan, name), [])
      && Ready(env, v, s', FindExtent(plan, name)) && Own(env, v, s') == NOTHING.(datasets := Own(env, v, s').datasets)
  {
    hide Run, Step, Own, IdsOk, VolumeOk, Confined;
    FindDatasetStep(env, v, s, FindDataset(plan));
    MakeDatasetStep(env, v, s, MakeDataset(plan));
    OneStep(env, v, s, FindDataset(plan), []);
    OneStep(env, v, s, MakeDataset(plan), []);
    StepKeeps(env, v, s, MakeDataset(plan), Works);
  }

  lemma MakesExtent(env: Env, v: string, s: State, op: Op)
    requires Ready(env, v, s, op) && op.FindExtent? && Own(env, v, s).extents == []
    ensures
      var e := Extent(s.nextId, v, v + ": Kubernetes managed iSCSI extent", "zvol/" + env.storagePath + "/" + v);
      var s' := s.(extents := s.extents + [e], nextId := s.nextId + 1);
      var op' := FindInitiator(op.plan, op.ds, s.nextId);
      && Run(env, v, s, op, []) == Run(env, v, s', op', [])
      && Ready(env, v, s', op') && Own(env, v, s') == Own(env, v, s).(extents := [e])
  {
    hide Run, Step, Own, IdsOk, VolumeOk, Confined;
    assert ExtentPath(env, v) == "zvol/" + env.storagePath + "/" + v;
    FindExtentStep(env, v, s, op);
    MakeExtentStep(env, v, s, MakeExtent(op.plan, op.ds));
    OneStep(env, v, s, op, []);
    OneStep(env, v, s, MakeExtent(op.plan, op.ds), []);
    StepKeeps(env, v, s, MakeExtent(op.plan, op.ds), Works);
  }

  lemma MakesInitiator(env: Env, v: string, s: State, op: Op)
    requires Ready(env, v, s, op) && op.FindInitiator? && Own(env, v, s).initiators == []
    ensures
      var i := Initiator(s.nextId, v + ": Kubernetes managed iSCSI initiator");
      var s' := s.(initiators := s.initiators + [i], nextId := s.nextId + 1);
      var op' := FindTarget(op.plan, op.ds, op.ext, s.nextId);
      && Run(env, v, s, op, []) == Run(env, v, s', op', [])
      && Ready(env, v, s', op') && Own(env, v, s') == Own(env, v, s).(initiators := [i])
  {
    hide Run, Step, Own, IdsOk, VolumeOk, Confined;
    FindInitiatorStep(env, v, s, op);
    MakeInitiatorStep(env, v, s, MakeInitiator(op.plan, op.ds, op.ext));
    OneStep(env, v, s, op, []);
    OneStep(env, v, s, MakeInitiator(op.plan, op.ds, op.ext), []);
    StepKeeps(env, v, s, MakeInitiator(op.plan, op.ds, op.ext), Works);
  }

  lemma MakesTarget(env: Env, v: string, s: State, op: Op)
    requires Ready(env, v, s, op) && op.FindTarget? && Own(env, v, s).targets == []
    ensures
      var t := Target(s.nextId, v, v + ": Kubernetes managed iSCSI initiator", env.portalId, op.ini);
      var s' := s.(targets := s.targets + [t], nextId := s.nextId + 1);
      var op' := FindMapping(op.plan, op.ds, op.ext, op.ini, s.nextId);
      && Run(env, v, s, op, []) == Run(env, v, s', op', [])
      && Ready(env, v, s', op') && Own(env, v, s') == Own(env, v, s).(targets := [t])
  {
    hide Run, Step, Own, IdsOk, VolumeOk, Confined;
    FindTargetStep(env, v, s, op);
    MakeTargetStep(env, v, s, MakeTarget(op.plan, op.ds, op.ext, op.ini));
    OneStep(env, v, s, op, []);
    OneStep(env, v, s, MakeTarget(op.plan, op.ds, op.ext, op.ini), []);
    StepKeeps(env, v, s, MakeTarget(op.plan, op.ds, op.ext, op.ini), Works);
  }

  lemma MakesMapping(env: Env, v: string, s: State, op: Op)
    requires Ready(env, v, s, op) && op.FindMapping? && Own(env, v, s).mappings == []
    ensures
      Run(env, v, s, op, []) ==
        (s.(mappings := s.mappings + [Mapping(op.tgt, op.ext, 0)]), Finished(Provisioned(Respond(op.plan, v))), [])
  {
    hide Run, Step, Own, IdsOk, VolumeOk, Respond;
    var make := MakeMapping(op.plan, op.ds, op.ext, op.ini, op.tgt);
    FindMappingStep(env, v, s, op);
    MakeMappingStep(env, v, s, make);
    OneStep(env, v, s, op, []);
    OneStep(env, v, s, make, []);
    RunEnds(env, v, Step(env, v, s, make, Works).0, Provisioned(Respond(op.plan, v)), []);
  }

  /** The five objects a create makes for a volume that has none, field by field. */
  lemma MakesFive(env: Env, v: string, s: State, plan: Plan)
    requires InOrder(env, v, s) && Own(env, v, s) == NOTHING
    ensures
      var name := env.storagePath + "/" + v;
      var (s', _, _) := Run(env, v, s, FindDataset(plan), []);
      && s'.datasets == s.datasets + [Dataset(name, name, Volume, ToDecimal(plan.size))]
      && s'.extents == s.extents + [Extent(s.nextId, v, v + ": Kubernetes managed iSCSI extent", "zvol/" + name)]
      && s'.initiators == s.initiators + [Initiator(s.nextId + 1, v + ": Kubernetes managed iSCSI initiator")]
      && s'.targets == s.targets +
           [Target(s.nextId + 2, v, v + ": Kubernetes managed iSCSI initiator", env.portalId, s.nextId + 1)]
      && s'.mappings == s.mappings + [Mapping(s.nextId + 2, s.nextId, 0)]
      && s'.nextId == s.nextId + 3
  {
    hide Run, Step, Own, Ready;
    var name := env.storagePath + "/" + v;
    assert "zvol/" + name == "zvol/" + env.storagePath + "/" + v;
    var s1 := s.(datasets := s.datasets + [Dataset(name, name, Volume, ToDecimal(plan.size))]);
    var e := Extent(s.nextId, v, v + ": Kubernetes managed iSCSI extent", "zvol/" + env.storagePath + "/" + v);
    var s2 := s1.(extents := s1.extents + [e], nextId := s1.nextId + 1);
    var i := Initiator(s2.nextId, v + ": Kubernetes managed iSCSI initiator");
    var s3 := s2.(initiators := s2.initiators + [i], nextId := s2.nextId + 1);
    var t := Target(s3.nextId, v, v + ": Kubernetes managed iSCSI initiator", env.portalId, s2.nextId);
    var s4 := s3.(targets := s3.targets + [t], nextId := s3.nextId + 1);
    MakesZvol(env, v, s, plan);
    MakesExtent(env, v, s1, FindExtent(plan, name));
    MakesInitiator(env, v, s2, FindInitiator(plan, name, s1.nextId));
    MakesTarget(env, v, s3, FindTarget(plan, name, s1.nextId, s2.nextId));
    MakesMapping(env, v, s4, FindMapping(plan, name, s1.nextId, s2.nextId, s3.nextId));
  }

  /** The same for a request: the volume is named after it, the zvol has the size asked for. */
  lemma CreateFromNothing(env: Env, s: State, request: CreateRequest)
    requires InOrder(env, "iscsi-" + request.name, s) && Own(env, "iscsi-" + request.name, s) == NOTHING
    requires ModesServed(request) && env.portalId in s.portals && s.portals[env.portalId] != []
    requires ExtractStorage(request.range).Ok?
    ensures
      var v := "iscsi-" + request.name;
      var name := env.storagePath + "/iscsi-" + request.name;
      var (s', op', _) := Run(env, VolumeId(request.name), s, StartCreate(request), []);
      && op'.Finished? && op'.outcome.Provisioned? && AnswerReads(env, v, s', op'.outcome.response)
      && op'.outcome.response.capacity == ExtractStorage(request.range).value
      && s'.datasets == s.datasets + [Dataset(name, name, Volume, ToDecimal(ExtractStorage(request.range).value))]
      && s'.extents == s.extents + [Extent(s.nextId, v, v + ": Kubernetes managed iSCSI extent", "zvol/" + name)]
      && s'.initiators == s.initiators + [Initiator(s.nextId + 1, v + ": Kubernetes managed iSCSI initiator")]
      && s'.targets == s.targets +
           [Target(s.nextId + 2, v, v + ": Kubernetes managed iSCSI initiator", env.portalId, s.nextId + 1)]
      && s'.mappings == s.mappings + [Mapping(s.nextId + 2, s.nextId, 0)]
  {
    hide Run, Own, IdsOk, VolumeOk, AnswerReads, ExtractStorage, Complete, Rest;
    var v := "iscsi-" + request.name;
    assert env.storagePath + "/" + v == env.storagePath + "/iscsi-" + request.name;
    ModesSupported(request);
    CreateReads(env, v, s, request);
    StartOfCreate(env, v, s, request);
    MakesFive(env, v, s, PlanFor(env, s, request));
  }

  // What is looked for, on any store

  /** What create adopts: the first zvol of the volume's name, the first extent over its path, the first initiator whose
      comment starts with its id, the first target of its name, any mapping of target and extent. Where there is none it
      goes on to make one. */
  lemma CreateAdopts(env: Env, v: string, s: State, plan: Plan, ds: string, ext: int, ini: int, tgt: int)
    ensures
      match Step(env, v, s, FindDataset(plan), Works).1
      case FindExtent(_, id) =>
        exists i: nat :: i < |s.datasets| && s.datasets[i].id == id &&
          s.datasets[i].name == env.storagePath + "/" + v && s.datasets[i].kind == Volume &&
          forall j | 0 <= j < i :: !(s.datasets[j].name == env.storagePath + "/" + v && s.datasets[j].kind == Volume)
      case MakeDataset(_) =>
        forall d | d in s.datasets :: !(d.name == env.storagePath + "/" + v && d.kind == Volume)
      case _ => false
    ensures
      match Step(env, v, s, FindExtent(plan, ds), Works).1
      case FindInitiator(_, _, id) =>
        exists i: nat :: i < |s.extents| && s.extents[i].id == id &&
          s.extents[i].path == "zvol/" + env.storagePath + "/" + v &&
          forall j | 0 <= j < i :: s.extents[j].path != "zvol/" + env.storagePath + "/" + v
      case MakeExtent(_, _) => forall e | e in s.extents :: e.path != "zvol/" + env.storagePath + "/" + v
      case _ => false
    ensures
      match Step(env, v, s, FindInitiator(plan, ds, ext), Works).1
      case FindTarget(_, _, _, id) =>
        exists i: nat :: i < |s.initiators| && s.initiators[i].id == id && v <= s.initiators[i].comment &&
          forall j | 0 <= j < i :: !(v <= s.initiators[j].comment)
      case MakeInitiator(_, _, _) => forall i | i in s.initiators :: !(v <= i.comment)
      case _ => false
    ensures
      match Step(env, v, s, FindTarget(plan, ds, ext, ini), Works).1
      case FindMapping(_, _, _, _, id) =>
        exists i: nat :: i < |s.targets| && s.targets[i].id == id && s.targets[i].name == v &&
          forall j | 0 <= j < i :: s.targets[j].name != v
      case MakeTarget(_, _, _, _) => forall t | t in s.targets :: t.name != v
      case _ => false
    ensures
      match Step(env, v, s, FindMapping(plan, ds, ext, ini, tgt), Works).1
      case Finished(outcome) =>
        outcome.Provisioned? && exists m :: m in s.mappings && m.target == tgt && m.extent == ext
      case MakeMapping(_, _, _, _, _) => forall m | m in s.mappings :: !(m.target == tgt && m.extent == ext)
      case _ => false
  {
    hide First, FirstAt;
    AdoptsDataset(env, v, s, plan);
    AdoptsExtent(env, v, s, plan, ds);
    AdoptsInitiator(env, v, s, plan, ds, ext);
    AdoptsTarget(env, v, s, plan, ds, ext, ini);
  }

  lemma AdoptsDataset(env: Env, v: string, s: State, plan: Plan)
    ensures
      match Step(env, v, s, FindDataset(plan), Works).1
      case FindExtent(_, id) =>
        exists i: nat :: i < |s.datasets| && s.datasets[i].id == id &&
          s.datasets[i].name == env.storagePath + "/" + v && s.datasets[i].kind == Volume &&
          forall j | 0 <= j < i :: !(s.datasets[j].name == env.storagePath + "/" + v && s.datasets[j].kind == Volume)
      case MakeDataset(_) =>
        forall d | d in s.datasets :: !(d.name == env.storagePath + "/" + v && d.kind == Volume)
      case _ => false
  {
    hide First;
    FirstIsAt(s.datasets, VolumeNamed(DatasetName(env, v)));
  }

  lemma AdoptsExtent(env: Env, v: string, s: State, plan: Plan, ds: string)
    ensures
      match Step(env, v, s, FindExtent(plan, ds), Works).1
      case FindInitiator(_, _, id) =>
        exists i: nat :: i < |s.extents| && s.extents[i].id == id &&
          s.extents[i].path == "zvol/" + env.storagePath + "/" + v &&
          forall j | 0 <= j < i :: s.extents[j].path != "zvol/" + env.storagePath + "/" + v
      case MakeExtent(_, _) => forall e | e in s.extents :: e.path != "zvol/" + env.storagePath + "/" + v
      case _ => false
  {
    hide First;
    assert ExtentPath(env, v) == "zvol/" + env.storagePath + "/" + v;
    FirstIsAt(s.extents, ExtentAt(ExtentPath(env, v)));
  }

  lemma AdoptsInitiator(env: Env, v: string, s: State, plan: Plan, ds: string, ext: int)
    ensures
      match Step(env, v, s, FindInitiator(plan, ds, ext), Works).1
      case FindTarget(_, _, _, id) =>
        exists i: nat :: i < |s.initiators| && s.initiators[i].id == id && v <= s.initiators[i].comment &&
          forall j | 0 <= j < i :: !(v <= s.initiators[j].comment)
      case MakeInitiator(_, _, _) => forall i | i in s.initiators :: !(v <= i.comment)
      case _ => false
  {
    hide First;
    FirstIsAt(s.initiators, CommentStarts(v));
  }

  lemma AdoptsTarget(env: Env, v: string, s: State, plan: Plan, ds: string, ext: int, ini: int)
    ensures
      match Step(env, v, s, FindTarget(plan, ds, ext, ini), Works).1
      case FindMapping(_, _, _, _, id) =>
        exists i: nat :: i < |s.targets| && s.targets[i].id == id && s.targets[i].name == v &&
          forall j | 0 <= j < i :: s.targets[j].name != v
      case MakeTarget(_, _, _, _) => forall t | t in s.targets :: t.name != v
      case _ => false
  {
    hide First;
    FirstIsAt(s.targets, TargetNamed(v));
  }

  /** What delete goes for: the first target of the volume's name, the first dataset of its name of whatever kind, the
      first initiator whose comment starts with its id. */
  lemma DeleteFinds(env: Env, v: string, s: State)
    ensures
      match Step(env, v, s, LookTarget, Works).1
      case DropTarget(id) =>
        exists i: nat :: i < |s.targets| && s.targets[i].id == id && s.targets[i].name == v &&
          forall j | 0 <= j < i :: s.targets[j].name != v
      case LookDataset => forall t | t in s.targets :: t.name != v
      case _ => false
    ensures
      match Step(env, v, s, LookDataset, Works).1
      case DropDataset(id) =>
        exists i: nat :: i < |s.datasets| && s.datasets[i].id == id &&
          s.datasets[i].name == env.storagePath + "/" + v &&
          forall j | 0 <= j < i :: s.datasets[j].name != env.storagePath + "/" + v
      case LookInitiator => forall d | d in s.datasets :: d.name != env.storagePath + "/" + v
      case _ => false
    ensures
      match Step(env, v, s, LookInitiator, Works).1
      case DropInitiator(id) =>
        exists i: nat :: i < |s.initiators| && s.initiators[i].id == id && v <= s.initiators[i].comment &&
          forall j | 0 <= j < i :: !(v <= s.initiators[j].comment)
      case Finished(outcome) => outcome == Deleted && forall i | i in s.initiators :: !(v <= i.comment)
      case _ => false
  {
    hide First;
    FirstIsAt(s.targets, TargetNamed(v));
    FirstIsAt(s.datasets, DatasetNamed(DatasetName(env, v)));
    FirstIsAt(s.initiators, CommentStarts(v));
  }

  /** A delete is refused as not found exactly when the id does not start like one of this driver's, and then without
      touching the store; every other failure is the error of a call. */
  lemma DeleteStatus(env: Env, v: string, s: State, faults: Faults)
    ensures
      var (s', op', _) := Run(env, v, s, StartDelete(v), faults);
      if "iscsi-" <= v then op' == Finished(Deleted) || op' == Finished(Failure(Backend))
      else s' == s && op' == Finished(Failure(Status.NotFound))
  {
    hide Run;
    if "iscsi-" <= v {
      DeleteEnds(env, v, s, LookTarget, faults);
    } else {
      RunEnds(env, v, s, Failure(Status.NotFound), faults);
    }
  }

  predicate InDelete(op: Op) {
    || op.LookTarget? || op.DropTarget? || op.LookDataset? || op.DropDataset? || op.LookInitiator? || op.DropInitiator?
    || op == Finished(Deleted) || op == Finished(Failure(Backend))
  }

  lemma StepInDelete(env: Env, v: string, s: State, op: Op, f: Fault)
    requires InDelete(op)
    ensures InDelete(Step(env, v, s, op, f).1)
  {
    hide First, Keep;
  }

  lemma {:induction false} DeleteEnds(env: Env, v: string, s: State, op: Op, faults: Faults)
    requires InDelete(op)
    ensures
      var op' := Run(env, v, s, op, faults).1;
      op' == Finished(Deleted) || op' == Finished(Failure(Backend))
    decreases Remaining(op)
  {
    hide Step;
    if op.Finished? {
    } else {
      StepInDelete(env, v, s, op, Next(faults));
      StepShrinks(env, v, s, op, Next(faults));
      DeleteEnds(env, v, Step(env, v, s, op, Next(faults)).0, Step(env, v, s, op, Next(faults)).1, Later(faults));
    }
  }
}
