/**
 One operation run on its own from any store in order: what a fault-free create and delete reach, and
 exactly when a create that fails puts everything back.
 */
module IscsiRuns {
  import opened Wrappers
  import opened Lists
  import opened Text
  import opened Faults
  import opened Decimal
  import opened Capacity
  import opened Csi
  import opened IscsiApi
  import opened IscsiMachine
  import opened IscsiInvariant
  import opened IscsiSteps
  import opened IscsiSafety

  // Any run

  lemma OneStep(env: Env, v: string, s: State, op: Op, faults: Faults)
    requires !op.Finished?
    ensures
      var (s', op') := Step(env, v, s, op, Next(faults));
      Run(env, v, s, op, faults) == Run(env, v, s', op', Later(faults))
  {
    hide Step;
  }

  lemma RunEnds(env: Env, v: string, s: State, outcome: Outcome, faults: Faults)
    ensures Run(env, v, s, Finished(outcome), faults) == (s, Finished(outcome), faults)
  {
  }

  lemma ConfinedTwice(env: Env, v: string, s: State, s': State, s'': State)
    requires Confined(env, v, s, s') && Confined(env, v, s', s'')
    ensures Confined(env, v, s, s'')
  {
    hide Rest;
  }

  /** A run, whatever fails in it, ends in order and has touched nothing but the volume. */
  lemma {:induction false} RunKeeps(env: Env, v: string, s: State, op: Op, faults: Faults)
    requires Ready(env, v, s, op)
    ensures
      var (s', op', _) := Run(env, v, s, op, faults);
      op'.Finished? && OwnChange(env, v, s, s') && OpOk(env, v, s', op')
    decreases Remaining(op)
  {
    hide Step, Own, Rest, IdsOk;
    NoChange(env, v, s);
    if op.Finished? {
    } else {
      var (s', op') := Step(env, v, s, op, Next(faults));
      StepKeeps(env, v, s, op, Next(faults));
      StepShrinks(env, v, s, op, Next(faults));
      RunKeeps(env, v, s', op', Later(faults));
      ConfinedTwice(env, v, s, s', Run(env, v, s', op', Later(faults)).0);
    }
  }

  // Fault-free create

  /** s is s0 with the objects added that create has had to make by stage n, counted by clean-up calls due. */
  ghost predicate Grown(env: Env, v: string, s0: State, s: State, plan: Plan, n: nat) {
    var o0, o := Own(env, v, s0), Own(env, v, s);
    && s.basename == s0.basename && s.portals == s0.portals
    && (if n >= 1 && o0.datasets == [] then
          s.datasets == s0.datasets + [Dataset(DatasetName(env, v), DatasetName(env, v), Volume, ToDecimal(plan.size))]
        else s.datasets == s0.datasets)
    && s.extents == s0.extents + (if n >= 2 && o0.extents == [] then o.extents else [])
    && s.initiators == s0.initiators + (if n >= 3 && o0.initiators == [] then o.initiators else [])
    && s.targets == s0.targets + (if n >= 4 && o0.targets == [] then o.targets else [])
    && (n >= 4 && o0.targets == [] ==>
          |o.targets| == 1 && |o.initiators| == 1 && o.targets[0].initiator == o.initiators[0].id &&
          o.targets[0].portal == env.portalId)
    && s.mappings == s0.mappings + (if n >= 5 && o0.mappings == [] then o.mappings else [])
    && (n < 5 ==> o.mappings == o0.mappings)
    && s.nextId == s0.nextId + (if n >= 2 && o0.extents == [] then 1 else 0)
         + (if n >= 3 && o0.initiators == [] then 1 else 0) + (if n >= 4 && o0.targets == [] then 1 else 0)
  }

  function Stage(op: Op): nat {
    if op.Finished? then 5 else |Cleanup(op)|
  }

  ghost predicate Growing(env: Env, v: string, s0: State, s: State, op: Op) {
    Ready(env, v, s, op) && PlanOf(op).Some? && Grown(env, v, s0, s, PlanOf(op).value, Stage(op))
  }

  /** A working step of create: it goes on with the same plan or ends in success, and what it adds was missing. */
  ghost predicate GrowsTo(env: Env, v: string, s0: State, plan: Plan, s': State, op': Op) {
    && (PlanOf(op') == Some(plan) || op' == Finished(Provisioned(Respond(plan, v))))
    && Grown(env, v, s0, s', plan, Stage(op'))
  }

  lemma DatasetGrows(env: Env, v: string, s0: State, s: State, op: Op)
    requires Growing(env, v, s0, s, op) && (op.FindDataset? || op.MakeDataset?)
    ensures GrowsTo(env, v, s0, op.plan, Step(env, v, s, op, Works).0, Step(env, v, s, op, Works).1)
  {
    hide Step, Own, IdsOk, VolumeOk, ExtentPath, Respond;
    OwnLists(env, v, s0, s);
    if op.FindDataset? { FindDatasetStep(env, v, s, op); } else { MakeDatasetStep(env, v, s, op); }
  }

  lemma OwnZvolExists(env: Env, v: string, s: State)
    requires Own(env, v, s).datasets != []
    ensures exists d :: d in s.datasets && ZvolPath(d.name) == ExtentPath(env, v)
  {
    assert Own(env, v, s).datasets[0] in s.datasets;
  }

  /** Equal lists hold equal objects of the volume. */
  lemma OwnLists(env: Env, v: string, s: State, s': State)
    ensures s.datasets == s'.datasets ==> Own(env, v, s).datasets == Own(env, v, s').datasets
    ensures s.extents == s'.extents ==> Own(env, v, s).extents == Own(env, v, s').extents
    ensures s.initiators == s'.initiators ==> Own(env, v, s).initiators == Own(env, v, s').initiators
    ensures s.targets == s'.targets ==> Own(env, v, s).targets == Own(env, v, s').targets
  {
  }

  // What each step is, in terms of the volume's own objects

  /** A making call is for a kind the volume lacks. */
  lemma OwnKinds(env: Env, v: string, s: State, op: Op)
    requires OpOk(env, v, s, op)
    ensures
      var o := Own(env, v, s);
      && (op.MakeDataset? ==> o.datasets == []) && (op.MakeExtent? ==> o.datasets != [] && o.extents == [])
      && (op.MakeInitiator? ==> o.initiators == [])
      && (op.MakeTarget? ==> o.targets == [] && HasInitiator(o, op.ini))
      && (op.MakeMapping? ==> o.mappings == [])
  {
    hide Own;
  }

  lemma OwnInitiatorBelow(env: Env, v: string, s: State, ini: int)
    requires IdsOk(s) && HasInitiator(Own(env, v, s), ini)
    ensures ini < s.nextId
  {
    hide Keep;
    assert Own(env, v, s).initiators[0] in s.initiators;
  }

  lemma FindDatasetStep(env: Env, v: string, s: State, op: Op)
    requires Ready(env, v, s, op) && op.FindDataset?
    ensures
      var o := Own(env, v, s);
      Step(env, v, s, op, Works) ==
        (s, if o.datasets == [] then MakeDataset(op.plan) else FindExtent(op.plan, o.datasets[0].id))
  {
    FirstVolume(env, v, s);
    FirstIsHead(s.datasets, DatasetNamed(DatasetName(env, v)));
  }

  lemma MakeDatasetStep(env: Env, v: string, s: State, op: Op)
    requires Ready(env, v, s, op) && op.MakeDataset?
    ensures
      var d := Dataset(DatasetName(env, v), DatasetName(env, v), Volume, ToDecimal(op.plan.size));
      var s' := s.(datasets := s.datasets + [d]);
      && Step(env, v, s, op, Works) == (s', FindExtent(op.plan, DatasetName(env, v)))
      && Own(env, v, s') == Own(env, v, s).(datasets := [d])
  {
    hide Keep, First, Rest, Confined;
    DatasetCreated(env, v, s, op.plan.size);
  }

  lemma FindExtentStep(env: Env, v: string, s: State, op: Op)
    requires Ready(env, v, s, op) && op.FindExtent?
    ensures
      var o := Own(env, v, s);
      Step(env, v, s, op, Works) ==
        (s, if o.extents == [] then MakeExtent(op.plan, op.ds) else FindInitiator(op.plan, op.ds, o.extents[0].id))
  {
    FirstIsHead(s.extents, ExtentAt(ExtentPath(env, v)));
  }

  lemma MakeExtentStep(env: Env, v: string, s: State, op: Op)
    requires Ready(env, v, s, op) && op.MakeExtent?
    ensures
      var e := Extent(s.nextId, v, v + COMMENT_EXTENT, ExtentPath(env, v));
      var s' := s.(extents := s.extents + [e], nextId := s.nextId + 1);
      && Step(env, v, s, op, Works) == (s', FindInitiator(op.plan, op.ds, s.nextId))
      && Own(env, v, s') == Own(env, v, s).(extents := [e])
  {
    hide Keep, First, Rest, Own, VolumeOk, IdsOk, Confined, CreateInitiator, CreateTarget, CreateDataset, CreateMapping;
    OwnKinds(env, v, s, op);
    OwnZvolExists(env, v, s);
    ExtentCreated(env, v, s, v, v + COMMENT_EXTENT);
  }

  lemma FindInitiatorStep(env: Env, v: string, s: State, op: Op)
    requires Ready(env, v, s, op) && op.FindInitiator?
    ensures
      var o := Own(env, v, s);
      Step(env, v, s, op, Works) ==
        (s, if o.initiators == [] then MakeInitiator(op.plan, op.ds, op.ext)
            else FindTarget(op.plan, op.ds, op.ext, o.initiators[0].id))
  {
    FirstIsHead(s.initiators, CommentStarts(v));
  }

  lemma MakeInitiatorStep(env: Env, v: string, s: State, op: Op)
    requires Ready(env, v, s, op) && op.MakeInitiator?
    ensures
      var i := Initiator(s.nextId, v + COMMENT_INITIATOR);
      var s' := s.(initiators := s.initiators + [i], nextId := s.nextId + 1);
      && Step(env, v, s, op, Works) == (s', FindTarget(op.plan, op.ds, op.ext, s.nextId))
      && Own(env, v, s') == Own(env, v, s).(initiators := [i])
  {
    hide Keep, First, Rest, Own, IdsOk, VolumeOk, Confined, CreateTarget, CreateExtent, CreateDataset, CreateMapping;
    OwnKinds(env, v, s, op);
    InitiatorCreated(env, v, s, COMMENT_INITIATOR);
  }

  lemma FindTargetStep(env: Env, v: string, s: State, op: Op)
    requires Ready(env, v, s, op) && op.FindTarget?
    ensures
      var o := Own(env, v, s);
      Step(env, v, s, op, Works) ==
        (s, if o.targets == [] then MakeTarget(op.plan, op.ds, op.ext, op.ini)
            else FindMapping(op.plan, op.ds, op.ext, op.ini, o.targets[0].id))
  {
    FirstIsHead(s.targets, TargetNamed(v));
  }

  lemma MakeTargetStep(env: Env, v: string, s: State, op: Op)
    requires Ready(env, v, s, op) && op.MakeTarget?
    ensures
      var t := Target(s.nextId, v, v + COMMENT_INITIATOR, env.portalId, op.ini);
      var s' := s.(targets := s.targets + [t], nextId := s.nextId + 1);
      && Step(env, v, s, op, Works) == (s', FindMapping(op.plan, op.ds, op.ext, op.ini, s.nextId))
      && Own(env, v, s') == Own(env, v, s).(targets := [t])
  {
    hide Keep, First, Rest, Own, VolumeOk, Confined, CreateInitiator, CreateExtent, CreateDataset, CreateMapping;
    OwnKinds(env, v, s, op);
    OwnInitiatorBelow(env, v, s, op.ini);
    TargetCreated(env, v, s, v + COMMENT_INITIATOR, env.portalId, op.ini);
  }

  lemma FindMappingStep(env: Env, v: string, s: State, op: Op)
    requires Ready(env, v, s, op) && op.FindMapping?
    ensures
      Step(env, v, s, op, Works) ==
        (s, if Own(env, v, s).mappings == [] then MakeMapping(op.plan, op.ds, op.ext, op.ini, op.tgt)
            else Finished(Provisioned(Respond(op.plan, v))))
  {
    FirstMapping(env, v, s, op.tgt, op.ext);
  }

  lemma MakeMappingStep(env: Env, v: string, s: State, op: Op)
    requires Ready(env, v, s, op) && op.MakeMapping?
    ensures
      var m := Mapping(op.tgt, op.ext, 0);
      var s' := s.(mappings := s.mappings + [m]);
      && Step(env, v, s, op, Works) == (s', Finished(Provisioned(Respond(op.plan, v))))
      && Own(env, v, s') == Own(env, v, s).(mappings := [m])
  {
    MappingCreated(env, v, s, op.tgt, op.ext);
  }

  lemma ExtentGrows(env: Env, v: string, s0: State, s: State, op: Op)
    requires Growing(env, v, s0, s, op) && (op.FindExtent? || op.MakeExtent?)
    ensures GrowsTo(env, v, s0, op.plan, Step(env, v, s, op, Works).0, Step(env, v, s, op, Works).1)
  {
    hide Step, Own, IdsOk, VolumeOk, ExtentPath, Respond;
    OwnLists(env, v, s0, s);
    if op.FindExtent? { FindExtentStep(env, v, s, op); } else { MakeExtentStep(env, v, s, op); }
  }

  lemma InitiatorGrows(env: Env, v: string, s0: State, s: State, op: Op)
    requires Growing(env, v, s0, s, op) && (op.FindInitiator? || op.MakeInitiator?)
    ensures GrowsTo(env, v, s0, op.plan, Step(env, v, s, op, Works).0, Step(env, v, s, op, Works).1)
  {
    hide Step, Own, IdsOk, VolumeOk, ExtentPath, Respond;
    OwnLists(env, v, s0, s);
    if op.FindInitiator? { FindInitiatorStep(env, v, s, op); } else { MakeInitiatorStep(env, v, s, op); }
  }

  lemma TargetGrows(env: Env, v: string, s0: State, s: State, op: Op)
    requires Growing(env, v, s0, s, op) && (op.FindTarget? || op.MakeTarget?)
    ensures GrowsTo(env, v, s0, op.plan, Step(env, v, s, op, Works).0, Step(env, v, s, op, Works).1)
  {
    hide Step, Own, IdsOk, VolumeOk, ExtentPath, Respond;
    OwnLists(env, v, s0, s);
    if op.FindTarget? { FindTargetStep(env, v, s, op); } else { MakeTargetStep(env, v, s, op); }
  }

  lemma MappingGrows(env: Env, v: string, s0: State, s: State, op: Op)
    requires Growing(env, v, s0, s, op) && (op.FindMapping? || op.MakeMapping?)
    ensures GrowsTo(env, v, s0, op.plan, Step(env, v, s, op, Works).0, Step(env, v, s, op, Works).1)
  {
    hide Step, Own, IdsOk, VolumeOk, ExtentPath, Respond;
    OwnLists(env, v, s0, s);
    if op.FindMapping? { FindMappingStep(env, v, s, op); } else { MakeMappingStep(env, v, s, op); }
  }

  lemma StepGrows(env: Env, v: string, s0: State, s: State, op: Op)
    requires Growing(env, v, s0, s, op)
    ensures GrowsTo(env, v, s0, PlanOf(op).value, Step(env, v, s, op, Works).0, Step(env, v, s, op, Works).1)
  {
    hide Step, Own, IdsOk, VolumeOk, ExtentPath, Respond;
    if op.FindDataset? || op.MakeDataset? { DatasetGrows(env, v, s0, s, op); }
    else if op.FindExtent? || op.MakeExtent? { ExtentGrows(env, v, s0, s, op); }
    else if op.FindInitiator? || op.MakeInitiator? { InitiatorGrows(env, v, s0, s, op); }
    else if op.FindTarget? || op.MakeTarget? { TargetGrows(env, v, s0, s, op); }
    else { MappingGrows(env, v, s0, s, op); }
  }

  lemma {:induction false} PlannedRun(env: Env, v: string, s0: State, s: State, op: Op)
    requires Growing(env, v, s0, s, op)
    ensures
      var (s', op', faults) := Run(env, v, s, op, []);
      op' == Finished(Provisioned(Respond(PlanOf(op).value, v))) && faults == [] &&
      Grown(env, v, s0, s', PlanOf(op).value, 5)
    decreases Remaining(op)
  {
    hide Step, Own, IdsOk, Grown;
    var (s', op') := Step(env, v, s, op, Works);
    StepKeeps(env, v, s, op, Works);
    StepShrinks(env, v, s, op, Works);
    StepGrows(env, v, s0, s, op);
    if PlanOf(op').Some? {
      PlannedRun(env, v, s0, s', op');
    }
  }

  // Create as a whole

  /** The store is in order as far as volume v goes. */
  ghost predicate InOrder(env: Env, v: string, s: State) {
    IdsOk(s) && VolumeOk(Own(env, v, s))
  }

  /** Every store the driver can bring about is in order for each of its volumes. */
  lemma ReachableInOrder(env: Env, volumes: set<string>, s0: State, events: seq<Event>, v: string)
    requires Vacant(env, volumes, s0) && v in volumes
    ensures InOrder(env, v, Exec(env, volumes, System(s0, map[]), events).state)
  {
    ReachableInv(env, volumes, s0, events);
  }

  /** The requests that can be served, going by the request and the store's settings alone. */
  predicate Servable(env: Env, s: State, request: CreateRequest) {
    && Supported(request.capabilities, ACCESS_MODES)
    && env.portalId in s.portals && s.portals[env.portalId] != []
    && Acceptable(request.range)
  }

  /** What a request that cannot be served is told: unsupported capabilities come first, a missing portal second. */
  function Refusal(env: Env, s: State, request: CreateRequest): Status {
    if !Supported(request.capabilities, ACCESS_MODES) then InvalidArgument
    else if env.portalId !in s.portals || s.portals[env.portalId] == [] then Internal
    else OutOfRange
  }

  function PlanFor(env: Env, s: State, request: CreateRequest): Plan
    requires Servable(env, s, request)
  {
    Plan(s.basename, PortalAddress(s.portals[env.portalId][0]), ExtractStorage(request.range).value)
  }

  lemma StartOfCreate(env: Env, v: string, s: State, request: CreateRequest)
    ensures
      if Servable(env, s, request) then
        Run(env, v, s, StartCreate(request), []) == Run(env, v, s, FindDataset(PlanFor(env, s, request)), [])
      else
        Run(env, v, s, StartCreate(request), []) == (s, Finished(Failure(Refusal(env, s, request))), [])
  {
    if Supported(request.capabilities, ACCESS_MODES) {
      var portal := ReadPortal(request, s.basename);
      assert Step(env, v, s, StartCreate(request), Works) == (s, portal);
      assert Run(env, v, s, StartCreate(request), []) == Run(env, v, s, portal, []);
      var next := PlanCreate(env, s, request, s.basename, Works);
      assert Run(env, v, s, portal, []) == Run(env, v, s, next, []);
      if !Servable(env, s, request) {
        assert next.Finished?;
        assert Run(env, v, s, next, []) == (s, next, []);
      }
    } else {
      assert Run(env, v, s, StartCreate(request), []) == (s, Finished(Failure(InvalidArgument)), []);
    }
  }

  lemma GrownStart(env: Env, v: string, s: State, plan: Plan)
    ensures Grown(env, v, s, s, plan, 0)
  {
    hide Own;
  }

  lemma CreateRun(env: Env, v: string, s: State, request: CreateRequest)
    requires InOrder(env, v, s) && Servable(env, s, request)
    ensures
      var plan := PlanFor(env, s, request);
      var (s', op', faults) := Run(env, v, s, StartCreate(request), []);
      && op' == Finished(Provisioned(Respond(plan, v))) && faults == []
      && OwnChange(env, v, s, s') && Complete(Own(env, v, s')) && Grown(env, v, s, s', plan, 5)
  {
    hide Step, Own, IdsOk, Run, Confined, VolumeOk, Complete, Grown;
    var op := FindDataset(PlanFor(env, s, request));
    StartOfCreate(env, v, s, request);
    GrownStart(env, v, s, PlanFor(env, s, request));
    PlannedRun(env, v, s, s, op);
    RunKeeps(env, v, s, op, []);
  }

  /** From whatever earlier calls have left behind, a create whose calls all work makes the volume complete; a
      request that cannot be served is refused and changes nothing. */
  lemma CreateConverges(env: Env, v: string, s: State, request: CreateRequest)
    requires InOrder(env, v, s)
    ensures
      var (s', op', _) := Run(env, v, s, StartCreate(request), []);
      && (Servable(env, s, request) ==>
            op' == Finished(Provisioned(Respond(PlanFor(env, s, request), v))) && Complete(Own(env, v, s')) &&
            Rest(env, v, s') == Rest(env, v, s))
      && (!Servable(env, s, request) ==> op' == Finished(Failure(Refusal(env, s, request))) && s' == s)
  {
    hide Step, Own, IdsOk, Rest;
    StartOfCreate(env, v, s, request);
    if Servable(env, s, request) {
      CreateRun(env, v, s, request);
    }
  }

  /** In particular after any interleaving of calls, faults and crashes. */
  lemma CreateAfterAnything(env: Env, volumes: set<string>, s0: State, events: seq<Event>, v: string,
                            request: CreateRequest)
    requires Vacant(env, volumes, s0) && v in volumes
    requires Servable(env, Exec(env, volumes, System(s0, map[]), events).state, request)
    ensures
      var s := Exec(env, volumes, System(s0, map[]), events).state;
      var first := Run(env, v, s, StartCreate(request), []);
      && first.1 == Finished(Provisioned(Respond(PlanFor(env, s, request), v))) && Complete(Own(env, v, first.0))
      && Run(env, v, first.0, StartCreate(request), []) == first
      && forall w | w in volumes && w != v :: Own(env, w, first.0) == Own(env, w, s)
  {
    hide Exec, Run, Own, Step, OwnChange, IdsOk, VolumeOk;
    var s := Exec(env, volumes, System(s0, map[]), events).state;
    ReachableInv(env, volumes, s0, events);
    CreateRun(env, v, s, request);
    CreateIdempotent(env, v, s, request);
    forall w | w in volumes && w != v
      ensures Own(env, w, Run(env, v, s, StartCreate(request), []).0) == Own(env, w, s)
    {
      OthersUntouched(env, volumes, v, w, s, Run(env, v, s, StartCreate(request), []).0);
    }
  }

  /** On a complete volume a create whose calls all work changes nothing. */
  lemma CreateOnComplete(env: Env, v: string, s: State, request: CreateRequest)
    requires InOrder(env, v, s) && Complete(Own(env, v, s)) && Servable(env, s, request)
    ensures
      Run(env, v, s, StartCreate(request), []) == (s, Finished(Provisioned(Respond(PlanFor(env, s, request), v))), [])
  {
    hide Step, Own, IdsOk, Run, OwnChange;
    CreateRun(env, v, s, request);
    var s' := Run(env, v, s, StartCreate(request), []).0;
    assert s'.extents == s.extents && s'.initiators == s.initiators;
    assert s'.targets == s.targets && s'.mappings == s.mappings;
  }

  /** A second create with the same request changes nothing and gives the same answer. */
  lemma CreateIdempotent(env: Env, v: string, s: State, request: CreateRequest)
    requires InOrder(env, v, s) && Servable(env, s, request)
    ensures
      var first := Run(env, v, s, StartCreate(request), []);
      Run(env, v, first.0, StartCreate(request), []) == first
  {
    hide Step, Own, IdsOk, Run;
    CreateRun(env, v, s, request);
    CreateOnComplete(env, v, Run(env, v, s, StartCreate(request), []).0, request);
  }

  /** An adopted zvol keeps its size: the answer reports the stored size exactly when there was no zvol
      before, or one of the requested size. */
  lemma SizeReported(env: Env, v: string, s: State, request: CreateRequest)
    requires InOrder(env, v, s) && Servable(env, s, request)
    ensures
      var size := ExtractStorage(request.range).value;
      var before := Own(env, v, s).datasets;
      var (s', op', _) := Run(env, v, s, StartCreate(request), []);
      && op'.Finished? && op'.outcome.Provisioned? && op'.outcome.response.capacity == size
      && |Own(env, v, s').datasets| == 1
      && (ParseInt64(Own(env, v, s').datasets[0].volsize) == Some(size) <==>
            before == [] || ParseInt64(before[0].volsize) == Some(size))
  {
    hide Step, IdsOk, Run;
    var plan := PlanFor(env, s, request);
    CreateRun(env, v, s, request);
    DecimalRoundTrip(plan.size);
    var d := Dataset(DatasetName(env, v), DatasetName(env, v), Volume, ToDecimal(plan.size));
    KeepAppend(s.datasets, [d], DatasetNamed(DatasetName(env, v)));
  }

  /** An adopted target keeps its group: it names the volume's initiator exactly when there was no target
      before, or one that already named the volume's initiator. */
  lemma TargetNamesInitiator(env: Env, v: string, s: State, request: CreateRequest)
    requires InOrder(env, v, s) && Servable(env, s, request)
    ensures
      var before := Own(env, v, s);
      var after := Own(env, v, Run(env, v, s, StartCreate(request), []).0);
      && |after.targets| == 1 && |after.initiators| == 1
      && (after.targets[0].initiator == after.initiators[0].id <==>
            before.targets == [] ||
            (before.initiators != [] && before.targets[0].initiator == before.initiators[0].id))
      && (before.targets == [] ==> after.targets[0].portal == env.portalId)
  {
    hide Step, Own, Run, Rest, VolumeOk;
    var plan, s' := PlanFor(env, s, request), Run(env, v, s, StartCreate(request), []).0;
    CreateRun(env, v, s, request);
    OwnLists(env, v, s, s');
    var before, after := Own(env, v, s), Own(env, v, s');
    if before.targets != [] && before.initiators == [] {
      FreshInitiator(env, v, s, s', after.initiators);
    }
  }

  /** An initiator made after a target cannot be the one the target names. */
  lemma FreshInitiator(env: Env, v: string, s: State, s': State, made: seq<Initiator>)
    requires IdsOk(s) && Own(env, v, s).targets != [] && Own(env, v, s).initiators == []
    requires Confined(env, v, s, s') && Own(env, v, s').initiators == made
    ensures forall i | i in made :: i.id != Own(env, v, s).targets[0].initiator
  {
    assert Own(env, v, s).targets[0] in s.targets;
    assert forall i | i in made :: i in s'.initiators && HasPrefix(i.comment, v);
    assert forall i | i in s.initiators && HasPrefix(i.comment, v) :: i in Own(env, v, s).initiators;
  }
}
