/**
 The iSCSI create and delete operations as step machines: an operation is a program counter with the
 locals that are live there, and one step is one call to the store together with the branch taken on
 its reply. Steps of operations on different volumes may interleave.
 */
module IscsiMachine {
  import opened Lists
  import opened Text
  import opened Faults
  import opened Decimal
  import opened Capacity
  import opened Csi
  import opened IscsiApi

  const VOLUME_PREFIX := "iscsi-"
  const KEY_TARGET_PORTAL := "targetPortal"
  const KEY_IQN := "iqn"
  const KEY_LUN := "lun"
  const KEY_PORTALS := "portals"
  const COMMENT_EXTENT := ": Kubernetes managed iSCSI extent"
  const COMMENT_INITIATOR := ": Kubernetes managed iSCSI initiator"

  const ACCESS_MODES: set<AccessMode> :=
    {SingleNodeWriter, SingleNodeReaderOnly, SingleNodeSingleWriter, SingleNodeMultiWriter}

  /** The driver's own settings. */
  datatype Env = Env(storagePath: string, portalId: int)

  function VolumeId(name: string): string { VOLUME_PREFIX + name }

  function DatasetName(env: Env, v: string): string { env.storagePath + "/" + v }

  function ExtentPath(env: Env, v: string): string { ZvolPath(DatasetName(env, v)) }

  /** What create has worked out before it touches the store. */
  datatype Plan = Plan(base: string, portalAddress: string, size: VolumeSize)

  datatype Removal =
    | RemoveDataset(name: string)
    | RemoveExtent(extent: int)
    | RemoveInitiator(initiator: int)
    | RemoveTarget(target: int)

  datatype Outcome = Provisioned(response: Created) | Deleted | Failure(status: Status)

  datatype Op =
    // create
    | ReadGlobal(request: CreateRequest)
    | ReadPortal(request: CreateRequest, base: string)
    | FindDataset(plan: Plan)
    | MakeDataset(plan: Plan)
    | FindExtent(plan: Plan, ds: string)
    | MakeExtent(plan: Plan, ds: string)
    | FindInitiator(plan: Plan, ds: string, ext: int)
    | MakeInitiator(plan: Plan, ds: string, ext: int)
    | FindTarget(plan: Plan, ds: string, ext: int, ini: int)
    | MakeTarget(plan: Plan, ds: string, ext: int, ini: int)
    | FindMapping(plan: Plan, ds: string, ext: int, ini: int, tgt: int)
    | MakeMapping(plan: Plan, ds: string, ext: int, ini: int, tgt: int)
    | Undo(todo: seq<Removal>, status: Status)
    // delete
    | LookTarget
    | DropTarget(target: int)
    | LookDataset
    | DropDataset(dataset: string)
    | LookInitiator
    | DropInitiator(initiator: int)
    // either
    | Finished(outcome: Outcome)

  function PortalAddress(listen: Listen): string { listen.ip + ":" + ToDecimal(listen.port) }

  function Iqn(base: string, v: string): string { base + ":" + v }

  function Respond(plan: Plan, v: string): Created {
    Created(v, plan.size,
      map[KEY_TARGET_PORTAL := plan.portalAddress, KEY_IQN := Iqn(plan.base, v), KEY_LUN := "0", KEY_PORTALS := "[]"])
  }

  function StartCreate(request: CreateRequest): Op {
    if Supported(request.capabilities, ACCESS_MODES) then ReadGlobal(request)
    else Finished(Failure(InvalidArgument))
  }

  function StartDelete(v: string): Op {
    if HasPrefix(v, VOLUME_PREFIX) then LookTarget else Finished(Failure(Status.NotFound))
  }

  /** The clean-up calls that are due when create fails at this point, in the order they are made. */
  function Cleanup(op: Op): seq<Removal> {
    match op
    case FindExtent(_, ds) => [RemoveDataset(ds)]
    case MakeExtent(_, ds) => [RemoveDataset(ds)]
    case FindInitiator(_, ds, ext) => [RemoveDataset(ds), RemoveExtent(ext)]
    case MakeInitiator(_, ds, ext) => [RemoveDataset(ds), RemoveExtent(ext)]
    case FindTarget(_, ds, ext, ini) => [RemoveDataset(ds), RemoveExtent(ext), RemoveInitiator(ini)]
    case MakeTarget(_, ds, ext, ini) => [RemoveDataset(ds), RemoveExtent(ext), RemoveInitiator(ini)]
    case FindMapping(_, ds, ext, ini, tgt) =>
      [RemoveDataset(ds), RemoveExtent(ext), RemoveInitiator(ini), RemoveTarget(tgt)]
    case MakeMapping(_, ds, ext, ini, tgt) =>
      [RemoveDataset(ds), RemoveExtent(ext), RemoveInitiator(ini), RemoveTarget(tgt)]
    case _ => []
  }

  /** Clean up what is left to clean up, then report the status. */
  function Unwind(todo: seq<Removal>, status: Status): Op {
    if todo == [] then Finished(Failure(status)) else Undo(todo, status)
  }

  function Abort(op: Op, status: Status): Op {
    Unwind(Cleanup(op), status)
  }

  /** One clean-up call. Its reply is only logged. */
  function Remove(s: State, removal: Removal, f: Fault): State {
    match removal
    case RemoveDataset(name) => DeleteDataset(s, name, f).0
    case RemoveExtent(extent) => DeleteExtent(s, extent, f).0
    case RemoveInitiator(initiator) => DeleteInitiator(s, initiator, f).0
    case RemoveTarget(target) => DeleteTarget(s, target, f).0
  }

  function Step(env: Env, v: string, s: State, op: Op, f: Fault): (State, Op) {
    match op
    case ReadGlobal(request) =>
      if f.Works? then (s, ReadPortal(request, s.basename)) else (s, Abort(op, Internal))
    case ReadPortal(request, base) => (s, PlanCreate(env, s, request, base, f))
    case FindDataset(plan) =>
      if !f.Works? then (s, Abort(op, Internal))
      else (match First(s.datasets, VolumeNamed(DatasetName(env, v)))
            case Some(d) => (s, FindExtent(plan, d.id))
            case None => (s, MakeDataset(plan)))
    case MakeDataset(plan) => StepMakeDataset(env, v, s, op, f)
    case FindExtent(plan, ds) =>
      if !f.Works? then (s, Abort(op, Internal))
      else (match First(s.extents, ExtentAt(ExtentPath(env, v)))
            case Some(e) => (s, FindInitiator(plan, ds, e.id))
            case None => (s, MakeExtent(plan, ds)))
    case MakeExtent(plan, ds) => StepMakeExtent(env, v, s, op, f)
    case FindInitiator(plan, ds, ext) =>
      if !f.Works? then (s, Abort(op, Internal))
      else (match First(s.initiators, CommentStarts(v))
            case Some(i) => (s, FindTarget(plan, ds, ext, i.id))
            case None => (s, MakeInitiator(plan, ds, ext)))
    case MakeInitiator(plan, ds, ext) => StepMakeInitiator(v, s, op, f)
    case FindTarget(plan, ds, ext, ini) =>
      if !f.Works? then (s, Abort(op, Internal))
      else (match First(s.targets, TargetNamed(v))
            case Some(t) => (s, FindMapping(plan, ds, ext, ini, t.id))
            case None => (s, MakeTarget(plan, ds, ext, ini)))
    case MakeTarget(plan, ds, ext, ini) => StepMakeTarget(env, v, s, op, f)
    case FindMapping(plan, ds, ext, ini, tgt) =>
      if !f.Works? then (s, Abort(op, Internal))
      else (match First(s.mappings, Joining(tgt, ext))
            case Some(_) => (s, Finished(Provisioned(Respond(plan, v))))
            case None => (s, MakeMapping(plan, ds, ext, ini, tgt)))
    case MakeMapping(plan, ds, ext, ini, tgt) => StepMakeMapping(v, s, op, f)
    case Undo(todo, status) =>
      if todo == [] then (s, Finished(Failure(status)))
      else (Remove(s, todo[0], f), Unwind(todo[1..], status))
    case LookTarget =>
      if !f.Works? then (s, Finished(Failure(Backend)))
      else (match First(s.targets, TargetNamed(v))
            case Some(t) => (s, DropTarget(t.id))
            case None => (s, LookDataset))
    case DropTarget(target) =>
      var (s', r) := DeleteTarget(s, target, f);
      (s', if r.Ok? then LookDataset else Finished(Failure(Backend)))
    case LookDataset =>
      if !f.Works? then (s, Finished(Failure(Backend)))
      else (match First(s.datasets, DatasetNamed(DatasetName(env, v)))
            case Some(d) => (s, DropDataset(d.id))
            case None => (s, LookInitiator))
    case DropDataset(dataset) =>
      var (s', r) := DeleteDataset(s, dataset, f);
      (s', if r.Ok? then LookInitiator else Finished(Failure(Backend)))
    case LookInitiator =>
      if !f.Works? then (s, Finished(Failure(Backend)))
      else (match First(s.initiators, CommentStarts(v))
            case Some(i) => (s, DropInitiator(i.id))
            case None => (s, Finished(Deleted)))
    case DropInitiator(initiator) =>
      var (s', r) := DeleteInitiator(s, initiator, f);
      (s', if r.Ok? then Finished(Deleted) else Finished(Failure(Backend)))
    case Finished(_) => (s, op)
  }

  /** The portal is read last before the requested size is checked. */
  function PlanCreate(env: Env, s: State, request: CreateRequest, base: string, f: Fault): Op {
    match GetPortal(s, env.portalId, f)
    case Err(_) => Finished(Failure(Internal))
    case Ok(listen) =>
      if |listen| == 0 then Finished(Failure(Internal))
      else
        match ExtractStorage(request.range)
        case Err(_) => Finished(Failure(OutOfRange))
        case Ok(size) => FindDataset(Plan(base, PortalAddress(listen[0]), size))
  }

  function StepMakeDataset(env: Env, v: string, s: State, op: Op, f: Fault): (State, Op)
    requires op.MakeDataset?
  {
    var (s', r) := CreateDataset(s, DatasetName(env, v), op.plan.size, f);
    (s', if r.Ok? then FindExtent(op.plan, r.value.id) else Abort(op, Backend))
  }

  function StepMakeExtent(env: Env, v: string, s: State, op: Op, f: Fault): (State, Op)
    requires op.MakeExtent?
  {
    var (s', r) := CreateExtent(s, v, v + COMMENT_EXTENT, ExtentPath(env, v), f);
    (s', if r.Ok? then FindInitiator(op.plan, op.ds, r.value.id) else Abort(op, Backend))
  }

  function StepMakeInitiator(v: string, s: State, op: Op, f: Fault): (State, Op)
    requires op.MakeInitiator?
  {
    var (s', r) := CreateInitiator(s, v + COMMENT_INITIATOR, f);
    (s', if r.Ok? then FindTarget(op.plan, op.ds, op.ext, r.value.id) else Abort(op, Backend))
  }

  function StepMakeTarget(env: Env, v: string, s: State, op: Op, f: Fault): (State, Op)
    requires op.MakeTarget?
  {
    var (s', r) := CreateTarget(s, v, v + COMMENT_INITIATOR, env.portalId, op.ini, f);
    (s', if r.Ok? then FindMapping(op.plan, op.ds, op.ext, op.ini, r.value.id) else Abort(op, Backend))
  }

  function StepMakeMapping(v: string, s: State, op: Op, f: Fault): (State, Op)
    requires op.MakeMapping?
  {
    var (s', r) := CreateMapping(s, op.tgt, op.ext, f);
    (s', if r.Ok? then Finished(Provisioned(Respond(op.plan, v))) else Abort(op, Backend))
  }

  /** An upper bound on the steps an operation still makes. */
  function Remaining(op: Op): nat {
    match op
    case ReadGlobal(_) => 17
    case ReadPortal(_, _) => 16
    case FindDataset(_) => 15
    case MakeDataset(_) => 14
    case FindExtent(_, _) => 13
    case MakeExtent(_, _) => 12
    case FindInitiator(_, _, _) => 11
    case MakeInitiator(_, _, _) => 10
    case FindTarget(_, _, _, _) => 9
    case MakeTarget(_, _, _, _) => 8
    case FindMapping(_, _, _, _, _) => 7
    case MakeMapping(_, _, _, _, _) => 6
    case Undo(todo, _) => 1 + |todo|
    case LookTarget => 6
    case DropTarget(_) => 5
    case LookDataset => 4
    case DropDataset(_) => 3
    case LookInitiator => 2
    case DropInitiator(_) => 1
    case Finished(_) => 0
  }

  lemma StepShrinks(env: Env, v: string, s: State, op: Op, f: Fault)
    requires !op.Finished?
    ensures Remaining(Step(env, v, s, op, f).1) < Remaining(op)
  {
    hide First, Keep, Remove, GetPortal, CreateDataset, CreateExtent, CreateInitiator, CreateTarget, CreateMapping,
      DeleteDataset, DeleteTarget, DeleteInitiator;
  }

  /** One operation run to its end on its own, the n-th call suffering the n-th fault. */
  function Run(env: Env, v: string, s: State, op: Op, faults: Faults): (State, Op, Faults)
    decreases Remaining(op)
  {
    if op.Finished? then (s, op, faults)
    else
      StepShrinks(env, v, s, op, Next(faults));
      var (s', op') := Step(env, v, s, op, Next(faults));
      Run(env, v, s', op', Later(faults))
  }

  // Several operations at once

  /** The store and the operation in flight on each volume: at most one, as the CSI rules on concurrency ask. */
  datatype System = System(state: State, ops: map<string, Op>)

  datatype Event =
    | Create(request: CreateRequest)   // a create call arrives
    | Delete(volume: string)           // a delete call arrives
    | Call(volume: string, fault: Fault) // the operation on the volume makes its next call
    | Forget(volume: string)           // the operation has answered, or the driver has crashed

  /** Events on volumes outside the given ones, and calls for a volume that is still busy, do not occur. */
  function Apply(env: Env, volumes: set<string>, sys: System, event: Event): System {
    match event
    case Create(request) =>
      var v := VolumeId(request.name);
      if v in volumes && v !in sys.ops then sys.(ops := sys.ops[v := StartCreate(request)]) else sys
    case Delete(v) =>
      if v in volumes && v !in sys.ops then sys.(ops := sys.ops[v := StartDelete(v)]) else sys
    case Call(v, fault) =>
      if v in volumes && v in sys.ops then
        var (s', op') := Step(env, v, sys.state, sys.ops[v], fault);
        System(s', sys.ops[v := op'])
      else sys
    case Forget(v) => sys.(ops := sys.ops - {v})
  }

  function Exec(env: Env, volumes: set<string>, sys: System, events: seq<Event>): System
    decreases |events|
  {
    if events == [] then sys
    else Exec(env, volumes, Apply(env, volumes, sys, events[0]), events[1..])
  }
}
