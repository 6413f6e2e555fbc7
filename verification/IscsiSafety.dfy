/** What holds in every reachable state of every interleaving, whichever calls fail and however. */
module IscsiSafety {
  import opened Wrappers
  import opened Lists
  import opened Text
  import opened Faults
  import opened Csi
  import opened IscsiApi
  import opened IscsiMachine
  import opened IscsiInvariant
  import opened IscsiSteps

  /** A store in which the volumes own nothing yet. Anything else may be in it. */
  ghost predicate Vacant(env: Env, volumes: set<string>, s: State) {
    && PrefixFree(volumes)
    && IdsOk(s)
    && forall v | v in volumes :: Own(env, v, s) == NOTHING
  }

  lemma CallKeeps(env: Env, volumes: set<string>, sys: System, v: string, fault: Fault)
    requires Inv(env, volumes, sys) && v in sys.ops
    ensures OwnChange(env, v, sys.state, Apply(env, volumes, sys, Call(v, fault)).state)
    ensures Inv(env, volumes, Apply(env, volumes, sys, Call(v, fault)))
  {
    var s, s' := sys.state, Step(env, v, sys.state, sys.ops[v], fault).0;
    var sys' := Apply(env, volumes, sys, Call(v, fault));
    StepKeeps(env, v, s, sys.ops[v], fault);
    forall w | w in volumes && w != v ensures VolumeOk(Own(env, w, s')) {
      OthersUntouched(env, volumes, v, w, s, s');
    }
    forall w | w in sys'.ops ensures OpOk(env, w, s', sys'.ops[w]) {
      if w != v {
        OtherOperation(env, volumes, v, w, s, s', sys.ops[w]);
      }
    }
  }

  lemma BeginKeeps(env: Env, volumes: set<string>, sys: System, v: string, op: Op)
    requires Inv(env, volumes, sys) && v in volumes && OpOk(env, v, sys.state, op)
    ensures Inv(env, volumes, sys.(ops := sys.ops[v := op]))
  {
  }

  lemma ForgetKeeps(env: Env, volumes: set<string>, sys: System, v: string)
    requires Inv(env, volumes, sys)
    ensures Inv(env, volumes, sys.(ops := sys.ops - {v}))
  {
  }

  lemma StartsOk(env: Env, v: string, s: State, request: CreateRequest)
    ensures OpOk(env, v, s, StartCreate(request)) && OpOk(env, v, s, StartDelete(v))
  {
  }

  lemma ApplyKeeps(env: Env, volumes: set<string>, sys: System, event: Event)
    requires Inv(env, volumes, sys)
    ensures Inv(env, volumes, Apply(env, volumes, sys, event))
  {
    match event {
      case Create(request) =>
        var v := VolumeId(request.name);
        if v in volumes && v !in sys.ops {
          StartsOk(env, v, sys.state, request);
          BeginKeeps(env, volumes, sys, v, StartCreate(request));
        }
      case Delete(v) =>
        if v in volumes && v !in sys.ops {
          StartsOk(env, v, sys.state, CreateRequest("", [], None));
          BeginKeeps(env, volumes, sys, v, StartDelete(v));
        }
      case Call(v, fault) =>
        if v in sys.ops {
          CallKeeps(env, volumes, sys, v, fault);
        }
      case Forget(v) =>
        ForgetKeeps(env, volumes, sys, v);
    }
  }

  lemma {:induction false} ExecKeeps(env: Env, volumes: set<string>, sys: System, events: seq<Event>)
    requires Inv(env, volumes, sys)
    ensures Inv(env, volumes, Exec(env, volumes, sys, events))
    decreases |events|
  {
    if events == [] {
    } else {
      ApplyKeeps(env, volumes, sys, events[0]);
      ExecKeeps(env, volumes, Apply(env, volumes, sys, events[0]), events[1..]);
    }
  }

  lemma ReachableInv(env: Env, volumes: set<string>, s: State, events: seq<Event>)
    requires Vacant(env, volumes, s)
    ensures Inv(env, volumes, Exec(env, volumes, System(s, map[]), events))
  {
    ExecKeeps(env, volumes, System(s, map[]), events);
  }

  /** At most one object of each kind for a volume; mappings and extents never dangle and never cross volumes. */
  lemma GraphSafe(env: Env, volumes: set<string>, s0: State, events: seq<Event>, v: string)
    requires Vacant(env, volumes, s0) && v in volumes
    ensures
      var s := Exec(env, volumes, System(s0, map[]), events).state;
      && |Keep(s.datasets, DatasetNamed(DatasetName(env, v)))| <= 1
      && |Keep(s.extents, ExtentAt(ExtentPath(env, v)))| <= 1
      && |Keep(s.initiators, CommentStarts(v))| <= 1
      && |Keep(s.targets, TargetNamed(v))| <= 1
      && |Keep(s.mappings, Touching(OwnTargets(v, s), OwnExtents(env, v, s)))| <= 1
      && (forall m, t | m in s.mappings && t in s.targets && t.name == v && m.target == t.id ::
            exists e :: e in s.extents && e.path == ExtentPath(env, v) && m.extent == e.id)
      && (forall m, e | m in s.mappings && e in s.extents && e.path == ExtentPath(env, v) && m.extent == e.id ::
            exists t :: t in s.targets && t.name == v && m.target == t.id)
      && (forall e | e in s.extents && e.path == ExtentPath(env, v) ::
            exists d :: d in s.datasets && d.name == DatasetName(env, v) && d.kind == Volume)
  {
    hide Exec, IdsOk, Keep, VolumeOk;
    ReachableInv(env, volumes, s0, events);
    GraphInOrder(env, v, Exec(env, volumes, System(s0, map[]), events).state);
  }

  lemma GraphInOrder(env: Env, v: string, s: State)
    requires IdsOk(s) && VolumeOk(Own(env, v, s))
    ensures
      var o := Own(env, v, s);
      |o.datasets| <= 1 && |o.extents| <= 1 && |o.initiators| <= 1 && |o.targets| <= 1 && |o.mappings| <= 1
    ensures
      forall m, t | m in s.mappings && t in s.targets && t.name == v && m.target == t.id ::
        exists e :: e in s.extents && e.path == ExtentPath(env, v) && m.extent == e.id
    ensures
      forall m, e | m in s.mappings && e in s.extents && e.path == ExtentPath(env, v) && m.extent == e.id ::
        exists t :: t in s.targets && t.name == v && m.target == t.id
    ensures
      forall e | e in s.extents && e.path == ExtentPath(env, v) ::
        exists d :: d in s.datasets && d.name == DatasetName(env, v) && d.kind == Volume
  {
    hide Keep;
    var o := Own(env, v, s);
    forall m, t | m in s.mappings && t in s.targets && t.name == v && m.target == t.id
      ensures exists e :: e in s.extents && e.path == ExtentPath(env, v) && m.extent == e.id
    {
      assert t in OwnTargets(v, s);
      assert m in o.mappings;
      assert o.extents[0] in s.extents;
    }
    forall m, e | m in s.mappings && e in s.extents && e.path == ExtentPath(env, v) && m.extent == e.id
      ensures exists t :: t in s.targets && t.name == v && m.target == t.id
    {
      assert e in OwnExtents(env, v, s);
      assert m in o.mappings;
      assert o.targets[0] in s.targets;
    }
    forall e | e in s.extents && e.path == ExtentPath(env, v)
      ensures exists d :: d in s.datasets && d.name == DatasetName(env, v) && d.kind == Volume
    {
      assert e in o.extents;
      assert o.datasets[0] in s.datasets;
    }
  }

  /** The volume an event is about. */
  function VolumeOf(event: Event): string {
    match event
    case Create(request) => VolumeId(request.name)
    case Delete(v) => v
    case Call(v, _) => v
    case Forget(v) => v
  }

  /** A step for one volume, clean-up included, leaves everything else alone: all objects that are not its own,
      in their order, and so every object of every other volume. */
  lemma NonInterference(env: Env, volumes: set<string>, s0: State, events: seq<Event>, event: Event)
    requires Vacant(env, volumes, s0)
    ensures
      var sys := Exec(env, volumes, System(s0, map[]), events);
      var sys' := Apply(env, volumes, sys, event);
      && Rest(env, VolumeOf(event), sys'.state) == Rest(env, VolumeOf(event), sys.state)
      && forall w | w in volumes && w != VolumeOf(event) ::
           Own(env, w, sys'.state) == Own(env, w, sys.state) && (w in sys.ops <==> w in sys'.ops) &&
           (w in sys.ops ==> sys'.ops[w] == sys.ops[w])
  {
    hide Step, Exec, Own, Rest;
    ReachableInv(env, volumes, s0, events);
    var sys := Exec(env, volumes, System(s0, map[]), events);
    if event.Call? && event.volume in sys.ops {
      CallConfined(env, volumes, sys, event.volume, event.fault);
    }
  }

  lemma CallConfined(env: Env, volumes: set<string>, sys: System, v: string, fault: Fault)
    requires Inv(env, volumes, sys) && v in sys.ops
    ensures
      var sys' := Apply(env, volumes, sys, Call(v, fault));
      && Rest(env, v, sys'.state) == Rest(env, v, sys.state)
      && forall w | w in volumes && w != v :: Own(env, w, sys'.state) == Own(env, w, sys.state)
  {
    CallKeeps(env, volumes, sys, v, fault);
    forall w | w in volumes && w != v
      ensures Own(env, w, Apply(env, volumes, sys, Call(v, fault)).state) == Own(env, w, sys.state)
    {
      OthersUntouched(env, volumes, v, w, sys.state, Apply(env, volumes, sys, Call(v, fault)).state);
    }
  }

  /** Delete never asks for a dataset that is still in use. */
  lemma DeleteNeverBusy(env: Env, volumes: set<string>, s0: State, events: seq<Event>, v: string)
    requires Vacant(env, volumes, s0)
    ensures
      var sys := Exec(env, volumes, System(s0, map[]), events);
      v in sys.ops && sys.ops[v].DropDataset? ==>
        !InUse(sys.state, sys.ops[v].dataset) && DeleteDataset(sys.state, sys.ops[v].dataset, Works).1.Ok?
  {
    ReachableInv(env, volumes, s0, events);
    var sys := Exec(env, volumes, System(s0, map[]), events);
    if v in sys.ops && sys.ops[v].DropDataset? {
      DropNotBusy(env, v, sys.state, sys.ops[v].dataset);
    }
  }

  lemma DropNotBusy(env: Env, v: string, s: State, ds: string)
    requires Ready(env, v, s, DropDataset(ds))
    ensures !InUse(s, ds) && DeleteDataset(s, ds, Works).1.Ok?
  {
    hide Own, IdsOk, InUse, DeleteDataset, Confined, DatasetName;
    OwnDatasetId(env, v, s);
    BusyWhenMapped(env, v, s);
    DatasetDeleted(env, v, s);
  }

  /** The object a create call is about to make does not exist. */
  ghost predicate AsksForNew(env: Env, v: string, s: State, op: Op) {
    match op
    case MakeDataset(_) => forall d | d in s.datasets :: d.name != DatasetName(env, v)
    case MakeExtent(_, _) => forall e | e in s.extents :: e.path != ExtentPath(env, v)
    case MakeInitiator(_, _, _) => forall i | i in s.initiators :: !HasPrefix(i.comment, v)
    case MakeTarget(_, _, _, _) => forall t | t in s.targets :: t.name != v
    case MakeMapping(_, _, ext, _, tgt) => forall m | m in s.mappings :: m.target != tgt && m.extent != ext
    case _ => true
  }

  lemma ReadyAsksForNew(env: Env, v: string, s: State, op: Op)
    requires Ready(env, v, s, op)
    ensures AsksForNew(env, v, s, op)
  {
    hide Keep, First, IdsOk, Touching;
    var o := Own(env, v, s);
    match op {
      case MakeDataset(_) =>
        assert forall d | d in s.datasets && d.name == DatasetName(env, v) :: d in o.datasets;
      case MakeExtent(_, _) =>
        assert forall e | e in s.extents && e.path == ExtentPath(env, v) :: e in o.extents;
      case MakeInitiator(_, _, _) =>
        assert forall i | i in s.initiators && HasPrefix(i.comment, v) :: i in o.initiators;
      case MakeTarget(_, _, _, _) =>
        assert forall t | t in s.targets && t.name == v :: t in o.targets;
      case MakeMapping(_, _, ext, _, tgt) =>
        NothingMapped(env, v, s, tgt, ext);
      case _ =>
    }
  }

  lemma NothingMapped(env: Env, v: string, s: State, tgt: int, ext: int)
    requires HasTarget(Own(env, v, s), tgt) && HasExtent(Own(env, v, s), ext) && Own(env, v, s).mappings == []
    ensures forall m | m in s.mappings :: m.target != tgt && m.extent != ext
  {
    hide Keep, First;
    var o := Own(env, v, s);
    assert o.targets[0] in OwnTargets(v, s) && o.extents[0] in OwnExtents(env, v, s);
    assert forall m | m in s.mappings && (m.target == tgt || m.extent == ext) :: m in o.mappings;
  }

  /** Create never asks for an object the volume already has, so the store need not refuse duplicates. */
  lemma NeverCreatesTwice(env: Env, volumes: set<string>, s0: State, events: seq<Event>, v: string)
    requires Vacant(env, volumes, s0)
    ensures
      var sys := Exec(env, volumes, System(s0, map[]), events);
      v in sys.ops ==> AsksForNew(env, v, sys.state, sys.ops[v])
  {
    ReachableInv(env, volumes, s0, events);
    var sys := Exec(env, volumes, System(s0, map[]), events);
    if v in sys.ops {
      ReadyAsksForNew(env, v, sys.state, sys.ops[v]);
    }
  }

  // The answers

  /** The plan is made from what the store says about itself. */
  ghost predicate PlanOk(env: Env, s: State, plan: Plan) {
    && plan.base == s.basename
    && env.portalId in s.portals && s.portals[env.portalId] != []
    && plan.portalAddress == PortalAddress(s.portals[env.portalId][0])
  }

  ghost predicate AnswerOk(env: Env, v: string, s: State, response: Created) {
    exists plan :: PlanOk(env, s, plan) && response == Respond(plan, v)
  }

  function PlanOf(op: Op): Option<Plan> {
    match op
    case FindDataset(plan) => Some(plan)
    case MakeDataset(plan) => Some(plan)
    case FindExtent(plan, _) => Some(plan)
    case MakeExtent(plan, _) => Some(plan)
    case FindInitiator(plan, _, _) => Some(plan)
    case MakeInitiator(plan, _, _) => Some(plan)
    case FindTarget(plan, _, _, _) => Some(plan)
    case MakeTarget(plan, _, _, _) => Some(plan)
    case FindMapping(plan, _, _, _, _) => Some(plan)
    case MakeMapping(plan, _, _, _, _) => Some(plan)
    case _ => None
  }

  ghost predicate Planned(env: Env, v: string, s: State, op: Op) {
    && (op.ReadPortal? ==> op.base == s.basename)
    && (PlanOf(op).Some? ==> PlanOk(env, s, PlanOf(op).value))
    && (op.Finished? && op.outcome.Provisioned? ==> AnswerOk(env, v, s, op.outcome.response))
  }

  /** A step goes on with the plan it has, drops it, or answers by it. */
  lemma SamePlan(env: Env, v: string, s: State, op: Op, f: Fault)
    requires !op.ReadGlobal? && !op.ReadPortal? && !op.Finished?
    ensures
      var op' := Step(env, v, s, op, f).1;
      && !op'.ReadPortal?
      && (PlanOf(op').Some? ==> PlanOf(op') == PlanOf(op))
      && (op'.Finished? && op'.outcome.Provisioned? ==>
            PlanOf(op).Some? && op'.outcome.response == Respond(PlanOf(op).value, v))
  {
    hide First, Keep, Remove, Respond, CreateDataset, CreateExtent, CreateInitiator, CreateTarget, CreateMapping,
      DeleteDataset, DeleteTarget, DeleteInitiator, DatasetName, ExtentPath;
  }

  lemma StepPlanned(env: Env, v: string, s: State, op: Op, f: Fault)
    requires Planned(env, v, s, op)
    ensures Planned(env, v, s, Step(env, v, s, op, f).1)
  {
    if op.ReadGlobal? || op.ReadPortal? || op.Finished? {
      hide First, Keep;
    } else {
      hide Step, PlanOk, Respond;
      SamePlan(env, v, s, op, f);
    }
  }

  ghost predicate AllPlanned(env: Env, sys: System) {
    forall v | v in sys.ops :: Planned(env, v, sys.state, sys.ops[v])
  }

  lemma StartsPlanned(env: Env, v: string, s: State, request: CreateRequest)
    ensures Planned(env, v, s, StartCreate(request)) && Planned(env, v, s, StartDelete(v))
  {
  }

  lemma ApplyPlanned(env: Env, volumes: set<string>, sys: System, event: Event)
    requires Inv(env, volumes, sys) && AllPlanned(env, sys)
    ensures AllPlanned(env, Apply(env, volumes, sys, event))
  {
    hide Step, PlanOk, Planned, Own, Rest, IdsOk, VolumeOk, OpOk, StartCreate, StartDelete;
    match event {
      case Create(request) => StartsPlanned(env, VolumeId(request.name), sys.state, request);
      case Delete(v) => StartsPlanned(env, v, sys.state, CreateRequest("", [], None));
      case Forget(_) =>
      case Call(v, fault) =>
        if v in sys.ops {
          var sys' := Apply(env, volumes, sys, event);
          CallKeeps(env, volumes, sys, v, fault);
          StepPlanned(env, v, sys.state, sys.ops[v], fault);
          forall w | w in sys'.ops ensures Planned(env, w, sys'.state, sys'.ops[w]) {
            SamePlanned(env, w, sys.state, sys'.state, sys'.ops[w]);
          }
        }
    }
  }

  lemma SamePlanned(env: Env, v: string, s: State, s': State, op: Op)
    requires s'.basename == s.basename && s'.portals == s.portals
    ensures Planned(env, v, s, op) <==> Planned(env, v, s', op)
  {
    assert forall plan :: PlanOk(env, s, plan) <==> PlanOk(env, s', plan);
  }

  lemma {:induction false} ExecPlanned(env: Env, volumes: set<string>, sys: System, events: seq<Event>)
    requires Inv(env, volumes, sys) && AllPlanned(env, sys)
    ensures AllPlanned(env, Exec(env, volumes, sys, events))
    decreases |events|
  {
    if events == [] {
    } else {
      ApplyKeeps(env, volumes, sys, events[0]);
      ApplyPlanned(env, volumes, sys, events[0]);
      ExecPlanned(env, volumes, Apply(env, volumes, sys, events[0]), events[1..]);
    }
  }

  lemma ReachablePlanned(env: Env, volumes: set<string>, s: State, events: seq<Event>)
    requires Vacant(env, volumes, s)
    ensures AllPlanned(env, Exec(env, volumes, System(s, map[]), events))
  {
    ReachableInv(env, volumes, s, []);
    ExecPlanned(env, volumes, System(s, map[]), events);
  }

  /** The response leads to the zvol d of volume v: its IQN names one target, on which unit 0 and nothing
      else is an extent over d. */
  ghost predicate LeadsTo(s: State, response: Created, t: Target, e: Extent, d: Dataset) {
    && response.context.Keys == {"targetPortal", "iqn", "lun", "portals"}
    && t in s.targets && e in s.extents && d in s.datasets && Mapping(t.id, e.id, 0) in s.mappings
    && (forall x | x in s.targets :: s.basename + ":" + x.name == response.context["iqn"] <==> x == t)
    && (forall m | m in s.mappings && m.target == t.id :: m == Mapping(t.id, e.id, 0))
    && response.context["lun"] == "0"
    && (forall x | x in s.extents && x.id == e.id :: x == e)
    && e.path == "zvol/" + d.name
  }

  lemma OwnTargetByIqn(env: Env, v: string, s: State, t: Target)
    requires Own(env, v, s).targets == [t]
    ensures t in s.targets && t.name == v
    ensures forall x | x in s.targets :: Iqn(s.basename, x.name) == Iqn(s.basename, v) <==> x == t
  {
    hide Keep;
    assert t in OwnTargets(v, s);
    assert forall x | x in s.targets && x.name == v :: x in OwnTargets(v, s);
    IqnsDistinct(s.basename, v);
  }

  lemma OwnMappingOnly(env: Env, v: string, s: State, t: Target, e: Extent)
    requires Own(env, v, s).targets == [t] && Own(env, v, s).extents == [e]
    requires Own(env, v, s).mappings == [Mapping(t.id, e.id, 0)]
    ensures Mapping(t.id, e.id, 0) in s.mappings
    ensures forall m | m in s.mappings && m.target == t.id :: m == Mapping(t.id, e.id, 0)
  {
    hide Keep;
    assert t in OwnTargets(v, s);
    assert Own(env, v, s).mappings[0] in s.mappings;
    assert forall m | m in s.mappings && m.target == t.id :: m in Own(env, v, s).mappings;
  }

  lemma OwnZvolUnder(env: Env, v: string, s: State, e: Extent, d: Dataset)
    requires IdsOk(s) && Own(env, v, s).extents == [e] && Own(env, v, s).datasets == [d]
    ensures e in s.extents && d in s.datasets && d.name == DatasetName(env, v) && e.path == ZvolPath(d.name)
    ensures forall x | x in s.extents && x.id == e.id :: x == e
  {
    hide Keep;
    assert e in OwnExtents(env, v, s) && d in Own(env, v, s).datasets;
  }

  lemma AnswerResolves(env: Env, v: string, s: State, response: Created) returns (t: Target, e: Extent, d: Dataset)
    requires IdsOk(s) && VolumeOk(Own(env, v, s)) && Complete(Own(env, v, s)) && AnswerOk(env, v, s, response)
    ensures response.volumeId == v && LeadsTo(s, response, t, e, d)
    ensures d.name == env.storagePath + "/" + v && SizedZvol(d)
  {
    hide Own, IdsOk, SizedZvol;
    var o := Own(env, v, s);
    t, e, d := o.targets[0], o.extents[0], o.datasets[0];
    OwnTargetByIqn(env, v, s, t);
    OwnMappingOnly(env, v, s, t, e);
    OwnZvolUnder(env, v, s, e, d);
  }

  /** What a successful create has left behind, whatever else went on meanwhile: all five objects, and a volume
      context that leads to the volume's own zvol. */
  lemma SuccessResolves(env: Env, volumes: set<string>, s0: State, events: seq<Event>, v: string)
    returns (t: Target, e: Extent, d: Dataset)
    requires Vacant(env, volumes, s0)
    requires v in Exec(env, volumes, System(s0, map[]), events).ops
    requires Exec(env, volumes, System(s0, map[]), events).ops[v].Finished?
    requires Exec(env, volumes, System(s0, map[]), events).ops[v].outcome.Provisioned?
    ensures
      var sys := Exec(env, volumes, System(s0, map[]), events);
      var response := sys.ops[v].outcome.response;
      && Complete(Own(env, v, sys.state))
      && response.volumeId == v && LeadsTo(sys.state, response, t, e, d)
      && d.name == env.storagePath + "/" + v && SizedZvol(d)
  {
    hide Exec, Own, IdsOk, VolumeOk, AnswerOk;
    ReachableInv(env, volumes, s0, events);
    ReachablePlanned(env, volumes, s0, events);
    var sys := Exec(env, volumes, System(s0, map[]), events);
    assert OpOk(env, v, sys.state, sys.ops[v]);
    t, e, d := AnswerResolves(env, v, sys.state, sys.ops[v].outcome.response);
  }

  lemma IqnsDistinct(base: string, v: string)
    ensures forall w :: Iqn(base, w) == Iqn(base, v) ==> w == v
  {
    forall w | Iqn(base, w) == Iqn(base, v) ensures w == v {
      assert Iqn(base, w)[|base| + 1..] == w;
      assert Iqn(base, v)[|base| + 1..] == v;
    }
  }

  /** Without a colon the comment create writes starts with the id of another volume exactly when the id
      of its own volume does; so what separates volumes is that no id is a prefix of another. */
  lemma CommentMatches(v: string, w: string, suffix: string)
    requires ':' !in v && suffix != [] && suffix[0] == ':'
    ensures HasPrefix(w + suffix, v) <==> HasPrefix(w, v)
  {
    if |v| <= |w| {
      assert (w + suffix)[..|v|] == w[..|v|];
    } else {
      assert v[|w|] in v && (w + suffix)[|w|] == suffix[0];
    }
  }
}
