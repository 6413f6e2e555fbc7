/** Creates and deletes whose own calls work reach their end, whatever goes on or goes wrong on other volumes. */
module IscsiProgress {
  import opened Wrappers
  import opened Lists
  import opened Faults
  import opened Text
  import opened Csi
  import opened IscsiApi
  import opened IscsiMachine
  import opened IscsiInvariant
  import opened IscsiSteps
  import opened IscsiSafety
  import opened IscsiRuns
  import opened IscsiDeletes

  /** The operation on v is not forgotten, and its calls work. Anything may happen to other volumes. */
  ghost predicate Undisturbed(v: string, events: seq<Event>) {
    forall e | e in events :: e != Forget(v) && (e.Call? && e.volume == v ==> e.fault.Works?)
  }

  /** How many calls the operation on v makes. */
  function CallsOf(v: string, events: seq<Event>): nat {
    if events == [] then 0
    else (if events[0].Call? && events[0].volume == v then 1 else 0) + CallsOf(v, events[1..])
  }

  datatype Goal = ToCreate(request: CreateRequest) | ToDelete

  /** The operation is on its way to the goal, or there. */
  predicate OnTrack(env: Env, v: string, s: State, goal: Goal, op: Op) {
    match goal
    case ToDelete => Deleting(op) && op != Finished(Failure(Backend))
    case ToCreate(request) =>
      Servable(env, s, request) &&
      match op
      case ReadGlobal(r) => r == request
      case ReadPortal(r, base) => r == request && base == s.basename
      case Finished(outcome) => outcome == Provisioned(Respond(PlanFor(env, s, request), v))
      case _ => PlanOf(op) == Some(PlanFor(env, s, request))
  }

  /** The calls an operation on its way still makes at most. */
  function CallsLeft(op: Op): nat {
    match op
    case ReadGlobal(_) => 12
    case ReadPortal(_, _) => 11
    case FindDataset(_) => 10
    case MakeDataset(_) => 9
    case FindExtent(_, _) => 8
    case MakeExtent(_, _) => 7
    case FindInitiator(_, _, _) => 6
    case MakeInitiator(_, _, _) => 5
    case FindTarget(_, _, _, _) => 4
    case MakeTarget(_, _, _, _) => 3
    case FindMapping(_, _, _, _, _) => 2
    case MakeMapping(_, _, _, _, _) => 1
    case Undo(todo, _) => |todo|
    case LookTarget => 6
    case DropTarget(_) => 5
    case LookDataset => 4
    case DropDataset(_) => 3
    case LookInitiator => 2
    case DropInitiator(_) => 1
    case Finished(_) => 0
  }

  lemma CallsShrink(env: Env, v: string, s: State, op: Op)
    requires !op.Finished? && !op.Undo?
    ensures var op' := Step(env, v, s, op, Works).1; op'.Undo? || CallsLeft(op') < CallsLeft(op)
  {
    hide First, Keep, Remove, GetPortal, CreateDataset, CreateExtent, CreateInitiator, CreateTarget, CreateMapping,
      DeleteDataset, DeleteTarget, DeleteInitiator;
  }

  lemma NotUndoing(env: Env, v: string, s: State, goal: Goal, op: Op)
    requires OnTrack(env, v, s, goal, op)
    ensures !op.Undo?
  {
  }

  lemma SameOnTrack(env: Env, v: string, s: State, s': State, goal: Goal, op: Op)
    requires OnTrack(env, v, s, goal, op) && s'.basename == s.basename && s'.portals == s.portals
    ensures OnTrack(env, v, s', goal, op)
  {
  }

  // One working call

  lemma ReadOnTrack(env: Env, v: string, s: State, request: CreateRequest, op: Op)
    requires OnTrack(env, v, s, ToCreate(request), op) && (op.ReadGlobal? || op.ReadPortal?)
    ensures OnTrack(env, v, s, ToCreate(request), Step(env, v, s, op, Works).1)
  {
  }

  lemma LookOnTrack(env: Env, v: string, s: State, op: Op)
    requires Ready(env, v, s, op)
    requires op.FindDataset? || op.FindExtent? || op.FindInitiator? || op.FindTarget? || op.FindMapping?
    ensures
      var op' := Step(env, v, s, op, Works).1;
      PlanOf(op') == PlanOf(op) || op' == Finished(Provisioned(Respond(PlanOf(op).value, v)))
  {
    hide Step, Own, IdsOk, VolumeOk, Respond, ExtentPath;
    match op {
      case FindDataset(_) => FindDatasetStep(env, v, s, op);
      case FindExtent(_, _) => FindExtentStep(env, v, s, op);
      case FindInitiator(_, _, _) => FindInitiatorStep(env, v, s, op);
      case FindTarget(_, _, _, _) => FindTargetStep(env, v, s, op);
      case FindMapping(_, _, _, _, _) => FindMappingStep(env, v, s, op);
    }
  }

  lemma MakeOnTrack(env: Env, v: string, s: State, op: Op)
    requires Ready(env, v, s, op)
    requires op.MakeDataset? || op.MakeExtent? || op.MakeInitiator? || op.MakeTarget? || op.MakeMapping?
    ensures
      var op' := Step(env, v, s, op, Works).1;
      PlanOf(op') == PlanOf(op) || op' == Finished(Provisioned(Respond(PlanOf(op).value, v)))
  {
    hide Step, Own, IdsOk, VolumeOk, Respond, ExtentPath;
    match op {
      case MakeDataset(_) => MakeDatasetStep(env, v, s, op);
      case MakeExtent(_, _) => MakeExtentStep(env, v, s, op);
      case MakeInitiator(_, _, _) => MakeInitiatorStep(env, v, s, op);
      case MakeTarget(_, _, _, _) => MakeTargetStep(env, v, s, op);
      case MakeMapping(_, _, _, _, _) => MakeMappingStep(env, v, s, op);
    }
  }

  lemma StepOnTrack(env: Env, v: string, s: State, goal: Goal, op: Op)
    requires Ready(env, v, s, op) && OnTrack(env, v, s, goal, op) && !op.Finished?
    ensures OnTrack(env, v, s, goal, Step(env, v, s, op, Works).1)
  {
    hide Step, Own, IdsOk, VolumeOk, Respond, PlanFor, Servable;
    if goal.ToDelete? {
      DeleteGoesOn(env, v, s, op);
    } else if op.ReadGlobal? || op.ReadPortal? {
      ReadOnTrack(env, v, s, goal.request, op);
    } else if op.FindDataset? || op.FindExtent? || op.FindInitiator? || op.FindTarget? || op.FindMapping? {
      LookOnTrack(env, v, s, op);
    } else {
      MakeOnTrack(env, v, s, op);
    }
  }

  // Any event

  /** A working call of its own brings the operation nearer to its end, everything else leaves it where it is. */
  lemma ApplyOnTrack(env: Env, volumes: set<string>, sys: System, v: string, goal: Goal, event: Event)
    requires Inv(env, volumes, sys) && v in sys.ops && OnTrack(env, v, sys.state, goal, sys.ops[v])
    requires Undisturbed(v, [event])
    ensures
      var sys' := Apply(env, volumes, sys, event);
      && v in sys'.ops && OnTrack(env, v, sys'.state, goal, sys'.ops[v])
      && (sys.ops[v].Finished? ==> sys'.ops[v] == sys.ops[v])
      && CallsLeft(sys'.ops[v]) <= CallsLeft(sys.ops[v])
      && (event.Call? && event.volume == v && !sys.ops[v].Finished? ==>
            CallsLeft(sys'.ops[v]) < CallsLeft(sys.ops[v]))
  {
    hide Step, Own, Rest, IdsOk, VolumeOk, OnTrack, CallsLeft;
    assert event in [event];
    var sys' := Apply(env, volumes, sys, event);
    if event.Call? && event.volume in sys.ops {
      CallKeeps(env, volumes, sys, event.volume, event.fault);
      if event.volume == v && !sys.ops[v].Finished? {
        StepOnTrack(env, v, sys.state, goal, sys.ops[v]);
        NotUndoing(env, v, sys.state, goal, sys.ops[v]);
        NotUndoing(env, v, sys.state, goal, sys'.ops[v]);
        CallsShrink(env, v, sys.state, sys.ops[v]);
        SameOnTrack(env, v, sys.state, sys'.state, goal, sys'.ops[v]);
      } else {
        FinishedStays(env, event.volume, sys.state, sys.ops[event.volume], event.fault);
        SameOnTrack(env, v, sys.state, sys'.state, goal, sys.ops[v]);
      }
    }
  }

  lemma FinishedStays(env: Env, v: string, s: State, op: Op, f: Fault)
    ensures op.Finished? ==> Step(env, v, s, op, f) == (s, op)
  {
  }

  lemma {:induction false} ExecOnTrack(env: Env, volumes: set<string>, sys: System, v: string, goal: Goal,
                                       events: seq<Event>)
    requires Inv(env, volumes, sys) && v in sys.ops && OnTrack(env, v, sys.state, goal, sys.ops[v])
    requires Undisturbed(v, events)
    ensures
      var sys' := Exec(env, volumes, sys, events);
      && Inv(env, volumes, sys') && v in sys'.ops && OnTrack(env, v, sys'.state, goal, sys'.ops[v])
      && (CallsOf(v, events) >= CallsLeft(sys.ops[v]) ==> sys'.ops[v].Finished?)
    decreases |events|
  {
    hide Step, OnTrack, Inv, Apply;
    if events == [] {
      AtEnd(env, v, sys.state, goal, sys.ops[v]);
    } else {
      var sys' := Apply(env, volumes, sys, events[0]);
      ApplyKeeps(env, volumes, sys, events[0]);
      ApplyOnTrack(env, volumes, sys, v, goal, events[0]);
      ExecOnTrack(env, volumes, sys', v, goal, events[1..]);
      if sys'.ops[v].Finished? {
        FinishedForGood(env, volumes, sys', v, goal, events[1..]);
      }
    }
  }

  lemma {:induction false} FinishedForGood(env: Env, volumes: set<string>, sys: System, v: string, goal: Goal,
                                           events: seq<Event>)
    requires Inv(env, volumes, sys) && v in sys.ops && OnTrack(env, v, sys.state, goal, sys.ops[v])
    requires Undisturbed(v, events) && sys.ops[v].Finished?
    ensures v in Exec(env, volumes, sys, events).ops && Exec(env, volumes, sys, events).ops[v] == sys.ops[v]
    decreases |events|
  {
    hide Step, OnTrack, Inv, Apply;
    if events == [] {
    } else {
      ApplyKeeps(env, volumes, sys, events[0]);
      ApplyOnTrack(env, volumes, sys, v, goal, events[0]);
      FinishedForGood(env, volumes, Apply(env, volumes, sys, events[0]), v, goal, events[1..]);
    }
  }

  lemma AtEnd(env: Env, v: string, s: State, goal: Goal, op: Op)
    requires OnTrack(env, v, s, goal, op)
    ensures CallsLeft(op) == 0 <==> op.Finished?
  {
  }

  /** The store's settings stay what they are. */
  lemma {:induction false} SettingsStay(env: Env, volumes: set<string>, sys: System, events: seq<Event>)
    requires Inv(env, volumes, sys)
    ensures
      var s := Exec(env, volumes, sys, events).state;
      s.basename == sys.state.basename && s.portals == sys.state.portals
    decreases |events|
  {
    hide Step, Inv, Rest;
    if events == [] {
    } else {
      ApplyKeeps(env, volumes, sys, events[0]);
      if events[0].Call? && events[0].volume in sys.ops {
        CallKeeps(env, volumes, sys, events[0].volume, events[0].fault);
      }
      SettingsStay(env, volumes, Apply(env, volumes, sys, events[0]), events[1..]);
    }
  }

  // Create and delete amid others

  /** After anything at all, a create arrives on a volume that is not busy; then anything at all happens to other
      volumes, while the calls of this create work. Once it has made twelve of them it has succeeded, if not
      before, with the answer for its request, and the volume is complete. */
  lemma CreateAmidOthers(env: Env, volumes: set<string>, s0: State, before: seq<Event>, request: CreateRequest,
                         during: seq<Event>)
    requires Vacant(env, volumes, s0) && VolumeId(request.name) in volumes && Servable(env, s0, request)
    requires VolumeId(request.name) !in Exec(env, volumes, System(s0, map[]), before).ops
    requires Undisturbed(VolumeId(request.name), during) && CallsOf(VolumeId(request.name), during) >= 12
    ensures
      var v := VolumeId(request.name);
      var started := Apply(env, volumes, Exec(env, volumes, System(s0, map[]), before), Create(request));
      var sys := Exec(env, volumes, started, during);
      && v in sys.ops && sys.ops[v] == Finished(Provisioned(Respond(PlanFor(env, s0, request), v)))
      && Complete(Own(env, v, sys.state))
  {
    hide Step, Own, Inv, Exec, IdsOk, VolumeOk, Respond, Complete;
    var v := VolumeId(request.name);
    var sys0 := Exec(env, volumes, System(s0, map[]), before);
    var started := Apply(env, volumes, sys0, Create(request));
    ReachableInv(env, volumes, s0, []);
    ReachableInv(env, volumes, s0, before);
    EmptyExec(env, volumes, System(s0, map[]));
    SettingsStay(env, volumes, System(s0, map[]), before);
    ApplyKeeps(env, volumes, sys0, Create(request));
    SettingsStay(env, volumes, started, during);
    ExecOnTrack(env, volumes, started, v, ToCreate(request), during);
    OpIsOk(env, volumes, Exec(env, volumes, started, during), v);
  }

  lemma EmptyExec(env: Env, volumes: set<string>, sys: System)
    ensures Exec(env, volumes, sys, []) == sys
  {
  }

  lemma OpIsOk(env: Env, volumes: set<string>, sys: System, v: string)
    requires Inv(env, volumes, sys) && v in sys.ops
    ensures OpOk(env, v, sys.state, sys.ops[v])
  {
  }

  /** The same for a delete, which is through after at most six calls, and then nothing of the volume is left. */
  lemma DeleteAmidOthers(env: Env, volumes: set<string>, s0: State, before: seq<Event>, v: string, during: seq<Event>)
    requires Vacant(env, volumes, s0) && v in volumes && HasPrefix(v, VOLUME_PREFIX)
    requires v !in Exec(env, volumes, System(s0, map[]), before).ops
    requires Undisturbed(v, during) && CallsOf(v, during) >= 6
    ensures
      var started := Apply(env, volumes, Exec(env, volumes, System(s0, map[]), before), Delete(v));
      var sys := Exec(env, volumes, started, during);
      v in sys.ops && sys.ops[v] == Finished(Deleted) && Own(env, v, sys.state) == NOTHING
  {
    hide Step, Own, Inv, Exec;
    var sys0 := Exec(env, volumes, System(s0, map[]), before);
    var started := Apply(env, volumes, sys0, Delete(v));
    ReachableInv(env, volumes, s0, before);
    ApplyKeeps(env, volumes, sys0, Delete(v));
    ExecOnTrack(env, volumes, started, v, ToDelete, during);
    OpIsOk(env, volumes, Exec(env, volumes, started, during), v);
  }
}
