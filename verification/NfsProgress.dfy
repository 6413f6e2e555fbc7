/** NFS creates and deletes whose own calls work reach their end, whatever goes on or goes wrong on other volumes. */
module NfsProgress {
  import opened Lists
  import opened Faults
  import opened Text
  import opened Capacity
  import opened Csi
  import opened NfsMachine
  import opened NfsInvariant
  import opened NfsRuns

  /** The operation on v is not forgotten, and its calls work. Anything may happen to other volumes. */
  ghost predicate Undisturbed(v: string, events: seq<Event>) {
    forall e | e in events :: e != Forget(v) && (e.Call? && e.volume == v ==> e.fault.Works?)
  }

  /** How many calls the operation on v makes. */
  function CallsOf(v: string, events: seq<Event>): nat {
    if events == [] then 0
    else (if events[0].Call? && events[0].volume == v then 1 else 0) + CallsOf(v, events[1..])
  }

  datatype Goal = ToCreate(size: VolumeSize) | ToDelete

  /** The operation is on its way to the goal, or there. It falls back to the older dialect only where it must. */
  predicate OnTrack(env: Env, v: string, s: State, goal: Goal, op: Op) {
    match goal
    case ToDelete => op.LookDataset? || op.DropDataset? || op == Finished(Deleted)
    case ToCreate(size) =>
      match op
      case FindDataset(sz) => sz == size
      case MakeDataset(sz) => sz == size
      case FindShare(sz, _) => sz == size
      case MakeShare(sz, _) => sz == size
      case MakeShareOldWay(sz, _) => sz == size && s.dialect == TakesPaths
      case Finished(outcome) => outcome == Provisioned(Respond(env, v, size, Mountpoint(env, v)))
      case _ => false
  }

  lemma StepOnTrack(env: Env, v: string, s: State, goal: Goal, op: Op)
    requires Good(env, s) && OpOk(env, v, s, op) && OnTrack(env, v, s, goal, op) && !op.Finished?
    ensures OnTrack(env, v, s, goal, Step(env, v, s, op, Works).1)
  {
    hide Keep, First, Rest, Good, Respond;
    FirstOwn(env, v, s);
    if op.DropDataset? {
      DatasetDeleted(env, v, s);
    }
  }

  /** A working call of its own brings the operation nearer to its end, everything else leaves it where it is. */
  lemma ApplyOnTrack(env: Env, sys: System, v: string, goal: Goal, event: Event)
    requires Inv(env, sys) && v in sys.ops && OnTrack(env, v, sys.state, goal, sys.ops[v])
    requires Undisturbed(v, [event])
    ensures
      var sys' := Apply(env, sys, event);
      && v in sys'.ops && OnTrack(env, v, sys'.state, goal, sys'.ops[v])
      && Remaining(sys'.ops[v]) <= Remaining(sys.ops[v])
      && (event.Call? && event.volume == v && !sys.ops[v].Finished? ==>
            Remaining(sys'.ops[v]) < Remaining(sys.ops[v]))
  {
    hide Own, Rest, Good, VolumeOk, Remaining, Step;
    assert event in [event];
    if event.Call? && event.volume in sys.ops {
      var w, op := event.volume, sys.ops[event.volume];
      StepKeeps(env, w, sys.state, op, event.fault);
      if op.Finished? {
        FinishedStays(env, w, sys.state, op, event.fault);
      } else {
        StepShrinks(env, w, sys.state, op, event.fault);
        if w == v {
          StepOnTrack(env, v, sys.state, goal, op);
        }
      }
    }
  }

  lemma FinishedStays(env: Env, v: string, s: State, op: Op, f: Fault)
    ensures op.Finished? ==> Step(env, v, s, op, f) == (s, op)
  {
  }

  lemma {:induction false} ExecOnTrack(env: Env, sys: System, v: string, goal: Goal, events: seq<Event>)
    requires Inv(env, sys) && v in sys.ops && OnTrack(env, v, sys.state, goal, sys.ops[v])
    requires Undisturbed(v, events)
    ensures
      var sys' := Exec(env, sys, events);
      && Inv(env, sys') && v in sys'.ops && OnTrack(env, v, sys'.state, goal, sys'.ops[v])
      && (CallsOf(v, events) >= Remaining(sys.ops[v]) ==> sys'.ops[v].Finished?)
    decreases |events|
  {
    hide Step, OnTrack, Inv, Apply;
    AtEnd(sys.ops[v]);
    if events == [] {
    } else {
      var sys' := Apply(env, sys, events[0]);
      ApplyKeeps(env, sys, events[0]);
      ApplyOnTrack(env, sys, v, goal, events[0]);
      AtEnd(sys'.ops[v]);
      ExecOnTrack(env, sys', v, goal, events[1..]);
    }
  }

  lemma AtEnd(op: Op)
    ensures Remaining(op) == 0 <==> op.Finished?
  {
  }

  lemma OpIsOk(env: Env, sys: System, v: string)
    requires Inv(env, sys) && v in sys.ops
    ensures OpOk(env, v, sys.state, sys.ops[v])
  {
  }

  /** After anything at all, a create that can be served arrives on a volume that is not busy; then anything at all
      happens to other volumes, while the calls of this create work. After five of them at most it has succeeded, with
      the answer for its request, and dataset and share are there. */
  lemma CreateAmidOthers(env: Env, s0: State, before: seq<Event>, request: CreateRequest, during: seq<Event>)
    requires Vacant(env, s0) && Supported(request.capabilities, ACCESS_MODES) && Acceptable(request.range)
    requires VolumeId(request.name) !in Exec(env, System(s0, map[]), before).ops
    requires Undisturbed(VolumeId(request.name), during) && CallsOf(VolumeId(request.name), during) >= 5
    ensures
      var v := VolumeId(request.name);
      var sys := Exec(env, Apply(env, Exec(env, System(s0, map[]), before), Create(request)), during);
      && v in sys.ops
      && sys.ops[v] ==
           Finished(Provisioned(Respond(env, v, ExtractStorage(request.range).value, Mountpoint(env, v))))
      && |Own(env, v, sys.state).datasets| == 1 && |Own(env, v, sys.state).shares| == 1
  {
    hide Own, Inv, Exec, Respond;
    var v := VolumeId(request.name);
    var sys0 := Exec(env, System(s0, map[]), before);
    var started := Apply(env, sys0, Create(request));
    ReachableInv(env, s0, before);
    ApplyKeeps(env, sys0, Create(request));
    ExecOnTrack(env, started, v, ToCreate(ExtractStorage(request.range).value), during);
    OpIsOk(env, Exec(env, started, during), v);
  }

  /** The same for a delete, which is through after at most two calls, and then nothing of the volume is left. */
  lemma DeleteAmidOthers(env: Env, s0: State, before: seq<Event>, v: string, during: seq<Event>)
    requires Vacant(env, s0) && HasPrefix(v, VOLUME_PREFIX)
    requires v !in Exec(env, System(s0, map[]), before).ops
    requires Undisturbed(v, during) && CallsOf(v, during) >= 2
    ensures
      var sys := Exec(env, Apply(env, Exec(env, System(s0, map[]), before), Delete(v)), during);
      v in sys.ops && sys.ops[v] == Finished(Deleted) && Own(env, v, sys.state) == NOTHING
  {
    hide Own, Inv, Exec;
    var sys0 := Exec(env, System(s0, map[]), before);
    var started := Apply(env, sys0, Delete(v));
    ReachableInv(env, s0, before);
    ApplyKeeps(env, sys0, Delete(v));
    ExecOnTrack(env, started, v, ToDelete, during);
    OpIsOk(env, Exec(env, started, during), v);
  }
}
