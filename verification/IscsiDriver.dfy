/** The iSCSI driver's controller calls, as they change the store step by step. */
module IscsiDriver {
  import opened Wrappers
  import opened Lists
  import opened Text
  import opened Faults
  import opened Decimal
  import opened Capacity
  import opened Csi
  import opened IscsiApi
  import opened IscsiMachine
  import opened IscsiInvariant
  import opened IscsiRuns
  import opened IscsiAnswers
  import opened IscsiListing
  import opened IscsiStore
  import Listing = IscsiListing

  // One step of a run, point by point

  lemma AtDataset(env: Env, v: string, s: State, plan: Plan, f: Fault)
    ensures Step(env, v, s, Op.FindDataset(plan), f) ==
      (s,
       if !f.Works? then Abort(Op.FindDataset(plan), Internal)
       else match First(s.datasets, VolumeNamed(DatasetName(env, v)))
            case Some(found) => Op.FindExtent(plan, found.id)
            case None => Op.MakeDataset(plan))
    ensures Step(env, v, s, Op.MakeDataset(plan), f) ==
      var (s', r) := CreateDataset(s, DatasetName(env, v), plan.size, f);
      (s', if r.Ok? then Op.FindExtent(plan, r.value.id) else Abort(Op.FindDataset(plan), Backend))
  {
  }

  lemma AtExtent(env: Env, v: string, s: State, plan: Plan, ds: string, f: Fault)
    ensures Step(env, v, s, Op.FindExtent(plan, ds), f) ==
      (s,
       if !f.Works? then Abort(Op.FindExtent(plan, ds), Internal)
       else match First(s.extents, ExtentAt(ExtentPath(env, v)))
            case Some(found) => Op.FindInitiator(plan, ds, found.id)
            case None => Op.MakeExtent(plan, ds))
    ensures Step(env, v, s, Op.MakeExtent(plan, ds), f) ==
      var (s', r) := CreateExtent(s, v, v + COMMENT_EXTENT, ExtentPath(env, v), f);
      (s', if r.Ok? then Op.FindInitiator(plan, ds, r.value.id) else Abort(Op.FindExtent(plan, ds), Backend))
  {
  }

  lemma AtInitiator(env: Env, v: string, s: State, plan: Plan, ds: string, ext: int, f: Fault)
    ensures Step(env, v, s, Op.FindInitiator(plan, ds, ext), f) ==
      (s,
       if !f.Works? then Abort(Op.FindInitiator(plan, ds, ext), Internal)
       else match First(s.initiators, CommentStarts(v))
            case Some(found) => Op.FindTarget(plan, ds, ext, found.id)
            case None => Op.MakeInitiator(plan, ds, ext))
    ensures Step(env, v, s, Op.MakeInitiator(plan, ds, ext), f) ==
      var (s', r) := CreateInitiator(s, v + COMMENT_INITIATOR, f);
      (s', if r.Ok? then Op.FindTarget(plan, ds, ext, r.value.id) else Abort(Op.FindInitiator(plan, ds, ext), Backend))
  {
  }

  lemma AtTarget(env: Env, v: string, s: State, plan: Plan, ds: string, ext: int, ini: int, f: Fault)
    ensures Step(env, v, s, Op.FindTarget(plan, ds, ext, ini), f) ==
      (s,
       if !f.Works? then Abort(Op.FindTarget(plan, ds, ext, ini), Internal)
       else match First(s.targets, TargetNamed(v))
            case Some(found) => Op.FindMapping(plan, ds, ext, ini, found.id)
            case None => Op.MakeTarget(plan, ds, ext, ini))
    ensures Step(env, v, s, Op.MakeTarget(plan, ds, ext, ini), f) ==
      var (s', r) := CreateTarget(s, v, v + COMMENT_INITIATOR, env.portalId, ini, f);
      (s', if r.Ok? then Op.FindMapping(plan, ds, ext, ini, r.value.id)
           else Abort(Op.FindTarget(plan, ds, ext, ini), Backend))
  {
  }

  lemma AtMapping(env: Env, v: string, s: State, plan: Plan, ds: string, ext: int, ini: int, tgt: int, f: Fault)
    ensures Step(env, v, s, Op.FindMapping(plan, ds, ext, ini, tgt), f) ==
      (s,
       if !f.Works? then Abort(Op.FindMapping(plan, ds, ext, ini, tgt), Internal)
       else match First(s.mappings, Joining(tgt, ext))
            case Some(_) => Finished(Provisioned(Respond(plan, v)))
            case None => Op.MakeMapping(plan, ds, ext, ini, tgt))
    ensures Step(env, v, s, Op.MakeMapping(plan, ds, ext, ini, tgt), f) ==
      var (s', r) := CreateMapping(s, tgt, ext, f);
      (s', if r.Ok? then Finished(Provisioned(Respond(plan, v)))
           else Abort(Op.FindMapping(plan, ds, ext, ini, tgt), Backend))
  {
  }

  lemma AtRead(env: Env, v: string, s: State, request: CreateRequest, base: string, f: Fault)
    ensures Step(env, v, s, ReadGlobal(request), f) ==
      (s, if f.Works? then ReadPortal(request, s.basename) else Finished(Failure(Internal)))
    ensures Step(env, v, s, ReadPortal(request, base), f) == (s, PlanCreate(env, s, request, base, f))
  {
  }

  lemma AtUndo(env: Env, v: string, s: State, todo: seq<Removal>, status: Status, f: Fault)
    requires todo != []
    ensures Step(env, v, s, Undo(todo, status), f) == (Remove(s, todo[0], f), Unwind(todo[1..], status))
  {
  }

  lemma AtDelete(env: Env, v: string, s: State, id: int, ds: string, f: Fault)
    ensures Step(env, v, s, LookTarget, f) ==
      (s, if !f.Works? then Finished(Failure(Backend))
          else match First(s.targets, TargetNamed(v)) case Some(t) => DropTarget(t.id) case None => LookDataset)
    ensures Step(env, v, s, DropTarget(id), f) ==
      var (s', r) := DeleteTarget(s, id, f); (s', if r.Ok? then LookDataset else Finished(Failure(Backend)))
    ensures Step(env, v, s, LookDataset, f) ==
      (s, if !f.Works? then Finished(Failure(Backend))
          else match First(s.datasets, DatasetNamed(DatasetName(env, v)))
               case Some(d) => DropDataset(d.id) case None => LookInitiator)
    ensures Step(env, v, s, DropDataset(ds), f) ==
      var (s', r) := DeleteDataset(s, ds, f); (s', if r.Ok? then LookInitiator else Finished(Failure(Backend)))
    ensures Step(env, v, s, LookInitiator, f) ==
      (s, if !f.Works? then Finished(Failure(Backend))
          else match First(s.initiators, CommentStarts(v))
               case Some(i) => DropInitiator(i.id) case None => Finished(Deleted))
    ensures Step(env, v, s, DropInitiator(id), f) ==
      var (s', r) := DeleteInitiator(s, id, f); (s', if r.Ok? then Finished(Deleted) else Finished(Failure(Backend)))
  {
    hide First, Remove, PlanCreate, DeleteTarget, DeleteDataset, DeleteInitiator, StepMakeDataset, StepMakeExtent,
      StepMakeInitiator, StepMakeTarget, StepMakeMapping, DatasetName, Cleanup;
  }

  class Driver {
    const env: Env
    const store: Store

    constructor (env: Env, store: Store)
      ensures this.env == env && this.store == store
    {
      this.env := env;
      this.store := store;
    }

    /** What is still to come when the operation on v has got to op. */
    ghost function ToGo(v: string, op: Op): (State, Op, Faults)
      reads store
    {
      Run(env, v, store.Snapshot(), op, store.faults)
    }

    method EnsureDataset(v: string, plan: Plan) returns (r: Result<string, Status>)
      modifies store
      ensures old(ToGo(v, Op.FindDataset(plan))) ==
        ToGo(v, if r.Ok? then Op.FindExtent(plan, r.value) else Abort(Op.FindDataset(plan), r.error))
    {
      hide Run, Step;
      ghost var s, faults := store.Snapshot(), store.faults;
      OneStep(env, v, s, Op.FindDataset(plan), faults);
      AtDataset(env, v, s, plan, Next(faults));
      var listed := store.ListDatasets();
      if listed.Err? {
        return Err(Internal);
      }
      var existing := FindFirst(listed.value, VolumeNamed(DatasetName(env, v)));
      if existing.Some? {
        return Ok(existing.value.id);
      }
      OneStep(env, v, s, Op.MakeDataset(plan), Later(faults));
      AtDataset(env, v, s, plan, Next(Later(faults)));
      var made := store.CreateDataset(DatasetName(env, v), plan.size);
      if made.Err? {
        return Err(Backend);
      }
      r := Ok(made.value.id);
    }

    method EnsureExtent(v: string, plan: Plan, ds: string) returns (r: Result<int, Status>)
      modifies store
      ensures old(ToGo(v, Op.FindExtent(plan, ds))) ==
        ToGo(v, if r.Ok? then Op.FindInitiator(plan, ds, r.value) else Abort(Op.FindExtent(plan, ds), r.error))
    {
      hide Run, Step;
      ghost var s, faults := store.Snapshot(), store.faults;
      OneStep(env, v, s, Op.FindExtent(plan, ds), faults);
      AtExtent(env, v, s, plan, ds, Next(faults));
      var listed := store.ListExtents();
      if listed.Err? {
        return Err(Internal);
      }
      var existing := FindFirst(listed.value, ExtentAt(ExtentPath(env, v)));
      if existing.Some? {
        return Ok(existing.value.id);
      }
      OneStep(env, v, s, Op.MakeExtent(plan, ds), Later(faults));
      AtExtent(env, v, s, plan, ds, Next(Later(faults)));
      var made := store.CreateExtent(v, v + COMMENT_EXTENT, ExtentPath(env, v));
      if made.Err? {
        return Err(Backend);
      }
      r := Ok(made.value.id);
    }

    method EnsureInitiator(v: string, plan: Plan, ds: string, ext: int) returns (r: Result<int, Status>)
      modifies store
      ensures old(ToGo(v, Op.FindInitiator(plan, ds, ext))) ==
        ToGo(v, if r.Ok? then Op.FindTarget(plan, ds, ext, r.value)
                else Abort(Op.FindInitiator(plan, ds, ext), r.error))
    {
      hide Run, Step;
      ghost var s, faults := store.Snapshot(), store.faults;
      OneStep(env, v, s, Op.FindInitiator(plan, ds, ext), faults);
      AtInitiator(env, v, s, plan, ds, ext, Next(faults));
      var listed := store.ListInitiators();
      if listed.Err? {
        return Err(Internal);
      }
      var existing := FindFirst(listed.value, CommentStarts(v));
      if existing.Some? {
        return Ok(existing.value.id);
      }
      OneStep(env, v, s, Op.MakeInitiator(plan, ds, ext), Later(faults));
      AtInitiator(env, v, s, plan, ds, ext, Next(Later(faults)));
      var made := store.CreateInitiator(v + COMMENT_INITIATOR);
      if made.Err? {
        return Err(Backend);
      }
      r := Ok(made.value.id);
    }

    method EnsureTarget(v: string, plan: Plan, ds: string, ext: int, ini: int) returns (r: Result<int, Status>)
      modifies store
      ensures old(ToGo(v, Op.FindTarget(plan, ds, ext, ini))) ==
        ToGo(v, if r.Ok? then Op.FindMapping(plan, ds, ext, ini, r.value)
                else Abort(Op.FindTarget(plan, ds, ext, ini), r.error))
    {
      hide Run, Step;
      ghost var s, faults := store.Snapshot(), store.faults;
      OneStep(env, v, s, Op.FindTarget(plan, ds, ext, ini), faults);
      AtTarget(env, v, s, plan, ds, ext, ini, Next(faults));
      var listed := store.ListTargets();
      if listed.Err? {
        return Err(Internal);
      }
      var existing := FindFirst(listed.value, TargetNamed(v));
      if existing.Some? {
        return Ok(existing.value.id);
      }
      OneStep(env, v, s, Op.MakeTarget(plan, ds, ext, ini), Later(faults));
      AtTarget(env, v, s, plan, ds, ext, ini, Next(Later(faults)));
      var made := store.CreateTarget(v, v + COMMENT_INITIATOR, env.portalId, ini);
      if made.Err? {
        return Err(Backend);
      }
      r := Ok(made.value.id);
    }

    method EnsureMapping(v: string, plan: Plan, ds: string, ext: int, ini: int, tgt: int)
      returns (r: Result<(), Status>)
      modifies store
      ensures old(ToGo(v, Op.FindMapping(plan, ds, ext, ini, tgt))) ==
        ToGo(v, if r.Ok? then Finished(Provisioned(Respond(plan, v)))
                else Abort(Op.FindMapping(plan, ds, ext, ini, tgt), r.error))
    {
      hide Run, Step;
      ghost var s, faults := store.Snapshot(), store.faults;
      OneStep(env, v, s, Op.FindMapping(plan, ds, ext, ini, tgt), faults);
      AtMapping(env, v, s, plan, ds, ext, ini, tgt, Next(faults));
      var listed := store.ListMappings();
      if listed.Err? {
        return Err(Internal);
      }
      var existing := FindFirst(listed.value, Joining(tgt, ext));
      if existing.Some? {
        return Ok(());
      }
      OneStep(env, v, s, Op.MakeMapping(plan, ds, ext, ini, tgt), Later(faults));
      AtMapping(env, v, s, plan, ds, ext, ini, tgt, Next(Later(faults)));
      var made := store.CreateMapping(tgt, ext);
      if made.Err? {
        return Err(Backend);
      }
      r := Ok(());
    }

    /** Runs the clean-up calls that have been gathered; what they reply is only logged. */
    method CleanUp(v: string, cleanup: seq<Removal>, ghost status: Status)
      modifies store
      ensures old(ToGo(v, Unwind(cleanup, status))) == (store.Snapshot(), Finished(Failure(status)), store.faults)
    {
      hide Run, Step, Remove;
      for i := 0 to |cleanup|
        invariant old(ToGo(v, Unwind(cleanup, status))) == ToGo(v, Unwind(cleanup[i..], status))
      {
        OneStep(env, v, store.Snapshot(), Undo(cleanup[i..], status), store.faults);
        AtUndo(env, v, store.Snapshot(), cleanup[i..], status, Next(store.faults));
        assert cleanup[i..][1..] == cleanup[i + 1..];
        RemoveOne(cleanup[i]);
      }
      RunEnds(env, v, store.Snapshot(), Failure(status), store.faults);
    }

    method RemoveOne(removal: Removal)
      modifies store
      ensures store.Snapshot() == Remove(old(store.Snapshot()), removal, Next(old(store.faults)))
      ensures store.faults == Later(old(store.faults))
    {
      match removal {
        case RemoveDataset(name) => var _ := store.DeleteDataset(name);
        case RemoveExtent(extent) => var _ := store.DeleteExtent(extent);
        case RemoveInitiator(initiator) => var _ := store.DeleteInitiator(initiator);
        case RemoveTarget(target) => var _ := store.DeleteTarget(target);
      }
    }

    /** Works out what to create, before anything is created. */
    method MakePlan(v: string, request: CreateRequest) returns (r: Result<Plan, Status>)
      modifies store
      ensures store.Snapshot() == old(store.Snapshot())
      ensures old(ToGo(v, StartCreate(request))) ==
        ToGo(v, if r.Ok? then Op.FindDataset(r.value) else Finished(Failure(r.error)))
    {
      hide Run, Step;
      var supported := CheckCapabilities(request.capabilities, ACCESS_MODES);
      if !supported {
        return Err(InvalidArgument);
      }
      ghost var s, faults := store.Snapshot(), store.faults;
      OneStep(env, v, s, ReadGlobal(request), faults);
      AtRead(env, v, s, request, s.basename, Next(faults));
      var global := store.GetGlobalConfiguration();
      if global.Err? {
        return Err(Internal);
      }
      OneStep(env, v, s, ReadPortal(request, s.basename), Later(faults));
      AtRead(env, v, s, request, s.basename, Next(Later(faults)));
      var listen := store.GetPortal(env.portalId);
      if listen.Err? || |listen.value| == 0 {
        return Err(Internal);
      }
      var size := ExtractStorage(request.range);
      if size.Err? {
        return Err(OutOfRange);
      }
      r := Ok(Plan(global.value, PortalAddress(listen.value[0]), size.value));
    }

    /** Create one volume: find or make each object in turn, and on failure clean up after the stages passed.
        The outcome is that of the step machine run with the same faults, so whatever is proved of its runs
        holds here. */
    method CreateVolume(request: CreateRequest) returns (r: Result<Created, Status>)
      modifies store
      ensures
        (store.Snapshot(), Finished(if r.Ok? then Provisioned(r.value) else Failure(r.error)), store.faults) ==
        Run(env, VolumeId(request.name), old(store.Snapshot()), StartCreate(request), old(store.faults))
      ensures
        var v := VolumeId(request.name);
        old(InOrder(env, v, store.Snapshot())) ==>
          && OwnChange(env, v, old(store.Snapshot()), store.Snapshot())
          && (r.Ok? ==> Complete(Own(env, v, store.Snapshot())))
      ensures r.Ok? ==>
        && ModesServed(request) && AnswerReads(env, "iscsi-" + request.name, store.Snapshot(), r.value)
        && ExtractStorage(request.range) == Result<Int64, SizeError>.Ok(r.value.capacity)
      ensures !ModesServed(request) ==> r == Err(InvalidArgument) && store.Snapshot() == old(store.Snapshot())
    {
      hide Run, Step, Own, InOrder, OwnChange, Complete, AnswerReads, ModesServed, ExtractStorage;
      var v := VolumeId(request.name);
      KeptByRun(env, v, store.Snapshot(), StartCreate(request), store.faults);
      SuccessReads(env, v, store.Snapshot(), request, store.faults);
      ModesRefused(env, v, store.Snapshot(), request, store.faults);
      var plan := MakePlan(v, request);
      if plan.Err? {
        RunEnds(env, v, store.Snapshot(), Failure(plan.error), store.faults);
        return Err(plan.error);
      }
      r := MakeObjects(v, plan.value);
    }

    /** The five stages. A failing one is followed by the clean-up of the stages passed. */
    method MakeObjects(v: string, plan: Plan) returns (r: Result<Created, Status>)
      modifies store
      ensures
        (store.Snapshot(), Finished(if r.Ok? then Provisioned(r.value) else Failure(r.error)), store.faults) ==
        old(ToGo(v, Op.FindDataset(plan)))
    {
      hide Run, Step;
      ghost var goal := ToGo(v, Op.FindDataset(plan));
      var cleanup := [];
      var ds := EnsureDataset(v, plan);
      if ds.Err? {
        CleanUp(v, cleanup, ds.error);
        return Err(ds.error);
      }
      cleanup := [RemoveDataset(ds.value)];
      assert goal == ToGo(v, Op.FindExtent(plan, ds.value));
      var ext := EnsureExtent(v, plan, ds.value);
      if ext.Err? {
        CleanUp(v, cleanup, ext.error);
        return Err(ext.error);
      }
      cleanup := cleanup + [RemoveExtent(ext.value)];
      assert cleanup == Cleanup(Op.FindInitiator(plan, ds.value, ext.value));
      assert goal == ToGo(v, Op.FindInitiator(plan, ds.value, ext.value));
      var ini := EnsureInitiator(v, plan, ds.value, ext.value);
      if ini.Err? {
        CleanUp(v, cleanup, ini.error);
        return Err(ini.error);
      }
      cleanup := cleanup + [RemoveInitiator(ini.value)];
      assert cleanup == Cleanup(Op.FindTarget(plan, ds.value, ext.value, ini.value));
      assert goal == ToGo(v, Op.FindTarget(plan, ds.value, ext.value, ini.value));
      var tgt := EnsureTarget(v, plan, ds.value, ext.value, ini.value);
      if tgt.Err? {
        CleanUp(v, cleanup, tgt.error);
        return Err(tgt.error);
      }
      cleanup := cleanup + [RemoveTarget(tgt.value)];
      assert cleanup == Cleanup(Op.FindMapping(plan, ds.value, ext.value, ini.value, tgt.value));
      assert goal == ToGo(v, Op.FindMapping(plan, ds.value, ext.value, ini.value, tgt.value));
      var mapped := EnsureMapping(v, plan, ds.value, ext.value, ini.value, tgt.value);
      if mapped.Err? {
        CleanUp(v, cleanup, mapped.error);
        return Err(mapped.error);
      }
      RunEnds(env, v, store.Snapshot(), Provisioned(Respond(plan, v)), store.faults);
      r := Ok(Respond(plan, v));
    }

    /** Delete one volume: the target first, then the dataset with its extent, then the initiator. */
    method DeleteVolume(v: string) returns (r: Result<(), Status>)
      modifies store
      ensures
        (store.Snapshot(), Finished(if r.Ok? then Deleted else Failure(r.error)), store.faults) ==
        Run(env, v, old(store.Snapshot()), StartDelete(v), old(store.faults))
      ensures
        old(InOrder(env, v, store.Snapshot())) ==>
          && OwnChange(env, v, old(store.Snapshot()), store.Snapshot())
          && (r.Ok? ==> Own(env, v, store.Snapshot()) == NOTHING)
      ensures
        if "iscsi-" <= v then r.Err? ==> r.error == Backend
        else r == Err(Status.NotFound) && store.Snapshot() == old(store.Snapshot())
    {
      hide Run, Step, Own, InOrder, OwnChange;
      KeptByRun(env, v, store.Snapshot(), StartDelete(v), store.faults);
      if !HasPrefix(v, VOLUME_PREFIX) {
        RunEnds(env, v, store.Snapshot(), Failure(Status.NotFound), store.faults);
        return Err(Status.NotFound);
      }
      r := DropTheTarget(v);
      if r.Ok? {
        r := DropTheDataset(v);
        if r.Ok? {
          r := DropTheInitiator(v);
        }
      }
      RunEnds(env, v, store.Snapshot(), if r.Ok? then Deleted else Failure(Backend), store.faults);
    }

    method DropTheTarget(v: string) returns (r: Result<(), Status>)
      modifies store
      ensures old(ToGo(v, LookTarget)) == ToGo(v, if r.Ok? then LookDataset else Finished(Failure(Backend)))
      ensures r.Err? ==> r.error == Backend
    {
      hide Run, Step;
      ghost var s, faults := store.Snapshot(), store.faults;
      OneStep(env, v, s, LookTarget, faults);
      AtDelete(env, v, s, 0, "", Next(faults));
      var listed := store.ListTargets();
      if listed.Err? {
        return Err(Backend);
      }
      var existing := FindFirst(listed.value, TargetNamed(v));
      if existing.Some? {
        OneStep(env, v, s, DropTarget(existing.value.id), Later(faults));
        AtDelete(env, v, s, existing.value.id, "", Next(Later(faults)));
        var dropped := store.DeleteTarget(existing.value.id);
        if dropped.Err? {
          return Err(Backend);
        }
      }
      r := Ok(());
    }

    method DropTheDataset(v: string) returns (r: Result<(), Status>)
      modifies store
      ensures old(ToGo(v, LookDataset)) == ToGo(v, if r.Ok? then LookInitiator else Finished(Failure(Backend)))
      ensures r.Err? ==> r.error == Backend
    {
      hide Run, Step;
      ghost var s, faults := store.Snapshot(), store.faults;
      OneStep(env, v, s, LookDataset, faults);
      AtDelete(env, v, s, 0, "", Next(faults));
      var listed := store.ListDatasets();
      if listed.Err? {
        return Err(Backend);
      }
      var existing := FindFirst(listed.value, DatasetNamed(DatasetName(env, v)));
      if existing.Some? {
        OneStep(env, v, s, DropDataset(existing.value.id), Later(faults));
        AtDelete(env, v, s, 0, existing.value.id, Next(Later(faults)));
        var dropped := store.DeleteDataset(existing.value.id);
        if dropped.Err? {
          return Err(Backend);
        }
      }
      r := Ok(());
    }

    method DropTheInitiator(v: string) returns (r: Result<(), Status>)
      modifies store
      ensures old(ToGo(v, LookInitiator)) ==
        ToGo(v, Finished(if r.Ok? then Deleted else Failure(Backend)))
      ensures r.Err? ==> r.error == Backend
    {
      hide Run, Step;
      ghost var s, faults := store.Snapshot(), store.faults;
      OneStep(env, v, s, LookInitiator, faults);
      AtDelete(env, v, s, 0, "", Next(faults));
      var listed := store.ListInitiators();
      if listed.Err? {
        return Err(Backend);
      }
      var existing := FindFirst(listed.value, CommentStarts(v));
      if existing.Some? {
        OneStep(env, v, s, DropInitiator(existing.value.id), Later(faults));
        AtDelete(env, v, s, existing.value.id, "", Next(Later(faults)));
        var dropped := store.DeleteInitiator(existing.value.id);
        if dropped.Err? {
          return Err(Backend);
        }
      }
      r := Ok(());
    }

    /** List the volumes: datasets, then extents over them, then their mappings, then the targets. Others may change
        the store between the calls: s2, s3 and s4 are what they have made of it by the last three. */
    method ListVolumes(s2: State, s3: State, s4: State) returns (r: Result<seq<Entry>, Status>)
      modifies store
      ensures
        var seen, faults := Seen(old(store.Snapshot()), s2, s3, s4), old(store.faults);
        && (r.Ok? <==>
              && Listing.ListVolumes(env, seen).Ok?
              && Next(faults).Works? && Next(Later(faults)).Works? && Next(Later(Later(faults))).Works?
              && Next(Later(Later(Later(faults)))).Works?)
        && (r.Ok? ==> r == Listing.ListVolumes(env, seen) && Joins(env, seen, r.value))
        && (r.Err? ==> r.error == Backend)
    {
      hide Entries, Keep, DatasetZvols, ExtentZvols, TargetZvols, ZvolMap, ExtentMap, TargetMap, Joins,
        Listing.ListVolumes, Next, Later, Seen, ExtentOver, MappingOver, TargetOver;
      StagesSeen(env, store.Snapshot(), s2, s3, s4);
      var datasetMap := ListZvols();
      if datasetMap.Err? {
        return Err(Backend);
      }
      store.Become(s2);
      var extentMap := ListExtentsOver(datasetMap.value);
      if extentMap.Err? {
        return Err(Backend);
      }
      store.Become(s3);
      var extentTargetMap := ListTargetsOf(extentMap.value);
      if extentTargetMap.Err? {
        return Err(Backend);
      }
      store.Become(s4);
      r := ListEntries(extentTargetMap.value);
    }

    method ListZvols() returns (r: Result<map<string, Dataset>, Status>)
      modifies store`faults
      ensures store.faults == Later(old(store.faults)) && (r.Ok? <==> Next(old(store.faults)).Works?)
      ensures r.Ok? ==> r.value == DatasetZvols(env, store.Snapshot())
    {
      var datasets := store.ListDatasets();
      if datasets.Err? {
        return Err(Backend);
      }
      var zvols := FindAll(datasets.value, ZvolUnder(env));
      var datasetMap := MapZvols(zvols);
      r := Ok(datasetMap);
    }

    method ListExtentsOver(datasetMap: map<string, Dataset>) returns (r: Result<map<int, Dataset>, Status>)
      modifies store`faults
      ensures store.faults == Later(old(store.faults)) && (r.Ok? <==> Next(old(store.faults)).Works?)
      ensures r.Ok? ==> r.value == ExtentMap(Keep(store.extents, ExtentOver(datasetMap)), datasetMap)
    {
      var listed := store.ListExtents();
      if listed.Err? {
        return Err(Backend);
      }
      var extents := FindAll(listed.value, ExtentOver(datasetMap));
      var extentMap := MapExtents(extents, datasetMap);
      r := Ok(extentMap);
    }

    method ListTargetsOf(extentMap: map<int, Dataset>) returns (r: Result<map<int, Dataset>, Status>)
      modifies store`faults
      ensures store.faults == Later(old(store.faults)) && (r.Ok? <==> Next(old(store.faults)).Works?)
      ensures r.Ok? ==> r.value == TargetMap(Keep(store.mappings, MappingOver(extentMap)), extentMap)
    {
      var listed := store.ListMappings();
      if listed.Err? {
        return Err(Backend);
      }
      var mappings := FindAll(listed.value, MappingOver(extentMap));
      var extentTargetMap := MapTargets(mappings, extentMap);
      r := Ok(extentTargetMap);
    }

    method ListEntries(extentTargetMap: map<int, Dataset>) returns (r: Result<seq<Entry>, Status>)
      modifies store`faults
      ensures
        var entries := Entries(Keep(store.targets, TargetOver(extentTargetMap)), extentTargetMap);
        && (r.Ok? <==> entries.Ok? && Next(old(store.faults)).Works?)
        && (r.Ok? ==> r == entries)
        && (r.Err? ==> r.error == Backend)
    {
      hide Entries, Keep;
      var listed := store.ListTargets();
      if listed.Err? {
        return Err(Backend);
      }
      var targets := FindAll(listed.value, TargetOver(extentTargetMap));
      r := CollectEntries(targets, extentTargetMap);
    }

    static method MapZvols(zvols: seq<Dataset>) returns (datasetMap: map<string, Dataset>)
      ensures datasetMap == ZvolMap(zvols)
    {
      hide ZvolMap;
      ZvolMapGrows(zvols, 0);
      datasetMap := map[];
      for i := 0 to |zvols|
        invariant datasetMap == ZvolMap(zvols[..i])
      {
        ZvolMapGrows(zvols, i + 1);
        datasetMap := datasetMap[ZvolPath(zvols[i].name) := zvols[i]];
      }
      assert zvols[..|zvols|] == zvols;
    }

    static method MapExtents(extents: seq<Extent>, datasetMap: map<string, Dataset>)
      returns (extentMap: map<int, Dataset>)
      requires forall e | e in extents :: e.path in datasetMap
      ensures extentMap == ExtentMap(extents, datasetMap)
    {
      extentMap := map[];
      for i := 0 to |extents|
        invariant extentMap == ExtentMap(extents[..i], datasetMap)
      {
        assert extents[..i + 1][..i] == extents[..i];
        extentMap := extentMap[extents[i].id := datasetMap[extents[i].path]];
      }
      assert extents[..|extents|] == extents;
    }

    static method MapTargets(mappings: seq<Mapping>, extentMap: map<int, Dataset>)
      returns (extentTargetMap: map<int, Dataset>)
      requires forall m | m in mappings :: m.extent in extentMap
      ensures extentTargetMap == TargetMap(mappings, extentMap)
    {
      extentTargetMap := map[];
      for i := 0 to |mappings|
        invariant extentTargetMap == TargetMap(mappings[..i], extentMap)
      {
        assert mappings[..i + 1][..i] == mappings[..i];
        extentTargetMap := extentTargetMap[mappings[i].target := extentMap[mappings[i].extent]];
      }
      assert mappings[..|mappings|] == mappings;
    }

    static method CollectEntries(targets: seq<Target>, zvols: map<int, Dataset>) returns (r: Result<seq<Entry>, Status>)
      requires forall t | t in targets :: t.id in zvols
      ensures r == Entries(targets, zvols)
      ensures r.Err? ==> r.error == Backend
    {
      hide Entries, ParseInt64;
      EntriesGrow(targets, 0, zvols);
      var result: seq<Entry> := [];
      for i := 0 to |targets|
        invariant Entries(targets[..i], zvols) == Ok(result)
      {
        EntriesGrow(targets, i + 1, zvols);
        var size := ParseInt64(zvols[targets[i].id].volsize);
        if size.None? {
          EntriesStop(targets, i + 1, zvols);
          return Err(Backend);
        }
        result := result + [Entry(targets[i].name, size.value)];
      }
      assert targets[..|targets|] == targets;
      r := Ok(result);
    }
  }

  /** The maps of the stages, each from what its call has seen. */
  lemma StagesSeen(env: Env, s1: State, s2: State, s3: State, s4: State)
    ensures
      var seen := Seen(s1, s2, s3, s4);
      var zvols := DatasetZvols(env, s1);
      var extents := ExtentMap(Keep(s2.extents, ExtentOver(zvols)), zvols);
      var targets := TargetMap(Keep(s3.mappings, MappingOver(extents)), extents);
      && Listing.ListVolumes(env, seen) == Entries(Keep(s4.targets, TargetOver(targets)), targets)
      && (Listing.ListVolumes(env, seen).Ok? ==> Joins(env, seen, Listing.ListVolumes(env, seen).value))
  {
    hide Keep, ZvolMap, ExtentMap, TargetMap, Joins, Chain;
    ListIsJoin(env, Seen(s1, s2, s3, s4));
  }

  lemma ZvolMapGrows(zvols: seq<Dataset>, n: nat)
    requires n <= |zvols|
    ensures ZvolMap(zvols[..n]) ==
      if n == 0 then map[] else ZvolMap(zvols[..n - 1])[ZvolPath(zvols[n - 1].name) := zvols[n - 1]]
  {
    if n > 0 {
      assert zvols[..n][..n - 1] == zvols[..n - 1];
    }
  }

  lemma EntriesGrow(targets: seq<Target>, n: nat, zvols: map<int, Dataset>)
    requires n <= |targets| && forall t | t in targets :: t.id in zvols
    ensures Entries(targets[..n], zvols) ==
      if n == 0 then Ok([])
      else if Entries(targets[..n - 1], zvols).Err? then Entries(targets[..n - 1], zvols)
      else match ParseInt64(zvols[targets[n - 1].id].volsize)
           case None => Err(Backend)
           case Some(size) => Ok(Entries(targets[..n - 1], zvols).value + [Entry(targets[n - 1].name, size)])
  {
    if n > 0 {
      assert targets[..n][..n - 1] == targets[..n - 1];
    }
  }

  /** Once an entry cannot be made the whole listing fails. */
  lemma {:induction false} EntriesStop(targets: seq<Target>, n: nat, zvols: map<int, Dataset>)
    requires n <= |targets| && forall t | t in targets :: t.id in zvols
    requires Entries(targets[..n], zvols) == Err(Backend)
    ensures Entries(targets, zvols) == Err(Backend)
    decreases |targets|
  {
    if n < |targets| {
      var init := targets[..|targets| - 1];
      assert init[..n] == targets[..n];
      EntriesStop(init, n, zvols);
    } else {
      assert targets[..n] == targets;
    }
  }

  lemma KeptByRun(env: Env, v: string, s: State, op: Op, faults: Faults)
    requires op.ReadGlobal? || op.LookTarget? || (op.Finished? && op.outcome.Failure?)
    ensures
      var (s', op', _) := Run(env, v, s, op, faults);
      InOrder(env, v, s) ==>
        && OwnChange(env, v, s, s')
        && (op'.Finished? && op'.outcome.Provisioned? ==> Complete(Own(env, v, s')))
        && (op' == Finished(Deleted) ==> Own(env, v, s') == NOTHING)
  {
    hide Run, Own, OwnChange, Complete;
    if InOrder(env, v, s) {
      RunKeeps(env, v, s, op, faults);
    }
  }
}
