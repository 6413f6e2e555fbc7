/** Delete run on its own: complete, idempotent, and indifferent to how earlier attempts failed. */
module IscsiDeletes {
  import opened Lists
  import opened Text
  import opened Faults
  import opened Csi
  import opened IscsiApi
  import opened IscsiMachine
  import opened IscsiInvariant
  import opened IscsiSteps
  import opened IscsiSafety
  import opened IscsiRuns
  import opened IscsiRollback

  /** The store without any object of volume v. */
  ghost function Without(env: Env, v: string, s: State): State {
    var rest := Rest(env, v, s);
    s.(datasets := rest.datasets, extents := rest.extents, initiators := rest.initiators,
       targets := rest.targets, mappings := rest.mappings)
  }

  predicate Deleting(op: Op) {
    match op
    case LookTarget => true
    case DropTarget(_) => true
    case LookDataset => true
    case DropDataset(_) => true
    case LookInitiator => true
    case DropInitiator(_) => true
    case Finished(Deleted) => true
    case Finished(Failure(Backend)) => true
    case _ => false
  }

  lemma DeleteStep(env: Env, v: string, s: State, op: Op, f: Fault)
    requires Deleting(op)
    ensures
      var (s', op') := Step(env, v, s, op, f);
      Deleting(op') && s'.nextId == s.nextId && s'.basename == s.basename && s'.portals == s.portals
  {
    hide First, Keep;
  }

  /** With a working call delete goes on; in particular the store never refuses the dataset as busy. */
  lemma DeleteGoesOn(env: Env, v: string, s: State, op: Op)
    requires Ready(env, v, s, op) && Deleting(op) && !op.Finished?
    ensures
      var op' := Step(env, v, s, op, Works).1;
      Deleting(op') && op' != Finished(Failure(Backend))
  {
    hide First, Own, IdsOk, VolumeOk, DeleteTarget, DeleteDataset, DeleteInitiator, DatasetName;
    match op {
      case DropTarget(id) => CallWorks(env, v, s, op);
      case DropDataset(ds) => DropNotBusy(env, v, s, ds);
      case DropInitiator(id) => CallWorks(env, v, s, op);
      case _ =>
    }
  }

  lemma CallWorks(env: Env, v: string, s: State, op: Op)
    requires Ready(env, v, s, op)
    ensures op.DropTarget? ==> DeleteTarget(s, op.target, Works).1.Ok?
    ensures op.DropInitiator? ==> DeleteInitiator(s, op.initiator, Works).1.Ok?
  {
    hide First, Keep, Rest, Confined;
    match op {
      case DropTarget(id) => TargetDeleted(env, v, s, id);
      case DropInitiator(id) => InitiatorDeleted(env, v, s, id);
      case _ =>
    }
  }

  lemma {:induction false} DeleteRun(env: Env, v: string, s: State, op: Op, faults: Faults)
    requires Ready(env, v, s, op) && Deleting(op)
    ensures
      var (s', op', later) := Run(env, v, s, op, faults);
      && op'.Finished? && Deleting(op') && OwnChange(env, v, s, s') && s'.nextId == s.nextId
      && (op' == Finished(Deleted) ==> s' == Without(env, v, s))
      && (faults == [] ==> later == [] && (op != Finished(Failure(Backend)) ==> op' == Finished(Deleted)))
    decreases Remaining(op)
  {
    hide Step, Own, Rest, IdsOk, VolumeOk;
    NoChange(env, v, s);
    if op.Finished? {
      if op == Finished(Deleted) {
        RestIsAll(env, v, s);
      }
    } else {
      var f := Next(faults);
      var (s', op') := Step(env, v, s, op, f);
      StepKeeps(env, v, s, op, f);
      StepShrinks(env, v, s, op, f);
      DeleteStep(env, v, s, op, f);
      DeleteRun(env, v, s', op', Later(faults));
      ConfinedTwice(env, v, s, s', Run(env, v, s', op', Later(faults)).0);
      if faults == [] {
        DeleteGoesOn(env, v, s, op);
      }
    }
  }

  /** Whatever earlier calls have left of the volume, a delete whose calls all work removes every object of
      it and nothing else. */
  lemma DeleteCompletes(env: Env, v: string, s: State)
    requires InOrder(env, v, s) && HasPrefix(v, VOLUME_PREFIX)
    ensures Run(env, v, s, StartDelete(v), []) == (Without(env, v, s), Finished(Deleted), [])
    ensures Own(env, v, Without(env, v, s)) == NOTHING
  {
    hide Own, Rest, IdsOk, VolumeOk, Run, Without;
    DeleteRun(env, v, s, LookTarget, []);
    RunKeeps(env, v, s, LookTarget, []);
  }

  /** Delete reports success only when it has done all of that, whichever calls failed before. */
  lemma DeleteReportsHonestly(env: Env, v: string, s: State, faults: Faults)
    requires InOrder(env, v, s) && HasPrefix(v, VOLUME_PREFIX)
    ensures
      var (s', op', _) := Run(env, v, s, StartDelete(v), faults);
      && op'.Finished? && (op'.outcome == Deleted || op'.outcome == Failure(Backend))
      && (op'.outcome == Deleted ==> s' == Without(env, v, s) && Own(env, v, s') == NOTHING)
  {
    hide Own, Rest, IdsOk, VolumeOk, Run, Without;
    DeleteRun(env, v, s, LookTarget, faults);
    RunKeeps(env, v, s, LookTarget, faults);
  }

  /** The store after several deletes, each with its own faults. */
  function Attempts(env: Env, v: string, s: State, attempts: seq<Faults>): State
    decreases |attempts|
  {
    if attempts == [] then s
    else Attempts(env, v, Run(env, v, s, StartDelete(v), attempts[0]).0, attempts[1..])
  }

  /** Any number of deletes that fail in any way, then one whose calls work: the result is that of the last
      one alone. */
  lemma {:induction false} DeleteAfterAttempts(env: Env, v: string, s: State, attempts: seq<Faults>)
    requires InOrder(env, v, s) && HasPrefix(v, VOLUME_PREFIX)
    ensures
      Run(env, v, Attempts(env, v, s, attempts), StartDelete(v), []) == (Without(env, v, s), Finished(Deleted), [])
    decreases |attempts|
  {
    hide Own, IdsOk, VolumeOk, Run, Rest;
    if attempts == [] {
      DeleteCompletes(env, v, s);
    } else {
      var s' := Run(env, v, s, LookTarget, attempts[0]).0;
      DeleteRun(env, v, s, LookTarget, attempts[0]);
      DeleteAfterAttempts(env, v, s', attempts[1..]);
    }
  }

  /** A further delete changes nothing and succeeds. */
  lemma DeleteIdempotent(env: Env, v: string, s: State)
    requires InOrder(env, v, s) && HasPrefix(v, VOLUME_PREFIX)
    ensures
      var first := Run(env, v, s, StartDelete(v), []);
      Run(env, v, first.0, StartDelete(v), []) == first
  {
    hide Own, IdsOk, VolumeOk, Run, Rest;
    DeleteAfterAttempts(env, v, s, [[]]);
    DeleteCompletes(env, v, s);
  }

  /** In particular after any interleaving of calls, faults and crashes. */
  lemma DeleteAfterAnything(env: Env, volumes: set<string>, s0: State, events: seq<Event>, v: string)
    requires Vacant(env, volumes, s0) && v in volumes && HasPrefix(v, VOLUME_PREFIX)
    ensures
      var s := Exec(env, volumes, System(s0, map[]), events).state;
      var (s', op', _) := Run(env, v, s, StartDelete(v), []);
      && op' == Finished(Deleted) && Own(env, v, s') == NOTHING
      && forall w | w in volumes && w != v :: Own(env, w, s') == Own(env, w, s)
  {
    hide Exec, Run, Own, Step, OwnChange, IdsOk, VolumeOk, Without;
    var s := Exec(env, volumes, System(s0, map[]), events).state;
    ReachableInv(env, volumes, s0, events);
    DeleteCompletes(env, v, s);
    RunKeeps(env, v, s, LookTarget, []);
    forall w | w in volumes && w != v ensures Own(env, w, Run(env, v, s, StartDelete(v), []).0) == Own(env, w, s) {
      OthersUntouched(env, volumes, v, w, s, Run(env, v, s, StartDelete(v), []).0);
    }
  }

  /** Deleting what a create has just made from nothing gives the store back. */
  lemma CreateThenDelete(env: Env, v: string, s: State, request: CreateRequest)
    requires InOrder(env, v, s) && Own(env, v, s) == NOTHING && HasPrefix(v, VOLUME_PREFIX)
    requires Servable(env, s, request)
    ensures
      var created := Run(env, v, s, StartCreate(request), []).0;
      SameObjects(s, Run(env, v, created, StartDelete(v), []).0)
  {
    hide Own, IdsOk, VolumeOk, Run, Rest, Grown;
    var created := Run(env, v, s, StartCreate(request), []).0;
    CreateRun(env, v, s, request);
    DeleteCompletes(env, v, created);
    RestIsAll(env, v, s);
    assert Grown(env, v, s, created, PlanFor(env, s, request), 5);
    SettingsKept(env, v, s, created, PlanFor(env, s, request));
  }

  lemma SettingsKept(env: Env, v: string, s: State, s': State, plan: Plan)
    requires Grown(env, v, s, s', plan, 5)
    ensures s'.basename == s.basename && s'.portals == s.portals
  {
    hide Own;
  }
}
