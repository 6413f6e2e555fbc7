/** What a create that fails leaves behind, whichever of its clean-up calls take effect. */
module IscsiRollback {
  import opened Lists
  import opened Text
  import opened Faults
  import opened Csi
  import opened IscsiApi
  import opened IscsiMachine
  import opened IscsiInvariant
  import opened IscsiSteps
  import opened IscsiSafety
  import opened IscsiRuns

  // Clean-up

  /** The store after the clean-up calls, the n-th suffering the n-th fault. */
  function RemoveAll(s: State, todo: seq<Removal>, faults: Faults): State
    decreases |todo|
  {
    if todo == [] then s else RemoveAll(Remove(s, todo[0], Next(faults)), todo[1..], Later(faults))
  }

  lemma {:induction false} UnwindRun(env: Env, v: string, s: State, todo: seq<Removal>, status: Status, faults: Faults)
    ensures
      var (s', op', _) := Run(env, v, s, Unwind(todo, status), faults);
      s' == RemoveAll(s, todo, faults) && op' == Finished(Failure(status))
    decreases |todo|
  {
    hide Remove, Step;
    if todo == [] {
    } else {
      UndoStep(env, v, s, Undo(todo, status), Next(faults));
      UnwindRun(env, v, Remove(s, todo[0], Next(faults)), todo[1..], status, Later(faults));
    }
  }

  /** What a clean-up call that takes effect leaves of a volume: a dataset in use survives it, one that is not takes
      its extent along, and mappings go with their extent or target. */
  ghost function Cut(o: Slice, removal: Removal): Slice {
    match removal
    case RemoveDataset(_) => if o.mappings != [] then o else o.(datasets := [], extents := [])
    case RemoveExtent(_) => o.(extents := [], mappings := [])
    case RemoveInitiator(_) => o.(initiators := [])
    case RemoveTarget(_) => o.(targets := [], mappings := [])
  }

  ghost function CutAll(o: Slice, todo: seq<Removal>, faults: Faults): Slice
    decreases |todo|
  {
    if todo == [] then o
    else CutAll(if TakesEffect(Next(faults)) then Cut(o, todo[0]) else o, todo[1..], Later(faults))
  }

  /** The call is for the volume's object of that kind, if there still is one. */
  ghost predicate Aimed(o: Slice, removal: Removal) {
    match removal
    case RemoveDataset(_) => true
    case RemoveExtent(id) => o.extents == [] || HasExtent(o, id)
    case RemoveInitiator(id) => o.initiators == [] || HasInitiator(o, id)
    case RemoveTarget(id) => o.targets == [] || HasTarget(o, id)
  }

  /** Objects have at most gone: where the volume still has one, the whole list is as it was. */
  ghost predicate OnlyLess(env: Env, v: string, s: State, s': State) {
    var o' := Own(env, v, s');
    && OwnChange(env, v, s, s') && s'.nextId == s.nextId
    && (o'.datasets != [] ==> s'.datasets == s.datasets)
    && (o'.extents != [] ==> s'.extents == s.extents)
    && (o'.initiators != [] ==> s'.initiators == s.initiators)
    && (o'.targets != [] ==> s'.targets == s.targets)
    && (o'.mappings != [] ==> s'.mappings == s.mappings)
  }

  /** The lists a clean-up call is not about stay as they are. */
  lemma OneKindRemoved(s: State, removal: Removal, f: Fault)
    ensures
      var s' := Remove(s, removal, f);
      && s'.nextId == s.nextId && s'.basename == s.basename && s'.portals == s.portals
      && (!removal.RemoveDataset? ==> s'.datasets == s.datasets)
      && (!removal.RemoveDataset? && !removal.RemoveExtent? ==> s'.extents == s.extents)
      && (!removal.RemoveInitiator? ==> s'.initiators == s.initiators)
      && (!removal.RemoveTarget? ==> s'.targets == s.targets)
      && (!removal.RemoveExtent? && !removal.RemoveTarget? ==> s'.mappings == s.mappings)
  {
    hide Keep, First;
  }

  lemma NothingRemoved(env: Env, v: string, s: State)
    requires InOrder(env, v, s)
    ensures OnlyLess(env, v, s, s)
  {
    hide Own, Rest, IdsOk, VolumeOk;
    NoChange(env, v, s);
  }

  lemma DatasetRemoved(env: Env, v: string, s: State, removal: Removal)
    requires InOrder(env, v, s) && RemovalOk(env, v, s, removal) && removal.RemoveDataset?
    ensures
      var s' := Remove(s, removal, Works);
      && OwnChange(env, v, s, s') && Own(env, v, s') == Cut(Own(env, v, s), removal)
      && (Own(env, v, s').datasets != [] ==> s' == s)
      && (Own(env, v, s').extents != [] ==> s' == s)
  {
    hide Keep, First, Rest, IdsOk;
    DatasetDeleted(env, v, s);
  }

  lemma ExtentRemoved(env: Env, v: string, s: State, removal: Removal)
    requires InOrder(env, v, s) && RemovalOk(env, v, s, removal) && Aimed(Own(env, v, s), removal)
    requires removal.RemoveExtent?
    ensures
      var s' := Remove(s, removal, Works);
      OwnChange(env, v, s, s') && Own(env, v, s') == Cut(Own(env, v, s), removal)
  {
    hide Keep, First, Rest;
    if Own(env, v, s).extents == [] {
      assert forall e | e in s.extents && e.path == ExtentPath(env, v) :: e in OwnExtents(env, v, s);
      assert First(s.extents, ExtentId(removal.extent)).None?;
      NoChange(env, v, s);
    } else {
      ExtentDeleted(env, v, s, removal.extent);
    }
  }

  lemma InitiatorRemoved(env: Env, v: string, s: State, removal: Removal)
    requires InOrder(env, v, s) && RemovalOk(env, v, s, removal) && Aimed(Own(env, v, s), removal)
    requires removal.RemoveInitiator?
    ensures
      var s' := Remove(s, removal, Works);
      OwnChange(env, v, s, s') && Own(env, v, s') == Cut(Own(env, v, s), removal)
  {
    hide Keep, First, Rest;
    if Own(env, v, s).initiators == [] {
      assert forall i | i in s.initiators && HasPrefix(i.comment, v) :: i in Own(env, v, s).initiators;
      assert First(s.initiators, InitiatorId(removal.initiator)).None?;
      NoChange(env, v, s);
    } else {
      InitiatorDeleted(env, v, s, removal.initiator);
    }
  }

  lemma TargetRemoved(env: Env, v: string, s: State, removal: Removal)
    requires InOrder(env, v, s) && RemovalOk(env, v, s, removal) && Aimed(Own(env, v, s), removal)
    requires removal.RemoveTarget?
    ensures
      var s' := Remove(s, removal, Works);
      OwnChange(env, v, s, s') && Own(env, v, s') == Cut(Own(env, v, s), removal)
  {
    hide Keep, First, Rest;
    if Own(env, v, s).targets == [] {
      assert forall t | t in s.targets && t.name == v :: t in OwnTargets(v, s);
      assert First(s.targets, TargetId(removal.target)).None?;
      NoChange(env, v, s);
    } else {
      TargetDeleted(env, v, s, removal.target);
    }
  }

  lemma RemovedOne(env: Env, v: string, s: State, removal: Removal, f: Fault)
    requires InOrder(env, v, s) && RemovalOk(env, v, s, removal) && Aimed(Own(env, v, s), removal)
    ensures
      var s' := Remove(s, removal, f);
      && OnlyLess(env, v, s, s')
      && Own(env, v, s') == if TakesEffect(f) then Cut(Own(env, v, s), removal) else Own(env, v, s)
  {
    hide Own, Rest, IdsOk, VolumeOk, RemovalOk, Remove, Aimed;
    AllOrNothing(s, removal, f);
    NothingRemoved(env, v, s);
    OneKindRemoved(s, removal, Works);
    match removal {
      case RemoveDataset(_) => DatasetRemoved(env, v, s, removal);
      case RemoveExtent(_) => ExtentRemoved(env, v, s, removal);
      case RemoveInitiator(_) => InitiatorRemoved(env, v, s, removal);
      case RemoveTarget(_) => TargetRemoved(env, v, s, removal);
    }
  }

  /** What the volume has in the end it had all along. */
  lemma HadAllAlong(env: Env, v: string, s: State, s': State)
    requires OnlyLess(env, v, s, s')
    ensures
      var o, o' := Own(env, v, s), Own(env, v, s');
      && (o'.datasets != [] ==> o.datasets != []) && (o'.extents != [] ==> o.extents != [])
      && (o'.initiators != [] ==> o.initiators != []) && (o'.targets != [] ==> o.targets != [])
      && (o'.mappings != [] ==> o.mappings != [])
  {
    hide Keep, Rest, IdsOk, Confined;
    if Own(env, v, s').mappings != [] {
      assert OwnTargets(v, s') == OwnTargets(v, s) && OwnExtents(env, v, s') == OwnExtents(env, v, s);
    }
  }

  lemma LessTwice(env: Env, v: string, s: State, s': State, s'': State)
    requires OnlyLess(env, v, s, s') && OnlyLess(env, v, s', s'')
    ensures OnlyLess(env, v, s, s'')
  {
    hide Own, Rest, IdsOk, VolumeOk, Confined;
    ConfinedTwice(env, v, s, s', s'');
    HadAllAlong(env, v, s', s'');
  }

  lemma StillAimed(o: Slice, removal: Removal, other: Removal)
    requires Aimed(o, other)
    ensures Aimed(Cut(o, removal), other)
  {
  }

  /** The clean-up calls of a volume, whichever take effect, leave of it what Cut says, one after the other. */
  lemma {:induction false} AllRemoved(env: Env, v: string, s: State, todo: seq<Removal>, faults: Faults)
    requires InOrder(env, v, s)
    requires forall removal | removal in todo :: RemovalOk(env, v, s, removal) && Aimed(Own(env, v, s), removal)
    ensures
      var s' := RemoveAll(s, todo, faults);
      OnlyLess(env, v, s, s') && Own(env, v, s') == CutAll(Own(env, v, s), todo, faults)
    decreases |todo|
  {
    hide Own, Rest, IdsOk, VolumeOk, RemovalOk, Remove, Aimed, Cut, Confined;
    NothingRemoved(env, v, s);
    if todo == [] {
    } else {
      var s1 := Remove(s, todo[0], Next(faults));
      RemovedOne(env, v, s, todo[0], Next(faults));
      StillOk(env, v, s, s1, todo);
      forall removal | removal in todo ensures Aimed(Own(env, v, s1), removal) {
        StillAimed(Own(env, v, s), todo[0], removal);
      }
      AllRemoved(env, v, s1, todo[1..], Later(faults));
      LessTwice(env, v, s, s1, RemoveAll(s1, todo[1..], Later(faults)));
    }
  }

  lemma StillOk(env: Env, v: string, s: State, s': State, todo: seq<Removal>)
    requires Confined(env, v, s, s') && forall removal | removal in todo :: RemovalOk(env, v, s, removal)
    ensures forall removal | removal in todo :: RemovalOk(env, v, s', removal)
  {
    hide Rest, RemovalOk;
    RemovalsStay(env, v, s, s', todo, Internal);
  }

  lemma CleanupAimed(env: Env, v: string, s: State, op: Op)
    requires OpOk(env, v, s, op)
    ensures forall removal | removal in Cleanup(op) :: Aimed(Own(env, v, s), removal)
  {
    hide Own;
  }

  lemma CleanedUp(env: Env, v: string, s: State, op: Op, faults: Faults)
    requires Ready(env, v, s, op)
    ensures
      var s' := RemoveAll(s, Cleanup(op), faults);
      OnlyLess(env, v, s, s') && Own(env, v, s') == CutAll(Own(env, v, s), Cleanup(op), faults)
  {
    hide Own, IdsOk, VolumeOk, RemovalOk, Aimed, OnlyLess, Cut;
    CleanupOk(env, v, s, op);
    CleanupAimed(env, v, s, op);
    AllRemoved(env, v, s, Cleanup(op), faults);
  }

  // Create up to the call that fails

  /** The store and the operation after k calls that work. */
  function After(env: Env, v: string, s: State, op: Op, k: nat): (State, Op)
    decreases k
  {
    if k == 0 then (s, op)
    else
      var (s', op') := Step(env, v, s, op, Works);
      After(env, v, s', op', k - 1)
  }

  /** The store after a call that fails: the call may have taken effect all the same. */
  function AfterFailing(env: Env, v: string, s: State, op: Op, f: Fault): State {
    if f.LostReply? then Step(env, v, s, op, Works).0 else s
  }

  /** A create that began on s0 and has worked so far. */
  ghost predicate UnderWay(env: Env, v: string, s0: State, s: State, op: Op) {
    && Ready(env, v, s, op)
    && if op.ReadGlobal? || op.ReadPortal? then s == s0
       else PlanOf(op).Some? && Grown(env, v, s0, s, PlanOf(op).value, Stage(op))
  }

  lemma StepUnderWay(env: Env, v: string, s0: State, s: State, op: Op)
    requires UnderWay(env, v, s0, s, op)
    ensures var (s', op') := Step(env, v, s, op, Works); op'.Finished? || UnderWay(env, v, s0, s', op')
  {
    hide Step, Own, Grown, IdsOk;
    StepKeeps(env, v, s, op, Works);
    if op.ReadGlobal? || op.ReadPortal? {
      ReadStep(env, v, s, op);
      if PlanOf(Step(env, v, s, op, Works).1).Some? {
        GrownStart(env, v, s, PlanOf(Step(env, v, s, op, Works).1).value);
      }
    } else {
      StepGrows(env, v, s0, s, op);
    }
  }

  lemma ReadStep(env: Env, v: string, s: State, op: Op)
    requires op.ReadGlobal? || op.ReadPortal?
    ensures
      var (s', op') := Step(env, v, s, op, Works);
      s' == s && (op'.Finished? || op'.ReadPortal? || op'.FindDataset?)
  {
  }

  /** k calls work, the next one fails, and then come the clean-up calls that are due there. */
  lemma {:induction false} FailedRun(env: Env, v: string, s0: State, s: State, op: Op, k: nat, f: Fault,
                                     cleanup: Faults)
    requires UnderWay(env, v, s0, s, op) && !After(env, v, s, op, k).1.Finished? && !f.Works?
    ensures
      var (sk, opk) := After(env, v, s, op, k);
      var (s', op', _) := Run(env, v, s, op, WorksFor(k, [f] + cleanup));
      && UnderWay(env, v, s0, sk, opk)
      && s' == RemoveAll(AfterFailing(env, v, sk, opk, f), Cleanup(opk), cleanup)
      && op' == Finished(Failure(FailStatus(opk)))
    decreases k
  {
    hide Step, Own, Grown, IdsOk, Ready;
    if k == 0 {
      assert Next([f] + cleanup) == f && Later([f] + cleanup) == cleanup;
      FaultCases(env, v, s, op, f);
      UnwindRun(env, v, AfterFailing(env, v, s, op, f), Cleanup(op), FailStatus(op), cleanup);
    } else {
      var (s', op') := Step(env, v, s, op, Works);
      StepUnderWay(env, v, s0, s, op);
      StaysFinished(env, v, s', op', k - 1);
      FailedRun(env, v, s0, s', op', k - 1, f, cleanup);
      assert Later(WorksFor(k, [f] + cleanup)) == WorksFor(k - 1, [f] + cleanup);
    }
  }

  lemma {:induction false} StaysFinished(env: Env, v: string, s: State, op: Op, k: nat)
    ensures op.Finished? ==> After(env, v, s, op, k).1.Finished?
    decreases k
  {
    if k > 0 && op.Finished? {
      StaysFinished(env, v, s, op, k - 1);
    }
  }

  // Exactly when nothing is lost

  /** Which kinds of object a volume has. */
  datatype Kinds = Kinds(dataset: bool, extent: bool, initiator: bool, target: bool, mapping: bool)

  ghost function KindsOf(o: Slice): Kinds {
    Kinds(o.datasets != [], o.extents != [], o.initiators != [], o.targets != [], o.mappings != [])
  }

  /** What there is when the call at this point has failed: what the volume had, what create has made by now, and
      what the failing call has made if it took effect. */
  function AtFailure(before: Kinds, op: Op, f: Fault): Kinds {
    var n, lost := |Cleanup(op)|, f.LostReply?;
    Kinds(
      before.dataset || n >= 1 || (lost && op.MakeDataset?),
      before.extent || n >= 2 || (lost && op.MakeExtent?),
      before.initiator || n >= 3 || (lost && op.MakeInitiator?),
      before.target || n >= 4 || (lost && op.MakeTarget?),
      before.mapping || (lost && op.MakeMapping?))
  }

  function CutKinds(has: Kinds, removal: Removal): Kinds {
    match removal
    case RemoveDataset(_) => if has.mapping then has else has.(dataset := false, extent := false)
    case RemoveExtent(_) => has.(extent := false, mapping := false)
    case RemoveInitiator(_) => has.(initiator := false)
    case RemoveTarget(_) => has.(target := false, mapping := false)
  }

  function CutAllKinds(has: Kinds, todo: seq<Removal>, faults: Faults): Kinds
    decreases |todo|
  {
    if todo == [] then has
    else CutAllKinds(if TakesEffect(Next(faults)) then CutKinds(has, todo[0]) else has, todo[1..], Later(faults))
  }

  /** A create that fails here comes out even: the volume has the kinds of object it had. The faults are those of the
      clean-up calls. */
  predicate Restores(before: Kinds, op: Op, f: Fault, cleanup: Faults) {
    CutAllKinds(AtFailure(before, op, f), Cleanup(op), cleanup) == before
  }

  lemma {:induction false} KindsCut(o: Slice, todo: seq<Removal>, faults: Faults)
    ensures KindsOf(CutAll(o, todo, faults)) == CutAllKinds(KindsOf(o), todo, faults)
    decreases |todo|
  {
    if todo == [] {
    } else {
      KindsCut(if TakesEffect(Next(faults)) then Cut(o, todo[0]) else o, todo[1..], Later(faults));
    }
  }

  /** Where a volume has no object of a kind before and after, the whole list is the same. */
  lemma SameWhereNone(env: Env, v: string, s: State, s': State)
    requires Rest(env, v, s') == Rest(env, v, s)
    ensures Own(env, v, s).datasets == [] && Own(env, v, s').datasets == [] ==> s'.datasets == s.datasets
    ensures Own(env, v, s).extents == [] && Own(env, v, s').extents == [] ==> s'.extents == s.extents
    ensures Own(env, v, s).initiators == [] && Own(env, v, s').initiators == [] ==> s'.initiators == s.initiators
    ensures Own(env, v, s).targets == [] && Own(env, v, s').targets == [] ==> s'.targets == s.targets
    ensures Own(env, v, s).mappings == [] && Own(env, v, s').mappings == [] ==> s'.mappings == s.mappings
  {
    hide Keep, Touching;
    RestIsAll(env, v, s);
    RestIsAll(env, v, s');
  }

  lemma NoneKept<T>(xs: seq<T>, p: T -> bool)
    ensures Keep(xs, p) == [] ==> Keep(xs, Not(p)) == xs
  {
    if Keep(xs, p) == [] {
      assert forall x | x in xs && p(x) :: x in Keep(xs, p);
      KeepAll(xs, Not(p));
    }
  }

  lemma RestIsAll(env: Env, v: string, s: State)
    ensures Own(env, v, s).datasets == [] ==> Rest(env, v, s).datasets == s.datasets
    ensures Own(env, v, s).extents == [] ==> Rest(env, v, s).extents == s.extents
    ensures Own(env, v, s).initiators == [] ==> Rest(env, v, s).initiators == s.initiators
    ensures Own(env, v, s).targets == [] ==> Rest(env, v, s).targets == s.targets
    ensures Own(env, v, s).mappings == [] ==> Rest(env, v, s).mappings == s.mappings
  {
    hide Keep, Touching;
    NoneKept(s.datasets, DatasetNamed(DatasetName(env, v)));
    NoneKept(s.extents, ExtentAt(ExtentPath(env, v)));
    NoneKept(s.initiators, CommentStarts(v));
    NoneKept(s.targets, TargetNamed(v));
    NoneKept(s.mappings, Touching(OwnTargets(v, s), OwnExtents(env, v, s)));
  }

  /** The same store, ids given out apart. */
  ghost predicate SameObjects(s: State, s': State) {
    s' == s.(nextId := s'.nextId)
  }

  lemma SameOwn(env: Env, v: string, s: State, s': State)
    requires SameObjects(s, s')
    ensures Own(env, v, s') == Own(env, v, s)
  {
  }

  /** The point of create where what the making call made would have been found; the same clean-up is due there. */
  function Finding(op: Op): Op {
    match op
    case MakeExtent(plan, ds) => FindExtent(plan, ds)
    case MakeInitiator(plan, ds, ext) => FindInitiator(plan, ds, ext)
    case MakeTarget(plan, ds, ext, ini) => FindTarget(plan, ds, ext, ini)
    case MakeMapping(plan, ds, ext, ini, tgt) => FindMapping(plan, ds, ext, ini, tgt)
    case _ => op
  }

  /** What a making call has made, as the volume sees it. */
  lemma MadeOne(env: Env, v: string, s: State, op: Op)
    requires Ready(env, v, s, op) && Finding(op) != op
    ensures
      var s' := Step(env, v, s, op, Works).0;
      var o, o' := Own(env, v, s), Own(env, v, s');
      && Ready(env, v, s', Finding(op)) && Rest(env, v, s') == Rest(env, v, s)
      && s'.datasets == s.datasets && s'.basename == s.basename && s'.portals == s.portals
      && (!op.MakeExtent? ==> s'.extents == s.extents) && (!op.MakeMapping? ==> s'.mappings == s.mappings)
      && (!op.MakeInitiator? ==> s'.initiators == s.initiators) && (!op.MakeTarget? ==> s'.targets == s.targets)
      && match op
         case MakeExtent(_, _) => |o'.extents| == 1 && o' == o.(extents := o'.extents)
         case MakeInitiator(_, _, _) => |o'.initiators| == 1 && o' == o.(initiators := o'.initiators)
         case MakeTarget(_, _, _, _) => |o'.targets| == 1 && o' == o.(targets := o'.targets)
         case MakeMapping(_, _, _, _, _) => |o'.mappings| == 1 && o' == o.(mappings := o'.mappings)
         case _ => true
  {
    hide Own, Rest, IdsOk, VolumeOk, Step;
    StepKeeps(env, v, s, op, Works);
    match op {
      case MakeExtent(_, _) => MakeExtentStep(env, v, s, op);
      case MakeInitiator(_, _, _) => MakeInitiatorStep(env, v, s, op);
      case MakeTarget(_, _, _, _) => MakeTargetStep(env, v, s, op);
      case MakeMapping(_, _, _, _, _) => MakeMappingStep(env, v, s, op);
    }
  }

  /** A look-up has no effect to be lost. */
  lemma LookUpsHaveNoEffect(env: Env, v: string, s: State, op: Op)
    requires Finding(op) == op && !op.MakeDataset? && (PlanOf(op).Some? || op.ReadGlobal? || op.ReadPortal?)
    ensures Step(env, v, s, op, Works).0 == s
  {
    hide First, Keep;
  }

  lemma KindsUnderWay(env: Env, v: string, s0: State, s: State, op: Op)
    requires InOrder(env, v, s0) && UnderWay(env, v, s0, s, op)
    ensures KindsOf(Own(env, v, s)) == AtFailure(KindsOf(Own(env, v, s0)), op, Works)
  {
    hide Own, IdsOk;
    OwnLists(env, v, s0, s);
  }

  /** The store at the failing call: the volume has what it had and what has been made, kind by kind; and the lists of
      the kinds it had are untouched. */
  ghost predicate Failing(env: Env, v: string, s0: State, s: State, op: Op, f: Fault) {
    var before := Own(env, v, s0);
    && Rest(env, v, s) == Rest(env, v, s0) && s.basename == s0.basename && s.portals == s0.portals
    && KindsOf(Own(env, v, s)) == AtFailure(KindsOf(before), op, f)
    && (before.datasets != [] ==> s.datasets == s0.datasets)
    && (before.extents != [] ==> s.extents == s0.extents)
    && (before.initiators != [] ==> s.initiators == s0.initiators)
    && (before.targets != [] ==> s.targets == s0.targets)
    && (before.mappings != [] ==> s.mappings == s0.mappings)
  }

  lemma FailsCleanly(env: Env, v: string, s0: State, s: State, op: Op, f: Fault)
    requires InOrder(env, v, s0) && UnderWay(env, v, s0, s, op) && Rest(env, v, s) == Rest(env, v, s0)
    requires f.LostReply? ==> Finding(op) == op && !op.MakeDataset?
    ensures Failing(env, v, s0, s, op, f)
  {
    hide Own, Rest, IdsOk, Complete;
    KindsUnderWay(env, v, s0, s, op);
    OwnLists(env, v, s0, s);
  }

  lemma FailsAfterEffect(env: Env, v: string, s0: State, s: State, op: Op, f: Fault)
    requires InOrder(env, v, s0) && UnderWay(env, v, s0, s, op) && Rest(env, v, s) == Rest(env, v, s0)
    requires Finding(op) != op && f.LostReply?
    ensures Failing(env, v, s0, Step(env, v, s, op, Works).0, op, f)
  {
    hide Own, Rest, IdsOk, Step, Complete, VolumeOk;
    FailsCleanly(env, v, s0, s, op, Works);
    OwnKinds(env, v, s, op);
    MadeOne(env, v, s, op);
  }

  lemma DatasetFailsAfterEffect(env: Env, v: string, s0: State, s: State, op: Op, f: Fault)
    requires InOrder(env, v, s0) && UnderWay(env, v, s0, s, op) && Rest(env, v, s) == Rest(env, v, s0)
    requires op.MakeDataset? && f.LostReply?
    ensures InOrder(env, v, Step(env, v, s, op, Works).0)
    ensures Failing(env, v, s0, Step(env, v, s, op, Works).0, op, f)
  {
    hide Own, Rest, IdsOk, Step, Complete, VolumeOk;
    FailsCleanly(env, v, s0, s, op, Works);
    StepKeeps(env, v, s, op, Works);
    MakeDatasetStep(env, v, s, op);
  }

  /** Whatever clean-up does from there, the store is as it was exactly when the volume has the kinds it had. */
  lemma EvenByKinds(env: Env, v: string, s0: State, s: State, s': State, op: Op, f: Fault)
    requires Failing(env, v, s0, s, op, f) && OnlyLess(env, v, s, s')
    ensures SameObjects(s0, s') <==> KindsOf(Own(env, v, s')) == KindsOf(Own(env, v, s0))
  {
    hide Own, Rest, IdsOk, VolumeOk, AtFailure;
    if KindsOf(Own(env, v, s')) == KindsOf(Own(env, v, s0)) {
      SameWhereNone(env, v, s0, s');
    }
    if SameObjects(s0, s') {
      SameOwn(env, v, s0, s');
    }
  }

  /** Clean-up at the failing call, as seen from the store there. */
  lemma FailedStage(env: Env, v: string, s0: State, s: State, op: Op, f: Fault, cleanup: Faults)
    requires InOrder(env, v, s0) && UnderWay(env, v, s0, s, op) && Rest(env, v, s) == Rest(env, v, s0) && !f.Works?
    ensures
      var s1 := AfterFailing(env, v, s, op, f);
      var s' := RemoveAll(s1, Cleanup(op), cleanup);
      && Failing(env, v, s0, s1, op, f) && OnlyLess(env, v, s1, s')
      && Own(env, v, s') == CutAll(Own(env, v, s1), Cleanup(op), cleanup)
  {
    hide Own, Rest, IdsOk, Step, Grown, VolumeOk, CutAll, Failing, OnlyLess, RemoveAll;
    if !f.LostReply? {
      FailsCleanly(env, v, s0, s, op, f);
      CleanedUp(env, v, s, op, cleanup);
    } else if op.MakeDataset? {
      DatasetFailsAfterEffect(env, v, s0, s, op, f);
      DatasetCleanedUp(env, v, Step(env, v, s, op, Works).0, op, cleanup);
    } else if Finding(op) != op {
      FailsAfterEffect(env, v, s0, s, op, f);
      MadeOne(env, v, s, op);
      CleanedUp(env, v, Step(env, v, s, op, Works).0, Finding(op), cleanup);
      assert Cleanup(Finding(op)) == Cleanup(op);
    } else {
      LookUpsHaveNoEffect(env, v, s, op);
      FailsCleanly(env, v, s0, s, op, f);
      CleanedUp(env, v, s, op, cleanup);
    }
  }

  lemma FailedStageRestores(env: Env, v: string, s0: State, s: State, op: Op, f: Fault, cleanup: Faults)
    requires InOrder(env, v, s0) && UnderWay(env, v, s0, s, op) && Rest(env, v, s) == Rest(env, v, s0) && !f.Works?
    ensures
      SameObjects(s0, RemoveAll(AfterFailing(env, v, s, op, f), Cleanup(op), cleanup)) <==>
      Restores(KindsOf(Own(env, v, s0)), op, f, cleanup)
  {
    hide Own, Rest, InOrder, UnderWay, Step, AtFailure, CutAll, CutAllKinds, Failing, OnlyLess, SameObjects,
      AfterFailing;
    var s1 := AfterFailing(env, v, s, op, f);
    FailedStage(env, v, s0, s, op, f, cleanup);
    EvenByKinds(env, v, s0, s1, RemoveAll(s1, Cleanup(op), cleanup), op, f);
    KindsCut(Own(env, v, s1), Cleanup(op), cleanup);
    FailingKinds(env, v, s0, s1, op, f);
  }

  lemma FailingKinds(env: Env, v: string, s0: State, s: State, op: Op, f: Fault)
    requires Failing(env, v, s0, s, op, f)
    ensures KindsOf(Own(env, v, s)) == AtFailure(KindsOf(Own(env, v, s0)), op, f)
  {
    hide Own, Rest, AtFailure;
  }

  lemma DatasetCleanedUp(env: Env, v: string, s: State, op: Op, cleanup: Faults)
    requires InOrder(env, v, s) && op.MakeDataset?
    ensures
      var s' := RemoveAll(s, Cleanup(op), cleanup);
      OnlyLess(env, v, s, s') && Own(env, v, s') == CutAll(Own(env, v, s), Cleanup(op), cleanup)
  {
    hide Own, OnlyLess;
    NothingRemoved(env, v, s);
  }

  /** A create whose k-th call fails, with or without taking effect, and whose clean-up calls suffer whatever faults:
      it puts the store back as it was, ids given out apart, exactly when the volume ends up with the kinds of object
      it had, and which those are follows from the kinds it had, the call that failed, and the calls that took
      effect. */
  lemma FailedCreateRestores(env: Env, v: string, s: State, request: CreateRequest, k: nat, f: Fault, cleanup: Faults)
    requires InOrder(env, v, s) && !After(env, v, s, StartCreate(request), k).1.Finished? && !f.Works?
    ensures
      var opk := After(env, v, s, StartCreate(request), k).1;
      var (s', op', _) := Run(env, v, s, StartCreate(request), WorksFor(k, [f] + cleanup));
      && op' == Finished(Failure(FailStatus(opk)))
      && (SameObjects(s, s') <==> Restores(KindsOf(Own(env, v, s)), opk, f, cleanup))
  {
    hide Own, Rest, IdsOk, Step, Run, Grown, VolumeOk, Restores, SameObjects, RemoveAll;
    var op := StartCreate(request);
    StaysFinished(env, v, s, op, k);
    assert op == ReadGlobal(request);
    assert UnderWay(env, v, s, s, op);
    FailedRun(env, v, s, s, op, k, f, cleanup);
    AfterConfined(env, v, s, op, k);
    var (sk, opk) := After(env, v, s, op, k);
    FailedStageRestores(env, v, s, sk, opk, f, cleanup);
  }

  lemma {:induction false} AfterConfined(env: Env, v: string, s: State, op: Op, k: nat)
    requires Ready(env, v, s, op)
    ensures Rest(env, v, After(env, v, s, op, k).0) == Rest(env, v, s)
    decreases k
  {
    hide Own, Rest, IdsOk, Step, VolumeOk;
    if k == 0 {
    } else {
      StepKeeps(env, v, s, op, Works);
      AfterConfined(env, v, Step(env, v, s, op, Works).0, Step(env, v, s, op, Works).1, k - 1);
    }
  }

  // What the condition comes to

  /** With clean-up calls that all work, said without counting: clean-up must meet nothing the volume had before, and
      the failing call must have made nothing clean-up misses. A dataset in use, and so spared, is the one exception. */
  lemma WhenCleanUpWorks(before: Kinds, op: Op, f: Fault)
    requires before.extent ==> before.dataset
    requires before.mapping ==> before.extent && before.target
    requires op.MakeExtent? ==> !before.extent
    requires op.MakeInitiator? ==> !before.initiator
    requires op.MakeTarget? ==> !before.target
    requires op.MakeDataset? ==> !before.dataset
    requires op.MakeMapping? ==> !before.mapping
    ensures
      var n, lost := |Cleanup(op)|, f.LostReply?;
      Restores(before, op, f, []) <==>
        if lost && (op.MakeDataset? || op.MakeInitiator? || op.MakeTarget?) then false
        else if lost && op.MakeMapping? then before == Kinds(true, false, false, false, false)
        else if n == 0 then true
        else if n == 1 then !before.dataset || before.mapping
        else !before.dataset && (n >= 3 ==> !before.initiator) && (n >= 4 ==> !before.target)
  {
    FourRemovals(AtFailure(before, op, f), op, []);
  }

  /** Clean-up call by call. */
  lemma FourRemovals(has: Kinds, op: Op, faults: Faults)
    ensures
      var todo, n := Cleanup(op), |Cleanup(op)|;
      var f1 := Later(faults);
      var f2 := Later(f1);
      var has1 := if n >= 1 && TakesEffect(Next(faults)) then CutKinds(has, todo[0]) else has;
      var has2 := if n >= 2 && TakesEffect(Next(f1)) then CutKinds(has1, todo[1]) else has1;
      var has3 := if n >= 3 && TakesEffect(Next(f2)) then CutKinds(has2, todo[2]) else has2;
      var has4 := if n >= 4 && TakesEffect(Next(Later(f2))) then CutKinds(has3, todo[3]) else has3;
      CutAllKinds(has, todo, faults) == has4
  {
    hide CutKinds;
    var todo, n := Cleanup(op), |Cleanup(op)|;
    var f1 := Later(faults);
    var f2 := Later(f1);
    if n >= 1 {
      var has1 := if TakesEffect(Next(faults)) then CutKinds(has, todo[0]) else has;
      assert CutAllKinds(has, todo, faults) == CutAllKinds(has1, todo[1..], f1);
      if n >= 2 {
        var has2 := if TakesEffect(Next(f1)) then CutKinds(has1, todo[1]) else has1;
        assert CutAllKinds(has1, todo[1..], f1) == CutAllKinds(has2, todo[1..][1..], f2);
        if n >= 3 {
          var has3 := if TakesEffect(Next(f2)) then CutKinds(has2, todo[2]) else has2;
          assert CutAllKinds(has2, todo[1..][1..], f2) == CutAllKinds(has3, todo[1..][1..][1..], Later(f2));
          if n >= 4 {
            var has4 := if TakesEffect(Next(Later(f2))) then CutKinds(has3, todo[3]) else has3;
            assert CutAllKinds(has3, todo[1..][1..][1..], Later(f2)) == CutAllKinds(has4, [], Later(Later(f2)));
          }
        }
      }
    }
  }

  function FaultOf(faults: Faults, k: nat): Fault {
    if k < |faults| then faults[k] else Works
  }

  /** All or nothing from a clean start: a create that fails leaves nothing behind exactly when the call that fails has
      not made something other than the extent, and the removals due of dataset, initiator and target take effect. The
      removal of the extent does not matter: the dataset takes it along. */
  lemma CleanStartRestores(env: Env, v: string, s: State, request: CreateRequest, k: nat, f: Fault, cleanup: Faults)
    requires InOrder(env, v, s) && Own(env, v, s) == NOTHING && !f.Works?
    requires !After(env, v, s, StartCreate(request), k).1.Finished?
    ensures
      var op := After(env, v, s, StartCreate(request), k).1;
      var n := |Cleanup(op)|;
      SameObjects(s, Run(env, v, s, StartCreate(request), WorksFor(k, [f] + cleanup)).0) <==>
        && !(f.LostReply? && (op.MakeDataset? || op.MakeInitiator? || op.MakeTarget? || op.MakeMapping?))
        && (n >= 1 ==> TakesEffect(FaultOf(cleanup, 0)))
        && (n >= 3 ==> TakesEffect(FaultOf(cleanup, 2)))
        && (n >= 4 ==> TakesEffect(FaultOf(cleanup, 3)))
  {
    hide Own, IdsOk, Step, Run, CutAllKinds, SameObjects;
    FailedCreateRestores(env, v, s, request, k, f, cleanup);
    var op := After(env, v, s, StartCreate(request), k).1;
    var before := Kinds(false, false, false, false, false);
    assert KindsOf(NOTHING) == before;
    FourRemovals(AtFailure(before, op, f), op, cleanup);
    FromNothing(op, f, cleanup);
  }

  lemma FromNothing(op: Op, f: Fault, cleanup: Faults)
    ensures
      var n := |Cleanup(op)|;
      Restores(Kinds(false, false, false, false, false), op, f, cleanup) <==>
        && !(f.LostReply? && (op.MakeDataset? || op.MakeInitiator? || op.MakeTarget? || op.MakeMapping?))
        && (n >= 1 ==> TakesEffect(FaultOf(cleanup, 0)))
        && (n >= 3 ==> TakesEffect(FaultOf(cleanup, 2)))
        && (n >= 4 ==> TakesEffect(FaultOf(cleanup, 3)))
  {
    hide CutAllKinds;
    FourRemovals(AtFailure(Kinds(false, false, false, false, false), op, f), op, cleanup);
  }

  // A retry that fails

  /** How many look-ups come before the one for the mapping. */
  function LooksLeft(op: Op): nat {
    match op
    case FindDataset(_) => 4
    case FindExtent(_, _) => 3
    case FindInitiator(_, _, _) => 2
    case FindTarget(_, _, _, _) => 1
    case FindMapping(_, _, _, _, _) => 0
    case _ => 5
  }

  lemma FindsNext(env: Env, v: string, s: State, op: Op)
    requires Ready(env, v, s, op) && Complete(Own(env, v, s)) && 0 < LooksLeft(op) < 5
    ensures
      var (s', op') := Step(env, v, s, op, Works);
      s' == s && LooksLeft(op') == LooksLeft(op) - 1 && Ready(env, v, s, op')
  {
    hide Own, Step, IdsOk, VolumeOk;
    match op {
      case FindDataset(_) => FindDatasetStep(env, v, s, op);
      case FindExtent(_, _) => FindExtentStep(env, v, s, op);
      case FindInitiator(_, _, _) => FindInitiatorStep(env, v, s, op);
      case FindTarget(_, _, _, _) => FindTargetStep(env, v, s, op);
    }
    StepKeeps(env, v, s, op, Works);
  }

  /** The look-ups a create makes on a complete volume change nothing. */
  lemma {:induction false} LooksUp(env: Env, v: string, s: State, op: Op)
    requires Ready(env, v, s, op) && Complete(Own(env, v, s)) && LooksLeft(op) < 5
    ensures
      var (s', op') := After(env, v, s, op, LooksLeft(op));
      s' == s && op'.FindMapping? && Ready(env, v, s, op')
    decreases LooksLeft(op)
  {
    hide Own, Step, Ready, Complete;
    if LooksLeft(op) == 0 {
    } else {
      FindsNext(env, v, s, op);
      LooksUp(env, v, s, Step(env, v, s, op, Works).1);
    }
  }

  /** A create repeated on a complete volume whose last look-up fails takes the volume apart: of its five objects
      the zvol alone is left, and only because the store refuses to drop it while it is in use. */
  lemma FailedRetry(env: Env, v: string, s: State, request: CreateRequest, code: Code)
    requires InOrder(env, v, s) && Complete(Own(env, v, s)) && Servable(env, s, request)
    ensures
      var (s', op', _) := Run(env, v, s, StartCreate(request), WorksFor(6, [Rejected(code)]));
      && op' == Finished(Failure(Internal))
      && Own(env, v, s') == Slice(Own(env, v, s).datasets, [], [], [], [])
  {
    hide Own, IdsOk, VolumeOk, Run, Grown, Step, OnlyLess;
    var op, plan := StartCreate(request), PlanFor(env, s, request);
    ReadsFirst(env, v, s, request);
    LooksUp(env, v, s, FindDataset(plan));
    assert After(env, v, s, op, 6) == After(env, v, s, FindDataset(plan), 4);
    FailedRun(env, v, s, s, op, 6, Rejected(code), []);
    assert [Rejected(code)] + [] == [Rejected(code)];
    CleanedUp(env, v, s, After(env, v, s, op, 6).1, []);
    AllCut(Own(env, v, s), After(env, v, s, op, 6).1);
  }

  lemma AllCut(o: Slice, op: Op)
    requires op.FindMapping? && o.mappings != []
    ensures CutAll(o, Cleanup(op), []) == Slice(o.datasets, [], [], [], [])
  {
    var todo := Cleanup(op);
    var o2 := Cut(o, todo[1]);
    var o3 := Cut(o2, todo[2]);
    assert CutAll(o, todo, []) == CutAll(o, todo[1..], []);
    assert CutAll(o, todo[1..], []) == CutAll(o2, todo[1..][1..], []);
    assert CutAll(o2, todo[1..][1..], []) == CutAll(o3, todo[1..][1..][1..], []);
    assert CutAll(o3, todo[1..][1..][1..], []) == CutAll(Cut(o3, todo[3]), [], []);
  }

  lemma ReadsFirst(env: Env, v: string, s: State, request: CreateRequest)
    requires Servable(env, s, request)
    ensures
      var portal := ReadPortal(request, s.basename);
      && StartCreate(request) == ReadGlobal(request)
      && Step(env, v, s, ReadGlobal(request), Works) == (s, portal)
      && Step(env, v, s, portal, Works) == (s, FindDataset(PlanFor(env, s, request)))
  {
  }
}
