/** What becomes of a volume when another one's id is a prefix of its own: they are kept apart exactly when none is. */
module IscsiSeparation {
  import opened Wrappers
  import opened Lists
  import opened Text
  import opened Faults
  import opened Decimal
  import opened Csi
  import opened IscsiApi
  import opened IscsiMachine
  import opened IscsiInvariant
  import opened IscsiSafety
  import opened IscsiRuns
  import opened IscsiRollback

  ghost predicate DistinctInitiators(s: State) {
    forall i, j | i in s.initiators && j in s.initiators && i.id == j.id :: i == j
  }

  // Delete

  predicate BeforeInitiators(op: Op) {
    op.LookTarget? || op.DropTarget? || op.LookDataset? || op.DropDataset?
  }

  lemma StepBeforeInitiators(env: Env, v: string, s: State, op: Op, f: Fault)
    requires BeforeInitiators(op)
    ensures
      var (s', op') := Step(env, v, s, op, f);
      s'.initiators == s.initiators &&
      (BeforeInitiators(op') || op'.LookInitiator? || op' == Finished(Failure(Backend)))
  {
    hide First, Keep;
  }

  lemma DropFirst(env: Env, v: string, s: State, i: Initiator, f: Fault)
    requires DistinctInitiators(s) && i in s.initiators
    ensures
      var (s', op') := Step(env, v, s, DropInitiator(i.id), f);
      && (op' == Finished(Deleted) || op' == Finished(Failure(Backend)))
      && (op' == Finished(Deleted) ==> forall j | j in s.initiators :: j !in s'.initiators <==> j == i)
  {
    hide First, Keep;
    assert InitiatorId(i.id)(i);
  }

  lemma LastStage(env: Env, v: string, s: State, faults: Faults)
    requires DistinctInitiators(s)
    ensures
      var (s', op', _) := Run(env, v, s, LookInitiator, faults);
      op' == Finished(Deleted) ==>
        forall i | i in s.initiators :: i !in s'.initiators <==> First(s.initiators, CommentStarts(v)) == Some(i)
  {
    hide Step, First, Keep;
    var f := Next(faults);
    var (s1, op1) := Step(env, v, s, LookInitiator, f);
    LookInitiatorStep(env, v, s, f);
    assert Run(env, v, s, LookInitiator, faults) == Run(env, v, s1, op1, Later(faults));
    if op1.DropInitiator? {
      var i := First(s.initiators, CommentStarts(v)).value;
      var (s2, op2) := Step(env, v, s, DropInitiator(i.id), Next(Later(faults)));
      DropFirst(env, v, s, i, Next(Later(faults)));
      assert Run(env, v, s1, op1, Later(faults)) == Run(env, v, s2, op2, Later(Later(faults)));
    }
  }

  lemma LookInitiatorStep(env: Env, v: string, s: State, f: Fault)
    ensures
      Step(env, v, s, LookInitiator, f) ==
        (s, if !f.Works? then Finished(Failure(Backend))
            else match First(s.initiators, CommentStarts(v))
                 case Some(i) => DropInitiator(i.id)
                 case None => Finished(Deleted))
  {
    hide First;
  }

  lemma {:induction false} DeletesFirstMatch(env: Env, v: string, s: State, op: Op, faults: Faults)
    requires DistinctInitiators(s) && (BeforeInitiators(op) || op.LookInitiator?)
    ensures
      var (s', op', _) := Run(env, v, s, op, faults);
      op' == Finished(Deleted) ==>
        forall i | i in s.initiators :: i !in s'.initiators <==> First(s.initiators, CommentStarts(v)) == Some(i)
    decreases Remaining(op)
  {
    hide Step, First, Keep;
    if op.LookInitiator? {
      LastStage(env, v, s, faults);
    } else {
      var (s', op') := Step(env, v, s, op, Next(faults));
      StepBeforeInitiators(env, v, s, op, Next(faults));
      StepShrinks(env, v, s, op, Next(faults));
      if !op'.Finished? {
        DeletesFirstMatch(env, v, s', op', Later(faults));
      }
    }
  }

  /** On any store: of the initiators there, a delete of v that succeeds takes exactly the first whose comment starts
      with v, whosever it is. The one made for w is a candidate exactly when v is a prefix of w. */
  lemma NeighbourInitiator(env: Env, v: string, w: string, s: State, i: Initiator, faults: Faults)
    requires HasPrefix(v, VOLUME_PREFIX) && ':' !in v && DistinctInitiators(s)
    requires i in s.initiators && i.comment == w + COMMENT_INITIATOR
    ensures CommentStarts(v)(i) <==> HasPrefix(w, v)
    ensures
      var (s', op', _) := Run(env, v, s, StartDelete(v), faults);
      op' == Finished(Deleted) ==>
        && (i !in s'.initiators <==> First(s.initiators, CommentStarts(v)) == Some(i))
        && (HasPrefix(w, v) ==> exists j :: j in s.initiators && j !in s'.initiators && HasPrefix(j.comment, v))
  {
    hide Run, First, Keep;
    CommentMatches(v, w, COMMENT_INITIATOR);
    DeletesFirstMatch(env, v, s, LookTarget, faults);
    if HasPrefix(w, v) {
      assert CommentStarts(v)(i);
      var j := First(s.initiators, CommentStarts(v)).value;
      assert j in s.initiators && CommentStarts(v)(j);
    }
  }

  // Create

  /** A create of v adopts the first initiator whose comment starts with v, and takes it down again when it fails at
      the next call. */
  lemma CleanUpTakesNeighbour(env: Env, v: string, s: State, plan: Plan, ds: string, ext: int, i: Initiator, code: Code)
    requires First(s.initiators, CommentStarts(v)) == Some(i)
    ensures
      var (s', op', _) := Run(env, v, s, FindInitiator(plan, ds, ext), [Works, Rejected(code)]);
      op' == Finished(Failure(Internal)) && i !in s'.initiators
  {
    hide First, Keep, Remove, Step;
    var todo := [RemoveDataset(ds), RemoveExtent(ext), RemoveInitiator(i.id)];
    AdoptThenFail(env, v, s, plan, ds, ext, i, code);
    UnwindRun(env, v, s, todo, Internal, []);
    var s1 := Remove(s, todo[0], Works);
    var s2 := Remove(s1, todo[1], Works);
    OneKindRemoved(s, todo[0], Works);
    OneKindRemoved(s1, todo[1], Works);
    InitiatorTaken(s2, i);
    assert RemoveAll(s, todo, []) == RemoveAll(s1, todo[1..], []);
    assert todo[1..][1..] == [todo[2]];
    assert RemoveAll(s1, todo[1..], []) == RemoveAll(s2, [todo[2]], []);
    assert [todo[2]][1..] == [];
    assert RemoveAll(s2, [todo[2]], []) == RemoveAll(Remove(s2, todo[2], Works), [], []);
  }

  lemma AdoptThenFail(env: Env, v: string, s: State, plan: Plan, ds: string, ext: int, i: Initiator, code: Code)
    requires First(s.initiators, CommentStarts(v)) == Some(i)
    ensures
      var todo := [RemoveDataset(ds), RemoveExtent(ext), RemoveInitiator(i.id)];
      Run(env, v, s, FindInitiator(plan, ds, ext), [Works, Rejected(code)]) ==
      Run(env, v, s, Unwind(todo, Internal), [])
  {
    hide First, Keep, Remove;
    var faults := [Works, Rejected(code)];
    assert Later(faults) == [Rejected(code)] && Later([Rejected(code)]) == [];
    assert Run(env, v, s, FindInitiator(plan, ds, ext), faults) ==
      Run(env, v, s, FindTarget(plan, ds, ext, i.id), [Rejected(code)]);
  }

  lemma InitiatorTaken(s: State, i: Initiator)
    requires i in s.initiators
    ensures i !in Remove(s, RemoveInitiator(i.id), Works).initiators
  {
    assert InitiatorId(i.id)(i);
  }

  // Interleavings

  function Calls(v: string, n: nat): seq<Event>
    decreases n
  {
    if n == 0 then [] else [Call(v, Works)] + Calls(v, n - 1)
  }

  lemma {:induction false} ExecTwice(env: Env, volumes: set<string>, sys: System, e1: seq<Event>, e2: seq<Event>)
    ensures Exec(env, volumes, sys, e1 + e2) == Exec(env, volumes, Exec(env, volumes, sys, e1), e2)
    decreases |e1|
  {
    hide Apply;
    if e1 == [] {
      assert e1 + e2 == e2;
    } else {
      assert (e1 + e2)[1..] == e1[1..] + e2;
      ExecTwice(env, volumes, Apply(env, volumes, sys, e1[0]), e1[1..], e2);
    }
  }

  /** An operation whose calls come one after the other, and all work, does what it does when run on its own. */
  lemma {:induction false} ExecIsRun(env: Env, volumes: set<string>, s: State, v: string, op: Op, n: nat)
    requires v in volumes && Remaining(op) <= n
    ensures
      var (s', op', _) := Run(env, v, s, op, []);
      Exec(env, volumes, System(s, map[v := op]), Calls(v, n)) == System(s', map[v := op'])
    decreases n
  {
    hide Step;
    if n == 0 {
      NothingRemains(op);
    } else {
      var (s', op') := Step(env, v, s, op, Works);
      assert Calls(v, n)[1..] == Calls(v, n - 1);
      assert map[v := op][v := op'] == map[v := op'];
      if op.Finished? {
        FinishedStep(env, v, s, op);
        ExecIsRun(env, volumes, s, v, op, n - 1);
      } else {
        StepShrinks(env, v, s, op, Works);
        ExecIsRun(env, volumes, s', v, op', n - 1);
      }
    }
  }

  lemma NothingRemains(op: Op)
    ensures op.Finished? <==> Remaining(op) == 0
  {
  }

  lemma FinishedStep(env: Env, v: string, s: State, op: Op)
    requires op.Finished?
    ensures Step(env, v, s, op, Works) == (s, op) && Remaining(op) == 0
  {
  }

  // Separation is needed

  /** A delete of v finds nothing of its own but an initiator that is not. */
  lemma DeleteReachesOver(env: Env, volumes: set<string>, sys: System, v: string, i: Initiator)
    requires v in volumes && v !in sys.ops && HasPrefix(v, VOLUME_PREFIX)
    requires First(sys.state.targets, TargetNamed(v)).None?
    requires First(sys.state.datasets, DatasetNamed(DatasetName(env, v))).None?
    requires First(sys.state.initiators, CommentStarts(v)) == Some(i)
    ensures
      var sys' := Exec(env, volumes, sys, [Delete(v), Call(v, Works), Call(v, Works), Call(v, Works)]);
      sys'.state == sys.state && v in sys'.ops && sys'.ops[v] == DropInitiator(i.id)
  {
    hide First, Keep;
    var events := [Delete(v), Call(v, Works), Call(v, Works), Call(v, Works)];
    var sys1 := sys.(ops := sys.ops[v := LookTarget]);
    var sys2 := sys.(ops := sys.ops[v := LookDataset]);
    var sys3 := sys.(ops := sys.ops[v := LookInitiator]);
    var sys4 := sys.(ops := sys.ops[v := DropInitiator(i.id)]);
    assert Apply(env, volumes, sys, Delete(v)) == sys1;
    assert sys1.ops[v := LookDataset] == sys2.ops && Apply(env, volumes, sys1, Call(v, Works)) == sys2;
    assert sys2.ops[v := LookInitiator] == sys3.ops && Apply(env, volumes, sys2, Call(v, Works)) == sys3;
    assert sys3.ops[v := DropInitiator(i.id)] == sys4.ops && Apply(env, volumes, sys3, Call(v, Works)) == sys4;
    FourEvents(env, volumes, sys, events);
  }

  lemma FourEvents(env: Env, volumes: set<string>, sys: System, events: seq<Event>)
    requires |events| == 4
    ensures
      var sys1 := Apply(env, volumes, sys, events[0]);
      var sys2 := Apply(env, volumes, sys1, events[1]);
      var sys3 := Apply(env, volumes, sys2, events[2]);
      Exec(env, volumes, sys, events) == Apply(env, volumes, sys3, events[3])
  {
    hide Apply;
    var sys1 := Apply(env, volumes, sys, events[0]);
    var sys2 := Apply(env, volumes, sys1, events[1]);
    var sys3 := Apply(env, volumes, sys2, events[2]);
    var sys4 := Apply(env, volumes, sys3, events[3]);
    assert Exec(env, volumes, sys, events) == Exec(env, volumes, sys1, events[1..]);
    assert Exec(env, volumes, sys1, events[1..]) == Exec(env, volumes, sys2, events[1..][1..]);
    assert Exec(env, volumes, sys2, events[1..][1..]) == Exec(env, volumes, sys3, events[1..][1..][1..]);
    assert events[1..][1..][1..] == [events[3]] && [events[3]][1..] == [];
    assert Exec(env, volumes, sys3, [events[3]]) == Exec(env, volumes, sys4, []);
  }

  /** What a create of w from nothing leaves: of v's names there is still nothing but w's initiator. */
  lemma OnlyInitiatorMeets(env: Env, v: string, w: string, s: State, request: CreateRequest)
    requires v != w && HasPrefix(w, v) && InOrder(env, w, s) && Servable(env, s, request)
    requires Own(env, v, s) == NOTHING && Own(env, w, s) == NOTHING
    ensures
      var s' := Run(env, w, s, StartCreate(request), []).0;
      && First(s'.targets, TargetNamed(v)).None?
      && First(s'.datasets, DatasetNamed(DatasetName(env, v))).None?
      && |Own(env, w, s').initiators| == 1
      && First(s'.initiators, CommentStarts(v)) == Some(Own(env, w, s').initiators[0])
  {
    hide Run, Step, Rest, VolumeOk, IdsOk, Keep, First, Touching;
    var s' := Run(env, w, s, StartCreate(request), []).0;
    CreateRun(env, w, s, request);
    var plan := PlanFor(env, s, request);
    var i := Own(env, w, s').initiators[0];
    assert i in Keep(s'.initiators, CommentStarts(w));
    assert CommentStarts(v)(i);
    AddedOf(env, v, w, s, s', plan);
    FirstAppended(s.initiators, i, CommentStarts(v));
  }

  lemma FirstAppended<T>(xs: seq<T>, x: T, p: T -> bool)
    requires Keep(xs, p) == [] && p(x)
    ensures First(xs + [x], p) == Some(x)
  {
    KeepOne(xs, x, p);
    FirstIsHead(xs + [x], p);
  }

  lemma NoneFound<T>(xs: seq<T>, ys: seq<T>, p: T -> bool)
    requires Keep(xs, p) == [] && forall y | y in ys :: !p(y)
    ensures First(xs + ys, p).None?
  {
    KeepAppend(xs, ys, p);
    KeepNone(ys, p);
    FirstIsHead(xs + ys, p);
  }

  lemma AddedOf(env: Env, v: string, w: string, s: State, s': State, plan: Plan)
    requires v != w && Grown(env, w, s, s', plan, 5)
    requires Own(env, v, s) == NOTHING && Own(env, w, s) == NOTHING
    ensures First(s'.targets, TargetNamed(v)).None?
    ensures First(s'.datasets, DatasetNamed(DatasetName(env, v))).None?
    ensures s'.initiators == s.initiators + Own(env, w, s').initiators
    ensures Keep(s.initiators, CommentStarts(v)) == []
  {
    hide Keep, First, Touching, Rest;
    var d := Dataset(DatasetName(env, w), DatasetName(env, w), Volume, ToDecimal(plan.size));
    var n := |env.storagePath| + 1;
    assert DatasetName(env, v)[n..] == v && DatasetName(env, w)[n..] == w;
    NoneFound(s.datasets, [d], DatasetNamed(DatasetName(env, v)));
    NoneFound(s.targets, Own(env, w, s').targets, TargetNamed(v));
  }

  /** Whenever one id is a prefix of another, some run interferes: after w has been created, a delete of v gets to a
      call that changes what w owns. So separation of ids is not only enough for non-interference but needed. */
  lemma SeparationNeeded(env: Env, volumes: set<string>, s0: State, v: string, request: CreateRequest)
    returns (events: seq<Event>, event: Event)
    requires v in volumes && VolumeId(request.name) in volumes && HasPrefix(v, VOLUME_PREFIX)
    requires v != VolumeId(request.name) && HasPrefix(VolumeId(request.name), v)
    requires IdsOk(s0) && Own(env, v, s0) == NOTHING && Own(env, VolumeId(request.name), s0) == NOTHING
    requires Servable(env, s0, request)
    ensures
      var w := VolumeId(request.name);
      var sys := Exec(env, volumes, System(s0, map[]), events);
      VolumeOf(event) == v && Own(env, w, Apply(env, volumes, sys, event).state) != Own(env, w, sys.state)
  {
    hide Run, Step, Own, IdsOk, First;
    var w := VolumeId(request.name);
    var create := StartCreate(request);
    var (s', op', _) := Run(env, w, s0, create, []);
    OnlyInitiatorMeets(env, v, w, s0, request);
    var i := Own(env, w, s').initiators[0];
    var made := [Create(request)] + Calls(w, 17);
    var deleting := [Delete(v), Call(v, Works), Call(v, Works), Call(v, Works)];
    events, event := made + deleting, Call(v, Works);
    ExecMakes(env, volumes, s0, request);
    DeleteReachesOver(env, volumes, System(s', map[w := op']), v, i);
    ExecTwice(env, volumes, System(s0, map[]), made, deleting);
    TakesIt(env, v, w, s', i);
  }

  lemma ExecMakes(env: Env, volumes: set<string>, s0: State, request: CreateRequest)
    requires VolumeId(request.name) in volumes
    ensures
      var w := VolumeId(request.name);
      var (s', op', _) := Run(env, w, s0, StartCreate(request), []);
      Exec(env, volumes, System(s0, map[]), [Create(request)] + Calls(w, 17)) == System(s', map[w := op'])
  {
    hide Run, Step;
    var w := VolumeId(request.name);
    var events := [Create(request)] + Calls(w, 17);
    assert events[1..] == Calls(w, 17);
    assert Apply(env, volumes, System(s0, map[]), Create(request)) == System(s0, map[w := StartCreate(request)]);
    ExecIsRun(env, volumes, s0, w, StartCreate(request), 17);
  }

  lemma TakesIt(env: Env, v: string, w: string, s: State, i: Initiator)
    requires i in Own(env, w, s).initiators
    ensures Own(env, w, Step(env, v, s, DropInitiator(i.id), Works).0) != Own(env, w, s)
  {
    hide Keep, First, Touching;
    assert i in s.initiators && InitiatorId(i.id)(i);
    var s' := Step(env, v, s, DropInitiator(i.id), Works).0;
    assert i !in s'.initiators;
    assert i !in Own(env, w, s').initiators;
  }
}
