/** Small runs in which something one might expect of the iSCSI driver fails: one input for each exact condition. */
module IscsiLimits {
  import opened Wrappers
  import opened Lists
  import opened Text
  import opened Faults
  import opened Decimal
  import opened Capacity
  import opened Csi
  import opened IscsiApi
  import opened IscsiMachine
  import opened IscsiInvariant
  import opened IscsiSafety
  import opened IscsiRuns
  import opened IscsiRollback
  import opened IscsiDeletes
  import opened IscsiListing
  import opened IscsiListingAcross
  import opened IscsiSeparation
  import opened IscsiDriver

  const ENV := Env("tank", 1)
  const V := "iscsi-a"
  const REQUEST := CreateRequest("a", [Capability(SingleNodeWriter, Mount)], None)
  const EMPTY := State([], [], [], [], [], 1, "iqn", map[1 := [Listen("host", 3260)]])
  const REFUSED := Rejected(Unavailable)

  const ZVOL := Dataset("tank/iscsi-a", "tank/iscsi-a", Volume, ToDecimal(DEFAULT_VOLUME_SIZE))
  const EXTENT := Extent(1, V, V + COMMENT_EXTENT, "zvol/tank/iscsi-a")
  const INITIATOR := Initiator(2, V + COMMENT_INITIATOR)
  const TARGET := Target(3, V, V + COMMENT_INITIATOR, 1, 2)

  lemma Names()
    ensures DatasetName(ENV, V) == "tank/iscsi-a" && ExtentPath(ENV, V) == "zvol/tank/iscsi-a"
  {
  }

  function PlanHere(): Plan {
    Plan("iqn", PortalAddress(Listen("host", 3260)), DEFAULT_VOLUME_SIZE)
  }

  lemma TwoSteps(s: State, op: Op, faults: Faults)
    requires !op.Finished? && !Step(ENV, V, s, op, Works).1.Finished?
    ensures
      var (s', op') := Step(ENV, V, s, op, Works);
      var (s'', op'') := Step(ENV, V, s', op', Works);
      Run(ENV, V, s, op, WorksFor(2, faults)) == Run(ENV, V, s'', op'', faults)
  {
    hide Step;
    var (s', op') := Step(ENV, V, s, op, Works);
    assert Later(WorksFor(2, faults)) == WorksFor(1, faults) && Later(WorksFor(1, faults)) == faults;
    OneStep(ENV, V, s, op, WorksFor(2, faults));
    OneStep(ENV, V, s', op', WorksFor(1, faults));
  }

  lemma ReadsSettings(faults: Faults)
    ensures Run(ENV, V, EMPTY, StartCreate(REQUEST), WorksFor(2, faults)) ==
      Run(ENV, V, EMPTY, FindDataset(PlanHere()), faults)
  {
    hide Run, Step;
    AtRead(ENV, V, EMPTY, REQUEST, "iqn", Works);
    TwoSteps(EMPTY, ReadGlobal(REQUEST), faults);
  }

  lemma MakesZvol(faults: Faults)
    ensures Run(ENV, V, EMPTY, FindDataset(PlanHere()), WorksFor(2, faults)) ==
      Run(ENV, V, EMPTY.(datasets := [ZVOL]), FindExtent(PlanHere(), ZVOL.id), faults)
  {
    hide Run, Step;
    Names();
    AtDataset(ENV, V, EMPTY, PlanHere(), Works);
    assert EMPTY.datasets + [ZVOL] == [ZVOL];
    TwoSteps(EMPTY, FindDataset(PlanHere()), faults);
  }

  lemma MakesExtent(s: State, faults: Faults)
    requires s == EMPTY.(datasets := [ZVOL])
    ensures Run(ENV, V, s, FindExtent(PlanHere(), ZVOL.id), WorksFor(2, faults)) ==
      Run(ENV, V, s.(extents := [EXTENT], nextId := 2), FindInitiator(PlanHere(), ZVOL.id, 1), faults)
  {
    hide Run, Step;
    Names();
    AtExtent(ENV, V, s, PlanHere(), ZVOL.id, Works);
    assert s.extents + [EXTENT] == [EXTENT] && ZVOL in s.datasets && ZvolPath(ZVOL.name) == EXTENT.path;
    TwoSteps(s, FindExtent(PlanHere(), ZVOL.id), faults);
  }

  lemma MakesInitiator(s: State, faults: Faults)
    requires s == EMPTY.(datasets := [ZVOL], extents := [EXTENT], nextId := 2)
    ensures Run(ENV, V, s, FindInitiator(PlanHere(), ZVOL.id, 1), WorksFor(2, faults)) ==
      Run(ENV, V, s.(initiators := [INITIATOR], nextId := 3), FindTarget(PlanHere(), ZVOL.id, 1, 2), faults)
  {
    hide Run, Step;
    AtInitiator(ENV, V, s, PlanHere(), ZVOL.id, 1, Works);
    assert s.initiators + [INITIATOR] == [INITIATOR];
    TwoSteps(s, FindInitiator(PlanHere(), ZVOL.id, 1), faults);
  }

  lemma MakesTarget(s: State, faults: Faults)
    requires s == EMPTY.(datasets := [ZVOL], extents := [EXTENT], initiators := [INITIATOR], nextId := 3)
    ensures Run(ENV, V, s, FindTarget(PlanHere(), ZVOL.id, 1, 2), WorksFor(2, faults)) ==
      Run(ENV, V, s.(targets := [TARGET], nextId := 4), FindMapping(PlanHere(), ZVOL.id, 1, 2, 3), faults)
  {
    hide Run, Step;
    AtTarget(ENV, V, s, PlanHere(), ZVOL.id, 1, 2, Works);
    assert s.targets + [TARGET] == [TARGET];
    TwoSteps(s, FindTarget(PlanHere(), ZVOL.id, 1, 2), faults);
  }

  /** The store when a create has made everything but the mapping. */
  const UNMAPPED := State([ZVOL], [EXTENT], [INITIATOR], [TARGET], [], 4, "iqn", map[1 := [Listen("host", 3260)]])

  lemma MakesAllButMapping(faults: Faults)
    ensures Run(ENV, V, EMPTY, StartCreate(REQUEST), WorksFor(10, faults)) ==
      Run(ENV, V, UNMAPPED, FindMapping(PlanHere(), ZVOL.id, 1, 2, 3), faults)
  {
    hide Run;
    var f2, f4, f6, f8 := WorksFor(2, faults), WorksFor(4, faults), WorksFor(6, faults), WorksFor(8, faults);
    assert WorksFor(10, faults) == WorksFor(2, f8) && f8 == WorksFor(2, f6);
    assert f6 == WorksFor(2, f4) && f4 == WorksFor(2, f2);
    ReadsSettings(f8);
    MakesZvol(f6);
    MakesExtent(EMPTY.(datasets := [ZVOL]), f4);
    MakesInitiator(EMPTY.(datasets := [ZVOL], extents := [EXTENT], nextId := 2), f2);
    MakesTarget(EMPTY.(datasets := [ZVOL], extents := [EXTENT], initiators := [INITIATOR], nextId := 3), faults);
  }

  const TWO_VOLUMES := {V, "iscsi-b"}

  /** What is assumed of the store at the start can be met. */
  lemma EmptyVacant()
    ensures Vacant(ENV, TWO_VOLUMES, EMPTY) && Exclusive(ENV, TWO_VOLUMES, EMPTY) && Servable(ENV, EMPTY, REQUEST)
  {
    assert V[6] == 'a' && "iscsi-b"[6] == 'b';
    assert !HasPrefix(V, "iscsi-b") && !HasPrefix("iscsi-b", V);
    forall v | v in TWO_VOLUMES ensures Own(ENV, v, EMPTY) == NOTHING {
      EmptyOwn(v);
    }
  }

  lemma EmptyOwn(v: string)
    ensures Own(ENV, v, EMPTY) == NOTHING
  {
  }

  lemma EmptyInOrder()
    ensures InOrder(ENV, V, EMPTY) && Own(ENV, V, EMPTY) == NOTHING
  {
  }

  /** The store after one create whose calls all work. */
  function Made(request: CreateRequest): State {
    Run(ENV, V, EMPTY, StartCreate(request), []).0
  }

  lemma MadeComplete(request: CreateRequest)
    requires Servable(ENV, EMPTY, request)
    ensures InOrder(ENV, V, Made(request)) && Complete(Own(ENV, V, Made(request)))
    ensures Servable(ENV, Made(request), REQUEST)
  {
    hide Run, Own, IdsOk, VolumeOk, Complete, Rest;
    EmptyInOrder();
    CreateRun(ENV, V, EMPTY, request);
  }

  /** A create repeated on the volume it has made, its last look-up failing and its clean-up working, loses all but
      the zvol. */
  lemma RetryLosesVolume()
    ensures
      var s := Made(REQUEST);
      var (s', op', _) := Run(ENV, V, s, StartCreate(REQUEST), WorksFor(6, [REFUSED]));
      op' == Finished(Failure(Internal)) && Own(ENV, V, s').extents == [] && !SameObjects(s, s')
  {
    hide Run, Own, IdsOk, VolumeOk;
    var s := Made(REQUEST);
    MadeComplete(REQUEST);
    FailedRetry(ENV, V, s, REQUEST, Unavailable);
    if SameObjects(s, Run(ENV, V, s, StartCreate(REQUEST), WorksFor(6, [REFUSED])).0) {
      SameOwn(ENV, V, s, Run(ENV, V, s, StartCreate(REQUEST), WorksFor(6, [REFUSED])).0);
    }
  }

  const SMALL_REQUEST := REQUEST.(range := Some(Range(GIB, 0)))

  /** The zvol of an earlier, smaller request keeps its size, and the answer gives the size now asked for. */
  lemma AnswersWrongSize()
    ensures
      var (s', op', _) := Run(ENV, V, Made(SMALL_REQUEST), StartCreate(REQUEST), []);
      && op'.Finished? && op'.outcome.Provisioned? && op'.outcome.response.capacity == 16 * GIB
      && |Own(ENV, V, s').datasets| == 1 && ParseInt64(Own(ENV, V, s').datasets[0].volsize) != Some(16 * GIB)
  {
    hide Run, IdsOk, VolumeOk, ParseInt64, Own;
    EmptyInOrder();
    SizeReported(ENV, V, EMPTY, SMALL_REQUEST);
    MadeComplete(SMALL_REQUEST);
    SizeReported(ENV, V, Made(SMALL_REQUEST), REQUEST);
  }

  /** What a create from nothing leaves when its last look-up fails and, in clean-up, the removal of the target. */
  const STRANDED := EMPTY.(targets := [TARGET], nextId := 4)

  lemma TargetStranded()
    ensures Run(ENV, V, EMPTY, StartCreate(REQUEST), WorksFor(10, [REFUSED, Works, Works, Works, REFUSED])) ==
      (STRANDED, Finished(Failure(Internal)), [])
  {
    hide Run, Step;
    var faults := [REFUSED, Works, Works, Works, REFUSED];
    var todo := [RemoveDataset(ZVOL.id), RemoveExtent(1), RemoveInitiator(2), RemoveTarget(3)];
    MakesAllButMapping(faults);
    OneStep(ENV, V, UNMAPPED, FindMapping(PlanHere(), ZVOL.id, 1, 2, 3), faults);
    AtMapping(ENV, V, UNMAPPED, PlanHere(), ZVOL.id, 1, 2, 3, REFUSED);
    assert Later(faults) == [Works, Works, Works, REFUSED];
    ZvolGoes();
    Undoes(UNMAPPED, todo, Internal, [Works, Works, Works, REFUSED]);
    RestGoes();
  }

  lemma Undoes(s: State, todo: seq<Removal>, status: Status, faults: Faults)
    requires todo != []
    ensures Run(ENV, V, s, Undo(todo, status), faults) ==
      Run(ENV, V, Remove(s, todo[0], Next(faults)), Unwind(todo[1..], status), Later(faults))
  {
    hide Run, Step;
    OneStep(ENV, V, s, Undo(todo, status), faults);
    AtUndo(ENV, V, s, todo, status, Next(faults));
  }

  lemma ZvolGoes()
    ensures Remove(UNMAPPED, RemoveDataset(ZVOL.id), Works) == UNMAPPED.(datasets := [], extents := [])
  {
    assert First(UNMAPPED.datasets, DatasetId(ZVOL.id)) == Some(ZVOL);
    KeepNotOne(UNMAPPED.datasets, Not(DatasetId(ZVOL.id)));
    KeepNotOne(UNMAPPED.extents, Not(ExtentAt(ZvolPath(ZVOL.name))));
  }

  lemma RestGoes()
    ensures
      var s := UNMAPPED.(datasets := [], extents := []);
      Run(ENV, V, s, Undo([RemoveExtent(1), RemoveInitiator(2), RemoveTarget(3)], Internal), [Works, Works, REFUSED]) ==
      (STRANDED, Finished(Failure(Internal)), [])
  {
    hide Run, Remove;
    var s := UNMAPPED.(datasets := [], extents := []);
    RestRemoved(s);
    var todo := [RemoveExtent(1), RemoveInitiator(2), RemoveTarget(3)];
    Undoes(s, todo, Internal, [Works, Works, REFUSED]);
    assert todo[1..] == [RemoveInitiator(2), RemoveTarget(3)] && Later([Works, Works, REFUSED]) == [Works, REFUSED];
    Undoes(s, todo[1..], Internal, [Works, REFUSED]);
    assert todo[1..][1..] == [RemoveTarget(3)] && Later([Works, REFUSED]) == [REFUSED];
    Undoes(STRANDED, [RemoveTarget(3)], Internal, [REFUSED]);
    assert [RemoveTarget(3)][1..] == [] && Later([REFUSED]) == [];
    RunEnds(ENV, V, STRANDED, Failure(Internal), []);
  }

  lemma RestRemoved(s: State)
    requires s == UNMAPPED.(datasets := [], extents := [])
    ensures Remove(s, RemoveExtent(1), Works) == s && Remove(s, RemoveInitiator(2), Works) == STRANDED
    ensures Remove(STRANDED, RemoveTarget(3), REFUSED) == STRANDED
  {
    InitiatorGoes(s);
  }

  /** The next create adopts the target that was left, makes a new initiator, and answers with success; the target
      names an initiator that is gone. */
  lemma TargetNamesNobody()
    ensures
      var s := Run(ENV, V, EMPTY, StartCreate(REQUEST), WorksFor(10, [REFUSED, Works, Works, Works, REFUSED])).0;
      var (s', op', _) := Run(ENV, V, s, StartCreate(REQUEST), []);
      && op'.Finished? && op'.outcome.Provisioned?
      && |Own(ENV, V, s').targets| == 1 && |Own(ENV, V, s').initiators| == 1
      && Own(ENV, V, s').targets[0].initiator != Own(ENV, V, s').initiators[0].id
  {
    hide Run, Own, IdsOk, VolumeOk, Step;
    TargetStranded();
    StrandedInOrder();
    TargetNamesInitiator(ENV, V, STRANDED, REQUEST);
    CreateConverges(ENV, V, STRANDED, REQUEST);
  }

  lemma StrandedInOrder()
    ensures InOrder(ENV, V, STRANDED)
    ensures Own(ENV, V, STRANDED).targets == [TARGET] && Own(ENV, V, STRANDED).initiators == []
  {
    hide Run, IdsOk, VolumeOk;
    EmptyInOrder();
    TargetStranded();
    RunKeeps(ENV, V, EMPTY, StartCreate(REQUEST), WorksFor(10, [REFUSED, Works, Works, Works, REFUSED]));
    KeepAll(STRANDED.targets, TargetNamed(V));
  }

  // A making call that takes effect before it fails

  const MAPPED := UNMAPPED.(mappings := [Mapping(3, 1, 0)])
  const ZVOL_ONLY := EMPTY.(datasets := [ZVOL], nextId := 4)
  const REPLY_LOST := LostReply(Unavailable)

  /** From nothing: the mapping is made but its reply is lost. The zvol is in use when clean-up gets to it, and
      stays. */
  lemma MappingReplyLost()
    ensures Run(ENV, V, EMPTY, StartCreate(REQUEST), WorksFor(10, [Works, REPLY_LOST])) ==
      (ZVOL_ONLY, Finished(Failure(Backend)), [])
    ensures Own(ENV, V, EMPTY) == NOTHING && !SameObjects(EMPTY, ZVOL_ONLY)
  {
    hide Run, Step, Remove, Own;
    EmptyInOrder();
    MakesAllButMapping([Works, REPLY_LOST]);
    MapsAndFails();
    AllRemoved();
    var todo := [RemoveDataset(ZVOL.id), RemoveExtent(1), RemoveInitiator(2), RemoveTarget(3)];
    var s1 := MAPPED.(extents := [], mappings := []);
    var s2 := s1.(initiators := []);
    Undoes(MAPPED, todo, Backend, []);
    assert todo[1..] == [RemoveExtent(1), RemoveInitiator(2), RemoveTarget(3)];
    Undoes(MAPPED, todo[1..], Backend, []);
    assert todo[1..][1..] == [RemoveInitiator(2), RemoveTarget(3)];
    Undoes(s1, todo[1..][1..], Backend, []);
    assert todo[1..][1..][1..] == [RemoveTarget(3)];
    Undoes(s2, [RemoveTarget(3)], Backend, []);
    assert [RemoveTarget(3)][1..] == [];
    RunEnds(ENV, V, ZVOL_ONLY, Failure(Backend), []);
  }

  lemma MapsAndFails()
    ensures Run(ENV, V, UNMAPPED, FindMapping(PlanHere(), ZVOL.id, 1, 2, 3), [Works, REPLY_LOST]) ==
      Run(ENV, V, MAPPED,
          Undo([RemoveDataset(ZVOL.id), RemoveExtent(1), RemoveInitiator(2), RemoveTarget(3)], Backend), [])
  {
    hide Run, Step;
    AtMapping(ENV, V, UNMAPPED, PlanHere(), ZVOL.id, 1, 2, 3, Works);
    AtMapping(ENV, V, UNMAPPED, PlanHere(), ZVOL.id, 1, 2, 3, REPLY_LOST);
    assert UnitsOf(UNMAPPED.mappings, 3) == {};
    assert UNMAPPED.mappings + [Mapping(3, 1, 0)] == [Mapping(3, 1, 0)];
    OneStep(ENV, V, UNMAPPED, FindMapping(PlanHere(), ZVOL.id, 1, 2, 3), [Works, REPLY_LOST]);
    assert Later([Works, REPLY_LOST]) == [REPLY_LOST] && Later([REPLY_LOST]) == [];
    OneStep(ENV, V, UNMAPPED, MakeMapping(PlanHere(), ZVOL.id, 1, 2, 3), [REPLY_LOST]);
  }

  lemma AllRemoved()
    ensures Remove(MAPPED, RemoveDataset(ZVOL.id), Works) == MAPPED
    ensures
      var s1 := MAPPED.(extents := [], mappings := []);
      var s2 := s1.(initiators := []);
      && Remove(MAPPED, RemoveExtent(1), Works) == s1
      && Remove(s1, RemoveInitiator(2), Works) == s2
      && Remove(s2, RemoveTarget(3), Works) == ZVOL_ONLY
  {
    hide Remove;
    var s1 := MAPPED.(extents := [], mappings := []);
    ZvolStays();
    ExtentGoes(MAPPED);
    InitiatorGoes(s1);
    TargetGoes(s1.(initiators := []));
  }

  lemma ZvolStays()
    ensures Remove(MAPPED, RemoveDataset(ZVOL.id), Works) == MAPPED
  {
    assert First(MAPPED.datasets, DatasetId(ZVOL.id)) == Some(ZVOL);
    assert EXTENT in MAPPED.extents && Mapping(3, 1, 0) in MAPPED.mappings;
  }

  lemma ExtentGoes(s: State)
    requires s.extents == [EXTENT] && s.mappings == [Mapping(3, 1, 0)]
    ensures Remove(s, RemoveExtent(1), Works) == s.(extents := [], mappings := [])
  {
    assert First(s.extents, ExtentId(1)) == Some(EXTENT);
    KeepNotOne(s.extents, Not(ExtentId(1)));
    KeepNotOne(s.mappings, Not(OfExtent(1)));
  }

  lemma InitiatorGoes(s: State)
    requires s.initiators == [INITIATOR]
    ensures Remove(s, RemoveInitiator(2), Works) == s.(initiators := [])
  {
    assert First(s.initiators, InitiatorId(2)) == Some(INITIATOR);
    KeepNotOne(s.initiators, Not(InitiatorId(2)));
  }

  lemma TargetGoes(s: State)
    requires s.targets == [TARGET] && s.mappings == []
    ensures Remove(s, RemoveTarget(3), Works) == s.(targets := [])
  {
    assert First(s.targets, TargetId(3)) == Some(TARGET);
    KeepNotOne(s.targets, Not(TargetId(3)));
  }

  const NEIGHBOUR := Initiator(1, "iscsi-ab" + COMMENT_INITIATOR)

  /** With volumes a and ab, deleting what is left of a takes the initiator of ab. */
  lemma NeighbourLosesInitiator()
    ensures
      var s := EMPTY.(initiators := [NEIGHBOUR], nextId := 2);
      var (s', op', _) := Run(ENV, V, s, StartDelete(V), []);
      op' == Finished(Deleted) && s'.initiators == []
  {
    hide Run, Own, Keep, IdsOk, VolumeOk;
    var s := EMPTY.(initiators := [NEIGHBOUR], nextId := 2);
    NeighbourOnly(s);
    DeleteCompletes(ENV, V, s);
    KeepNone(s.initiators, Not(CommentStarts(V)));
  }

  lemma NeighbourOnly(s: State)
    requires s == EMPTY.(initiators := [NEIGHBOUR], nextId := 2)
    ensures InOrder(ENV, V, s)
  {
    NoMappings(s);
    KeepAll(s.initiators, CommentStarts(V));
  }

  lemma NoMappings(s: State)
    requires s.mappings == []
    ensures Own(ENV, V, s).mappings == []
  {
  }

  // A volume made anew between the calls of a listing

  const ONE_VOLUME := {V}

  /** A create that arrives, makes all its calls and answers. */
  function Creates(request: CreateRequest): seq<Event> {
    [Create(request)] + Calls(V, 17) + [Forget(V)]
  }

  function Deletes(): seq<Event> {
    [Delete(V)] + Calls(V, 6) + [Forget(V)]
  }

  lemma ExecStarted(s: State, start: Event, op: Op, n: nat)
    requires Apply(ENV, ONE_VOLUME, System(s, map[]), start) == System(s, map[V := op]) && Remaining(op) <= n
    ensures Exec(ENV, ONE_VOLUME, System(s, map[]), [start] + Calls(V, n) + [Forget(V)]) ==
      System(Run(ENV, V, s, op, []).0, map[])
  {
    hide Run, Step, Apply;
    var events := [start] + Calls(V, n);
    var (s', op', _) := Run(ENV, V, s, op, []);
    assert events[1..] == Calls(V, n);
    ExecIsRun(ENV, ONE_VOLUME, s, V, op, n);
    assert Exec(ENV, ONE_VOLUME, System(s, map[]), events) == System(s', map[V := op']);
    ExecTwice(ENV, ONE_VOLUME, System(s, map[]), events, [Forget(V)]);
    Forgotten(s', op');
  }

  lemma Forgotten(s: State, op: Op)
    ensures Exec(ENV, ONE_VOLUME, System(s, map[V := op]), [Forget(V)]) == System(s, map[])
  {
    var sys := System(s, map[V := op]);
    assert sys.ops - {V} == map[];
    assert [Forget(V)][1..] == [];
    assert Exec(ENV, ONE_VOLUME, sys, [Forget(V)]) == Exec(ENV, ONE_VOLUME, System(s, map[]), []);
  }

  lemma ExecCreates(s: State, request: CreateRequest)
    requires request.name == "a"
    ensures Exec(ENV, ONE_VOLUME, System(s, map[]), Creates(request)) ==
      System(Run(ENV, V, s, StartCreate(request), []).0, map[])
  {
    hide Run, Step;
    assert VolumeId(request.name) == V;
    ExecStarted(s, Create(request), StartCreate(request), 17);
  }

  lemma ExecDeletes(s: State)
    ensures Exec(ENV, ONE_VOLUME, System(s, map[]), Deletes()) == System(Run(ENV, V, s, StartDelete(V), []).0, map[])
  {
    hide Run, Step;
    ExecStarted(s, Delete(V), StartDelete(V), 6);
  }

  /** The volume deleted and made anew, larger. */
  function MadeAnew(): State {
    Run(ENV, V, Run(ENV, V, Made(SMALL_REQUEST), StartDelete(V), []).0, StartCreate(REQUEST), []).0
  }

  lemma AnewInOrder()
    ensures Complete(Own(ENV, V, Made(SMALL_REQUEST))) && Complete(Own(ENV, V, MadeAnew()))
    ensures ParseInt64(Own(ENV, V, Made(SMALL_REQUEST)).datasets[0].volsize) == Some(GIB)
    ensures ParseInt64(Own(ENV, V, MadeAnew()).datasets[0].volsize) == Some(16 * GIB)
  {
    hide Run, Own, IdsOk, VolumeOk, ParseInt64, Confined, Without;
    EmptyInOrder();
    MadeComplete(SMALL_REQUEST);
    SizeReported(ENV, V, EMPTY, SMALL_REQUEST);
    var s := Made(SMALL_REQUEST);
    var gone := Run(ENV, V, s, StartDelete(V), []).0;
    DeleteCompletes(ENV, V, s);
    RunKeeps(ENV, V, s, StartDelete(V), []);
    StillServable(s, gone);
    CreateRun(ENV, V, gone, REQUEST);
    SizeReported(ENV, V, gone, REQUEST);
  }

  lemma StillServable(s: State, s': State)
    requires Servable(ENV, s, REQUEST) && Confined(ENV, V, s, s')
    ensures Servable(ENV, s', REQUEST)
  {
    hide Rest;
  }

  lemma OneVacant()
    ensures Vacant(ENV, ONE_VOLUME, EMPTY) && Exclusive(ENV, ONE_VOLUME, EMPTY)
  {
    EmptyOwn(V);
  }

  /** A listing sees the zvol of 1 GiB; before its second call the volume is deleted and made anew with 16 GiB. It
      lists the volume with 1 GiB. */
  lemma StaleSize()
    ensures
      var sys1 := Exec(ENV, ONE_VOLUME, System(EMPTY, map[]), Creates(SMALL_REQUEST));
      var s1, s2 := sys1.state, Exec(ENV, ONE_VOLUME, sys1, Deletes() + Creates(REQUEST)).state;
      var listing := ListVolumes(ENV, Seen(s1, s2, s2, s2));
      && listing.Ok? && Entry(V, GIB) in listing.value
      && |Own(ENV, V, s2).datasets| == 1 && ParseInt64(Own(ENV, V, s2).datasets[0].volsize) == Some(16 * GIB)
  {
    hide Run, Own, Exec, ListVolumes, ParseInt64, Vacant, Exclusive;
    var sys1 := Exec(ENV, ONE_VOLUME, System(EMPTY, map[]), Creates(SMALL_REQUEST));
    var sys2 := Exec(ENV, ONE_VOLUME, sys1, Deletes() + Creates(REQUEST));
    ExecCreates(EMPTY, SMALL_REQUEST);
    ExecDeletes(Made(SMALL_REQUEST));
    ExecTwice(ENV, ONE_VOLUME, sys1, Deletes(), Creates(REQUEST));
    ExecCreates(Run(ENV, V, Made(SMALL_REQUEST), StartDelete(V), []).0, REQUEST);
    AnewInOrder();
    OneVacant();
    NothingHappens(sys2);
    ListingAmidOthers(ENV, ONE_VOLUME, EMPTY, Creates(SMALL_REQUEST), Deletes() + Creates(REQUEST), [], []);
    var entries := ListVolumes(ENV, Seen(sys1.state, sys2.state, sys2.state, sys2.state)).value;
    assert Linked(ENV, V, sys1.state, sys2.state, sys2.state, sys2.state);
    var i :| 0 <= i < |entries| && entries[i].volumeId == V;
    assert entries[i] == Entry(V, GIB);
  }

  lemma NothingHappens(sys: System)
    ensures Exec(ENV, ONE_VOLUME, sys, []) == sys
  {
  }
}
