/**
 What each store call does to the objects of the volume it is made for, and that it does nothing to
 any other object; then, step by step, that every operation keeps the invariant.
 */
module IscsiSteps {
  import opened Wrappers
  import opened Lists
  import opened Text
  import opened Faults
  import opened Decimal
  import opened Capacity
  import opened Csi
  import opened IscsiApi
  import opened IscsiMachine
  import opened IscsiInvariant

  // Creations

  /** Adding an object under a fresh id keeps ids unambiguous. */
  lemma FreshIds(s: State, s': State)
    requires IdsOk(s) && s'.nextId == s.nextId + 1
    requires s'.datasets == s.datasets && s'.mappings == s.mappings
    requires s'.extents == s.extents || exists e :: s'.extents == s.extents + [e] && e.id == s.nextId
    requires s'.initiators == s.initiators || exists i :: s'.initiators == s.initiators + [i] && i.id == s.nextId
    requires s'.targets == s.targets ||
      exists t :: s'.targets == s.targets + [t] && t.id == s.nextId && t.initiator < s.nextId
    ensures IdsOk(s')
    ensures forall e | e in s'.extents :: e in s.extents || e.id >= s.nextId
    ensures forall i | i in s'.initiators :: i in s.initiators || i.id >= s.nextId
    ensures forall t | t in s'.targets :: t in s.targets || t.id >= s.nextId
  {
  }

  lemma DatasetIds(s: State, d: Dataset)
    requires IdsOk(s) && d.id == d.name
    ensures IdsOk(s.(datasets := s.datasets + [d]))
  {
  }

  lemma DatasetCreated(env: Env, v: string, s: State, size: VolumeSize)
    requires IdsOk(s)
    ensures
      var d := Dataset(DatasetName(env, v), DatasetName(env, v), Volume, ToDecimal(size));
      var s' := s.(datasets := s.datasets + [d]);
      && Own(env, v, s') == Own(env, v, s).(datasets := Own(env, v, s).datasets + [d])
      && Confined(env, v, s, s') && IdsOk(s')
  {
    hide Keep, First, Touching, IdsOk;
    var d := Dataset(DatasetName(env, v), DatasetName(env, v), Volume, ToDecimal(size));
    DatasetIds(s, d);
    KeepOne(s.datasets, d, DatasetNamed(DatasetName(env, v)));
    KeepOne(s.datasets, d, Not(DatasetNamed(DatasetName(env, v))));
  }

  lemma FreshExtentUntouched(s: State, targets: seq<Target>, extents: seq<Extent>, e: Extent)
    requires IdsOk(s) && e.id == s.nextId
    ensures forall m | m in s.mappings :: Touching(targets, extents + [e])(m) <==> Touching(targets, extents)(m)
  {
    forall m | m in s.mappings ensures Touching(targets, extents + [e])(m) <==> Touching(targets, extents)(m) {
      assert forall x | x in extents + [e] :: x in extents || x == e;
      assert forall x | x in extents :: x in extents + [e];
    }
  }

  lemma FreshTargetUntouched(s: State, targets: seq<Target>, extents: seq<Extent>, t: Target)
    requires IdsOk(s) && t.id == s.nextId
    ensures forall m | m in s.mappings :: Touching(targets + [t], extents)(m) <==> Touching(targets, extents)(m)
  {
    forall m | m in s.mappings ensures Touching(targets + [t], extents)(m) <==> Touching(targets, extents)(m) {
      assert forall x | x in targets + [t] :: x in targets || x == t;
      assert forall x | x in targets :: x in targets + [t];
    }
  }

  lemma ExtentCreated(env: Env, v: string, s: State, name: string, comment: string)
    requires IdsOk(s)
    ensures
      var e := Extent(s.nextId, name, comment, ExtentPath(env, v));
      var s' := s.(extents := s.extents + [e], nextId := s.nextId + 1);
      && Own(env, v, s') == Own(env, v, s).(extents := Own(env, v, s).extents + [e])
      && Confined(env, v, s, s') && IdsOk(s')
  {
    hide Keep, First, IdsOk, Touching;
    var e := Extent(s.nextId, name, comment, ExtentPath(env, v));
    var s' := s.(extents := s.extents + [e], nextId := s.nextId + 1);
    FreshIds(s, s');
    KeepOne(s.extents, e, ExtentAt(ExtentPath(env, v)));
    KeepOne(s.extents, e, Not(ExtentAt(ExtentPath(env, v))));
    assert OwnExtents(env, v, s') == OwnExtents(env, v, s) + [e];
    assert OwnTargets(v, s') == OwnTargets(v, s);
    FreshExtentUntouched(s, OwnTargets(v, s), OwnExtents(env, v, s), e);
    SameTouch(env, v, s, s');
  }

  lemma InitiatorCreated(env: Env, v: string, s: State, suffix: string)
    requires IdsOk(s)
    ensures
      var i := Initiator(s.nextId, v + suffix);
      var s' := s.(initiators := s.initiators + [i], nextId := s.nextId + 1);
      && Own(env, v, s') == Own(env, v, s).(initiators := Own(env, v, s).initiators + [i])
      && Confined(env, v, s, s') && IdsOk(s')
  {
    hide Keep, First, Touching, IdsOk;
    var i := Initiator(s.nextId, v + suffix);
    FreshIds(s, s.(initiators := s.initiators + [i], nextId := s.nextId + 1));
    KeepOne(s.initiators, i, CommentStarts(v));
    KeepOne(s.initiators, i, Not(CommentStarts(v)));
  }

  lemma TargetCreated(env: Env, v: string, s: State, alias: string, portal: int, initiator: int)
    requires IdsOk(s) && initiator < s.nextId
    ensures
      var t := Target(s.nextId, v, alias, portal, initiator);
      var s' := s.(targets := s.targets + [t], nextId := s.nextId + 1);
      && Own(env, v, s') == Own(env, v, s).(targets := Own(env, v, s).targets + [t])
      && Confined(env, v, s, s') && IdsOk(s')
  {
    hide Keep, First, IdsOk, Touching;
    var t := Target(s.nextId, v, alias, portal, initiator);
    var s' := s.(targets := s.targets + [t], nextId := s.nextId + 1);
    FreshIds(s, s');
    KeepOne(s.targets, t, TargetNamed(v));
    KeepOne(s.targets, t, Not(TargetNamed(v)));
    assert OwnTargets(v, s') == OwnTargets(v, s) + [t];
    assert OwnExtents(env, v, s') == OwnExtents(env, v, s);
    FreshTargetUntouched(s, OwnTargets(v, s), OwnExtents(env, v, s), t);
    SameTouch(env, v, s, s');
  }

  /** Objects with fresh ids are touched by no mapping. */
  lemma SameTouch(env: Env, v: string, s: State, s': State)
    requires s'.mappings == s.mappings
    requires forall m | m in s.mappings ::
      Touching(OwnTargets(v, s'), OwnExtents(env, v, s'))(m) <==> Touching(OwnTargets(v, s), OwnExtents(env, v, s))(m)
    ensures Own(env, v, s').mappings == Own(env, v, s).mappings
    ensures Rest(env, v, s').mappings == Rest(env, v, s).mappings
  {
    hide Keep, First;
    var before := Touching(OwnTargets(v, s), OwnExtents(env, v, s));
    var after := Touching(OwnTargets(v, s'), OwnExtents(env, v, s'));
    KeepSame(s.mappings, after, before);
    KeepSame(s.mappings, Not(after), Not(before));
  }

  lemma OwnIdsBelow(env: Env, v: string, s: State, tgt: int, ext: int)
    requires IdsOk(s) && HasTarget(Own(env, v, s), tgt) && HasExtent(Own(env, v, s), ext)
    ensures tgt < s.nextId && ext < s.nextId
  {
    assert OwnTargets(v, s)[0] in s.targets && OwnExtents(env, v, s)[0] in s.extents;
  }

  /** A volume without a mapping has every unit of its target free, and a mapping to the target is its own. */
  lemma TargetUnmapped(env: Env, v: string, s: State, tgt: int, m: Mapping)
    requires HasTarget(Own(env, v, s), tgt) && Own(env, v, s).mappings == [] && m.target == tgt
    ensures forall ext :: CreateMapping(s, tgt, ext, Works).0 == s.(mappings := s.mappings + [Mapping(tgt, ext, 0)])
    ensures Touching(OwnTargets(v, s), OwnExtents(env, v, s))(m)
  {
    hide Keep;
    var touching := Touching(OwnTargets(v, s), OwnExtents(env, v, s));
    assert OwnTargets(v, s)[0] in OwnTargets(v, s);
    assert forall other | other in s.mappings && touching(other) :: other in Own(env, v, s).mappings;
    assert UnitsOf(s.mappings, tgt) == {};
  }

  lemma MappedIds(s: State, m: Mapping)
    requires IdsOk(s)
    ensures m.target < s.nextId && m.extent < s.nextId ==> IdsOk(s.(mappings := s.mappings + [m]))
  {
  }

  lemma MappingCreated(env: Env, v: string, s: State, tgt: int, ext: int)
    requires IdsOk(s) && HasTarget(Own(env, v, s), tgt) && HasExtent(Own(env, v, s), ext)
    requires Own(env, v, s).mappings == []
    ensures
      var m := Mapping(tgt, ext, 0);
      var s' := s.(mappings := s.mappings + [m]);
      && CreateMapping(s, tgt, ext, Works).0 == s'
      && Own(env, v, s') == Own(env, v, s).(mappings := [m])
      && Confined(env, v, s, s') && IdsOk(s')
  {
    hide Keep, First, Touching, CreateMapping, HasTarget, HasExtent, IdsOk;
    var m := Mapping(tgt, ext, 0);
    MappedIds(s, m);
    var touching := Touching(OwnTargets(v, s), OwnExtents(env, v, s));
    OwnIdsBelow(env, v, s, tgt, ext);
    TargetUnmapped(env, v, s, tgt, m);
    KeepOne(s.mappings, m, touching);
    KeepOne(s.mappings, m, Not(touching));
  }

  // Removals

  /** A mapping is lost exactly when its target or its extent is. */
  lemma MappingsRemoved(env: Env, v: string, s: State, s': State, kept: Mapping -> bool)
    requires s'.mappings == Keep(s.mappings, kept)
    requires forall m | m in s.mappings && kept(m) ::
      Touching(OwnTargets(v, s'), OwnExtents(env, v, s'))(m) <==> Touching(OwnTargets(v, s), OwnExtents(env, v, s))(m)
    requires forall m | m in s.mappings && !kept(m) :: Touching(OwnTargets(v, s), OwnExtents(env, v, s))(m)
    ensures Own(env, v, s').mappings == Keep(Own(env, v, s).mappings, kept)
    ensures Rest(env, v, s').mappings == Rest(env, v, s).mappings
  {
    hide Keep, First;
    var before := Touching(OwnTargets(v, s), OwnExtents(env, v, s));
    var after := Touching(OwnTargets(v, s'), OwnExtents(env, v, s'));
    var both := (m: Mapping) => kept(m) && before(m);
    KeepKeep(s.mappings, kept, after, both);
    KeepKeep(s.mappings, before, kept, both);
    KeepKeep(s.mappings, kept, Not(after), Not(before));
  }

  lemma TargetDeleted(env: Env, v: string, s: State, id: int)
    requires IdsOk(s) && VolumeOk(Own(env, v, s)) && HasTarget(Own(env, v, s), id)
    ensures
      var s' := DeleteTarget(s, id, Works).0;
      && DeleteTarget(s, id, Works).1.Ok?
      && Own(env, v, s') == Own(env, v, s).(targets := [], mappings := [])
      && OwnChange(env, v, s, s') && s'.nextId == s.nextId
  {
    hide Keep, First;
    var s' := DeleteTarget(s, id, Works).0;
    var t := OwnTargets(v, s)[0];
    assert t in s.targets && t in OwnTargets(v, s);
    var both := (x: Target) => x.name == v && x.id != id;
    KeepKeep(s.targets, Not(TargetId(id)), TargetNamed(v), both);
    KeepKeep(s.targets, TargetNamed(v), Not(TargetId(id)), both);
    KeepNotOne(OwnTargets(v, s), Not(TargetId(id)));
    KeepThrough(s.targets, Not(TargetId(id)), Not(TargetNamed(v)));
    MappingsRemoved(env, v, s, s', Not(OfTarget(id)));
    KeepNone(Own(env, v, s).mappings, Not(OfTarget(id)));
  }

  lemma ExtentDeleted(env: Env, v: string, s: State, id: int)
    requires IdsOk(s) && VolumeOk(Own(env, v, s)) && HasExtent(Own(env, v, s), id)
    ensures
      var s' := DeleteExtent(s, id, Works).0;
      && Own(env, v, s') == Own(env, v, s).(extents := [], mappings := [])
      && OwnChange(env, v, s, s') && s'.nextId == s.nextId
  {
    hide Keep, First;
    var s' := DeleteExtent(s, id, Works).0;
    var e := OwnExtents(env, v, s)[0];
    assert e in s.extents && e in OwnExtents(env, v, s);
    var both := (x: Extent) => x.path == ExtentPath(env, v) && x.id != id;
    KeepKeep(s.extents, Not(ExtentId(id)), ExtentAt(ExtentPath(env, v)), both);
    KeepKeep(s.extents, ExtentAt(ExtentPath(env, v)), Not(ExtentId(id)), both);
    KeepNotOne(OwnExtents(env, v, s), Not(ExtentId(id)));
    KeepThrough(s.extents, Not(ExtentId(id)), Not(ExtentAt(ExtentPath(env, v))));
    MappingsRemoved(env, v, s, s', Not(OfExtent(id)));
    KeepNone(Own(env, v, s).mappings, Not(OfExtent(id)));
  }

  lemma InitiatorDeleted(env: Env, v: string, s: State, id: int)
    requires IdsOk(s) && VolumeOk(Own(env, v, s)) && HasInitiator(Own(env, v, s), id)
    ensures
      var s' := DeleteInitiator(s, id, Works).0;
      && DeleteInitiator(s, id, Works).1.Ok?
      && Own(env, v, s') == Own(env, v, s).(initiators := [])
      && OwnChange(env, v, s, s') && s'.nextId == s.nextId
  {
    hide Keep, Touching;
    var i := Own(env, v, s).initiators[0];
    assert i in s.initiators && HasPrefix(i.comment, v);
    var both := (x: Initiator) => HasPrefix(x.comment, v) && x.id != id;
    KeepKeep(s.initiators, Not(InitiatorId(id)), CommentStarts(v), both);
    KeepKeep(s.initiators, CommentStarts(v), Not(InitiatorId(id)), both);
    KeepNotOne(Own(env, v, s).initiators, Not(InitiatorId(id)));
    KeepThrough(s.initiators, Not(InitiatorId(id)), Not(CommentStarts(v)));
  }

  /** The busy rule, said of the volume: its dataset is in use exactly when it has a mapping. */
  lemma BusyWhenMapped(env: Env, v: string, s: State)
    requires IdsOk(s) && VolumeOk(Own(env, v, s))
    ensures InUse(s, DatasetName(env, v)) <==> Own(env, v, s).mappings != []
  {
    hide Keep, First;
    var o := Own(env, v, s);
    if o.mappings != [] {
      assert o.extents[0] in s.extents && o.mappings[0] in s.mappings;
    }
    if InUse(s, DatasetName(env, v)) {
      var e, m :| e in s.extents && m in s.mappings && e.path == ExtentPath(env, v) && m.extent == e.id;
      assert e in OwnExtents(env, v, s);
      assert m in o.mappings;
    }
  }

  /** Where nothing is mapped, the dataset goes and takes the extent along. */
  lemma DatasetGone(env: Env, v: string, s: State, s': State)
    requires IdsOk(s) && VolumeOk(Own(env, v, s)) && Own(env, v, s).mappings == []
    requires s' == s.(
      datasets := Keep(s.datasets, Not(DatasetId(DatasetName(env, v)))),
      extents := Keep(s.extents, Not(ExtentAt(ExtentPath(env, v)))))
    ensures Own(env, v, s') == Own(env, v, s).(datasets := [], extents := [])
    ensures Rest(env, v, s') == Rest(env, v, s)
  {
    hide Keep, First;
    var name, path := DatasetName(env, v), ExtentPath(env, v);
    KeepNone(s'.datasets, DatasetNamed(name));
    KeepNone(s'.extents, ExtentAt(path));
    KeepThrough(s.datasets, Not(DatasetId(name)), Not(DatasetNamed(name)));
    KeepThrough(s.extents, Not(ExtentAt(path)), Not(ExtentAt(path)));
    NothingTouched(env, v, s, s');
    SameTouch(env, v, s, s');
  }

  lemma NothingTouched(env: Env, v: string, s: State, s': State)
    requires Own(env, v, s).mappings == [] && s'.mappings == s.mappings
    requires OwnTargets(v, s') == OwnTargets(v, s) && OwnExtents(env, v, s') == []
    ensures forall m | m in s.mappings ::
      Touching(OwnTargets(v, s'), OwnExtents(env, v, s'))(m) <==> Touching(OwnTargets(v, s), OwnExtents(env, v, s))(m)
  {
    var touching := Touching(OwnTargets(v, s), OwnExtents(env, v, s));
    assert forall m | m in s.mappings && touching(m) :: m in Own(env, v, s).mappings;
  }

  lemma DatasetDeleted(env: Env, v: string, s: State)
    requires IdsOk(s) && VolumeOk(Own(env, v, s))
    ensures
      var o := Own(env, v, s);
      var (s', r) := DeleteDataset(s, DatasetName(env, v), Works);
      && (o.datasets == [] ==> r == Err(ApiError.NotFound) && s' == s)
      && (o.datasets != [] && o.mappings != [] ==> r == Err(Busy) && s' == s)
      && (o.datasets != [] && o.mappings == [] ==> r.Ok? && Own(env, v, s') == o.(datasets := [], extents := []))
      && OwnChange(env, v, s, s') && s'.nextId == s.nextId
  {
    hide Keep, First;
    var name := DatasetName(env, v);
    var o := Own(env, v, s);
    BusyWhenMapped(env, v, s);
    FirstIsHead(s.datasets, DatasetNamed(name));
    FirstSame(s.datasets, DatasetId(name), DatasetNamed(name));
    if o.datasets != [] && o.mappings == [] {
      DatasetGone(env, v, s, DeleteDataset(s, name, Works).0);
    }
  }

  // The steps

  /** The state and the operation after a step are as they should be, seen from the volume itself. */
  ghost predicate Kept(env: Env, v: string, s: State, s': State, op': Op) {
    OwnChange(env, v, s, s') && OpOk(env, v, s', op')
  }

  ghost predicate Ready(env: Env, v: string, s: State, op: Op) {
    IdsOk(s) && VolumeOk(Own(env, v, s)) && OpOk(env, v, s, op)
  }

  /** Whatever create would clean up at this point is the volume's own. */
  lemma CleanupOk(env: Env, v: string, s: State, op: Op)
    requires Ready(env, v, s, op)
    ensures forall removal | removal in Cleanup(op) :: RemovalOk(env, v, s, removal)
  {
    hide Own, IdsOk, VolumeOk, HasDataset, HasExtent, HasInitiator, HasTarget, RemovalOk;
    OwnRemovals(env, v, s);
  }

  lemma OwnRemovals(env: Env, v: string, s: State)
    requires IdsOk(s)
    ensures forall ds | HasDataset(Own(env, v, s), ds) :: RemovalOk(env, v, s, RemoveDataset(ds))
    ensures forall ext | HasExtent(Own(env, v, s), ext) :: RemovalOk(env, v, s, RemoveExtent(ext))
    ensures forall ini | HasInitiator(Own(env, v, s), ini) :: RemovalOk(env, v, s, RemoveInitiator(ini))
    ensures forall tgt | HasTarget(Own(env, v, s), tgt) :: RemovalOk(env, v, s, RemoveTarget(tgt))
  {
    hide Keep, First, Rest;
    var o := Own(env, v, s);
    assert forall d | d in o.datasets :: d in s.datasets && d.name == DatasetName(env, v);
    assert forall e | e in o.extents :: e in s.extents && e.path == ExtentPath(env, v);
    assert forall i | i in o.initiators :: i in s.initiators && HasPrefix(i.comment, v);
    assert forall t | t in o.targets :: t in s.targets && t.name == v;
  }

  lemma AbortOk(env: Env, v: string, s: State, s': State, op: Op, status: Status)
    requires Ready(env, v, s, op) && Confined(env, v, s, s')
    ensures OpOk(env, v, s', Abort(op, status))
  {
    hide Own, Rest, IdsOk, VolumeOk, ExtentPath, DatasetName;
    CleanupOk(env, v, s, op);
  }

  /** The status an operation reports when the call it makes here fails. */
  function FailStatus(op: Op): Status {
    match op
    case ReadGlobal(_) => Internal
    case ReadPortal(_, _) => Internal
    case FindDataset(_) => Internal
    case FindExtent(_, _) => Internal
    case FindInitiator(_, _, _) => Internal
    case FindTarget(_, _, _, _) => Internal
    case FindMapping(_, _, _, _, _) => Internal
    case _ => Backend
  }

  /** A failed call either did nothing or did what it would have done, and then create cleans up. */
  lemma FaultCases(env: Env, v: string, s: State, op: Op, f: Fault)
    requires !op.Undo? && !op.Finished? && !f.Works?
    ensures
      var r := Step(env, v, s, op, f);
      r.1 == Abort(op, FailStatus(op)) && r.0 == if f.LostReply? then Step(env, v, s, op, Works).0 else s
  {
  }

  lemma FindDatasetWorks(env: Env, v: string, s: State, op: Op)
    requires Ready(env, v, s, op) && op.FindDataset?
    ensures Kept(env, v, s, Step(env, v, s, op, Works).0, Step(env, v, s, op, Works).1)
  {
    hide Keep, First, Rest;
    FirstVolume(env, v, s);
    FirstIsHead(s.datasets, DatasetNamed(DatasetName(env, v)));
  }

  lemma FindExtentWorks(env: Env, v: string, s: State, op: Op)
    requires Ready(env, v, s, op) && op.FindExtent?
    ensures Kept(env, v, s, Step(env, v, s, op, Works).0, Step(env, v, s, op, Works).1)
  {
    hide Keep, First, Rest;
    FirstIsHead(s.extents, ExtentAt(ExtentPath(env, v)));
  }

  lemma FindInitiatorWorks(env: Env, v: string, s: State, op: Op)
    requires Ready(env, v, s, op) && op.FindInitiator?
    ensures Kept(env, v, s, Step(env, v, s, op, Works).0, Step(env, v, s, op, Works).1)
  {
    hide Keep, First, Rest;
    FirstIsHead(s.initiators, CommentStarts(v));
  }

  lemma FindTargetWorks(env: Env, v: string, s: State, op: Op)
    requires Ready(env, v, s, op) && op.FindTarget?
    ensures Kept(env, v, s, Step(env, v, s, op, Works).0, Step(env, v, s, op, Works).1)
  {
    hide Keep, First, Rest;
    FirstIsHead(s.targets, TargetNamed(v));
  }

  lemma FindMappingWorks(env: Env, v: string, s: State, op: Op)
    requires Ready(env, v, s, op) && op.FindMapping?
    ensures Kept(env, v, s, Step(env, v, s, op, Works).0, Step(env, v, s, op, Works).1)
  {
    hide Keep, First, Rest;
    FirstMapping(env, v, s, op.tgt, op.ext);
  }

  /** Under the volume's name there is only a zvol, so the stricter matcher of create finds the same one. */
  lemma FirstVolume(env: Env, v: string, s: State)
    requires IdsOk(s) && VolumeOk(Own(env, v, s))
    ensures First(s.datasets, VolumeNamed(DatasetName(env, v))) == First(s.datasets, DatasetNamed(DatasetName(env, v)))
  {
    var name := DatasetName(env, v);
    assert forall d | d in s.datasets && d.name == name :: d in Own(env, v, s).datasets;
    KeepSame(s.datasets, VolumeNamed(name), DatasetNamed(name));
    FirstIsHead(s.datasets, VolumeNamed(name));
    FirstIsHead(s.datasets, DatasetNamed(name));
  }

  lemma FirstMapping(env: Env, v: string, s: State, tgt: int, ext: int)
    requires VolumeOk(Own(env, v, s)) && HasTarget(Own(env, v, s), tgt) && HasExtent(Own(env, v, s), ext)
    ensures First(s.mappings, Joining(tgt, ext)).Some? <==> Own(env, v, s).mappings != []
  {
    hide Keep, First, Rest;
    var o := Own(env, v, s);
    assert o.targets[0] in OwnTargets(v, s);
    assert forall m | m in s.mappings && Joining(tgt, ext)(m) :: m in o.mappings;
    if o.mappings != [] {
      assert o.mappings[0] in s.mappings && Joining(tgt, ext)(o.mappings[0]);
    }
  }

  lemma MakeDatasetWorks(env: Env, v: string, s: State, op: Op)
    requires Ready(env, v, s, op) && op.MakeDataset?
    ensures Kept(env, v, s, Step(env, v, s, op, Works).0, Step(env, v, s, op, Works).1)
  {
    hide Keep, First, Rest;
    DatasetCreated(env, v, s, op.plan.size);
    assert SizedZvol(Dataset(DatasetName(env, v), DatasetName(env, v), Volume, ToDecimal(op.plan.size)));
  }

  lemma MakeExtentWorks(env: Env, v: string, s: State, op: Op)
    requires Ready(env, v, s, op) && op.MakeExtent?
    ensures Kept(env, v, s, Step(env, v, s, op, Works).0, Step(env, v, s, op, Works).1)
  {
    hide Keep, First, Rest;
    var d := Own(env, v, s).datasets[0];
    assert d in s.datasets && ZvolPath(d.name) == ExtentPath(env, v);
    ExtentCreated(env, v, s, v, v + COMMENT_EXTENT);
  }

  lemma MakeInitiatorWorks(env: Env, v: string, s: State, op: Op)
    requires Ready(env, v, s, op) && op.MakeInitiator?
    ensures Kept(env, v, s, Step(env, v, s, op, Works).0, Step(env, v, s, op, Works).1)
  {
    hide Keep, First, Rest, Own, IdsOk, Confined, DatasetName, ExtentPath;
    InitiatorCreated(env, v, s, COMMENT_INITIATOR);
  }

  lemma MakeTargetWorks(env: Env, v: string, s: State, op: Op)
    requires Ready(env, v, s, op) && op.MakeTarget?
    ensures Kept(env, v, s, Step(env, v, s, op, Works).0, Step(env, v, s, op, Works).1)
  {
    hide Keep, First, Rest;
    TargetCreated(env, v, s, v + COMMENT_INITIATOR, env.portalId, op.ini);
  }

  lemma MakeMappingWorks(env: Env, v: string, s: State, op: Op)
    requires Ready(env, v, s, op) && op.MakeMapping?
    ensures Kept(env, v, s, Step(env, v, s, op, Works).0, Step(env, v, s, op, Works).1)
  {
    hide Keep, First, Rest;
    MappingCreated(env, v, s, op.tgt, op.ext);
  }

  /** A deletion that goes wrong either did nothing or did all of it. */
  lemma AllOrNothing(s: State, removal: Removal, f: Fault)
    ensures Remove(s, removal, f) == if TakesEffect(f) then Remove(s, removal, Works) else s
  {
    hide First, Keep;
  }

  lemma NoChange(env: Env, v: string, s: State)
    requires IdsOk(s) && VolumeOk(Own(env, v, s))
    ensures OwnChange(env, v, s, s)
  {
    hide Keep, First, Rest;
  }

  lemma RemoveDatasetKeeps(env: Env, v: string, s: State, f: Fault)
    requires IdsOk(s) && VolumeOk(Own(env, v, s))
    ensures OwnChange(env, v, s, Remove(s, RemoveDataset(DatasetName(env, v)), f))
  {
    hide Keep, First, Rest;
    NoChange(env, v, s);
    AllOrNothing(s, RemoveDataset(DatasetName(env, v)), f);
    DatasetDeleted(env, v, s);
  }

  lemma RemoveExtentKeeps(env: Env, v: string, s: State, id: int, f: Fault)
    requires IdsOk(s) && VolumeOk(Own(env, v, s)) && RemovalOk(env, v, s, RemoveExtent(id))
    ensures OwnChange(env, v, s, Remove(s, RemoveExtent(id), f))
  {
    hide Keep, First, Rest;
    NoChange(env, v, s);
    AllOrNothing(s, RemoveExtent(id), f);
    if First(s.extents, ExtentId(id)).Some? {
      assert First(s.extents, ExtentId(id)).value in OwnExtents(env, v, s);
      ExtentDeleted(env, v, s, id);
    }
  }

  lemma RemoveInitiatorKeeps(env: Env, v: string, s: State, id: int, f: Fault)
    requires IdsOk(s) && VolumeOk(Own(env, v, s)) && RemovalOk(env, v, s, RemoveInitiator(id))
    ensures OwnChange(env, v, s, Remove(s, RemoveInitiator(id), f))
  {
    hide Keep, First, Rest;
    NoChange(env, v, s);
    AllOrNothing(s, RemoveInitiator(id), f);
    if First(s.initiators, InitiatorId(id)).Some? {
      assert First(s.initiators, InitiatorId(id)).value in Own(env, v, s).initiators;
      InitiatorDeleted(env, v, s, id);
    }
  }

  lemma RemoveTargetKeeps(env: Env, v: string, s: State, id: int, f: Fault)
    requires IdsOk(s) && VolumeOk(Own(env, v, s)) && RemovalOk(env, v, s, RemoveTarget(id))
    ensures OwnChange(env, v, s, Remove(s, RemoveTarget(id), f))
  {
    hide Keep, First, Rest;
    NoChange(env, v, s);
    AllOrNothing(s, RemoveTarget(id), f);
    if First(s.targets, TargetId(id)).Some? {
      assert First(s.targets, TargetId(id)).value in OwnTargets(v, s);
      TargetDeleted(env, v, s, id);
    }
  }

  /** A clean-up call for an object of the volume, or for one that is gone, is confined to the volume. */
  lemma RemoveKeeps(env: Env, v: string, s: State, removal: Removal, f: Fault)
    requires IdsOk(s) && VolumeOk(Own(env, v, s)) && RemovalOk(env, v, s, removal)
    ensures OwnChange(env, v, s, Remove(s, removal, f))
  {
    match removal {
      case RemoveDataset(_) => RemoveDatasetKeeps(env, v, s, f);
      case RemoveExtent(id) => RemoveExtentKeeps(env, v, s, id, f);
      case RemoveInitiator(id) => RemoveInitiatorKeeps(env, v, s, id, f);
      case RemoveTarget(id) => RemoveTargetKeeps(env, v, s, id, f);
    }
  }

  lemma RemovalsStay(env: Env, v: string, s: State, s': State, todo: seq<Removal>, status: Status)
    requires Confined(env, v, s, s') && forall removal | removal in todo :: RemovalOk(env, v, s, removal)
    ensures OpOk(env, v, s', Unwind(todo, status))
  {
    hide Keep, First, Rest;
  }

  lemma UndoStep(env: Env, v: string, s: State, op: Op, f: Fault)
    requires op.Undo? && op.todo != []
    ensures Step(env, v, s, op, f) == (Remove(s, op.todo[0], f), Unwind(op.todo[1..], op.status))
  {
  }

  lemma UndoKeeps(env: Env, v: string, s: State, op: Op, f: Fault)
    requires Ready(env, v, s, op) && op.Undo? && op.todo != []
    ensures Kept(env, v, s, Step(env, v, s, op, f).0, Step(env, v, s, op, f).1)
  {
    hide Keep, First, Rest;
    UndoStep(env, v, s, op, f);
    RemoveKeeps(env, v, s, op.todo[0], f);
    RemovalsStay(env, v, s, Remove(s, op.todo[0], f), op.todo[1..], op.status);
  }

  lemma LookTargetWorks(env: Env, v: string, s: State, op: Op)
    requires Ready(env, v, s, op) && op.LookTarget?
    ensures Kept(env, v, s, Step(env, v, s, op, Works).0, Step(env, v, s, op, Works).1)
  {
    hide Keep, First, Rest;
    FirstIsHead(s.targets, TargetNamed(v));
  }

  lemma DropTargetWorks(env: Env, v: string, s: State, op: Op)
    requires Ready(env, v, s, op) && op.DropTarget?
    ensures Kept(env, v, s, Step(env, v, s, op, Works).0, Step(env, v, s, op, Works).1)
  {
    hide Keep, First, Rest;
    TargetDeleted(env, v, s, op.target);
  }

  lemma LookDatasetWorks(env: Env, v: string, s: State, op: Op)
    requires Ready(env, v, s, op) && op.LookDataset?
    ensures Kept(env, v, s, Step(env, v, s, op, Works).0, Step(env, v, s, op, Works).1)
  {
    hide Keep, First, Rest;
    FirstIsHead(s.datasets, DatasetNamed(DatasetName(env, v)));
  }

  lemma OwnDatasetId(env: Env, v: string, s: State)
    requires IdsOk(s) && |Own(env, v, s).datasets| == 1
    ensures Own(env, v, s).datasets[0].id == DatasetName(env, v)
  {
    assert Own(env, v, s).datasets[0] in s.datasets;
  }

  lemma DropDatasetWorks(env: Env, v: string, s: State, op: Op)
    requires Ready(env, v, s, op) && op.DropDataset?
    ensures Kept(env, v, s, Step(env, v, s, op, Works).0, Step(env, v, s, op, Works).1)
  {
    hide Keep, First, Rest;
    var name := DatasetName(env, v);
    OwnDatasetId(env, v, s);
    DatasetDeleted(env, v, s);
    assert Step(env, v, s, op, Works) == (DeleteDataset(s, name, Works).0, LookInitiator);
  }

  lemma LookInitiatorWorks(env: Env, v: string, s: State, op: Op)
    requires Ready(env, v, s, op) && op.LookInitiator?
    ensures Kept(env, v, s, Step(env, v, s, op, Works).0, Step(env, v, s, op, Works).1)
  {
    hide Keep, First, Rest;
    FirstIsHead(s.initiators, CommentStarts(v));
  }

  lemma DropInitiatorWorks(env: Env, v: string, s: State, op: Op)
    requires Ready(env, v, s, op) && op.DropInitiator?
    ensures Kept(env, v, s, Step(env, v, s, op, Works).0, Step(env, v, s, op, Works).1)
  {
    hide Keep, First, Rest;
    InitiatorDeleted(env, v, s, op.initiator);
  }

  lemma WorkingStepKeeps(env: Env, v: string, s: State, op: Op)
    requires Ready(env, v, s, op) && !op.Undo?
    ensures Kept(env, v, s, Step(env, v, s, op, Works).0, Step(env, v, s, op, Works).1)
  {
    hide Keep, First, Rest;
    match op {
      case ReadGlobal(_) => NoChange(env, v, s);
      case ReadPortal(_, _) => NoChange(env, v, s);
      case FindDataset(_) => FindDatasetWorks(env, v, s, op);
      case MakeDataset(_) => MakeDatasetWorks(env, v, s, op);
      case FindExtent(_, _) => FindExtentWorks(env, v, s, op);
      case MakeExtent(_, _) => MakeExtentWorks(env, v, s, op);
      case FindInitiator(_, _, _) => FindInitiatorWorks(env, v, s, op);
      case MakeInitiator(_, _, _) => MakeInitiatorWorks(env, v, s, op);
      case FindTarget(_, _, _, _) => FindTargetWorks(env, v, s, op);
      case MakeTarget(_, _, _, _) => MakeTargetWorks(env, v, s, op);
      case FindMapping(_, _, _, _, _) => FindMappingWorks(env, v, s, op);
      case MakeMapping(_, _, _, _, _) => MakeMappingWorks(env, v, s, op);
      case LookTarget => LookTargetWorks(env, v, s, op);
      case DropTarget(_) => DropTargetWorks(env, v, s, op);
      case LookDataset => LookDatasetWorks(env, v, s, op);
      case DropDataset(_) => DropDatasetWorks(env, v, s, op);
      case LookInitiator => LookInitiatorWorks(env, v, s, op);
      case DropInitiator(_) => DropInitiatorWorks(env, v, s, op);
      case Finished(_) => NoChange(env, v, s);
    }
  }

  /** Every step of every operation, whatever its call does, keeps the invariant of its own volume. */
  lemma StepKeeps(env: Env, v: string, s: State, op: Op, f: Fault)
    requires Ready(env, v, s, op)
    ensures Kept(env, v, s, Step(env, v, s, op, f).0, Step(env, v, s, op, f).1)
  {
    hide Keep, First, Rest;
    NoChange(env, v, s);
    if op.Undo? {
      if op.todo != [] { UndoKeeps(env, v, s, op, f); }
    } else {
      WorkingStepKeeps(env, v, s, op);
      if !f.Works? && !op.Finished? {
        FaultCases(env, v, s, op, f);
        AbortOk(env, v, s, Step(env, v, s, op, f).0, op, FailStatus(op));
      }
    }
  }
}
