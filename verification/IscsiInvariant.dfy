/**
 What every step of every create and delete keeps, whatever calls fail: each volume owns at most one
 object of each kind, properly joined, and only the operation on a volume touches its objects.
 */
module IscsiInvariant {
  import opened Lists
  import opened Text
  import opened Decimal
  import opened Capacity
  import opened IscsiApi
  import opened IscsiMachine

  /** Some objects of the store, kind by kind and in list order. */
  datatype Slice = Slice(
    datasets: seq<Dataset>,
    extents: seq<Extent>,
    initiators: seq<Initiator>,
    targets: seq<Target>,
    mappings: seq<Mapping>)

  const NOTHING := Slice([], [], [], [], [])

  /** The mappings that touch one of the given targets or one of the given extents. */
  ghost function Touching(targets: seq<Target>, extents: seq<Extent>): Mapping -> bool {
    (m: Mapping) => (exists t | t in targets :: t.id == m.target) || (exists e | e in extents :: e.id == m.extent)
  }

  ghost function OwnTargets(v: string, s: State): seq<Target> {
    Keep(s.targets, TargetNamed(v))
  }

  ghost function OwnExtents(env: Env, v: string, s: State): seq<Extent> {
    Keep(s.extents, ExtentAt(ExtentPath(env, v)))
  }

  /** The objects of volume v. */
  ghost function Own(env: Env, v: string, s: State): Slice {
    Slice(
      Keep(s.datasets, DatasetNamed(DatasetName(env, v))),
      OwnExtents(env, v, s),
      Keep(s.initiators, CommentStarts(v)),
      OwnTargets(v, s),
      Keep(s.mappings, Touching(OwnTargets(v, s), OwnExtents(env, v, s))))
  }

  /** All other objects. */
  ghost function Rest(env: Env, v: string, s: State): Slice {
    Slice(
      Keep(s.datasets, Not(DatasetNamed(DatasetName(env, v)))),
      Keep(s.extents, Not(ExtentAt(ExtentPath(env, v)))),
      Keep(s.initiators, Not(CommentStarts(v))),
      Keep(s.targets, Not(TargetNamed(v))),
      Keep(s.mappings, Not(Touching(OwnTargets(v, s), OwnExtents(env, v, s)))))
  }

  // The invariant of the store

  /** Ids name at most one object of a kind, and none of them is still to be given out. */
  ghost predicate IdsOk(s: State) {
    && (forall d | d in s.datasets :: d.id == d.name)
    && (forall e | e in s.extents :: e.id < s.nextId)
    && (forall e, e' | e in s.extents && e' in s.extents && e.id == e'.id :: e == e')
    && (forall i | i in s.initiators :: i.id < s.nextId)
    && (forall i, i' | i in s.initiators && i' in s.initiators && i.id == i'.id :: i == i')
    && (forall t | t in s.targets :: t.id < s.nextId && t.initiator < s.nextId)
    && (forall t, t' | t in s.targets && t' in s.targets && t.id == t'.id :: t == t')
    && (forall m | m in s.mappings :: m.target < s.nextId && m.extent < s.nextId)
  }

  ghost predicate SizedZvol(d: Dataset) {
    d.kind == Volume && exists n: VolumeSize :: d.volsize == ToDecimal(n)
  }

  /** The one mapping a volume may have: its target to its extent, at unit 0. */
  ghost predicate Joined(o: Slice) {
    |o.targets| == 1 && |o.extents| == 1 && o.mappings == [Mapping(o.targets[0].id, o.extents[0].id, 0)]
  }

  ghost predicate VolumeOk(o: Slice) {
    && |o.datasets| <= 1 && |o.extents| <= 1 && |o.initiators| <= 1 && |o.targets| <= 1
    && (o.datasets != [] ==> SizedZvol(o.datasets[0]))
    && (o.extents != [] ==> o.datasets != [])
    && (o.mappings != [] ==> Joined(o))
  }

  ghost predicate Good(env: Env, volumes: set<string>, s: State) {
    && PrefixFree(volumes)
    && IdsOk(s)
    && forall v | v in volumes :: VolumeOk(Own(env, v, s))
  }

  // The invariant of an operation in flight

  ghost predicate HasDataset(o: Slice, ds: string) { |o.datasets| == 1 && o.datasets[0].id == ds }

  ghost predicate HasExtent(o: Slice, ext: int) { |o.extents| == 1 && o.extents[0].id == ext }

  ghost predicate HasInitiator(o: Slice, ini: int) { |o.initiators| == 1 && o.initiators[0].id == ini }

  ghost predicate HasTarget(o: Slice, tgt: int) { |o.targets| == 1 && o.targets[0].id == tgt }

  /** The removal can only hit an object of volume v, now and later. */
  ghost predicate RemovalOk(env: Env, v: string, s: State, removal: Removal) {
    match removal
    case RemoveDataset(name) => name == DatasetName(env, v)
    case RemoveExtent(id) => id < s.nextId && forall e | e in s.extents && e.id == id :: e.path == ExtentPath(env, v)
    case RemoveInitiator(id) => id < s.nextId && forall i | i in s.initiators && i.id == id :: HasPrefix(i.comment, v)
    case RemoveTarget(id) => id < s.nextId && forall t | t in s.targets && t.id == id :: t.name == v
  }

  /** A volume with all five objects. */
  ghost predicate Complete(o: Slice) {
    |o.datasets| == 1 && |o.initiators| == 1 && Joined(o)
  }

  ghost predicate OpOk(env: Env, v: string, s: State, op: Op) {
    var o := Own(env, v, s);
    match op
    case MakeDataset(_) => o.datasets == []
    case FindExtent(_, ds) => HasDataset(o, ds)
    case MakeExtent(_, ds) => HasDataset(o, ds) && o.extents == []
    case FindInitiator(_, ds, ext) => HasDataset(o, ds) && HasExtent(o, ext)
    case MakeInitiator(_, ds, ext) => HasDataset(o, ds) && HasExtent(o, ext) && o.initiators == []
    case FindTarget(_, ds, ext, ini) => HasDataset(o, ds) && HasExtent(o, ext) && HasInitiator(o, ini)
    case MakeTarget(_, ds, ext, ini) =>
      HasDataset(o, ds) && HasExtent(o, ext) && HasInitiator(o, ini) && o.targets == []
    case FindMapping(_, ds, ext, ini, tgt) =>
      HasDataset(o, ds) && HasExtent(o, ext) && HasInitiator(o, ini) && HasTarget(o, tgt)
    case MakeMapping(_, ds, ext, ini, tgt) =>
      HasDataset(o, ds) && HasExtent(o, ext) && HasInitiator(o, ini) && HasTarget(o, tgt) && o.mappings == []
    case Undo(todo, _) => forall removal | removal in todo :: RemovalOk(env, v, s, removal)
    case DropTarget(tgt) => HasTarget(o, tgt)
    case LookDataset => o.targets == []
    case DropDataset(ds) => o.targets == [] && HasDataset(o, ds)
    case LookInitiator => o.targets == [] && o.datasets == []
    case DropInitiator(ini) => o.targets == [] && o.datasets == [] && HasInitiator(o, ini)
    case Finished(Provisioned(response)) => Complete(o)
    case Finished(Deleted) => o == NOTHING
    case _ => true
  }

  ghost predicate Inv(env: Env, volumes: set<string>, sys: System) {
    && Good(env, volumes, sys.state)
    && sys.ops.Keys <= volumes
    && forall v | v in sys.ops :: OpOk(env, v, sys.state, sys.ops[v])
  }

  // What a step may do outside its own volume: nothing.

  ghost predicate Confined(env: Env, v: string, s: State, s': State) {
    && Rest(env, v, s') == Rest(env, v, s)
    && s'.nextId >= s.nextId
    && s'.basename == s.basename && s'.portals == s.portals
    && (forall e | e in s'.extents :: e in s.extents || e.id >= s.nextId)
    && (forall i | i in s'.initiators :: i in s.initiators || i.id >= s.nextId)
    && (forall t | t in s'.targets :: t in s.targets || t.id >= s.nextId)
  }

  /** A change to the store that is the volume's own business and leaves the volume in order. */
  ghost predicate OwnChange(env: Env, v: string, s: State, s': State) {
    Confined(env, v, s, s') && IdsOk(s') && VolumeOk(Own(env, v, s'))
  }

  /** The names of two volumes never meet: neither their own names nor the comments they match. */
  lemma NamesApart(env: Env, volumes: set<string>, v: string, w: string)
    requires PrefixFree(volumes) && v in volumes && w in volumes && v != w
    ensures DatasetName(env, v) != DatasetName(env, w)
    ensures ExtentPath(env, v) != ExtentPath(env, w)
    ensures forall comment: string :: !(HasPrefix(comment, v) && HasPrefix(comment, w))
  {
    var n := |env.storagePath| + 1;
    assert DatasetName(env, v)[n..] == v;
    assert DatasetName(env, w)[n..] == w;
    assert ExtentPath(env, v)[5..] == DatasetName(env, v);
    assert ExtentPath(env, w)[5..] == DatasetName(env, w);
    forall comment: string ensures !(HasPrefix(comment, v) && HasPrefix(comment, w)) {
      if HasPrefix(comment, v) && HasPrefix(comment, w) {
        PrefixesComparable(comment, v, w);
      }
    }
  }

  /** A confined step leaves every object of every other volume as it is. */
  lemma OthersUntouched(env: Env, volumes: set<string>, v: string, w: string, s: State, s': State)
    requires Good(env, volumes, s) && v in volumes && w in volumes && v != w
    requires OwnChange(env, v, s, s')
    ensures Own(env, w, s') == Own(env, w, s)
  {
    NamesApart(env, volumes, v, w);
    OtherObjects(env, volumes, v, w, s);
    OtherObjects(env, volumes, v, w, s');
    assert OwnTargets(w, s') == OwnTargets(w, s);
    assert OwnExtents(env, w, s') == OwnExtents(env, w, s);
    OtherMappings(env, volumes, v, w, s);
    OtherMappings(env, volumes, v, w, s');
  }

  lemma OtherObjects(env: Env, volumes: set<string>, v: string, w: string, s: State)
    requires PrefixFree(volumes) && v in volumes && w in volumes && v != w
    ensures Keep(Rest(env, v, s).datasets, DatasetNamed(DatasetName(env, w))) == Own(env, w, s).datasets
    ensures Keep(Rest(env, v, s).extents, ExtentAt(ExtentPath(env, w))) == OwnExtents(env, w, s)
    ensures Keep(Rest(env, v, s).initiators, CommentStarts(w)) == Own(env, w, s).initiators
    ensures Keep(Rest(env, v, s).targets, TargetNamed(w)) == OwnTargets(w, s)
  {
    hide Keep, Touching;
    NamesApart(env, volumes, v, w);
    KeepThrough(s.datasets, Not(DatasetNamed(DatasetName(env, v))), DatasetNamed(DatasetName(env, w)));
    KeepThrough(s.extents, Not(ExtentAt(ExtentPath(env, v))), ExtentAt(ExtentPath(env, w)));
    KeepThrough(s.initiators, Not(CommentStarts(v)), CommentStarts(w));
    KeepThrough(s.targets, Not(TargetNamed(v)), TargetNamed(w));
  }

  lemma OtherMappings(env: Env, volumes: set<string>, v: string, w: string, s: State)
    requires PrefixFree(volumes) && v in volumes && w in volumes && v != w
    requires IdsOk(s) && VolumeOk(Own(env, v, s))
    ensures Keep(Rest(env, v, s).mappings, Touching(OwnTargets(w, s), OwnExtents(env, w, s))) == Own(env, w, s).mappings
  {
    hide Keep;
    NamesApart(env, volumes, v, w);
    var mine := Touching(OwnTargets(v, s), OwnExtents(env, v, s));
    var others := Touching(OwnTargets(w, s), OwnExtents(env, w, s));
    assert forall m | m in s.mappings && mine(m) :: m in Own(env, v, s).mappings;
    KeepThrough(s.mappings, Not(mine), others);
  }

  /** What is true of the operation on another volume stays true. */
  lemma OtherOperation(env: Env, volumes: set<string>, v: string, w: string, s: State, s': State, op: Op)
    requires Good(env, volumes, s) && v in volumes && w in volumes && v != w
    requires OwnChange(env, v, s, s')
    requires OpOk(env, w, s, op)
    ensures OpOk(env, w, s', op)
  {
    OthersUntouched(env, volumes, v, w, s, s');
  }
}
