/** Listing volumes: a join over four listings, built up map by map. */
module IscsiListing {
  import opened Wrappers
  import opened Lists
  import opened Text
  import opened Decimal
  import opened Capacity
  import opened Csi
  import opened IscsiApi
  import opened IscsiMachine
  import opened IscsiInvariant
  import opened IscsiSafety

  function ZvolUnder(env: Env): Dataset -> bool {
    (d: Dataset) => d.kind == Volume && HasPrefix(d.name, env.storagePath + "/")
  }

  function ExtentOver(zvols: map<string, Dataset>): Extent -> bool { (e: Extent) => e.path in zvols }

  function MappingOver(extents: map<int, Dataset>): Mapping -> bool { (m: Mapping) => m.extent in extents }

  function TargetOver(targets: map<int, Dataset>): Target -> bool { (t: Target) => t.id in targets }

  /** Zvols by extent path; of several with one path the last counts. */
  function ZvolMap(datasets: seq<Dataset>): (zvols: map<string, Dataset>)
    ensures forall d | d in datasets :: ZvolPath(d.name) in zvols
    ensures forall p | p in zvols :: zvols[p] in datasets && ZvolPath(zvols[p].name) == p
  {
    if datasets == [] then map[]
    else
      var last := datasets[|datasets| - 1];
      ZvolMap(datasets[..|datasets| - 1])[ZvolPath(last.name) := last]
  }

  /** The zvol behind each extent id. */
  function ExtentMap(extents: seq<Extent>, zvols: map<string, Dataset>): (r: map<int, Dataset>)
    requires forall e | e in extents :: e.path in zvols
    ensures forall e | e in extents :: e.id in r
    ensures forall id | id in r :: exists e :: e in extents && e.id == id && r[id] == zvols[e.path]
  {
    if extents == [] then map[]
    else
      var last := extents[|extents| - 1];
      ExtentMap(extents[..|extents| - 1], zvols)[last.id := zvols[last.path]]
  }

  /** The zvol behind each target id. */
  function TargetMap(mappings: seq<Mapping>, extents: map<int, Dataset>): (r: map<int, Dataset>)
    requires forall m | m in mappings :: m.extent in extents
    ensures forall m | m in mappings :: m.target in r
    ensures forall id | id in r :: exists m :: m in mappings && m.target == id && r[id] == extents[m.extent]
  {
    if mappings == [] then map[]
    else
      var last := mappings[|mappings| - 1];
      TargetMap(mappings[..|mappings| - 1], extents)[last.target := extents[last.extent]]
  }

  /** The entries of the targets, in order; one size that cannot be read spoils the answer. */
  function Entries(targets: seq<Target>, zvols: map<int, Dataset>): (r: Result<seq<Entry>, Status>)
    requires forall t | t in targets :: t.id in zvols
    ensures r.Ok? ==> |r.value| == |targets| && forall i | 0 <= i < |targets| ::
      r.value[i].volumeId == targets[i].name && ParseInt64(zvols[targets[i].id].volsize) == Some(r.value[i].capacity)
    ensures r.Err? ==> exists t :: t in targets && ParseInt64(zvols[t.id].volsize).None?
  {
    if targets == [] then Ok([])
    else
      var last := targets[|targets| - 1];
      assert forall t | t in targets[..|targets| - 1] :: t in targets;
      match Entries(targets[..|targets| - 1], zvols)
      case Err(status) => Err(status)
      case Ok(entries) =>
        match ParseInt64(zvols[last.id].volsize)
        case None => Err(Backend)
        case Some(size) => Ok(entries + [Entry(last.name, size)])
  }

  function DatasetZvols(env: Env, s: State): map<string, Dataset> {
    ZvolMap(Keep(s.datasets, ZvolUnder(env)))
  }

  function ExtentZvols(env: Env, s: State): map<int, Dataset> {
    ExtentMap(Keep(s.extents, ExtentOver(DatasetZvols(env, s))), DatasetZvols(env, s))
  }

  function TargetZvols(env: Env, s: State): map<int, Dataset> {
    TargetMap(Keep(s.mappings, MappingOver(ExtentZvols(env, s))), ExtentZvols(env, s))
  }

  function ListVolumes(env: Env, s: State): Result<seq<Entry>, Status> {
    var zvols := TargetZvols(env, s);
    Entries(Keep(s.targets, TargetOver(zvols)), zvols)
  }

  /** The store as the four calls have seen it: datasets, extents, mappings and targets, each at its own time. */
  function Seen(s1: State, s2: State, s3: State, s4: State): State {
    s4.(datasets := s1.datasets, extents := s2.extents, mappings := s3.mappings)
  }

  // The join said declaratively

  /** A zvol under the storage path, an extent over it, and a mapping of that extent to the target. */
  ghost predicate Chain(env: Env, s: State, d: Dataset, e: Extent, m: Mapping, t: Target) {
    && d in s.datasets && d.kind == Volume && HasPrefix(d.name, env.storagePath + "/")
    && e in s.extents && e.path == "zvol/" + d.name
    && m in s.mappings && m.extent == e.id && m.target == t.id
  }

  ghost function HasChain(env: Env, s: State): Target -> bool {
    (t: Target) => exists d, e, m :: Chain(env, s, d, e, m, t)
  }

  /** The entry is that of the target, with the size of a zvol at the other end of a chain. */
  ghost predicate HasEntry(env: Env, s: State, t: Target, entry: Entry) {
    entry.volumeId == t.name &&
    exists d, e, m :: Chain(env, s, d, e, m, t) && ParseInt64(d.volsize) == Some(entry.capacity)
  }

  lemma ChainListed(env: Env, s: State, d: Dataset, e: Extent, m: Mapping, t: Target)
    requires Chain(env, s, d, e, m, t)
    ensures t.id in TargetZvols(env, s)
  {
    hide ZvolMap, ExtentMap, TargetMap;
    var datasets := Keep(s.datasets, ZvolUnder(env));
    assert d in datasets;
    var zvols := ZvolMap(datasets);
    assert e in Keep(s.extents, ExtentOver(zvols));
    var extents := ExtentMap(Keep(s.extents, ExtentOver(zvols)), zvols);
    assert m in Keep(s.mappings, MappingOver(extents));
  }

  lemma ListedChain(env: Env, s: State, t: Target) returns (e: Extent, m: Mapping)
    requires t.id in TargetZvols(env, s)
    ensures Chain(env, s, TargetZvols(env, s)[t.id], e, m, t)
  {
    hide ZvolMap, ExtentMap, TargetMap;
    var zvols := ZvolMap(Keep(s.datasets, ZvolUnder(env)));
    var extents := ExtentMap(Keep(s.extents, ExtentOver(zvols)), zvols);
    var mappings := Keep(s.mappings, MappingOver(extents));
    var targets := TargetMap(mappings, extents);
    m :| m in mappings && m.target == t.id && targets[t.id] == extents[m.extent];
    e :| e in Keep(s.extents, ExtentOver(zvols)) && e.id == m.extent && extents[m.extent] == zvols[e.path];
  }

  /** In target order one entry for each target at the end of a chain. */
  ghost predicate Joins(env: Env, s: State, entries: seq<Entry>) {
    var listed := Keep(s.targets, HasChain(env, s));
    |entries| == |listed| && forall i | 0 <= i < |listed| :: HasEntry(env, s, listed[i], entries[i])
  }

  /** On any store at all: the answer lists, in target order, exactly the targets at the end of some chain,
      each with the size of a zvol at the other end of one; it fails only when such a size cannot be read. */
  lemma ListIsJoin(env: Env, s: State)
    ensures
      match ListVolumes(env, s)
      case Ok(entries) => Joins(env, s, entries)
      case Err(_) =>
        exists d, e, m, t :: t in s.targets && Chain(env, s, d, e, m, t) && ParseInt64(d.volsize).None?
  {
    hide TargetZvols, Entries;
    var zvols := TargetZvols(env, s);
    SameTargets(env, s);
    var listed := Keep(s.targets, HasChain(env, s));
    match ListVolumes(env, s) {
      case Ok(entries) =>
        forall i | 0 <= i < |listed|
          ensures HasEntry(env, s, listed[i], entries[i])
        {
          assert listed[i] in Keep(s.targets, TargetOver(zvols));
          var e, m := ListedChain(env, s, listed[i]);
        }
      case Err(_) =>
        var t :| t in Keep(s.targets, TargetOver(zvols)) && ParseInt64(zvols[t.id].volsize).None?;
        var e, m := ListedChain(env, s, t);
    }
  }

  lemma SameTargets(env: Env, s: State)
    ensures Keep(s.targets, TargetOver(TargetZvols(env, s))) == Keep(s.targets, HasChain(env, s))
  {
    hide TargetZvols;
    forall t | t in s.targets ensures TargetOver(TargetZvols(env, s))(t) <==> HasChain(env, s)(t) {
      if HasChain(env, s)(t) {
        var d, e, m :| Chain(env, s, d, e, m, t);
        ChainListed(env, s, d, e, m, t);
      }
      if t.id in TargetZvols(env, s) {
        var e, m := ListedChain(env, s, t);
      }
    }
    KeepSame(s.targets, TargetOver(TargetZvols(env, s)), HasChain(env, s));
  }

  /** When all chains of a target start at zvols of one size, that size is the one listed. */
  lemma ListDetermined(env: Env, s: State, i: nat, d: Dataset, e: Extent, m: Mapping)
    requires ListVolumes(env, s).Ok? && i < |Keep(s.targets, HasChain(env, s))|
    requires Chain(env, s, d, e, m, Keep(s.targets, HasChain(env, s))[i])
    requires
      forall d', e', m' ::
        Chain(env, s, d', e', m', Keep(s.targets, HasChain(env, s))[i]) ==> d'.volsize == d.volsize
    ensures i < |ListVolumes(env, s).value|
    ensures ParseInt64(d.volsize) == Some(ListVolumes(env, s).value[i].capacity)
  {
    hide ListVolumes, Chain, HasChain;
    ListIsJoin(env, s);
    assert HasEntry(env, s, Keep(s.targets, HasChain(env, s))[i], ListVolumes(env, s).value[i]);
  }

  // The join said as nested loops

  function ZvolAt(env: Env, path: string): Dataset -> bool {
    (d: Dataset) => ZvolUnder(env)(d) && ZvolPath(d.name) == path
  }

  function ZvolsAt(env: Env, s: State): Extent -> seq<Dataset> {
    (e: Extent) => Keep(s.datasets, ZvolAt(env, e.path))
  }

  function ZvolsMapped(env: Env, s: State): Mapping -> seq<Dataset> {
    (m: Mapping) => FlatMap(Keep(s.extents, ExtentId(m.extent)), ZvolsAt(env, s))
  }

  /** The zvols at the other end of a target: over its mappings, over their extents, over the zvols there. */
  function ZvolsBehind(env: Env, s: State): Target -> seq<Dataset> {
    (t: Target) => FlatMap(Keep(s.mappings, OfTarget(t.id)), ZvolsMapped(env, s))
  }

  datatype Row = Row(target: Target, zvol: Dataset)

  function Rows(t: Target, zvols: seq<Dataset>): seq<Row> {
    seq(|zvols|, i requires 0 <= i < |zvols| => Row(t, zvols[i]))
  }

  function NestedLoop(env: Env, s: State): seq<Row> {
    FlatMap(s.targets, (t: Target) => Rows(t, ZvolsBehind(env, s)(t)))
  }

  lemma BehindIsChained(env: Env, s: State, t: Target, d: Dataset)
    ensures d in ZvolsBehind(env, s)(t) <==> exists e, m :: Chain(env, s, d, e, m, t)
  {
    if d in ZvolsBehind(env, s)(t) {
      var m :| m in Keep(s.mappings, OfTarget(t.id)) && d in ZvolsMapped(env, s)(m);
      var e :| e in Keep(s.extents, ExtentId(m.extent)) && d in ZvolsAt(env, s)(e);
      assert ZvolAt(env, e.path)(d) && ZvolUnder(env)(d);
      assert Chain(env, s, d, e, m, t);
    }
    if e, m :| Chain(env, s, d, e, m, t) {
      assert ZvolUnder(env)(d) && ZvolAt(env, e.path)(d);
      assert d in ZvolsAt(env, s)(e);
      assert e in Keep(s.extents, ExtentId(m.extent));
      assert d in ZvolsMapped(env, s)(m);
      assert m in Keep(s.mappings, OfTarget(t.id));
    }
  }

  /** The entry a row of the join gives. */
  predicate EntryOf(row: Row, entry: Entry) {
    entry.volumeId == row.target.name && ParseInt64(row.zvol.volsize) == Some(entry.capacity)
  }

  /** Where no target has more than one chain, the staged maps give what four nested loops give, row by row, and
      fail only on a row whose size cannot be read. */
  lemma ListIsNestedLoop(env: Env, s: State)
    requires forall t | t in s.targets :: |ZvolsBehind(env, s)(t)| <= 1
    ensures
      var rows := NestedLoop(env, s);
      match ListVolumes(env, s)
      case Ok(entries) => |entries| == |rows| && forall i | 0 <= i < |rows| :: EntryOf(rows[i], entries[i])
      case Err(_) => exists row :: row in rows && ParseInt64(row.zvol.volsize).None?
  {
    hide ListVolumes, Chain, ZvolsBehind, Keep, FlatMap, ParseInt64;
    var f := (t: Target) => Rows(t, ZvolsBehind(env, s)(t));
    var rows := NestedLoop(env, s);
    forall t | t in s.targets ensures |f(t)| <= 1 && (HasChain(env, s)(t) <==> f(t) != []) {
      RowsOfTarget(env, s, t);
    }
    FlatMapInStep(s.targets, f, HasChain(env, s));
    ListIsJoin(env, s);
    var listed := Keep(s.targets, HasChain(env, s));
    match ListVolumes(env, s) {
      case Ok(entries) =>
        forall i | 0 <= i < |rows| ensures EntryOf(rows[i], entries[i]) {
          assert f(listed[i]) == [rows[i]] && f(listed[i])[0] == rows[i];
          assert ZvolsBehind(env, s)(listed[i]) == [rows[i].zvol];
          assert HasEntry(env, s, listed[i], entries[i]);
          var d, e, m :| Chain(env, s, d, e, m, listed[i]) && ParseInt64(d.volsize) == Some(entries[i].capacity);
          BehindIsChained(env, s, listed[i], d);
        }
      case Err(_) =>
        var d, e, m, t :| t in s.targets && Chain(env, s, d, e, m, t) && ParseInt64(d.volsize).None?;
        BehindIsChained(env, s, t, d);
        var row := f(t)[0];
        assert row in f(t) && row in rows;
    }
  }

  lemma RowsOfTarget(env: Env, s: State, t: Target)
    ensures HasChain(env, s)(t) <==> ZvolsBehind(env, s)(t) != []
  {
    hide Chain, ZvolsBehind;
    var zvols := ZvolsBehind(env, s)(t);
    if zvols != [] {
      BehindIsChained(env, s, t, zvols[0]);
    }
    if HasChain(env, s)(t) {
      var d, e, m :| Chain(env, s, d, e, m, t);
      BehindIsChained(env, s, t, d);
    }
  }

  // The answer on stores the driver has made

  /** Under the storage path there are no zvols but those of the volumes. */
  ghost predicate Exclusive(env: Env, volumes: set<string>, s: State) {
    forall d | d in s.datasets && ZvolUnder(env)(d) :: exists v :: v in volumes && d.name == DatasetName(env, v)
  }

  lemma OwnChangeExclusive(env: Env, volumes: set<string>, v: string, s: State, s': State)
    requires Exclusive(env, volumes, s) && OwnChange(env, v, s, s') && v in volumes
    ensures Exclusive(env, volumes, s')
  {
    forall d | d in s'.datasets && ZvolUnder(env)(d) ensures exists w :: w in volumes && d.name == DatasetName(env, w) {
      if d.name != DatasetName(env, v) {
        assert d in Rest(env, v, s').datasets;
        assert d in s.datasets;
      }
    }
  }

  lemma {:induction false} ExecExclusive(env: Env, volumes: set<string>, sys: System, events: seq<Event>)
    requires Inv(env, volumes, sys) && Exclusive(env, volumes, sys.state)
    ensures Exclusive(env, volumes, Exec(env, volumes, sys, events).state)
    decreases |events|
  {
    hide Exclusive, Inv, OwnChange, Step;
    if events == [] {
    } else {
      ApplyKeeps(env, volumes, sys, events[0]);
      if events[0].Call? && events[0].volume in volumes && events[0].volume in sys.ops {
        CallKeeps(env, volumes, sys, events[0].volume, events[0].fault);
        OwnChangeExclusive(env, volumes, events[0].volume, sys.state, Apply(env, volumes, sys, events[0]).state);
      }
      ExecExclusive(env, volumes, Apply(env, volumes, sys, events[0]), events[1..]);
    }
  }

  /** Every chain stays within one volume. */
  lemma ChainOfVolume(env: Env, volumes: set<string>, s: State, d: Dataset, e: Extent, m: Mapping, t: Target)
    requires Good(env, volumes, s) && Exclusive(env, volumes, s)
    requires Chain(env, s, d, e, m, t) && t in s.targets
    ensures t.name in volumes && Own(env, t.name, s).targets == [t] && Own(env, t.name, s).mappings == [m]
    ensures Own(env, t.name, s).datasets == [d]
  {
    hide Own, IdsOk, VolumeOk;
    var v :| v in volumes && d.name == DatasetName(env, v);
    ChainAt(env, v, s, d, e, m, t);
  }

  lemma ChainAt(env: Env, v: string, s: State, d: Dataset, e: Extent, m: Mapping, t: Target)
    requires IdsOk(s) && VolumeOk(Own(env, v, s)) && d.name == DatasetName(env, v)
    requires Chain(env, s, d, e, m, t) && t in s.targets
    ensures t.name == v && Own(env, v, s).targets == [t]
    ensures Own(env, v, s).mappings == [m] && Own(env, v, s).datasets == [d]
  {
    hide Keep;
    assert d in Own(env, v, s).datasets;
    assert e in OwnExtents(env, v, s);
    assert m in Own(env, v, s).mappings;
    assert OwnTargets(v, s)[0] in s.targets;
    assert OwnTargets(v, s)[0].id == t.id;
  }

  lemma VolumeHasChain(env: Env, v: string, s: State)
    requires IdsOk(s) && VolumeOk(Own(env, v, s)) && Own(env, v, s).mappings != []
    ensures
      var o := Own(env, v, s);
      Chain(env, s, o.datasets[0], o.extents[0], o.mappings[0], o.targets[0]) && o.targets[0] in s.targets &&
      o.targets[0].name == v
  {
    hide Keep;
    var o := Own(env, v, s);
    assert o.datasets[0] in o.datasets && o.extents[0] in o.extents;
    assert o.mappings[0] in o.mappings && o.targets[0] in o.targets;
    assert env.storagePath + "/" <= DatasetName(env, v);
  }

  /** The listing the CSI asks for: exactly the mapped volumes, each once, each with the size of its zvol. */
  ghost predicate ListsVolumes(env: Env, volumes: set<string>, s: State, entries: seq<Entry>) {
    && (forall v | v in volumes ::
          Own(env, v, s).mappings != [] <==> exists i :: 0 <= i < |entries| && entries[i].volumeId == v)
    && (forall i, j | 0 <= i < |entries| && 0 <= j < |entries| && entries[i].volumeId == entries[j].volumeId :: i == j)
    && (forall i | 0 <= i < |entries| ::
          entries[i].volumeId in volumes && |Own(env, entries[i].volumeId, s).datasets| == 1 &&
          ParseInt64(Own(env, entries[i].volumeId, s).datasets[0].volsize) == Some(entries[i].capacity))
  }

  lemma GoodListing(env: Env, volumes: set<string>, s: State)
    requires Good(env, volumes, s) && Exclusive(env, volumes, s)
    ensures ListVolumes(env, s).Ok? && ListsVolumes(env, volumes, s, ListVolumes(env, s).value)
  {
    hide ListVolumes, Keep, Good, Exclusive, Chain, Own;
    ListIsJoin(env, s);
    SizesReadable(env, volumes, s);
    var entries := ListVolumes(env, s).value;
    var listed := Keep(s.targets, HasChain(env, s));
    forall i | 0 <= i < |entries|
      ensures entries[i].volumeId in volumes && |Own(env, entries[i].volumeId, s).datasets| == 1
      ensures ParseInt64(Own(env, entries[i].volumeId, s).datasets[0].volsize) == Some(entries[i].capacity)
      ensures Own(env, entries[i].volumeId, s).mappings != []
    {
      assert HasEntry(env, s, listed[i], entries[i]);
      var d, e, m :| Chain(env, s, d, e, m, listed[i]) && ParseInt64(d.volsize) == Some(entries[i].capacity);
      ChainOfVolume(env, volumes, s, d, e, m, listed[i]);
    }
    forall v | v in volumes && Own(env, v, s).mappings != []
      ensures exists i :: 0 <= i < |entries| && entries[i].volumeId == v
    {
      var t := MappedIsListed(env, volumes, v, s);
      var i :| 0 <= i < |listed| && listed[i] == t;
      assert HasEntry(env, s, listed[i], entries[i]);
      assert entries[i].volumeId == v;
    }
    forall i, j | 0 <= i < |entries| && 0 <= j < |entries| && entries[i].volumeId == entries[j].volumeId
      ensures i == j
    {
      assert HasEntry(env, s, listed[i], entries[i]) && HasEntry(env, s, listed[j], entries[j]);
      OneTarget(env, volumes, entries[i].volumeId, s);
      AtMostOnePosition(listed, TargetNamed(entries[i].volumeId), i, j);
    }
  }

  lemma OneTarget(env: Env, volumes: set<string>, v: string, s: State)
    requires Good(env, volumes, s) && v in volumes
    ensures |Keep(Keep(s.targets, HasChain(env, s)), TargetNamed(v))| <= 1
  {
    hide Keep;
    assert VolumeOk(Own(env, v, s));
    FewerKept(s.targets, HasChain(env, s), TargetNamed(v));
  }

  lemma MappedIsListed(env: Env, volumes: set<string>, v: string, s: State) returns (t: Target)
    requires Good(env, volumes, s) && v in volumes && Own(env, v, s).mappings != []
    ensures t in Keep(s.targets, HasChain(env, s)) && t.name == v
  {
    hide Keep, Chain;
    assert VolumeOk(Own(env, v, s));
    VolumeHasChain(env, v, s);
    t := Own(env, v, s).targets[0];
  }

  lemma SizeReadable(d: Dataset)
    requires SizedZvol(d)
    ensures ParseInt64(d.volsize).Some?
  {
    var n: VolumeSize :| d.volsize == ToDecimal(n);
    DecimalRoundTrip(n);
  }

  lemma SizesReadable(env: Env, volumes: set<string>, s: State)
    requires Good(env, volumes, s) && Exclusive(env, volumes, s)
    ensures forall d, e, m, t | t in s.targets && Chain(env, s, d, e, m, t) :: ParseInt64(d.volsize).Some?
  {
    hide Keep, Chain, Exclusive, Own, ParseInt64, SizedZvol;
    forall d, e, m, t | t in s.targets && Chain(env, s, d, e, m, t) ensures ParseInt64(d.volsize).Some? {
      ChainOfVolume(env, volumes, s, d, e, m, t);
      assert VolumeOk(Own(env, t.name, s));
      SizeReadable(d);
    }
  }

  /** In every reachable store, whatever is still in flight, a listing whose calls all work and see that store
      returns exactly the mapped volumes, each once, with the sizes of their zvols. */
  lemma ReachableListing(env: Env, volumes: set<string>, s0: State, events: seq<Event>)
    requires Vacant(env, volumes, s0) && Exclusive(env, volumes, s0)
    ensures
      var s := Exec(env, volumes, System(s0, map[]), events).state;
      ListVolumes(env, s).Ok? && ListsVolumes(env, volumes, s, ListVolumes(env, s).value)
  {
    hide Exec, Exclusive, ListVolumes, ListsVolumes;
    ReachableInv(env, volumes, s0, events);
    StartExclusive(env, volumes, s0, events);
    GoodListing(env, volumes, Exec(env, volumes, System(s0, map[]), events).state);
  }

  lemma StartExclusive(env: Env, volumes: set<string>, s0: State, events: seq<Event>)
    requires Vacant(env, volumes, s0) && Exclusive(env, volumes, s0)
    ensures Exclusive(env, volumes, Exec(env, volumes, System(s0, map[]), events).state)
  {
    hide Exclusive;
    ReachableInv(env, volumes, s0, []);
    ExecExclusive(env, volumes, System(s0, map[]), events);
  }
}
