/** Listing volumes while they come and go: the four calls of one listing see four different stores. */
module IscsiListingAcross {
  import opened Wrappers
  import opened Lists
  import opened Faults
  import opened Decimal
  import opened Csi
  import opened IscsiApi
  import opened IscsiMachine
  import opened IscsiInvariant
  import opened IscsiSteps
  import opened IscsiSafety
  import opened IscsiRuns
  import opened IscsiRollback
  import opened IscsiListing

  // What stays true between two calls

  /** Targets seen later were there before, or are new and have new ids. */
  ghost predicate Newer(s: State, s': State) {
    s.nextId <= s'.nextId && forall t | t in s'.targets :: t in s.targets || t.id >= s.nextId
  }

  /** The id of the extent stands for it alone, and a mapping of it does not outlive it. */
  ghost predicate Tracked(s: State, e: Extent) {
    && e.id < s.nextId
    && (forall x | x in s.extents && x.id == e.id :: x == e)
    && (forall m | m in s.mappings && m.extent == e.id :: e in s.extents)
  }

  lemma ExtentTracked(s: State, e: Extent)
    requires IdsOk(s) && e in s.extents
    ensures Tracked(s, e)
  {
  }

  lemma NewMappingsOfOwn(env: Env, w: string, s: State, s': State, e: Extent, m: Mapping)
    requires OwnChange(env, w, s, s') && Tracked(s, e)
    requires m in s'.mappings && m !in s.mappings && m.extent == e.id
    ensures e in s'.extents
  {
    hide Keep;
    var touching := Touching(OwnTargets(w, s'), OwnExtents(env, w, s'));
    assert m !in Rest(env, w, s).mappings;
    assert touching(m);
    assert m in Own(env, w, s').mappings;
    var x := Own(env, w, s').extents[0];
    assert x in OwnExtents(env, w, s') && x in s'.extents;
  }

  lemma OldMappingsOf(env: Env, w: string, s: State, s': State, e: Extent, m: Mapping)
    requires OwnChange(env, w, s, s') && Tracked(s, e)
    requires m in s'.mappings && m in s.mappings && m.extent == e.id
    ensures e in s'.extents
  {
    hide Keep;
    assert e in s.extents;
    if e.path == ExtentPath(env, w) {
      var touching := Touching(OwnTargets(w, s'), OwnExtents(env, w, s'));
      assert e in OwnExtents(env, w, s);
      assert m !in Rest(env, w, s).mappings;
      assert touching(m);
      assert m in Own(env, w, s').mappings;
      var x := Own(env, w, s').extents[0];
      assert x in OwnExtents(env, w, s') && x in s'.extents;
    } else {
      assert e in Rest(env, w, s).extents;
      assert e in Rest(env, w, s').extents;
    }
  }

  lemma OwnChangeTracks(env: Env, w: string, s: State, s': State, e: Extent)
    requires OwnChange(env, w, s, s') && Tracked(s, e)
    ensures Tracked(s', e)
  {
    hide Rest, Own, IdsOk, VolumeOk;
    forall m | m in s'.mappings && m.extent == e.id ensures e in s'.extents {
      if m in s.mappings {
        OldMappingsOf(env, w, s, s', e, m);
      } else {
        NewMappingsOfOwn(env, w, s, s', e, m);
      }
    }
  }

  lemma {:induction false} ExecTracks(env: Env, volumes: set<string>, sys: System, events: seq<Event>, e: Extent)
    requires Inv(env, volumes, sys) && Tracked(sys.state, e)
    ensures Tracked(Exec(env, volumes, sys, events).state, e)
    decreases |events|
  {
    hide Inv, Step, Tracked, OwnChange;
    if events == [] {
    } else {
      var sys' := Apply(env, volumes, sys, events[0]);
      ApplyKeeps(env, volumes, sys, events[0]);
      if events[0].Call? && events[0].volume in sys.ops {
        CallKeeps(env, volumes, sys, events[0].volume, events[0].fault);
        OwnChangeTracks(env, events[0].volume, sys.state, sys'.state, e);
      }
      ExecTracks(env, volumes, sys', events[1..], e);
    }
  }

  lemma {:induction false} ExecNewer(env: Env, volumes: set<string>, sys: System, events: seq<Event>)
    requires Inv(env, volumes, sys)
    ensures Newer(sys.state, Exec(env, volumes, sys, events).state)
    decreases |events|
  {
    hide Inv, Step, Rest, Own;
    if events == [] {
    } else {
      var sys' := Apply(env, volumes, sys, events[0]);
      ApplyKeeps(env, volumes, sys, events[0]);
      if events[0].Call? && events[0].volume in sys.ops {
        CallKeeps(env, volumes, sys, events[0].volume, events[0].fault);
      }
      ExecNewer(env, volumes, sys', events[1..]);
    }
  }

  // One listing

  /** Four stores in the order of time, as far as the listing cares. */
  ghost predicate Successive(env: Env, volumes: set<string>, s1: State, s2: State, s3: State, s4: State) {
    && Good(env, volumes, s1) && Good(env, volumes, s2) && Good(env, volumes, s3) && Good(env, volumes, s4)
    && Exclusive(env, volumes, s1)
    && (forall e | e in s2.extents :: Tracked(s3, e))
    && Newer(s3, s4)
  }

  /** The volume's own dataset, extent, mapping and target, as they were seen, belong together. */
  ghost predicate Linked(env: Env, v: string, s1: State, s2: State, s3: State, s4: State) {
    && |Own(env, v, s1).datasets| == 1 && |Own(env, v, s2).extents| == 1
    && |Own(env, v, s4).targets| == 1
    && Own(env, v, s3).mappings == [Mapping(Own(env, v, s4).targets[0].id, Own(env, v, s2).extents[0].id, 0)]
  }

  /** Whatever was seen to hang together hangs together in one volume. */
  lemma SeenChain(env: Env, volumes: set<string>, s1: State, s2: State, s3: State, s4: State,
                  d: Dataset, e: Extent, m: Mapping, t: Target)
    requires Successive(env, volumes, s1, s2, s3, s4)
    requires Chain(env, Seen(s1, s2, s3, s4), d, e, m, t) && t in s4.targets
    ensures
      && t.name in volumes && Linked(env, t.name, s1, s2, s3, s4)
      && Own(env, t.name, s1).datasets == [d] && Own(env, t.name, s4).targets == [t]
  {
    hide Keep, Own, VolumeOk, IdsOk;
    var v :| v in volumes && d.name == DatasetName(env, v);
    DatasetOfVolume(env, v, s1, d);
    ExtentOfVolume(env, v, s2, e);
    MappingOfVolume(env, v, s3, e, m);
    TargetOfVolume(env, v, s3, s4, t);
  }

  lemma DatasetOfVolume(env: Env, v: string, s: State, d: Dataset)
    requires VolumeOk(Own(env, v, s)) && d in s.datasets && d.name == DatasetName(env, v)
    ensures Own(env, v, s).datasets == [d]
  {
    hide Keep;
    assert d in Own(env, v, s).datasets;
  }

  lemma ExtentOfVolume(env: Env, v: string, s: State, e: Extent)
    requires VolumeOk(Own(env, v, s)) && e in s.extents && e.path == ExtentPath(env, v)
    ensures Own(env, v, s).extents == [e]
  {
    hide Keep;
    assert e in Own(env, v, s).extents;
  }

  lemma MappingOfVolume(env: Env, v: string, s: State, e: Extent, m: Mapping)
    requires VolumeOk(Own(env, v, s)) && Tracked(s, e) && e.path == ExtentPath(env, v)
    requires m in s.mappings && m.extent == e.id
    ensures Own(env, v, s).mappings == [m] && m.lun == 0
    ensures |Own(env, v, s).targets| == 1 && Own(env, v, s).targets[0].id == m.target
  {
    hide Keep;
    assert e in OwnExtents(env, v, s);
    assert m in Own(env, v, s).mappings;
  }

  lemma TargetOfVolume(env: Env, v: string, s: State, s': State, t: Target)
    requires IdsOk(s) && VolumeOk(Own(env, v, s')) && Newer(s, s') && t in s'.targets
    requires |Own(env, v, s).targets| == 1 && Own(env, v, s).targets[0].id == t.id
    ensures t.name == v && Own(env, v, s').targets == [t]
  {
    hide Keep;
    assert Own(env, v, s).targets[0] in OwnTargets(v, s);
    assert t in s.targets && t == Own(env, v, s).targets[0];
    assert t in OwnTargets(v, s');
  }

  lemma LinkedIsSeen(env: Env, v: string, s1: State, s2: State, s3: State, s4: State)
    requires VolumeOk(Own(env, v, s1)) && Linked(env, v, s1, s2, s3, s4)
    ensures
      var t := Own(env, v, s4).targets[0];
      t in Keep(s4.targets, HasChain(env, Seen(s1, s2, s3, s4))) && t.name == v
  {
    hide Keep;
    var d, e, t := Own(env, v, s1).datasets[0], Own(env, v, s2).extents[0], Own(env, v, s4).targets[0];
    var m := Mapping(t.id, e.id, 0);
    assert d in Own(env, v, s1).datasets && e in Own(env, v, s2).extents && t in Own(env, v, s4).targets;
    assert m in Own(env, v, s3).mappings;
    assert env.storagePath + "/" <= DatasetName(env, v);
    assert Chain(env, Seen(s1, s2, s3, s4), d, e, m, t);
  }

  /** Exactly the volumes seen to hang together, each once, each with the size of the zvol that was seen. */
  ghost predicate ListsLinked(env: Env, volumes: set<string>, s1: State, s2: State, s3: State, s4: State,
                              entries: seq<Entry>) {
    && (forall v | v in volumes ::
          Linked(env, v, s1, s2, s3, s4) <==> exists i :: 0 <= i < |entries| && entries[i].volumeId == v)
    && (forall i, j | 0 <= i < |entries| && 0 <= j < |entries| && entries[i].volumeId == entries[j].volumeId :: i == j)
    && (forall i | 0 <= i < |entries| ::
          entries[i].volumeId in volumes && |Own(env, entries[i].volumeId, s1).datasets| == 1 &&
          ParseInt64(Own(env, entries[i].volumeId, s1).datasets[0].volsize) == Some(entries[i].capacity))
  }

  lemma SeenSizes(env: Env, volumes: set<string>, s1: State, s2: State, s3: State, s4: State)
    requires Successive(env, volumes, s1, s2, s3, s4)
    ensures ListVolumes(env, Seen(s1, s2, s3, s4)).Ok?
  {
    hide ListVolumes, Keep, Own, Chain, Successive, ParseInt64;
    var s := Seen(s1, s2, s3, s4);
    ListIsJoin(env, s);
    if ListVolumes(env, s).Err? {
      var d, e, m, t :| t in s.targets && Chain(env, s, d, e, m, t) && ParseInt64(d.volsize).None?;
      SeenChain(env, volumes, s1, s2, s3, s4, d, e, m, t);
      SizedInStore(env, volumes, s1, t.name, d, s2, s3, s4);
      SizeReadable(d);
    }
  }

  lemma SizedInStore(env: Env, volumes: set<string>, s: State, v: string, d: Dataset, s2: State, s3: State, s4: State)
    requires Successive(env, volumes, s, s2, s3, s4) && v in volumes && Own(env, v, s).datasets == [d]
    ensures SizedZvol(d)
  {
    hide Own, SizedZvol;
    assert VolumeOk(Own(env, v, s));
  }

  lemma SeenListing(env: Env, volumes: set<string>, s1: State, s2: State, s3: State, s4: State)
    requires Successive(env, volumes, s1, s2, s3, s4)
    ensures ListVolumes(env, Seen(s1, s2, s3, s4)).Ok?
    ensures ListsLinked(env, volumes, s1, s2, s3, s4, ListVolumes(env, Seen(s1, s2, s3, s4)).value)
  {
    hide ListVolumes, Keep, Own, Chain, Successive, Linked, ParseInt64;
    var s := Seen(s1, s2, s3, s4);
    SeenSizes(env, volumes, s1, s2, s3, s4);
    ListIsJoin(env, s);
    var entries, listed := ListVolumes(env, s).value, Keep(s.targets, HasChain(env, s));
    forall i | 0 <= i < |entries|
      ensures entries[i].volumeId in volumes && Linked(env, entries[i].volumeId, s1, s2, s3, s4)
      ensures |Own(env, entries[i].volumeId, s1).datasets| == 1
      ensures ParseInt64(Own(env, entries[i].volumeId, s1).datasets[0].volsize) == Some(entries[i].capacity)
    {
      assert HasEntry(env, s, listed[i], entries[i]);
      var d, e, m :| Chain(env, s, d, e, m, listed[i]) && ParseInt64(d.volsize) == Some(entries[i].capacity);
      SeenChain(env, volumes, s1, s2, s3, s4, d, e, m, listed[i]);
    }
    forall v | v in volumes && Linked(env, v, s1, s2, s3, s4)
      ensures exists i :: 0 <= i < |entries| && entries[i].volumeId == v
    {
      var t := LinkedListed(env, volumes, v, s1, s2, s3, s4);
      var i :| 0 <= i < |listed| && listed[i] == t;
      assert HasEntry(env, s, listed[i], entries[i]);
      assert entries[i].volumeId == v;
    }
    forall i, j | 0 <= i < |entries| && 0 <= j < |entries| && entries[i].volumeId == entries[j].volumeId
      ensures i == j
    {
      assert HasEntry(env, s, listed[i], entries[i]) && HasEntry(env, s, listed[j], entries[j]);
      OneSeenTarget(env, volumes, entries[i].volumeId, s1, s2, s3, s4);
      AtMostOnePosition(listed, TargetNamed(entries[i].volumeId), i, j);
    }
  }

  lemma LinkedListed(env: Env, volumes: set<string>, v: string, s1: State, s2: State, s3: State, s4: State)
    returns (t: Target)
    requires Successive(env, volumes, s1, s2, s3, s4) && v in volumes && Linked(env, v, s1, s2, s3, s4)
    ensures t in Keep(s4.targets, HasChain(env, Seen(s1, s2, s3, s4))) && t.name == v
  {
    hide Keep, Own;
    assert VolumeOk(Own(env, v, s1));
    LinkedIsSeen(env, v, s1, s2, s3, s4);
    t := Own(env, v, s4).targets[0];
  }

  lemma OneSeenTarget(env: Env, volumes: set<string>, v: string, s1: State, s2: State, s3: State, s4: State)
    requires Successive(env, volumes, s1, s2, s3, s4) && v in volumes
    ensures |Keep(Keep(s4.targets, HasChain(env, Seen(s1, s2, s3, s4))), TargetNamed(v))| <= 1
  {
    hide Keep;
    assert VolumeOk(Own(env, v, s4));
    FewerKept(s4.targets, HasChain(env, Seen(s1, s2, s3, s4)), TargetNamed(v));
  }

  // Over any run

  /** Before the listing, and between its calls, anything at all happens. Then it lists exactly the volumes whose
      objects, as they were seen, belong together, each once. In particular every volume listed was mapped when the
      mappings were listed, and every volume mapped and left alone throughout is listed. */
  lemma ListingAmidOthers(env: Env, volumes: set<string>, s0: State, before: seq<Event>, e2: seq<Event>,
                          e3: seq<Event>, e4: seq<Event>)
    requires Vacant(env, volumes, s0) && Exclusive(env, volumes, s0)
    ensures
      var sys1 := Exec(env, volumes, System(s0, map[]), before);
      var sys2 := Exec(env, volumes, sys1, e2);
      var sys3 := Exec(env, volumes, sys2, e3);
      var sys4 := Exec(env, volumes, sys3, e4);
      var s1, s2, s3, s4 := sys1.state, sys2.state, sys3.state, sys4.state;
      var listing := ListVolumes(env, Seen(s1, s2, s3, s4));
      && listing.Ok? && ListsLinked(env, volumes, s1, s2, s3, s4, listing.value)
      && (forall i | 0 <= i < |listing.value| :: Own(env, listing.value[i].volumeId, s3).mappings != [])
      && (forall v | v in volumes && Own(env, v, s1).mappings != [] &&
             Own(env, v, s1) == Own(env, v, s2) == Own(env, v, s3) == Own(env, v, s4) ::
            exists i :: 0 <= i < |listing.value| && listing.value[i].volumeId == v)
  {
    hide Exec, ListVolumes, Own, IdsOk, Exclusive, Newer, Tracked;
    var sys1 := Exec(env, volumes, System(s0, map[]), before);
    var sys2 := Exec(env, volumes, sys1, e2);
    var sys3 := Exec(env, volumes, sys2, e3);
    var sys4 := Exec(env, volumes, sys3, e4);
    ReachableInv(env, volumes, s0, before);
    StartExclusive(env, volumes, s0, before);
    ExecKeeps(env, volumes, sys1, e2);
    ExecKeeps(env, volumes, sys2, e3);
    ExecKeeps(env, volumes, sys3, e4);
    ExecNewer(env, volumes, sys3, e4);
    forall e | e in sys2.state.extents ensures Tracked(sys3.state, e) {
      ExtentTracked(sys2.state, e);
      ExecTracks(env, volumes, sys2, e3, e);
    }
    SeenListing(env, volumes, sys1.state, sys2.state, sys3.state, sys4.state);
  }

  // The sizes

  /** Calls other than those that make or drop a dataset leave the datasets alone. */
  lemma DatasetsKept(env: Env, v: string, s: State, op: Op)
    requires !op.MakeDataset? && !op.DropDataset? && !op.Undo?
    ensures Step(env, v, s, op, Works).0.datasets == s.datasets
  {
    hide First, Keep;
  }

  lemma SettledOp(env: Env, v: string, s: State, op: Op, f: Fault)
    requires !op.Undo?
    ensures Step(env, v, s, op, f).0 == s || Step(env, v, s, op, f).0 == Step(env, v, s, op, Works).0
  {
    hide First, Keep;
    if !op.Finished? && !f.Works? {
      FaultCases(env, v, s, op, f);
    }
  }

  /** No step exchanges a volume's zvol and leaves its extent: what takes a zvol takes its extent along. */
  lemma ZvolWithExtent(env: Env, v: string, s: State, op: Op, f: Fault)
    requires Ready(env, v, s, op)
    ensures
      var s' := Step(env, v, s, op, f).0;
      Own(env, v, s').datasets == Own(env, v, s).datasets || Own(env, v, s').extents == []
  {
    hide Own, IdsOk, Step, RemovalOk;
    if op.Undo? {
      UndoneZvol(env, v, s, op, f);
    } else {
      SettledOp(env, v, s, op, f);
      if op.MakeDataset? {
        OwnKinds(env, v, s, op);
        MakeDatasetStep(env, v, s, op);
      } else if op.DropDataset? {
        DroppedZvol(env, v, s, op);
      } else {
        DatasetsKept(env, v, s, op);
        OwnLists(env, v, s, Step(env, v, s, op, f).0);
      }
    }
  }

  lemma DroppedZvol(env: Env, v: string, s: State, op: Op)
    requires Ready(env, v, s, op) && op.DropDataset?
    ensures
      var s' := Step(env, v, s, op, Works).0;
      Own(env, v, s').datasets == Own(env, v, s).datasets || Own(env, v, s').extents == []
  {
    hide Own, IdsOk, DeleteDataset, Confined;
    OwnDatasetId(env, v, s);
    DatasetDeleted(env, v, s);
  }

  lemma UndoneZvol(env: Env, v: string, s: State, op: Op, f: Fault)
    requires Ready(env, v, s, op) && op.Undo?
    ensures
      var s' := Step(env, v, s, op, f).0;
      Own(env, v, s').datasets == Own(env, v, s).datasets || Own(env, v, s').extents == []
  {
    hide Own, IdsOk, Remove, Confined;
    if op.todo == [] {
      NoUndo(env, v, s, op, f);
    } else {
      UndoStep(env, v, s, op, f);
      AllOrNothing(s, op.todo[0], f);
      OneKindRemoved(s, op.todo[0], f);
      OwnLists(env, v, s, Remove(s, op.todo[0], f));
      if op.todo[0].RemoveDataset? {
        RemovedZvol(env, v, s, op.todo[0]);
      }
    }
  }

  lemma NoUndo(env: Env, v: string, s: State, op: Op, f: Fault)
    requires op.Undo? && op.todo == []
    ensures Step(env, v, s, op, f).0 == s
  {
  }

  lemma RemovedZvol(env: Env, v: string, s: State, removal: Removal)
    requires IdsOk(s) && VolumeOk(Own(env, v, s)) && RemovalOk(env, v, s, removal) && removal.RemoveDataset?
    ensures
      var s' := Remove(s, removal, Works);
      Own(env, v, s').datasets == Own(env, v, s).datasets || Own(env, v, s').extents == []
  {
    hide Own, IdsOk, VolumeOk, DeleteDataset, Confined;
    DatasetDeleted(env, v, s);
  }

  /** As long as the extent is there, so is this zvol; and an extent that is gone does not come back. */
  ghost predicate Anchored(env: Env, v: string, s: State, e: Extent, d: Dataset) {
    && e.id < s.nextId && e.path == ExtentPath(env, v)
    && (e in s.extents ==> Own(env, v, s).datasets == [d])
  }

  lemma CallAnchors(env: Env, volumes: set<string>, sys: System, w: string, fault: Fault, v: string, e: Extent,
                    d: Dataset)
    requires Inv(env, volumes, sys) && w in sys.ops && v in volumes && Anchored(env, v, sys.state, e, d)
    ensures Anchored(env, v, Apply(env, volumes, sys, Call(w, fault)).state, e, d)
  {
    hide Step, Own, Rest, IdsOk, VolumeOk;
    var s, s' := sys.state, Apply(env, volumes, sys, Call(w, fault)).state;
    CallKeeps(env, volumes, sys, w, fault);
    if w == v {
      assert Ready(env, v, s, sys.ops[v]);
      ZvolWithExtent(env, v, s, sys.ops[v], fault);
      if e in s'.extents {
        OwnExtentThere(env, v, s', e);
      }
    } else {
      OthersUntouched(env, volumes, w, v, s, s');
      if e in s'.extents {
        OwnExtentThere(env, v, s', e);
      }
    }
  }

  lemma OwnExtentThere(env: Env, v: string, s: State, e: Extent)
    requires e in s.extents && e.path == ExtentPath(env, v)
    ensures e in Own(env, v, s).extents
  {
    hide Keep;
  }

  lemma {:induction false} ExecAnchors(env: Env, volumes: set<string>, sys: System, events: seq<Event>, v: string,
                                       e: Extent, d: Dataset)
    requires Inv(env, volumes, sys) && v in volumes && Anchored(env, v, sys.state, e, d)
    ensures Anchored(env, v, Exec(env, volumes, sys, events).state, e, d)
    decreases |events|
  {
    hide Inv, Step, Anchored;
    if events == [] {
    } else {
      ApplyKeeps(env, volumes, sys, events[0]);
      if events[0].Call? && events[0].volume in volumes && events[0].volume in sys.ops {
        CallAnchors(env, volumes, sys, events[0].volume, events[0].fault, v, e, d);
      }
      ExecAnchors(env, volumes, Apply(env, volumes, sys, events[0]), events[1..], v, e, d);
    }
  }

  lemma SameZvol(env: Env, volumes: set<string>, sys: System, events: seq<Event>, v: string, s1: State, s4: State)
    requires Inv(env, volumes, sys) && v in volumes
    requires Linked(env, v, s1, sys.state, Exec(env, volumes, sys, events).state, s4)
    ensures
      && |Own(env, v, sys.state).datasets| == 1
      && Own(env, v, Exec(env, volumes, sys, events).state).datasets == Own(env, v, sys.state).datasets
  {
    hide Exec, IdsOk, Own;
    var s2, s3 := sys.state, Exec(env, volumes, sys, events).state;
    assert VolumeOk(Own(env, v, s2));
    var e, d := Own(env, v, s2).extents[0], Own(env, v, s2).datasets[0];
    ExtentIn(env, v, s2, e);
    ExtentTracked(s2, e);
    ExecTracks(env, volumes, sys, events, e);
    ExecAnchors(env, volumes, sys, events, v, e, d);
    MappingIn(env, v, s3);
  }

  lemma ExtentIn(env: Env, v: string, s: State, e: Extent)
    requires e in Own(env, v, s).extents
    ensures e in s.extents && e.path == ExtentPath(env, v)
  {
    hide Keep;
  }

  lemma MappingIn(env: Env, v: string, s: State)
    requires Own(env, v, s).mappings != []
    ensures Own(env, v, s).mappings[0] in s.mappings
  {
    hide Keep;
    assert Own(env, v, s).mappings[0] in Own(env, v, s).mappings;
  }

  /** The size listed is that of the zvol seen at the first call. Of a volume listed, the zvol at the second call is the
      zvol at the third, when the volume is seen to be mapped; so the size listed is the size it has then exactly when
      no other zvol has taken the first one's place between the first two calls, or one of the same size has. */
  lemma ListedSize(env: Env, volumes: set<string>, s0: State, before: seq<Event>, e2: seq<Event>, e3: seq<Event>,
                   e4: seq<Event>, i: nat)
    requires Vacant(env, volumes, s0) && Exclusive(env, volumes, s0)
    ensures
      var sys1 := Exec(env, volumes, System(s0, map[]), before);
      var sys2 := Exec(env, volumes, sys1, e2);
      var sys3 := Exec(env, volumes, sys2, e3);
      var sys4 := Exec(env, volumes, sys3, e4);
      var listing := ListVolumes(env, Seen(sys1.state, sys2.state, sys3.state, sys4.state));
      listing.Ok? && (i < |listing.value| ==>
        var first := Own(env, listing.value[i].volumeId, sys1.state).datasets;
        var second := Own(env, listing.value[i].volumeId, sys2.state).datasets;
        var third := Own(env, listing.value[i].volumeId, sys3.state).datasets;
        && |first| == 1 && |second| == 1 && third == second
        && (ParseInt64(third[0].volsize) == Some(listing.value[i].capacity) <==>
              ParseInt64(second[0].volsize) == ParseInt64(first[0].volsize)))
  {
    hide Exec, ListVolumes, Own, IdsOk, Exclusive, Linked, ParseInt64;
    var sys1 := Exec(env, volumes, System(s0, map[]), before);
    var sys2 := Exec(env, volumes, sys1, e2);
    var sys3 := Exec(env, volumes, sys2, e3);
    var sys4 := Exec(env, volumes, sys3, e4);
    ListingAmidOthers(env, volumes, s0, before, e2, e3, e4);
    var entries := ListVolumes(env, Seen(sys1.state, sys2.state, sys3.state, sys4.state)).value;
    if i < |entries| {
      ReachableInv(env, volumes, s0, before);
      ExecKeeps(env, volumes, sys1, e2);
      SameZvol(env, volumes, sys2, e3, entries[i].volumeId, sys1.state, sys4.state);
    }
  }
}
