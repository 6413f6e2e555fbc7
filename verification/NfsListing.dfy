/** Listing NFS volumes: a join of datasets and shares over the mountpoint. */
module NfsListing {
  import opened Wrappers
  import opened Lists
  import opened Text
  import opened Decimal
  import opened Capacity
  import opened Csi
  import opened NfsMachine
  import opened NfsInvariant

  function StoragePrefix(env: Env): string { env.storagePath + "/" }

  function DatasetUnder(env: Env): Dataset -> bool { (d: Dataset) => HasPrefix(d.name, StoragePrefix(env)) }

  /** Datasets by mountpoint; of several with one mountpoint the last counts. */
  function MountpointMap(datasets: seq<Dataset>): (r: map<string, Dataset>)
    ensures forall d | d in datasets :: d.mountpoint in r
    ensures forall p | p in r :: r[p] in datasets && r[p].mountpoint == p
  {
    if datasets == [] then map[]
    else
      var last := datasets[|datasets| - 1];
      MountpointMap(datasets[..|datasets| - 1])[last.mountpoint := last]
  }

  function ShareOver(datasets: map<string, Dataset>): Share -> bool {
    (share: Share) => |Normalise(share)| > 0 && Normalise(share) in datasets
  }

  function Entries(env: Env, shares: seq<Share>, datasets: map<string, Dataset>): (r: Result<seq<Entry>, Status>)
    requires forall share | share in shares :: Normalise(share) in datasets
    ensures r.Ok? ==> |r.value| == |shares| && forall i | 0 <= i < |shares| ::
      var d := datasets[Normalise(shares[i])];
      && r.value[i].volumeId == TrimPrefix(d.name, StoragePrefix(env))
      && ParseInt64(d.refquota) == Some(r.value[i].capacity)
    ensures r.Err? ==> exists share :: share in shares && ParseInt64(datasets[Normalise(share)].refquota).None?
  {
    if shares == [] then Ok([])
    else
      var last := shares[|shares| - 1];
      assert forall share | share in shares[..|shares| - 1] :: share in shares;
      match Entries(env, shares[..|shares| - 1], datasets)
      case Err(status) => Err(status)
      case Ok(entries) =>
        var d := datasets[Normalise(last)];
        match ParseInt64(d.refquota)
        case None => Err(Backend)
        case Some(quota) => Ok(entries + [Entry(TrimPrefix(d.name, StoragePrefix(env)), quota)])
  }

  function ListVolumes(env: Env, s: State): Result<seq<Entry>, Status> {
    var datasets := MountpointMap(Keep(s.datasets, DatasetUnder(env)));
    Entries(env, Keep(s.shares, ShareOver(datasets)), datasets)
  }

  /** A dataset under the storage path, mounted at the directory the share serves. */
  ghost predicate Shared(env: Env, s: State, d: Dataset, share: Share) {
    d in s.datasets && env.storagePath + "/" <= d.name && Serves(share, d.mountpoint) && d.mountpoint != ""
  }

  /** The entry is that of the dataset, which the share makes available. */
  ghost predicate EntryFrom(env: Env, s: State, d: Dataset, share: Share, entry: Entry) {
    && Shared(env, s, d, share)
    && d.name == env.storagePath + "/" + entry.volumeId && ParseInt64(d.refquota) == Some(entry.capacity)
  }

  ghost predicate HasEntry(env: Env, s: State, share: Share, entry: Entry) {
    exists d :: EntryFrom(env, s, d, share, entry)
  }

  ghost function SharesOne(env: Env, s: State): Share -> bool {
    (share: Share) => exists d :: Shared(env, s, d, share)
  }

  lemma SameShares(env: Env, s: State)
    ensures
      Keep(s.shares, ShareOver(MountpointMap(Keep(s.datasets, DatasetUnder(env))))) == Keep(s.shares, SharesOne(env, s))
  {
    hide MountpointMap;
    var datasets := MountpointMap(Keep(s.datasets, DatasetUnder(env)));
    forall share | share in s.shares ensures ShareOver(datasets)(share) <==> SharesOne(env, s)(share) {
      if SharesOne(env, s)(share) {
        var d :| Shared(env, s, d, share);
        assert d in Keep(s.datasets, DatasetUnder(env));
      }
      if ShareOver(datasets)(share) {
        assert Shared(env, s, datasets[Normalise(share)], share);
      }
    }
    KeepSame(s.shares, ShareOver(datasets), SharesOne(env, s));
  }

  /** In share order one entry for each share of some dataset under the storage path. */
  ghost predicate Joins(env: Env, s: State, entries: seq<Entry>) {
    var listed := Keep(s.shares, SharesOne(env, s));
    |entries| == |listed| && forall i | 0 <= i < |listed| :: HasEntry(env, s, listed[i], entries[i])
  }

  /** On any store at all: the answer has, in share order, one entry for each share of some dataset under the
      storage path, with the trimmed name and the quota of such a dataset; datasets and shares without a
      mountpoint never give an entry. It fails only when such a quota cannot be read. */
  lemma ListIsJoin(env: Env, s: State)
    ensures
      match ListVolumes(env, s)
      case Ok(entries) => Joins(env, s, entries)
      case Err(_) =>
        exists d, share :: share in s.shares && Shared(env, s, d, share) && ParseInt64(d.refquota).None?
  {
    hide MountpointMap, Entries, Keep;
    SameShares(env, s);
    var datasets := MountpointMap(Keep(s.datasets, DatasetUnder(env)));
    var listed := Keep(s.shares, SharesOne(env, s));
    assert listed == Keep(s.shares, ShareOver(datasets));
    assert forall share | share in listed :: Shared(env, s, datasets[Normalise(share)], share);
    match ListVolumes(env, s) {
      case Ok(entries) =>
        forall i | 0 <= i < |listed| ensures HasEntry(env, s, listed[i], entries[i]) {
          assert EntryFrom(env, s, datasets[Normalise(listed[i])], listed[i], entries[i]);
        }
      case Err(_) =>
        var share :| share in listed && ParseInt64(datasets[Normalise(share)].refquota).None?;
        assert Shared(env, s, datasets[Normalise(share)], share);
    }
  }

  /** The directory that decides, on any store: a share with a path is listed for a dataset mounted there, whatever its
      paths are; one without for a dataset mounted at the first of its paths, whatever follows; one with neither, and
      one whose directory no dataset under the storage path is mounted at, is left out. */
  lemma ListedByDirectory(env: Env, s: State, share: Share)
    requires share in s.shares && ListVolumes(env, s).Ok?
    ensures
      var listed := Keep(s.shares, SharesOne(env, s));
      var dir := if share.path != "" then share.path else if share.paths != [] then share.paths[0] else "";
      && |ListVolumes(env, s).value| == |listed|
      && (share in listed <==>
            dir != "" && exists d :: d in s.datasets && env.storagePath + "/" <= d.name && d.mountpoint == dir)
      && forall i | 0 <= i < |listed| && listed[i] == share ::
           exists d: Dataset :: d.mountpoint == dir && EntryFrom(env, s, d, share, ListVolumes(env, s).value[i])
  {
    hide ListVolumes;
    ListIsJoin(env, s);
    var listed := Keep(s.shares, SharesOne(env, s));
    var dir := if share.path != "" then share.path else if share.paths != [] then share.paths[0] else "";
    assert forall d :: Serves(share, d) <==> d == dir;
    forall i | 0 <= i < |listed| && listed[i] == share
      ensures exists d: Dataset :: d.mountpoint == dir && EntryFrom(env, s, d, share, ListVolumes(env, s).value[i])
    {
      assert HasEntry(env, s, listed[i], ListVolumes(env, s).value[i]);
    }
    if d :| d in s.datasets && env.storagePath + "/" <= d.name && d.mountpoint == dir && dir != "" {
      assert Shared(env, s, d, share);
    }
  }

  // The two calls of one listing, with anything in between

  /** The store as the two calls have seen it. */
  function Seen(s1: State, s2: State): State {
    s2.(datasets := s1.datasets)
  }

  /** The volume's dataset was there when the datasets were listed, its share when the shares were. */
  ghost predicate Linked(env: Env, v: string, s1: State, s2: State) {
    |Own(env, v, s1).datasets| == 1 && |Own(env, v, s2).shares| == 1
  }

  ghost predicate Complete(env: Env, v: string, s: State) {
    Linked(env, v, s, s)
  }

  lemma SharedOfVolume(env: Env, s1: State, s2: State, d: Dataset, share: Share) returns (v: string)
    requires Good(env, s1) && Good(env, s2) && Shared(env, Seen(s1, s2), d, share) && share in s2.shares
    ensures d.name == DatasetName(env, v) && TrimPrefix(d.name, StoragePrefix(env)) == v
    ensures Own(env, v, s1).datasets == [d] && Own(env, v, s2).shares == [share]
  {
    hide Keep;
    v := d.name[|StoragePrefix(env)|..];
    assert d.name == StoragePrefix(env) + v == DatasetName(env, v);
    TrimOfConcat(StoragePrefix(env), v);
    assert VolumeOk(env, v, s1) && VolumeOk(env, v, s2);
    assert d in Own(env, v, s1).datasets;
    assert share in Own(env, v, s2).shares;
  }

  lemma LinkedIsShared(env: Env, v: string, s1: State, s2: State)
    requires Good(env, s1) && Good(env, s2) && Linked(env, v, s1, s2)
    ensures Own(env, v, s2).shares[0] in Keep(s2.shares, SharesOne(env, Seen(s1, s2)))
  {
    hide Keep;
    var d, share := Own(env, v, s1).datasets[0], Own(env, v, s2).shares[0];
    assert VolumeOk(env, v, s1);
    assert d in Own(env, v, s1).datasets && share in Own(env, v, s2).shares;
    assert StoragePrefix(env) <= DatasetName(env, v) == StoragePrefix(env) + v;
    assert Shared(env, Seen(s1, s2), d, share);
  }

  lemma QuotaReadable(env: Env, v: string, d: Dataset)
    requires Made(env, v, d)
    ensures ParseInt64(d.refquota).Some?
  {
    var n: VolumeSize :| d.refquota == ToDecimal(n);
    DecimalRoundTrip(n);
  }

  /** Exactly the volumes seen to have dataset and share, each once, with the quota its dataset was seen with. */
  ghost predicate ListsVolumes(env: Env, s1: State, s2: State, entries: seq<Entry>) {
    && (forall v :: Linked(env, v, s1, s2) <==> exists i :: 0 <= i < |entries| && entries[i].volumeId == v)
    && (forall i, j | 0 <= i < |entries| && 0 <= j < |entries| && entries[i].volumeId == entries[j].volumeId :: i == j)
    && (forall i | 0 <= i < |entries| ::
          Linked(env, entries[i].volumeId, s1, s2) &&
          ParseInt64(Own(env, entries[i].volumeId, s1).datasets[0].refquota) == Some(entries[i].capacity))
  }

  lemma EntryOfVolume(env: Env, s1: State, s2: State, i: nat) returns (v: string)
    requires Good(env, s1) && Good(env, s2) && ListVolumes(env, Seen(s1, s2)).Ok?
    requires i < |ListVolumes(env, Seen(s1, s2)).value|
    ensures ListVolumes(env, Seen(s1, s2)).value[i].volumeId == v && Linked(env, v, s1, s2)
    ensures |ListVolumes(env, Seen(s1, s2)).value| == |Keep(s2.shares, SharesOne(env, Seen(s1, s2)))|
    ensures Own(env, v, s2).shares == [Keep(s2.shares, SharesOne(env, Seen(s1, s2)))[i]]
    ensures ParseInt64(Own(env, v, s1).datasets[0].refquota) == Some(ListVolumes(env, Seen(s1, s2)).value[i].capacity)
  {
    hide ListVolumes, Keep, Own, Good;
    var s := Seen(s1, s2);
    ListIsJoin(env, s);
    var listed, entries := Keep(s.shares, SharesOne(env, s)), ListVolumes(env, s).value;
    assert HasEntry(env, s, listed[i], entries[i]);
    var d :| EntryFrom(env, s, d, listed[i], entries[i]);
    v := SharedOfVolume(env, s1, s2, d, listed[i]);
  }

  lemma OneShare(env: Env, v: string, s1: State, s2: State)
    requires Good(env, s2)
    ensures |Keep(Keep(s2.shares, SharesOne(env, Seen(s1, s2))), Sharing(Mountpoint(env, v)))| <= 1
  {
    hide Keep;
    assert VolumeOk(env, v, s2);
    FewerKept(s2.shares, SharesOne(env, Seen(s1, s2)), Sharing(Mountpoint(env, v)));
  }

  lemma ListingWorks(env: Env, s1: State, s2: State)
    requires Good(env, s1) && Good(env, s2)
    ensures ListVolumes(env, Seen(s1, s2)).Ok?
  {
    hide ListVolumes, Keep, Own;
    var s := Seen(s1, s2);
    ListIsJoin(env, s);
    if ListVolumes(env, s).Err? {
      var d, share :| share in s.shares && Shared(env, s, d, share) && ParseInt64(d.refquota).None?;
      var v := SharedOfVolume(env, s1, s2, d, share);
      assert VolumeOk(env, v, s1);
      QuotaReadable(env, v, d);
    }
  }

  lemma OwnShareIs(env: Env, v: string, s: State, share: Share)
    requires Own(env, v, s).shares == [share]
    ensures Normalise(share) == Mountpoint(env, v)
  {
    hide Keep;
    assert share in Own(env, v, s).shares;
  }

  lemma SeenListing(env: Env, s1: State, s2: State)
    requires Good(env, s1) && Good(env, s2)
    ensures ListVolumes(env, Seen(s1, s2)).Ok? && ListsVolumes(env, s1, s2, ListVolumes(env, Seen(s1, s2)).value)
  {
    hide ListVolumes, Keep, Own, Good, Linked;
    var s := Seen(s1, s2);
    ListingWorks(env, s1, s2);
    ListIsJoin(env, s);
    var entries, listed := ListVolumes(env, s).value, Keep(s.shares, SharesOne(env, s));
    forall i | 0 <= i < |entries|
      ensures Linked(env, entries[i].volumeId, s1, s2) && |Own(env, entries[i].volumeId, s1).datasets| == 1
      ensures ParseInt64(Own(env, entries[i].volumeId, s1).datasets[0].refquota) == Some(entries[i].capacity)
    {
      var v := EntryOfVolume(env, s1, s2, i);
      LinkedHas(env, v, s1, s2);
    }
    forall v | Linked(env, v, s1, s2) ensures exists i :: 0 <= i < |entries| && entries[i].volumeId == v {
      LinkedHas(env, v, s1, s2);
      LinkedIsShared(env, v, s1, s2);
      var i :| 0 <= i < |listed| && listed[i] == Own(env, v, s2).shares[0];
      var w := EntryOfVolume(env, s1, s2, i);
      OwnShareIs(env, w, s2, listed[i]);
      OwnShareIs(env, v, s2, listed[i]);
      MountpointsApart(env, v, w);
    }
    forall i, j | 0 <= i < |entries| && 0 <= j < |entries| && entries[i].volumeId == entries[j].volumeId
      ensures i == j
    {
      var v := EntryOfVolume(env, s1, s2, i);
      var w := EntryOfVolume(env, s1, s2, j);
      OwnShareIs(env, v, s2, listed[i]);
      OwnShareIs(env, w, s2, listed[j]);
      OneShare(env, v, s1, s2);
      AtMostOnePosition(listed, Sharing(Mountpoint(env, v)), i, j);
    }
  }

  lemma LinkedHas(env: Env, v: string, s1: State, s2: State)
    requires Linked(env, v, s1, s2)
    ensures |Own(env, v, s1).datasets| == 1 && |Own(env, v, s2).shares| == 1
    ensures Own(env, v, s2).shares == [Own(env, v, s2).shares[0]]
  {
    hide Own;
  }

  /** On a store in order, a listing whose calls both see it. */
  lemma GoodListing(env: Env, s: State)
    requires Good(env, s)
    ensures ListVolumes(env, s).Ok? && ListsVolumes(env, s, s, ListVolumes(env, s).value)
  {
    hide ListVolumes, ListsVolumes, Good;
    assert Seen(s, s) == s;
    SeenListing(env, s, s);
  }

  /** Before the listing, and between its two calls, anything at all happens. Then it lists exactly the volumes that
      had their dataset at the first call and their share at the second, each once. In particular every volume
      listed was complete at the second call, and every volume complete and left alone throughout is listed. */
  lemma ListingAmidOthers(env: Env, s0: State, before: seq<Event>, between: seq<Event>)
    requires Vacant(env, s0)
    ensures
      var sys1 := Exec(env, System(s0, map[]), before);
      var s1, s2 := sys1.state, Exec(env, sys1, between).state;
      var listing := ListVolumes(env, Seen(s1, s2));
      && listing.Ok? && ListsVolumes(env, s1, s2, listing.value)
      && (forall i | 0 <= i < |listing.value| :: Complete(env, listing.value[i].volumeId, s2))
      && (forall v | Complete(env, v, s1) && Own(env, v, s1) == Own(env, v, s2) ::
            exists i :: 0 <= i < |listing.value| && listing.value[i].volumeId == v)
  {
    hide Exec, ListVolumes, Vacant, Own;
    var sys1 := Exec(env, System(s0, map[]), before);
    var s1, s2 := sys1.state, Exec(env, sys1, between).state;
    ReachableInv(env, s0, before);
    ExecKeeps(env, sys1, between);
    SeenListing(env, s1, s2);
    var entries := ListVolumes(env, Seen(s1, s2)).value;
    forall i | 0 <= i < |entries| ensures Complete(env, entries[i].volumeId, s2) {
      assert Linked(env, entries[i].volumeId, s1, s2);
      ShareHasDataset(env, entries[i].volumeId, s2);
    }
    forall v | Complete(env, v, s1) && Own(env, v, s1) == Own(env, v, s2)
      ensures exists i :: 0 <= i < |entries| && entries[i].volumeId == v
    {
      assert Linked(env, v, s1, s2);
    }
  }

  lemma ShareHasDataset(env: Env, v: string, s: State)
    requires Good(env, s) && |Own(env, v, s).shares| == 1
    ensures |Own(env, v, s).datasets| == 1
  {
    hide Own;
    assert VolumeOk(env, v, s);
  }

  /** In every reachable store a listing whose calls both work and see that store returns exactly the volumes with
      both dataset and share, each once. */
  lemma ReachableListing(env: Env, s0: State, events: seq<Event>)
    requires Vacant(env, s0)
    ensures
      var s := Exec(env, System(s0, map[]), events).state;
      ListVolumes(env, s).Ok? && ListsVolumes(env, s, s, ListVolumes(env, s).value)
  {
    hide Exec, ListVolumes, ListsVolumes, Vacant;
    ReachableInv(env, s0, events);
    GoodListing(env, Exec(env, System(s0, map[]), events).state);
  }
}
