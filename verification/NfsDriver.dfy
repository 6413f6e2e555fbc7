/** The NFS driver's controller calls, as they change the store step by step. */
module NfsDriver {
  import opened Wrappers
  import opened Lists
  import opened Text
  import opened Faults
  import opened Decimal
  import opened Capacity
  import opened Csi
  import opened NfsMachine
  import opened NfsInvariant
  import opened NfsRuns
  import opened NfsAnswers
  import opened NfsListing
  import Listing = NfsListing
  import Api = NfsMachine

  class Store {
    var datasets: seq<Dataset>
    var shares: seq<Share>
    var nextId: int
    var dialect: Dialect
    /** What will go wrong with the calls to come. */
    var faults: Faults

    constructor (s: State, faults: Faults)
      ensures Snapshot() == s && this.faults == faults
    {
      datasets, shares, nextId, dialect := s.datasets, s.shares, s.nextId, s.dialect;
      this.faults := faults;
    }

    function Snapshot(): State
      reads this
    {
      State(datasets, shares, nextId, dialect)
    }

    method NextFault() returns (f: Fault)
      modifies this`faults
      ensures f == Next(old(faults)) && faults == Later(old(faults))
    {
      f := Next(faults);
      faults := Later(faults);
    }

    /** What others do to the store in the meantime. */
    method Become(s: State)
      modifies this
      ensures Snapshot() == s && faults == old(faults)
    {
      datasets, shares, nextId, dialect := s.datasets, s.shares, s.nextId, s.dialect;
    }

    method ListDatasets() returns (r: Reply<seq<Dataset>>)
      modifies this`faults
      ensures r == Read(datasets, Next(old(faults))) && faults == Later(old(faults))
    {
      var f := NextFault();
      r := Read(datasets, f);
    }

    method ListShares() returns (r: Reply<seq<Share>>)
      modifies this`faults
      ensures r == Read(shares, Next(old(faults))) && faults == Later(old(faults))
    {
      var f := NextFault();
      r := Read(shares, f);
    }

    method CreateDataset(name: string, quota: nat) returns (r: Reply<Dataset>)
      modifies this`datasets, this`faults
      ensures (Snapshot(), r) == Api.CreateDataset(old(Snapshot()), name, quota, Next(old(faults)))
      ensures faults == Later(old(faults))
    {
      var f := NextFault();
      var d := Dataset(name, name, MountpointOf(name), ToDecimal(quota));
      if !f.Rejected? {
        datasets := datasets + [d];
      }
      r := Read(d, f);
    }

    method CreateShare(asked: Dialect, mountpoint: string, comment: string) returns (r: Reply<Share>)
      modifies this`shares, this`nextId, this`faults
      ensures (Snapshot(), r) == Api.CreateShare(old(Snapshot()), asked, mountpoint, comment, Next(old(faults)))
      ensures faults == Later(old(faults))
    {
      var f := NextFault();
      if asked != dialect {
        return Err(Failed(Unprocessable));
      }
      var share :=
        if asked.TakesPath? then Share(nextId, mountpoint, [], comment) else Share(nextId, "", [mountpoint], comment);
      if !f.Rejected? {
        shares, nextId := shares + [share], nextId + 1;
      }
      r := Read(share, f);
    }

    method DeleteDataset(id: string) returns (r: Reply<()>)
      modifies this`datasets, this`shares, this`faults
      ensures (Snapshot(), r) == Api.DeleteDataset(old(Snapshot()), id, Next(old(faults)))
      ensures faults == Later(old(faults))
    {
      var f := NextFault();
      var found := FindFirst(datasets, DatasetId(id));
      if found.None? {
        return Err(ApiError.NotFound);
      }
      if !f.Rejected? {
        shares := FindAll(shares, Not(Sharing(found.value.mountpoint)));
        datasets := FindAll(datasets, Not(DatasetId(id)));
      }
      r := Read((), f);
    }
  }

  class Driver {
    const env: Env
    const store: Store

    constructor (env: Env, store: Store)
      ensures this.env == env && this.store == store
    {
      this.env := env;
      this.store := store;
    }

    /** Create one volume: find or make the dataset, then find or make the share, in the old dialect when the
        server finds the new one unprocessable. The outcome is that of the step machine run with the same faults. */
    method CreateVolume(request: CreateRequest) returns (r: Result<Created, Status>)
      modifies store
      ensures
        (store.Snapshot(), Finished(if r.Ok? then Provisioned(r.value) else Failure(r.error)), store.faults) ==
        Run(env, VolumeId(request.name), old(store.Snapshot()), StartCreate(request), old(store.faults))
      ensures
        old(Good(env, store.Snapshot())) ==>
          && Good(env, store.Snapshot())
          && Rest(env, VolumeId(request.name), store.Snapshot()) ==
               old(Rest(env, VolumeId(request.name), store.Snapshot()))
          && (r.Ok? ==> |Own(env, VolumeId(request.name), store.Snapshot()).datasets| == 1 &&
                        |Own(env, VolumeId(request.name), store.Snapshot()).shares| == 1)
      ensures r.Ok? ==>
        && ModesServed(request) && AnswerReads(env, "nfs-" + request.name, store.Snapshot(), r.value)
        && ExtractStorage(request.range) == Result<Int64, SizeError>.Ok(r.value.capacity)
      ensures !ModesServed(request) ==> r == Err(InvalidArgument) && store.Snapshot() == old(store.Snapshot())
    {
      hide Run, Good, Rest, Own, AnswerReads, ModesServed;
      var v := VolumeId(request.name);
      SuccessReads(env, v, store.Snapshot(), request, store.faults);
      Refused(env, v, store.Snapshot(), request, store.faults);
      KeptByRun(env, v, store.Snapshot(), StartCreate(request), store.faults);
      RunEnds(env, v);
      var supported := CheckCapabilities(request.capabilities, ACCESS_MODES);
      if !supported {
        return Err(InvalidArgument);
      }
      var size := ExtractStorage(request.range);
      if size.Err? {
        return Err(OutOfRange);
      }
      OneStep(env, v, store.Snapshot(), Op.FindDataset(size.value), store.faults);
      var listed := store.ListDatasets();
      if listed.Err? {
        return Err(Internal);
      }
      var name := DatasetName(env, v);
      var existing := FindFirst(listed.value, DatasetNamed(name));
      var mountpoint: string;
      if existing.Some? {
        mountpoint := existing.value.mountpoint;
      } else {
        OneStep(env, v, store.Snapshot(), Op.MakeDataset(size.value), store.faults);
        var made := store.CreateDataset(name, size.value);
        if made.Err? {
          return Err(Backend);
        }
        mountpoint := made.value.mountpoint;
      }
      assert old(Run(env, v, store.Snapshot(), StartCreate(request), store.faults)) ==
        Run(env, v, store.Snapshot(), Op.FindShare(size.value, mountpoint), store.faults);
      r := ShareDirectory(v, size.value, mountpoint);
    }

    method ShareDirectory(v: string, size: VolumeSize, mountpoint: string) returns (r: Result<Created, Status>)
      modifies store
      ensures
        (store.Snapshot(), Finished(if r.Ok? then Provisioned(r.value) else Failure(r.error)), store.faults) ==
        old(Run(env, v, store.Snapshot(), Op.FindShare(size, mountpoint), store.faults))
    {
      hide Run;
      RunEnds(env, v);
      OneStep(env, v, store.Snapshot(), Op.FindShare(size, mountpoint), store.faults);
      var listed := store.ListShares();
      if listed.Err? {
        return Err(Internal);
      }
      var existing := FindFirst(listed.value, Sharing(mountpoint));
      if existing.None? {
        OneStep(env, v, store.Snapshot(), Op.MakeShare(size, mountpoint), store.faults);
        var made := store.CreateShare(TakesPath, mountpoint, ShareComment(v));
        if made.Err? && made.error == Failed(Unprocessable) {
          OneStep(env, v, store.Snapshot(), Op.MakeShareOldWay(size, mountpoint), store.faults);
          made := store.CreateShare(TakesPaths, mountpoint, ShareComment(v));
        }
        if made.Err? {
          return Err(Backend);
        }
      }
      r := Ok(Respond(env, v, size, mountpoint));
    }

    /** Delete one volume: its dataset, and with it the share. */
    method DeleteVolume(v: string) returns (r: Result<(), Status>)
      modifies store
      ensures
        (store.Snapshot(), Finished(if r.Ok? then Deleted else Failure(r.error)), store.faults) ==
        Run(env, v, old(store.Snapshot()), StartDelete(v), old(store.faults))
      ensures
        old(Good(env, store.Snapshot())) ==>
          && Good(env, store.Snapshot())
          && Rest(env, v, store.Snapshot()) == old(Rest(env, v, store.Snapshot()))
          && (r.Ok? ==> Own(env, v, store.Snapshot()) == NOTHING)
      ensures
        if "nfs-" <= v then r.Err? ==> r.error == Backend
        else r == Err(Status.NotFound) && store.Snapshot() == old(store.Snapshot())
    {
      hide Run, Good, Rest, Own;
      KeptByRun(env, v, store.Snapshot(), StartDelete(v), store.faults);
      RunEnds(env, v);
      if !HasPrefix(v, VOLUME_PREFIX) {
        return Err(Status.NotFound);
      }
      OneStep(env, v, store.Snapshot(), LookDataset, store.faults);
      var listed := store.ListDatasets();
      if listed.Err? {
        return Err(Backend);
      }
      var existing := FindFirst(listed.value, DatasetNamed(DatasetName(env, v)));
      if existing.Some? {
        OneStep(env, v, store.Snapshot(), DropDataset(existing.value.id), store.faults);
        var dropped := store.DeleteDataset(existing.value.id);
        if dropped.Err? {
          return Err(Backend);
        }
      }
      r := Ok(());
    }

    /** List the volumes: the datasets by mountpoint, then the shares of those mountpoints. Others may change the store
        between the two calls: s2 is what they have made of it by the second. */
    method ListVolumes(s2: State) returns (r: Result<seq<Entry>, Status>)
      modifies store
      ensures
        var seen, faults := Seen(old(store.Snapshot()), s2), old(store.faults);
        && (r.Ok? <==> Listing.ListVolumes(env, seen).Ok? && Next(faults).Works? && Next(Later(faults)).Works?)
        && (r.Ok? ==> r == Listing.ListVolumes(env, seen) && Joins(env, seen, r.value))
        && (r.Err? ==> r.error == Backend)
    {
      hide MountpointMap, Entries, Keep, Joins;
      ListIsJoin(env, Seen(store.Snapshot(), s2));
      var listed := store.ListDatasets();
      if listed.Err? {
        return Err(Backend);
      }
      var datasets := FindAll(listed.value, DatasetUnder(env));
      var mountpointDataset := MapMountpoints(datasets);
      store.Become(s2);
      var listedShares := store.ListShares();
      if listedShares.Err? {
        return Err(Backend);
      }
      var shares := FindAll(listedShares.value, ShareOver(mountpointDataset));
      r := CollectEntries(shares, mountpointDataset);
    }

    static method MapMountpoints(datasets: seq<Dataset>) returns (mountpointDataset: map<string, Dataset>)
      ensures mountpointDataset == MountpointMap(datasets)
    {
      mountpointDataset := map[];
      for i := 0 to |datasets|
        invariant mountpointDataset == MountpointMap(datasets[..i])
      {
        assert datasets[..i + 1][..i] == datasets[..i];
        mountpointDataset := mountpointDataset[datasets[i].mountpoint := datasets[i]];
      }
      assert datasets[..|datasets|] == datasets;
    }

    method CollectEntries(shares: seq<Share>, datasets: map<string, Dataset>) returns (r: Result<seq<Entry>, Status>)
      requires forall share | share in shares :: Normalise(share) in datasets
      ensures r == Entries(env, shares, datasets)
      ensures r.Err? ==> r.error == Backend
    {
      hide Entries, ParseInt64;
      EntriesGrow(env, shares, 0, datasets);
      var result: seq<Entry> := [];
      for i := 0 to |shares|
        invariant Entries(env, shares[..i], datasets) == Ok(result)
      {
        EntriesGrow(env, shares, i + 1, datasets);
        var d := datasets[Normalise(shares[i])];
        var quota := ParseInt64(d.refquota);
        if quota.None? {
          EntriesStop(env, shares, i + 1, datasets);
          return Err(Backend);
        }
        result := result + [Entry(TrimPrefix(d.name, StoragePrefix(env)), quota.value)];
      }
      assert shares[..|shares|] == shares;
      r := Ok(result);
    }
  }

  lemma EntriesGrow(env: Env, shares: seq<Share>, n: nat, datasets: map<string, Dataset>)
    requires n <= |shares| && forall share | share in shares :: Normalise(share) in datasets
    ensures Entries(env, shares[..n], datasets) ==
      if n == 0 then Ok([])
      else if Entries(env, shares[..n - 1], datasets).Err? then Entries(env, shares[..n - 1], datasets)
      else
        var d := datasets[Normalise(shares[n - 1])];
        match ParseInt64(d.refquota)
        case None => Err(Backend)
        case Some(quota) =>
          Ok(Entries(env, shares[..n - 1], datasets).value + [Entry(TrimPrefix(d.name, StoragePrefix(env)), quota)])
  {
    if n > 0 {
      assert shares[..n][..n - 1] == shares[..n - 1];
    }
  }

  /** Once an entry cannot be made the whole listing fails. */
  lemma {:induction false} EntriesStop(env: Env, shares: seq<Share>, n: nat, datasets: map<string, Dataset>)
    requires n <= |shares| && forall share | share in shares :: Normalise(share) in datasets
    requires Entries(env, shares[..n], datasets) == Err(Backend)
    ensures Entries(env, shares, datasets) == Err(Backend)
    decreases |shares|
  {
    if n < |shares| {
      var init := shares[..|shares| - 1];
      assert init[..n] == shares[..n];
      EntriesStop(env, init, n, datasets);
    } else {
      assert shares[..n] == shares;
    }
  }

  lemma KeptByRun(env: Env, v: string, s: State, op: Op, faults: Faults)
    requires op.FindDataset? || op.LookDataset? || (op.Finished? && op.outcome.Failure?)
    ensures
      var (s', op', _) := Run(env, v, s, op, faults);
      Good(env, s) ==>
        && Good(env, s') && Rest(env, v, s') == Rest(env, v, s)
        && (op'.Finished? && op'.outcome.Provisioned? ==>
              |Own(env, v, s').datasets| == 1 && |Own(env, v, s').shares| == 1)
        && (op' == Finished(Deleted) ==> Own(env, v, s') == NOTHING)
  {
    hide Run, Own, Good, Rest;
    if Good(env, s) {
      RunKeeps(env, v, s, op, faults);
    }
  }
}
