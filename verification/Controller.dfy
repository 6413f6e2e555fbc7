/** The controller's entry points: argument checks, and the choice between the two protocols. */
module Controller {
  import opened Wrappers
  import opened Text
  import opened Faults
  import opened Csi
  import I = IscsiMachine
  import N = NfsMachine
  import NR = NfsRuns
  import IscsiApi
  import IscsiDriver
  import NfsDriver

  datatype Route = ToNfs | ToIscsi | NoRoute

  /** Which driver a volume id belongs to; the NFS prefix is tried first. */
  function RouteOf(id: string): Route {
    if HasPrefix(id, N.VOLUME_PREFIX) then ToNfs
    else if HasPrefix(id, I.VOLUME_PREFIX) then ToIscsi
    else NoRoute
  }

  /** The route of every id: its first letters decide, and no id has two. */
  lemma RouteReads(id: string)
    ensures RouteOf(id) == ToNfs <==> "nfs-" <= id
    ensures RouteOf(id) == ToIscsi <==> "iscsi-" <= id
  {
    assert N.VOLUME_PREFIX[0] == 'n' && I.VOLUME_PREFIX[0] == 'i';
  }

  /** An id made by one driver is routed back to that driver. */
  lemma RoutedBack(name: string)
    ensures RouteOf(N.VolumeId(name)) == ToNfs && RouteOf(I.VolumeId(name)) == ToIscsi
    ensures N.VolumeId(name) == "nfs-" + name && I.VolumeId(name) == "iscsi-" + name
  {
    assert I.VolumeId(name)[0] == 'i' && N.VOLUME_PREFIX[0] == 'n';
  }

  lemma {:induction false} IscsiAnswersOwnId(env: I.Env, v: string, s: IscsiApi.State, op: I.Op, faults: Faults)
    requires op.Finished? && op.outcome.Provisioned? ==> op.outcome.response.volumeId == v
    ensures
      var op' := I.Run(env, v, s, op, faults).1;
      op'.Finished? && op'.outcome.Provisioned? ==> op'.outcome.response.volumeId == v
    decreases I.Remaining(op)
  {
    if op.Finished? {
    } else {
      var (s', op') := I.Step(env, v, s, op, Next(faults));
      I.StepShrinks(env, v, s, op, Next(faults));
      IscsiStepId(env, v, s, op, Next(faults));
      IscsiAnswersOwnId(env, v, s', op', Later(faults));
    }
  }

  lemma IscsiStepId(env: I.Env, v: string, s: IscsiApi.State, op: I.Op, f: Fault)
    requires !op.Finished?
    ensures
      var op' := I.Step(env, v, s, op, f).1;
      op'.Finished? && op'.outcome.Provisioned? ==> op'.outcome.response.volumeId == v
  {
  }

  lemma {:induction false} NfsAnswersOwnId(env: N.Env, v: string, s: N.State, op: N.Op, faults: Faults)
    requires op.Finished? && op.outcome.Provisioned? ==> op.outcome.response.volumeId == v
    ensures
      var op' := N.Run(env, v, s, op, faults).1;
      op'.Finished? && op'.outcome.Provisioned? ==> op'.outcome.response.volumeId == v
    decreases N.Remaining(op)
  {
    if op.Finished? {
    } else {
      var (s', op') := N.Step(env, v, s, op, Next(faults));
      NR.StepShrinks(env, v, s, op, Next(faults));
      NfsAnswersOwnId(env, v, s', op', Later(faults));
    }
  }

  class Server {
    const isNfs: bool
    const iscsi: IscsiDriver.Driver
    const nfs: NfsDriver.Driver

    constructor (isNfs: bool, iscsi: IscsiDriver.Driver, nfs: NfsDriver.Driver)
      ensures this.isNfs == isNfs && this.iscsi == iscsi && this.nfs == nfs
    {
      this.isNfs, this.iscsi, this.nfs := isNfs, iscsi, nfs;
    }

    /** Creates with the driver the server is set up for. The id in the answer is routed back to that driver. */
    method CreateVolume(request: CreateRequest) returns (r: Result<Created, Status>)
      modifies iscsi.store, nfs.store
      ensures r.Ok? ==> r.value.volumeId == (if isNfs then "nfs-" else "iscsi-") + request.name
      ensures r.Ok? ==> RouteOf(r.value.volumeId) == if isNfs then ToNfs else ToIscsi
      ensures isNfs || request.name == "" || request.capabilities == [] ==> unchanged(iscsi.store)
      ensures !isNfs || request.name == "" || request.capabilities == [] ==> unchanged(nfs.store)
      ensures request.name == "" || request.capabilities == [] ==> r == Err(InvalidArgument)
      ensures request.name != "" && request.capabilities != [] && isNfs ==>
        var outcome := if r.Ok? then N.Provisioned(r.value) else N.Failure(r.error);
        (nfs.store.Snapshot(), N.Finished(outcome), nfs.store.faults) ==
        N.Run(nfs.env, N.VolumeId(request.name), old(nfs.store.Snapshot()), N.StartCreate(request),
              old(nfs.store.faults))
      ensures request.name != "" && request.capabilities != [] && !isNfs ==>
        var outcome := if r.Ok? then I.Provisioned(r.value) else I.Failure(r.error);
        (iscsi.store.Snapshot(), I.Finished(outcome), iscsi.store.faults) ==
        I.Run(iscsi.env, I.VolumeId(request.name), old(iscsi.store.Snapshot()), I.StartCreate(request),
              old(iscsi.store.faults))
    {
      hide I.Run, N.Run;
      if request.name == "" {
        return Err(InvalidArgument);
      }
      if |request.capabilities| == 0 {
        return Err(InvalidArgument);
      }
      RoutedBack(request.name);
      if isNfs {
        var v := N.VolumeId(request.name);
        NfsAnswersOwnId(nfs.env, v, nfs.store.Snapshot(), N.StartCreate(request), nfs.store.faults);
        r := nfs.CreateVolume(request);
      } else {
        var v := I.VolumeId(request.name);
        IscsiAnswersOwnId(iscsi.env, v, iscsi.store.Snapshot(), I.StartCreate(request), iscsi.store.faults);
        r := iscsi.CreateVolume(request);
      }
    }

    /** Deletes with the driver the id belongs to, whichever driver the server is set up for; any error of a
        driver is reported as internal. */
    method DeleteVolume(v: string) returns (r: Result<(), Status>)
      modifies iscsi.store, nfs.store
      ensures !("iscsi-" <= v) ==> unchanged(iscsi.store)
      ensures !("nfs-" <= v) ==> unchanged(nfs.store)
      ensures v == "" ==> r == Err(InvalidArgument)
      ensures v != "" && !("nfs-" <= v) && !("iscsi-" <= v) ==> r == Err(Unknown)
      ensures "nfs-" <= v ==>
        var (s, op, _) := N.Run(nfs.env, v, old(nfs.store.Snapshot()), N.StartDelete(v), old(nfs.store.faults));
        nfs.store.Snapshot() == s && r == if op == N.Finished(N.Deleted) then Ok(()) else Err(Internal)
      ensures "iscsi-" <= v ==>
        var (s, op, _) := I.Run(iscsi.env, v, old(iscsi.store.Snapshot()), I.StartDelete(v), old(iscsi.store.faults));
        iscsi.store.Snapshot() == s && r == if op == I.Finished(I.Deleted) then Ok(()) else Err(Internal)
    {
      hide I.Run, N.Run;
      if v == "" {
        return Err(InvalidArgument);
      }
      RouteReads(v);
      match RouteOf(v) {
        case ToNfs =>
          r := nfs.DeleteVolume(v);
          return if r.Err? then Err(Internal) else Ok(());
        case ToIscsi =>
          r := iscsi.DeleteVolume(v);
          return if r.Err? then Err(Internal) else Ok(());
        case NoRoute =>
          return Err(Unknown);
      }
    }
  }
}
