/** The store as an object that the driver's calls change in place. */
module IscsiStore {
  import opened Wrappers
  import opened Lists
  import opened Faults
  import opened Decimal
  import opened IscsiApi
  import Api = IscsiApi

  class Store {
    var datasets: seq<Dataset>
    var extents: seq<Extent>
    var initiators: seq<Initiator>
    var targets: seq<Target>
    var mappings: seq<Mapping>
    var nextId: int
    var basename: string
    var portals: map<int, seq<Listen>>
    /** What will go wrong with the calls to come. */
    var faults: Faults

    constructor (s: State, faults: Faults)
      ensures Snapshot() == s && this.faults == faults
    {
      datasets, extents, initiators, targets := s.datasets, s.extents, s.initiators, s.targets;
      mappings, nextId, basename, portals := s.mappings, s.nextId, s.basename, s.portals;
      this.faults := faults;
    }

    function Snapshot(): State
      reads this
    {
      State(datasets, extents, initiators, targets, mappings, nextId, basename, portals)
    }

    method NextFault() returns (f: Fault)
      modifies this`faults
      ensures f == Next(old(faults)) && faults == Later(old(faults))
    {
      f := Next(faults);
      faults := Later(faults);
    }

    /** What others do to the store in the meantime. */
    method Become(s: State)
      modifies this
      ensures Snapshot() == s && faults == old(faults)
    {
      datasets, extents, initiators, targets := s.datasets, s.extents, s.initiators, s.targets;
      mappings, nextId, basename, portals := s.mappings, s.nextId, s.basename, s.portals;
    }

    method ListDatasets() returns (r: Reply<seq<Dataset>>)
      modifies this`faults
      ensures r == Read(datasets, Next(old(faults))) && faults == Later(old(faults))
    {
      var f := NextFault();
      r := Read(datasets, f);
    }

    method ListExtents() returns (r: Reply<seq<Extent>>)
      modifies this`faults
      ensures r == Read(extents, Next(old(faults))) && faults == Later(old(faults))
    {
      var f := NextFault();
      r := Read(extents, f);
    }

    method ListInitiators() returns (r: Reply<seq<Initiator>>)
      modifies this`faults
      ensures r == Read(initiators, Next(old(faults))) && faults == Later(old(faults))
    {
      var f := NextFault();
      r := Read(initiators, f);
    }

    method ListTargets() returns (r: Reply<seq<Target>>)
      modifies this`faults
      ensures r == Read(targets, Next(old(faults))) && faults == Later(old(faults))
    {
      var f := NextFault();
      r := Read(targets, f);
    }

    method ListMappings() returns (r: Reply<seq<Mapping>>)
      modifies this`faults
      ensures r == Read(mappings, Next(old(faults))) && faults == Later(old(faults))
    {
      var f := NextFault();
      r := Read(mappings, f);
    }

    method GetGlobalConfiguration() returns (r: Reply<string>)
      modifies this`faults
      ensures r == Read(basename, Next(old(faults))) && faults == Later(old(faults))
    {
      var f := NextFault();
      r := Read(basename, f);
    }

    method GetPortal(portal: int) returns (r: Reply<seq<Listen>>)
      modifies this`faults
      ensures r == Api.GetPortal(Snapshot(), portal, Next(old(faults))) && faults == Later(old(faults))
    {
      var f := NextFault();
      if portal !in portals {
        return Err(NotFound);
      }
      r := Read(portals[portal], f);
    }

    method CreateDataset(name: string, size: nat) returns (r: Reply<Dataset>)
      modifies this`datasets, this`faults
      ensures (Snapshot(), r) == Api.CreateDataset(old(Snapshot()), name, size, Next(old(faults)))
      ensures faults == Later(old(faults))
    {
      var f := NextFault();
      var d := Dataset(name, name, Volume, ToDecimal(size));
      if !f.Rejected? {
        datasets := datasets + [d];
      }
      r := Read(d, f);
    }

    method CreateExtent(name: string, comment: string, path: string) returns (r: Reply<Extent>)
      modifies this`extents, this`nextId, this`faults
      ensures (Snapshot(), r) == Api.CreateExtent(old(Snapshot()), name, comment, path, Next(old(faults)))
      ensures faults == Later(old(faults))
    {
      var f := NextFault();
      if forall d | d in datasets :: ZvolPath(d.name) != path {
        return Err(NoSuchDataset);
      }
      var e := Extent(nextId, name, comment, path);
      if !f.Rejected? {
        extents, nextId := extents + [e], nextId + 1;
      }
      r := Read(e, f);
    }

    method CreateInitiator(comment: string) returns (r: Reply<Initiator>)
      modifies this`initiators, this`nextId, this`faults
      ensures (Snapshot(), r) == Api.CreateInitiator(old(Snapshot()), comment, Next(old(faults)))
      ensures faults == Later(old(faults))
    {
      var f := NextFault();
      var i := Initiator(nextId, comment);
      if !f.Rejected? {
        initiators, nextId := initiators + [i], nextId + 1;
      }
      r := Read(i, f);
    }

    method CreateTarget(name: string, alias: string, portal: int, initiator: int) returns (r: Reply<Target>)
      modifies this`targets, this`nextId, this`faults
      ensures (Snapshot(), r) == Api.CreateTarget(old(Snapshot()), name, alias, portal, initiator, Next(old(faults)))
      ensures faults == Later(old(faults))
    {
      var f := NextFault();
      var t := Target(nextId, name, alias, portal, initiator);
      if !f.Rejected? {
        targets, nextId := targets + [t], nextId + 1;
      }
      r := Read(t, f);
    }

    method CreateMapping(target: int, extent: int) returns (r: Reply<Mapping>)
      modifies this`mappings, this`faults
      ensures (Snapshot(), r) == Api.CreateMapping(old(Snapshot()), target, extent, Next(old(faults)))
      ensures faults == Later(old(faults))
    {
      var f := NextFault();
      var m := Mapping(target, extent, LeastFree(UnitsOf(mappings, target)));
      if !f.Rejected? {
        mappings := mappings + [m];
      }
      r := Read(m, f);
    }

    method DeleteDataset(id: string) returns (r: Reply<()>)
      modifies this`datasets, this`extents, this`faults
      ensures (Snapshot(), r) == Api.DeleteDataset(old(Snapshot()), id, Next(old(faults)))
      ensures faults == Later(old(faults))
    {
      var f := NextFault();
      var found := FindFirst(datasets, DatasetId(id));
      if found.None? {
        return Err(NotFound);
      }
      if InUse(Snapshot(), found.value.name) {
        return Err(Busy);
      }
      if !f.Rejected? {
        extents := FindAll(extents, Not(ExtentAt(ZvolPath(found.value.name))));
        datasets := FindAll(datasets, Not(DatasetId(id)));
      }
      r := Read((), f);
    }

    method DeleteExtent(id: int) returns (r: Reply<()>)
      modifies this`extents, this`mappings, this`faults
      ensures (Snapshot(), r) == Api.DeleteExtent(old(Snapshot()), id, Next(old(faults)))
      ensures faults == Later(old(faults))
    {
      var f := NextFault();
      var found := FindFirst(extents, ExtentId(id));
      if found.None? {
        return Err(NotFound);
      }
      if !f.Rejected? {
        extents := FindAll(extents, Not(ExtentId(id)));
        mappings := FindAll(mappings, Not(OfExtent(id)));
      }
      r := Read((), f);
    }

    method DeleteInitiator(id: int) returns (r: Reply<()>)
      modifies this`initiators, this`faults
      ensures (Snapshot(), r) == Api.DeleteInitiator(old(Snapshot()), id, Next(old(faults)))
      ensures faults == Later(old(faults))
    {
      var f := NextFault();
      var found := FindFirst(initiators, InitiatorId(id));
      if found.None? {
        return Err(NotFound);
      }
      if !f.Rejected? {
        initiators := FindAll(initiators, Not(InitiatorId(id)));
      }
      r := Read((), f);
    }

    method DeleteTarget(id: int) returns (r: Reply<()>)
      modifies this`targets, this`mappings, this`faults
      ensures (Snapshot(), r) == Api.DeleteTarget(old(Snapshot()), id, Next(old(faults)))
      ensures faults == Later(old(faults))
    {
      var f := NextFault();
      var found := FindFirst(targets, TargetId(id));
      if found.None? {
        return Err(NotFound);
      }
      if !f.Rejected? {
        targets := FindAll(targets, Not(TargetId(id)));
        mappings := FindAll(mappings, Not(OfTarget(id)));
      }
      r := Read((), f);
    }
  }
}
