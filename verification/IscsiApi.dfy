/** The remote store as the iSCSI driver sees it: five kinds of object, and one function for each API call. */
module IscsiApi {
  import opened Wrappers
  import opened Lists
  import opened Faults
  import opened Decimal

  datatype DatasetKind = Volume | Filesystem

  datatype Dataset = Dataset(id: string, name: string, kind: DatasetKind, volsize: string)

  datatype Extent = Extent(id: int, name: string, comment: string, path: string)

  datatype Initiator = Initiator(id: int, comment: string)

  datatype Target = Target(id: int, name: string, alias: string, portal: int, initiator: int)

  datatype Mapping = Mapping(target: int, extent: int, lun: nat)

  type Port = n: int | 0 <= n < 0x8000_0000

  datatype Listen = Listen(ip: string, port: Port)

  /** The collections are in the order the store lists them. Ids below nextId have been given out. */
  datatype State = State(
    datasets: seq<Dataset>,
    extents: seq<Extent>,
    initiators: seq<Initiator>,
    targets: seq<Target>,
    mappings: seq<Mapping>,
    nextId: int,
    basename: string,
    portals: map<int, seq<Listen>>)

  datatype ApiError = Failed(code: Code) | NotFound | Busy | NoSuchDataset

  type Reply<+T> = Result<T, ApiError>

  // Matchers

  function DatasetNamed(name: string): Dataset -> bool { (d: Dataset) => d.name == name }

  function VolumeNamed(name: string): Dataset -> bool { (d: Dataset) => d.name == name && d.kind == Volume }

  function DatasetId(id: string): Dataset -> bool { (d: Dataset) => d.id == id }

  function ExtentAt(path: string): Extent -> bool { (e: Extent) => e.path == path }

  function ExtentId(id: int): Extent -> bool { (e: Extent) => e.id == id }

  function CommentStarts(prefix: string): Initiator -> bool { (i: Initiator) => prefix <= i.comment }

  function InitiatorId(id: int): Initiator -> bool { (i: Initiator) => i.id == id }

  function TargetNamed(name: string): Target -> bool { (t: Target) => t.name == name }

  function TargetId(id: int): Target -> bool { (t: Target) => t.id == id }

  function Joining(target: int, extent: int): Mapping -> bool {
    (m: Mapping) => m.target == target && m.extent == extent
  }

  function OfTarget(id: int): Mapping -> bool { (m: Mapping) => m.target == id }

  function OfExtent(id: int): Mapping -> bool { (m: Mapping) => m.extent == id }

  // Calls

  function ZvolPath(dataset: string): string { "zvol/" + dataset }

  function Read<T>(value: T, f: Fault): Reply<T> {
    if f.Works? then Ok(value) else Err(Failed(f.code))
  }

  function Mutation<T>(before: State, after: State, value: T, f: Fault): (State, Reply<T>) {
    match f
    case Works => (after, Ok(value))
    case Rejected(code) => (before, Err(Failed(code)))
    case LostReply(code) => (after, Err(Failed(code)))
  }

  function GetPortal(s: State, portal: int, f: Fault): Reply<seq<Listen>> {
    if portal in s.portals then Read(s.portals[portal], f) else Err(NotFound)
  }

  /** A new zvol. The store uses a dataset's name as its id. */
  function CreateDataset(s: State, name: string, size: nat, f: Fault): (State, Reply<Dataset>) {
    var d := Dataset(name, name, Volume, ToDecimal(size));
    Mutation(s, s.(datasets := s.datasets + [d]), d, f)
  }

  /** A new extent over an existing zvol. */
  function CreateExtent(s: State, name: string, comment: string, path: string, f: Fault): (State, Reply<Extent>) {
    if forall d | d in s.datasets :: ZvolPath(d.name) != path then
      (s, Err(NoSuchDataset))
    else
      var e := Extent(s.nextId, name, comment, path);
      Mutation(s, s.(extents := s.extents + [e], nextId := s.nextId + 1), e, f)
  }

  function CreateInitiator(s: State, comment: string, f: Fault): (State, Reply<Initiator>) {
    var i := Initiator(s.nextId, comment);
    Mutation(s, s.(initiators := s.initiators + [i], nextId := s.nextId + 1), i, f)
  }

  function CreateTarget(s: State, name: string, alias: string, portal: int, initiator: int, f: Fault)
    : (State, Reply<Target>)
  {
    var t := Target(s.nextId, name, alias, portal, initiator);
    Mutation(s, s.(targets := s.targets + [t], nextId := s.nextId + 1), t, f)
  }

  function UnitsOf(mappings: seq<Mapping>, target: int): set<nat> {
    set m | m in mappings && m.target == target :: m.lun
  }

  /** A new mapping takes the least unit number that is free on its target. */
  function CreateMapping(s: State, target: int, extent: int, f: Fault): (State, Reply<Mapping>) {
    var m := Mapping(target, extent, LeastFree(UnitsOf(s.mappings, target)));
    Mutation(s, s.(mappings := s.mappings + [m]), m, f)
  }

  /** True when some extent of the dataset is mapped to a target. */
  predicate InUse(s: State, dataset: string) {
    exists e, m | e in s.extents && m in s.mappings :: e.path == ZvolPath(dataset) && m.extent == e.id
  }

  /** Deleting a dataset takes its extents along, and is refused while one of them is mapped. */
  function DeleteDataset(s: State, id: string, f: Fault): (State, Reply<()>) {
    match First(s.datasets, DatasetId(id))
    case None => (s, Err(NotFound))
    case Some(d) =>
      if InUse(s, d.name) then (s, Err(Busy))
      else
        Mutation(s,
          s.(datasets := Keep(s.datasets, Not(DatasetId(id))),
             extents := Keep(s.extents, Not(ExtentAt(ZvolPath(d.name))))),
          (), f)
  }

  /** Deleting an extent takes its mappings along. */
  function DeleteExtent(s: State, id: int, f: Fault): (State, Reply<()>) {
    if First(s.extents, ExtentId(id)).None? then (s, Err(NotFound))
    else
      Mutation(s,
        s.(extents := Keep(s.extents, Not(ExtentId(id))), mappings := Keep(s.mappings, Not(OfExtent(id)))), (), f)
  }

  function DeleteInitiator(s: State, id: int, f: Fault): (State, Reply<()>) {
    if First(s.initiators, InitiatorId(id)).None? then (s, Err(NotFound))
    else
      Mutation(s, s.(initiators := Keep(s.initiators, Not(InitiatorId(id)))), (), f)
  }

  /** Deleting a target takes its mappings along. */
  function DeleteTarget(s: State, id: int, f: Fault): (State, Reply<()>) {
    if First(s.targets, TargetId(id)).None? then (s, Err(NotFound))
    else
      Mutation(s,
        s.(targets := Keep(s.targets, Not(TargetId(id))), mappings := Keep(s.mappings, Not(OfTarget(id)))), (), f)
  }
}
