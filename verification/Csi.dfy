/** Requests, responses and status codes of the Container Storage Interface, as far as the driver uses them. */
module Csi {
  import opened Wrappers
  import opened Capacity
  import opened Decimal

  datatype AccessMode =
    | UnknownMode
    | SingleNodeWriter
    | SingleNodeReaderOnly
    | MultiNodeReaderOnly
    | MultiNodeSingleWriter
    | MultiNodeMultiWriter
    | SingleNodeSingleWriter
    | SingleNodeMultiWriter

  datatype AccessType = Block | Mount

  datatype Capability = Capability(mode: AccessMode, access: AccessType)

  /** No capability is left that the driver would report as a violation. */
  predicate Supported(caps: seq<Capability>, modes: set<AccessMode>) {
    forall c | c in caps :: c.mode in modes && c.access == Mount
  }

  /** Goes over the capabilities and collects whether any is in the way. */
  method CheckCapabilities(caps: seq<Capability>, modes: set<AccessMode>) returns (ok: bool)
    ensures ok <==> Supported(caps, modes)
  {
    ok := true;
    for i := 0 to |caps|
      invariant ok <==> forall k :: 0 <= k < i ==> caps[k].mode in modes && caps[k].access == Mount
    {
      if caps[i].mode !in modes {
        ok := false;
      }
      match caps[i].access {
        case Mount =>
        case Block => ok := false;
      }
    }
  }

  datatype CreateRequest = CreateRequest(name: string, capabilities: seq<Capability>, range: Option<Range>)

  datatype Created = Created(volumeId: string, capacity: Int64, context: map<string, string>)

  datatype Entry = Entry(volumeId: string, capacity: Int64)

  /** Backend is the error of a remote call, returned as it came. */
  datatype Status = InvalidArgument | OutOfRange | NotFound | Internal | Backend | Unknown
}
