# Volumes on TrueNAS: a verified model of the CSI driver's protocols

The driver keeps nothing of its own. A volume is a handful of objects in a remote store, joined by names and ids,
and every call to that store can fail, with or without taking effect. This project models the protocols the driver
follows there, and on the node, and proves what they keep over all runs.

## How it is built

Each protocol has two forms, tied together by proof.

* The *step machine*: an operation is a program counter with its live locals, one step is one remote call and the
  branch taken on its reply. `IscsiMachine.Step`, `NodeMachine.NodeStep` and `NfsMachine.Step` follow the code branch
  by branch. Many volumes have operations in flight at once and their steps interleave in any order; each call may
  work, fail cleanly, or fail after taking effect; the driver may crash and forget an operation at any point. All
  safety results are about any list of such events.
* The *driver class* (`IscsiDriver.Driver`, `NodeDriver.Host`, `NfsDriver.Driver`, and `Controller.Server` above
  them): the same operations as methods over an object that the calls change in place, with the loops of the source.
  Their contracts say that they end in the state, the answer and the remaining faults of the step machine, and
  what that implies.

| file | content |
|---|---|
| `Lists`, `Text`, `Decimal`, `Capacity`, `Faults`, `Csi`, `Wrappers` | find and filter loops, names, decimal sizes, the requested size, faults, requests and answers |
| `IscsiApi`, `IscsiStore` | the store as the iSCSI driver sees it: as a value with one function per call, and as an object |
| `IscsiMachine` | create, clean-up and delete as a step machine; runs; interleavings |
| `IscsiInvariant`, `IscsiSteps`, `IscsiSafety` | the invariant, that every step keeps it, and what follows for every reachable state |
| `IscsiRuns`, `IscsiRollback`, `IscsiDeletes` | single operations: convergence, idempotence, clean-up, completeness of delete |
| `IscsiProgress`, `IscsiSeparation` | operations amid others: that they get through, and why ids must be separate |
| `IscsiAnswers`, `NfsAnswers`, `NodeAnswers` | what the operations answer, make, take and refuse, in literal names, modes and texts |
| `IscsiLimits` | one small failing input for each promise the code does not keep in general |
| `IscsiListing`, `IscsiListingAcross`, `IscsiDriver` | the listing join, on one store and across four; the imperative driver |
| `VolumeContext` | the volume context from the controller's answer to the node's connector |
| `NodeMachine`, `NodeInvariant`, `NodeRuns`, `NodeRetries`, `NodeDriver` | attach and detach, and what detach can do after either has failed |
| `NfsMachine`, `NfsInvariant`, `NfsRuns`, `NfsProgress`, `NfsListing`, `NfsDriver` | the NFS protocol |
| `Controller` | routing |

## What is assumed

About the store, as the code's own comments describe it: deleting a target deletes its mappings
(`cmd/truenas-iscsi-test/main.go:94`); deleting a dataset takes its extent along, or its NFS share
(`pkg/driver/iscsi.go:392`, `pkg/driver/nfs.go:184`), and is refused while the extent is mapped
(`pkg/driver/iscsi.go:357`). Beyond that: deleting an extent deletes its mappings; an extent can only be made over an
existing dataset; ids are not used again; a new mapping takes the least free unit of its target; a dataset's id is its
name (`pkg/driver/iscsi.go:474` relies on it); a dataset is mounted under `/mnt`. The store is *not* assumed to refuse
duplicates.

About its use: at most one operation is in flight on a volume, as section "Concurrency" of the
Container Storage Interface specification asks; no volume id is a prefix of another (`Text.PrefixFree`); at the
start the volumes own nothing (`Vacant`), though the store may hold anything else, and for the listing there are no
foreign zvols under the storage path (`Exclusive`). On the NFS side every id is a volume, so that `Vacant` means that
nothing is under the storage path. No hypothesis is made about which calls fail.

These hypotheses can be met together: `IscsiLimits.EmptyVacant`, `NfsRuns.EmptyVacant` and `NodeRuns.EmptyNodeFresh`
give stores and a node that meet them at the start, `IscsiLimits.MadeComplete` and `NodeRuns.AtBothMounted` ones with
volumes.

About the node: no volume id contains a slash, so that each volume has its own connector file
(`pkg/driver/driver.go:206-208` joins and cleans a path); each target path belongs to one volume and none lies
below another; target paths are not mounted by
anyone else; unmounting a path where nothing is mounted is an error; a device number is given out again only when it
is neither attached nor mounted. A write of the connector file may leave a torn file; connecting may report success
without a device.

## Where the code does less than one might expect

These are properties of the code as it is. For each the exact condition is proved, and a concrete input is given.

* Clean-up after a failed create also removes objects the call had merely found, misses what the failing call has made
  when only its reply was lost, and can itself fail (`pkg/driver/iscsi.go:148-328`). The store is restored exactly under
  `IscsiRollback.Restores`, which reads the kinds of object the volume had, the stage of the failing call and which
  calls took effect (`FailedCreateRestores`; `WhenCleanUpWorks` says it plainly for clean-up calls that all work,
  `CleanStartRestores` for a volume that had nothing). A repeated create on a complete volume, its last look-up failing
  and clean-up working, takes the volume apart (`FailedRetry`, `IscsiLimits.RetryLosesVolume`); a create from nothing
  whose last reply is lost leaves its zvol (`IscsiLimits.MappingReplyLost`), and one whose last removal is refused
  leaves a target (`IscsiLimits.TargetStranded`).
* A found zvol or dataset keeps its size, and the answer gives the requested one (`SizeReported`, both drivers).
* A found target keeps the initiator it was made with, which a partly failed clean-up may have removed
  (`TargetNamesInitiator`).
* Initiators are found by a comment prefix, so a volume whose id is a prefix of another's takes that one's initiator,
  in delete and in the clean-up of a create (`NeighbourInitiator`, `CleanUpTakesNeighbour`). Prefix-free ids are enough
  for separation (`NonInterference`) and needed for it (`SeparationNeeded`); colons play no part.
* Unpublish cannot always be completed. It fails exactly when path and connector file are there and nothing is mounted
  at the path, or the file is torn; then every further unpublish of the path fails too and changes nothing
  (`NodeRetries.DetachFailsIfBlocked`). How a node gets there is decided exactly for one operation with any faults: an
  unpublish of the path (`DetachRetried`), a publish of it (`PublishThenUnpublish`), a publish at another path of the
  volume (`PublishElsewhereThenUnpublish`); `WayOut` says which publish helps. Inputs: an unpublish repeated while the
  volume is mounted elsewhere (`SecondDetachFails`), one whose disconnect is refused (`LeftBehind`), a first publish
  whose mount is refused (`PublishLeavesBehind`), and a publish at a second path whose file write is cut short
  (`TornByNeighbour`).
* A listing of iSCSI volumes can be out of date: a volume deleted and made anew between the first two calls is listed
  with the size it had (`ListedSize`, `IscsiLimits.StaleSize`).

A comment at `pkg/driver/iscsi.go:392` says that removing the dataset leaves only the initiator. That is so because
delete has removed the target by then; clean-up goes in the opposite order, and there a mapped dataset survives
(`CleanedUp`).

## Model

| member | source | states |
|---|---|---|
| `IscsiSafety.ReachableInv` | pkg/driver/iscsi.go:118-411 | the invariant holds after any interleaving of creates and deletes of any volumes, every call free to fail cleanly or after taking effect, clean-up calls included, and the driver free to crash |
| `IscsiSafety.GraphSafe` | pkg/driver/iscsi.go:118-330 | in every such state a volume has at most one dataset, extent, initiator, target and mapping; each mapping joins a target and an extent of one volume; each extent has its zvol |
| `IscsiSafety.NonInterference` | pkg/driver/iscsi.go:110-411 | no step of a create or delete changes any object, or the operation in flight, of another volume, nor any foreign object |
| `IscsiSteps.StepKeeps` | pkg/driver/iscsi.go:118-411 | the step on which that rests: from a volume in order each call, with each kind of fault, touches only the volume's own objects, leaves it in order, and leaves the operation with true locals |
| `IscsiInvariant.OthersUntouched` | pkg/driver/iscsi.go:212-214 | a change confined to one volume leaves every object of every other volume as it is |
| `IscsiInvariant.NamesApart` | pkg/driver/iscsi.go:110-161 | two volumes of a prefix-free set have different dataset names and extent paths, and no comment matches both |
| `IscsiSafety.CommentMatches` | pkg/driver/iscsi.go:212-228 | for an id without a colon, the comment written for w is matched by v exactly when v is a prefix of w |
| `IscsiSafety.DeleteNeverBusy` | pkg/driver/iscsi.go:357-390 | whenever a delete is about to drop a dataset, the store does not refuse it as busy: nothing maps the extent any more |
| `IscsiSafety.NeverCreatesTwice` | pkg/driver/iscsi.go:118-330 | create never asks for an object of which the volume already has one |
| `IscsiSafety.SuccessResolves` | pkg/driver/iscsi.go:303-345 | whenever a create has answered with success, whatever else goes on, all five objects are there, and the IQN of the answer names exactly one target, which has at unit 0 and nowhere else the extent over the volume's zvol |
| `IscsiAnswers.SuccessAnswer` | pkg/driver/iscsi.go:94-96 | over any run: every answer with success has the ip of the first listener of the driver's portal, a colon and its port in decimal at `targetPortal`, base name, colon and id at `iqn`, `0` at `lun`, `[]` at `portals`, and no other key |
| `IscsiAnswers.SuccessReads` | pkg/driver/iscsi.go:68-348 | on any store, whichever calls fail: a create that succeeds was asked for mounts in the four single-node modes alone and for an acceptable size, answers with that size, and with the context as above |
| `IscsiAnswers.CreateReads` | pkg/driver/iscsi.go:68-348 | a create whose calls work, from any store in order: anything but mounts in the four single-node modes is an invalid argument, a missing or silent portal an internal error, a size that cannot be out of range, in this order and without effect; otherwise the five objects and the answer as above |
| `IscsiAnswers.ModesRefused` | pkg/driver/iscsi.go:24-66 | on any store, with any faults: block volumes, the unknown mode and the three multi-node modes are refused as invalid without a call |
| `IscsiAnswers.CreateFromNothing` | pkg/driver/iscsi.go:110-330 | what a create makes for a volume that has nothing, field by field: names, paths, comments, the size in decimal, the portal, and the ids that join the five objects |
| `IscsiAnswers.CreateAdopts` | pkg/driver/iscsi.go:118-315 | what a create adopts on any store: the first zvol of the volume's name, the first extent over its path, the first initiator whose comment starts with its id, the first target of its name, any mapping of the two; it makes one exactly where there is none |
| `IscsiAnswers.FailureReads` | pkg/driver/iscsi.go:72-328 | whichever call of a create fails, and whatever clean-up does: a failed reading or look-up is reported as internal, a failed creation as the error it came with |
| `IscsiAnswers.DeleteFinds` | pkg/driver/iscsi.go:357-408 | what a delete goes for on any store: the first target of the name, the first dataset of the name, of any kind, the first initiator whose comment starts with the id |
| `IscsiAnswers.DeleteStatus` | pkg/driver/iscsi.go:351-411 | on any store, with any faults: an id without the prefix is not found, without effect; every other failure is the error of a call |
| `IscsiSafety.IqnsDistinct` | pkg/driver/iscsi.go:333-333 | different volumes get different IQNs |
| `IscsiRuns.RunKeeps` | pkg/driver/iscsi.go:118-411 | one operation run to its end with any faults ends, leaves the volume in order and everything else untouched, and answers success only with all five objects or none present |
| `IscsiRuns.ReachableInOrder` | pkg/driver/iscsi.go:118-411 | every reachable store is one the single-run results below apply to |
| `IscsiRuns.CreateConverges` | pkg/driver/iscsi.go:68-348 | from any store in order a create whose calls work ends with all five objects and the answer for the request, or refuses with the right status and changes nothing |
| `IscsiRuns.CreateAfterAnything` | pkg/driver/iscsi.go:118-348 | after any events at all a create whose calls work completes the volume, a second one is without effect, and no other volume notices |
| `IscsiRuns.CreateOnComplete` | pkg/driver/iscsi.go:127-315 | on a complete volume a create whose calls work makes no change |
| `IscsiRuns.CreateIdempotent` | pkg/driver/iscsi.go:118-348 | a second create with the same request makes no change and gives the same answer |
| `IscsiRuns.SizeReported` | pkg/driver/iscsi.go:127-139 | the answer gives the size of the stored zvol exactly when there was no zvol or one of the requested size |
| `IscsiRuns.TargetNamesInitiator` | pkg/driver/iscsi.go:253-287 | after create the target names the volume's initiator exactly when there was no target or one that already did; a target newly made is on the driver's portal |
| `IscsiRollback.FailedCreateRestores` | pkg/driver/iscsi.go:148-330 | a create whose k-th call fails, cleanly or after taking effect, and whose clean-up calls fail or work as they may, leaves the store as it was, ids given out apart, exactly when the volume ends up with the kinds of object it had, which are computed from the kinds it had, the stage, and the calls that took effect |
| `IscsiRollback.WhenCleanUpWorks` | pkg/driver/iscsi.go:148-330 | when all clean-up calls work that comes to this: clean-up meets nothing the volume had before, and misses nothing the failing call has made |
| `IscsiRollback.CleanStartRestores` | pkg/driver/iscsi.go:148-330 | from a volume without objects such a create restores the store exactly when the failing call has not made something other than the extent, and the removals due of dataset, initiator and target take effect |
| `IscsiRollback.FailedRetry` | pkg/driver/iscsi.go:304-311 | a create repeated on a complete volume whose last look-up fails deletes extent, initiator, target and mapping and leaves the zvol, which is busy |
| `IscsiRollback.CleanedUp` | pkg/driver/iscsi.go:148-301 | what the clean-up calls of a stage leave of a volume, whichever of them take effect: the dataset goes first and stays when it is mapped |
| `IscsiDeletes.DeleteCompletes` | pkg/driver/iscsi.go:351-411 | a delete whose calls work removes every object of the volume and nothing else, whatever was left of it |
| `IscsiDeletes.DeleteReportsHonestly` | pkg/driver/iscsi.go:351-411 | whichever calls fail, delete answers success only if it has done all that |
| `IscsiDeletes.DeleteAfterAttempts` | pkg/driver/iscsi.go:351-411 | any number of deletes failing in any way, then one whose calls work, reach what the last alone would |
| `IscsiDeletes.DeleteAfterAnything` | pkg/driver/iscsi.go:351-411 | the same after any events at all; no other volume notices |
| `IscsiDeletes.DeleteIdempotent` | pkg/driver/iscsi.go:351-411 | a further delete succeeds and changes nothing |
| `IscsiProgress.CreateAmidOthers` | pkg/driver/iscsi.go:68-348 | after any events a create arrives; while its calls work it is through after at most twelve of them, with the answer for its request and a complete volume, whatever goes on and goes wrong on other volumes between its calls |
| `IscsiProgress.DeleteAmidOthers` | pkg/driver/iscsi.go:351-411 | the same for a delete and six calls |
| `IscsiDeletes.CreateThenDelete` | pkg/driver/iscsi.go:118-411 | delete undoes create: from nothing and back to the same store, ids given out apart |
| `IscsiSeparation.NeighbourInitiator` | pkg/driver/iscsi.go:393-408 | on any store: a delete of v that succeeds, with any faults, takes exactly the first initiator whose comment starts with v; the one made for w can be it exactly when v is a prefix of w |
| `IscsiSeparation.CleanUpTakesNeighbour` | pkg/driver/iscsi.go:212-260 | a create of v adopts that initiator too, and takes it down when the next call fails |
| `IscsiSeparation.SeparationNeeded` | pkg/driver/iscsi.go:212-214 | whenever one id is a prefix of another there is a run that interferes: what separates volumes is exactly that none is |
| `IscsiLimits.RetryLosesVolume` | pkg/driver/iscsi.go:304-311 | a concrete failed retry that does not restore the store |
| `IscsiLimits.MappingReplyLost` | pkg/driver/iscsi.go:319-328 | a concrete create from nothing whose last reply is lost: clean-up leaves the zvol |
| `IscsiLimits.AnswersWrongSize` | pkg/driver/iscsi.go:127-129 | a concrete second request answered with a size the zvol does not have |
| `IscsiLimits.TargetNamesNobody` | pkg/driver/iscsi.go:262-264 | a concrete run, one refused clean-up call and a retry, that ends in success with a target naming an initiator that is gone |
| `IscsiLimits.NeighbourLosesInitiator` | pkg/driver/iscsi.go:393-408 | volumes a and ab: deleting a takes the initiator of ab |
| `IscsiListing.ListIsJoin` | pkg/driver/iscsi.go:493-572 | on any store: the listing has, in target order, exactly the targets at the end of some dataset-extent-mapping chain, with a size from such a chain; it fails only on a size that cannot be read |
| `IscsiListing.ListIsNestedLoop` | pkg/driver/iscsi.go:505-569 | when no target has two chains the staged maps give what four nested loops give, row by row |
| `IscsiListing.ListDetermined` | pkg/driver/iscsi.go:536-557 | when all chains of a target agree on the size, that size is listed |
| `IscsiListingAcross.ListingAmidOthers` | pkg/driver/iscsi.go:493-572 | with any events before and between its four calls, a listing gives exactly the volumes whose objects as they were seen belong together, each once; each of them was mapped when the mappings were listed, and a mapped volume left alone throughout is among them |
| `IscsiListingAcross.ListedSize` | pkg/driver/iscsi.go:505-557 | the size listed is that of the zvol seen at the first call; it is the size of the zvol at the time the volume is seen to be mapped exactly when the zvol of the second call has that size, and from the second call on the zvol cannot change unnoticed |
| `IscsiLimits.StaleSize` | pkg/driver/iscsi.go:505-557 | a concrete listing during which the volume is deleted and made anew: it lists the old size |
| `IscsiListing.GoodListing` | pkg/driver/iscsi.go:493-572 | on a store in order the listing is exactly the mapped volumes, each once, with the sizes of their zvols |
| `Lists.FindFirst` | pkg/driver/iscsi_utils.go:16-29 | the search loop returns the first match, or nothing when there is none |
| `Lists.FindAll` | pkg/driver/iscsi_utils.go:31-46 | the filter loop returns all matches in order |
| `Lists.FirstIsHead` | pkg/driver/iscsi_utils.go:16-46 | searching finds the first of what filtering keeps |
| `IscsiDriver.Driver.CreateVolume` | pkg/driver/iscsi.go:68-348 | the imperative create ends in the state, the answer and the remaining faults of the step machine; it changes only its volume, and success means all five objects; on any store, success means the modes were served and the answer is the one `IscsiAnswers.AnswerReads` spells out, with the size asked for |
| `IscsiDriver.Driver.MakeObjects` | pkg/driver/iscsi.go:110-348 | the five stages in order, a failing one followed by the clean-up of those passed, equal to the run from the first look-up |
| `IscsiDriver.Driver.EnsureDataset` | pkg/driver/iscsi.go:118-146 | find-or-create stage, equal to the run up to the next stage or into clean-up |
| `IscsiDriver.Driver.EnsureExtent` | pkg/driver/iscsi.go:160-194 | the same for the extent |
| `IscsiDriver.Driver.EnsureInitiator` | pkg/driver/iscsi.go:211-237 | the same for the initiator |
| `IscsiDriver.Driver.EnsureTarget` | pkg/driver/iscsi.go:252-287 | the same for the target |
| `IscsiDriver.Driver.EnsureMapping` | pkg/driver/iscsi.go:303-330 | the same for the mapping |
| `IscsiDriver.Driver.CleanUp` | pkg/driver/iscsi.go:148-301 | the clean-up calls of the stages passed, one after the other, replies ignored |
| `IscsiDriver.Driver.MakePlan` | pkg/driver/iscsi.go:68-108 | the checks and readings before anything is created, in their order |
| `IscsiDriver.Driver.DeleteVolume` | pkg/driver/iscsi.go:351-411 | the imperative delete ends in the state, the answer and the remaining faults of the step machine; success means nothing of the volume is left; an id without the prefix is not found, without effect |
| `IscsiDriver.Driver.DropTheTarget` | pkg/driver/iscsi.go:357-371 | find-and-delete stage of delete |
| `IscsiDriver.Driver.DropTheDataset` | pkg/driver/iscsi.go:373-390 | the same for the dataset |
| `IscsiDriver.Driver.DropTheInitiator` | pkg/driver/iscsi.go:392-408 | the same for the initiator |
| `IscsiDriver.Driver.ListVolumes` | pkg/driver/iscsi.go:493-572 | the imperative listing, with the store changed by others between its calls, succeeds exactly when all four calls work and every size can be read; then it is the join, target by target, of what the four calls have seen; otherwise it fails with the error of a call |
| `IscsiDriver.Driver.CollectEntries` | pkg/driver/iscsi.go:550-571 | the loop over the targets; one unreadable size fails the whole listing |
| `Capacity.ExtractStorage` | pkg/driver/utils.go:12-59 | succeeds exactly on acceptable ranges; the size is at least 1 GiB, whole GiBs, the required one if set, else the limit if set, else 16 GiB, and never above the limit |
| `Capacity.SizesServed` | pkg/driver/utils.go:12-59 | the same in bytes: for every required size and limit, which are served and which size comes out |
| `Capacity.SizeFillsBlocks` | pkg/driver/iscsi.go:134-184 | every size handed to the store fills whole 16K zvol blocks and 512-byte extent blocks |
| `Decimal.DecimalRoundTrip` | pkg/driver/iscsi.go:556-561 | a number is read back as it was written, with a sign or without, exactly when it fits an int64 |
| `Decimal.UnreadableText` | pkg/driver/iscsi.go:556-561 | empty text, or text with anything but digits and signs in it, is not read |
| `Csi.CheckCapabilities` | pkg/driver/nfs.go:47-66 | the loop over the capabilities finds a violation exactly when one is not a mount or has a mode outside the given ones |
| `VolumeContext.CountKeys` | pkg/driver/iscsi.go:427-439 | the counting loop counts the required keys present, in any iteration order |
| `VolumeContext.ContextComplete` | pkg/driver/iscsi.go:575-591 | comparing the count with the number of keys is exact: the check passes if and only if every required key is there, whatever else is |
| `VolumeContext.FullCount` | pkg/driver/nfs.go:220-231 | the fact behind it, for any set of required keys |
| `VolumeContext.GetIscsiInfo` | pkg/driver/iscsi_node_iscsi.go:28-97 | the imperative reading of a publish request, secrets included, equals the function the round trip is proved about |
| `VolumeContext.BuildIscsiConnector` | pkg/driver/iscsi_node_iscsi.go:99-120 | the same for the connector, its secrets set step by step |
| `VolumeContext.ConnectorReads` | pkg/driver/iscsi_node_iscsi.go:28-217 | for every context: it gives a connector exactly when portal and IQN are there, the unit is a number, the list of portals can be read and a secret, if any, has all eight credentials; the connector then has that unit as an int32, the portals in order, each with `:3260` appended exactly when it has no colon, and each credential in its place |
| `VolumeContext.UnitReads` | pkg/driver/iscsi_node_iscsi.go:74-81 | a unit written as a decimal int32 is the unit of the connector |
| `VolumeContext.PublishConnector` | pkg/driver/iscsi.go:574-601 | publish up to the connector: invalid exactly when the id or one of the four keys is missing, internal when the rest cannot be read, and otherwise the connector of `ConnectorReads` |
| `VolumeContext.CredentialsBothOrNeither` | pkg/driver/iscsi_node_iscsi.go:112-217 | a connector carries session and discovery credentials, both, exactly when the request comes with a secret, and then all eight keys are in it |
| `VolumeContext.PortalMounterTwice` | pkg/driver/iscsi_node_iscsi.go:151-157 | normalising portals is idempotent and leaves a port in each |
| `VolumeContext.ConnectorExists` | pkg/driver/iscsi_node_iscsi.go:99-120 | attach never meets a missing connector: a request that can be read gives one, for its volume, IQN and first portal |
| `VolumeContext.ControllerToNode` | pkg/driver/iscsi_node_iscsi.go:28-120 | the context create answers with can be read and gives a connector with the address of the portal's first listener as its one portal, base name, colon and id as IQN, and LUN 0 |
| `VolumeContext.EndToEnd` | pkg/driver/iscsi.go:333-345 | over any run: that connector goes to the driver's portal, and leads, by IQN and LUN, to the volume's own zvol |
| `NodeInvariant.ReachableNode` | pkg/driver/iscsi_node_utils.go:33-130 | the invariant of the node holds after any attaches, detaches, faults, crashes and reboots, over many volumes and target paths |
| `NodeInvariant.NodeStepKeeps` | pkg/driver/iscsi_node_utils.go:33-130 | the step on which that rests: it touches only what is the volume's own |
| `NodeInvariant.MountsBacked` | pkg/driver/iscsi_node_utils.go:52-63 | a mounted target path always has its session, its device, its connector file and its directory |
| `NodeInvariant.AnswersHonest` | pkg/driver/iscsi_node_utils.go:41-110 | success of publish means mounted; success of unpublish means not mounted, on the early returns for a missing path or file too |
| `NodeInvariant.TearDownSafe` | pkg/driver/iscsi_node_utils.go:113-126 | a device or session is dropped, a path removed recursively, a connector file removed only when nothing of the volume is mounted and nothing is mounted from the device or below the path |
| `NodeRuns.AttachEffect` | pkg/driver/iscsi_node_utils.go:33-79 | what an attach whose calls work does; on a mounted path nothing |
| `NodeRuns.AttachTwice` | pkg/driver/iscsi_node_utils.go:43-50 | publishing twice is publishing once |
| `NodeRuns.DetachEffect` | pkg/driver/iscsi_node_utils.go:81-130 | what a detach whose calls work does, and exactly when it fails |
| `NodeRuns.DetachTwice` | pkg/driver/iscsi_node_utils.go:103-111 | after a detach whose calls work, the same again succeeds exactly when the first took the last mount of the device |
| `NodeRetries.DetachFailsIfBlocked` | pkg/driver/iscsi_node_utils.go:87-106 | a detach whose calls work fails exactly when path and connector file are there and nothing is mounted or the file is torn; then every detach of the path fails, whatever its faults, and changes nothing |
| `NodeRetries.DetachRetried` | pkg/driver/iscsi_node_utils.go:81-130 | for every node in order and every list of faults of a first detach: a second one whose calls work succeeds exactly when path or connector file was missing to begin with, or the first could have unmounted and did not, or went on to remove path or connector file; otherwise no number of further detaches changes the node |
| `NodeRetries.PublishThenUnpublish` | pkg/driver/iscsi_node_utils.go:33-130 | for every node in order and every list of faults of a publish: exactly when the unpublish after it fails, its calls working |
| `NodeRetries.FirstPublishThenUnpublish` | pkg/driver/iscsi_node_utils.go:52-78 | for a first publish that comes to this: the connector file got written, in full or in part, and the mount did not take effect |
| `NodeRetries.PublishElsewhereThenUnpublish` | pkg/driver/iscsi_node_utils.go:33-130 | the same for a publish at another path of the volume, which can block this one by tearing the shared file and free it by writing it anew |
| `NodeRetries.WayOut` | pkg/driver/iscsi_node_utils.go:33-130 | for a path whose detach fails: exactly which publish, its calls working, makes the detach succeed again |
| `NodeRetries.LeftBehind` | pkg/driver/iscsi_node_utils.go:114-118 | a concrete detach whose disconnect is refused: no retry succeeds, session, device and connector file stay |
| `NodeRetries.PublishLeavesBehind` | pkg/driver/iscsi_node_utils.go:73-78 | a concrete first publish whose mount is refused: no unpublish succeeds after it, the session stays |
| `NodeRetries.TornByNeighbour` | pkg/driver/iscsi_node_utils.go:57-62 | a concrete publish at a second path, its file write cut short: the first path is mounted, no unpublish of it succeeds, publishing there again does not help, publishing at the second path does |
| `NodeAnswers.DetachReads` | pkg/driver/iscsi_node_utils.go:81-130 | for every node in order and every list of faults: exactly when a detach succeeds, and exactly which mount, device, session, directories and file it removes |
| `NodeAnswers.LastMountDecides` | pkg/driver/iscsi_node_utils.go:107-111 | the count of mounts is one exactly when the device is mounted at no other path |
| `NodeAnswers.AttachReads` | pkg/driver/iscsi_node_utils.go:33-79 | the same for an attach on any node: when it succeeds, which session, device, directory, file and mount it adds, call by call |
| `NodeRuns.SecondDetachFails` | pkg/driver/iscsi_node_utils.go:103-106 | a volume at two paths: the repeated detach of one fails |
| `NodeRuns.AttachThenDetach` | pkg/driver/iscsi_node_utils.go:33-130 | attach and detach of an unused volume leave no trace of it |
| `NodeRuns.OthersStayMounted` | pkg/driver/iscsi_node_utils.go:107-111 | detaching one of several mounts leaves the others, the session and the file |
| `NodeDriver.Host.AttachDisk` | pkg/driver/iscsi_node_utils.go:33-79 | the imperative attach ends in the state and answer of the step machine and keeps the invariant |
| `NodeDriver.Host.DetachDisk` | pkg/driver/iscsi_node_utils.go:81-130 | the imperative detach, its count decremented in place, does the same, and succeeds exactly when `DetachReads` says so |
| `NodeDriver.Host.DetachDevice` | pkg/driver/iscsi_node_utils.go:113-129 | its tail, when the last mount has gone |
| `NfsInvariant.ReachableInv` | pkg/driver/nfs.go:88-201 | the invariant holds after any interleaving with any faults, on a server of either dialect |
| `NfsInvariant.VolumesSafe` | pkg/driver/nfs.go:88-201 | in every such state a volume has at most one dataset and one share, and no share without its dataset |
| `NfsInvariant.NonInterference` | pkg/driver/nfs.go:88-201 | no step changes anything of another volume; here ids need no separation |
| `NfsInvariant.AnswersHonest` | pkg/driver/nfs.go:163-203 | success of create means that a dataset of the volume's name is mounted, and a share serves it, at the directory of the answer, which has the server's address besides; success of delete means nothing is left |
| `NfsAnswers.CreateReads` | pkg/driver/nfs.go:28-176 | a create whose calls work, from any store in order: anything but mounts in the seven known modes is an invalid argument, a size that cannot be is out of range, in this order and without effect; otherwise dataset, share and an answer with the dataset's directory, the server's address and the size |
| `NfsAnswers.SuccessReads` | pkg/driver/nfs.go:68-176 | on any store, whichever calls fail: success means that modes and size could be served, that a dataset of the volume's name is mounted at the directory answered and that a share serves it |
| `NfsAnswers.Refused` | pkg/driver/nfs.go:28-86 | on any store, with any faults: the refusals come first and make no call |
| `NfsAnswers.SharesOnce` | pkg/driver/nfs.go:122-161 | the share look-up on any store: where a share serves the directory, by its path or by the first of its paths whatever follows, the store stays as it is; where none does, one is made, in the field the server takes, under the comment for the requested name |
| `NfsAnswers.CreateFromNothing` | pkg/driver/nfs.go:88-175 | the dataset and the share a create makes for a volume that has none, field by field, and the answer, in either dialect |
| `NfsAnswers.CreateAdopts` | pkg/driver/nfs.go:92-105 | on any store: the first dataset of the volume's name is taken, with its directory, and one is made exactly where there is none |
| `NfsAnswers.FailureReads` | pkg/driver/nfs.go:92-161 | call by call: a failed look-up is internal, a failed creation the error it came with, and only a share found unprocessable is tried again in the older dialect |
| `NfsAnswers.DeleteFinds` | pkg/driver/nfs.go:178-201 | on any store: a delete goes for the first dataset of the name, and is done when there is none |
| `NfsAnswers.DeleteStatus` | pkg/driver/nfs.go:178-204 | on any store, with any faults: an id without the prefix is not found, without effect; every other failure is the error of a call |
| `NfsRuns.CreateConverges` | pkg/driver/nfs.go:88-161 | such a create adds what is missing and keeps what is there |
| `NfsRuns.CreateAfterAttempts` | pkg/driver/nfs.go:88-201 | any creates, of any sizes, and deletes, failing in any way, then a create whose calls work, reach a complete volume |
| `NfsProgress.CreateAmidOthers` | pkg/driver/nfs.go:68-176 | a create whose calls work is through after at most five of them, with answer and complete volume, whatever goes on and goes wrong on other volumes, on a server of either dialect |
| `NfsProgress.DeleteAmidOthers` | pkg/driver/nfs.go:178-204 | the same for a delete and two calls |
| `NfsRuns.CreateIdempotent` | pkg/driver/nfs.go:100-130 | a second create makes no change and gives the same answer |
| `NfsRuns.SizeReported` | pkg/driver/nfs.go:100-112 | the answer gives the stored quota exactly when there was no dataset or one with the requested quota |
| `NfsRuns.SecondSizeIgnored` | pkg/driver/nfs.go:100-112 | a second create of another size answers that size while the quota stays the first |
| `NfsRuns.AnswersWrongSize` | pkg/driver/nfs.go:100-112 | a concrete instance |
| `NfsRuns.DialectsAgree` | pkg/driver/nfs.go:130-155 | fallback and direct call cannot be told apart: same answer, same datasets, same share after normalising |
| `NfsRuns.DeleteHonest` | pkg/driver/nfs.go:178-204 | delete answers success only if nothing of the volume is left, touches nothing else, and succeeds when its calls work |
| `NfsRuns.DeleteIdempotent` | pkg/driver/nfs.go:178-204 | after a delete that failed anyhow, one whose calls work completes it and a further one changes nothing |
| `NfsListing.ListIsJoin` | pkg/driver/nfs.go:281-335 | on any store: exactly the shares, in order, whose directory is the non-empty mountpoint of a dataset under the storage path, with such a dataset's trimmed name and quota |
| `NfsListing.ListedByDirectory` | pkg/driver/nfs_utils.go:80-94 | on any store: a share with a path is listed for a dataset mounted there, whatever its paths; one without for a dataset mounted at the first of its paths, whatever follows; one with neither is not listed |
| `NfsListing.ListingAmidOthers` | pkg/driver/nfs.go:281-335 | with any events before and between its two calls, a listing gives exactly the volumes with their dataset at the first and their share at the second, each once; each of them was complete at the second |
| `NfsListing.GoodListing` | pkg/driver/nfs.go:281-335 | on a store in order the listing is exactly the volumes with dataset and share, each once, under their ids and with their quotas |
| `NfsDriver.Driver.CreateVolume` | pkg/driver/nfs.go:68-176 | the imperative create equals the run of the step machine and keeps the store in order; on any store, success means the modes were served and the answer is the one `NfsAnswers.AnswerReads` spells out, with the size asked for; other modes are refused without effect |
| `NfsDriver.Driver.ShareDirectory` | pkg/driver/nfs.go:122-175 | its second stage, with the fallback to the older dialect (pkg/driver/nfs_utils.go:80-94 reads both) |
| `NfsDriver.Driver.DeleteVolume` | pkg/driver/nfs.go:178-204 | the imperative delete equals the run of the step machine and keeps the store in order; an id without the prefix is not found, without effect |
| `NfsDriver.Driver.ListVolumes` | pkg/driver/nfs.go:281-335 | the imperative listing, with the store changed by others between its calls, succeeds exactly when both calls work and every quota can be read; then it is the join, share by share, of what both calls have seen; otherwise it fails with the error of a call |
| `Controller.RouteReads` | pkg/driver/controller.go:52-63 | the first letters of an id decide its route: `nfs-` and `iscsi-`, never both, and nothing else has one |
| `Controller.RoutedBack` | pkg/driver/controller.go:52-63 | an id made by either driver is the name behind that driver's prefix, and is routed back to it |
| `Controller.IscsiAnswersOwnId` | pkg/driver/iscsi.go:96-96 | create answers with the id made from the requested name, whatever fails |
| `Controller.NfsAnswersOwnId` | pkg/driver/nfs.go:75-75 | the same for NFS |
| `Controller.Server.CreateVolume` | pkg/driver/controller.go:30-44 | requests without name or capabilities are refused without effect; others go to the configured driver alone, and the id in the answer is the name behind its prefix, which a delete routes back to it |
| `Controller.Server.DeleteVolume` | pkg/driver/controller.go:46-66 | an id starting with `nfs-` or `iscsi-` goes to that driver, the other store is not touched and every error becomes an internal one; the empty id is invalid, any other is unknown, both without effect |

## Left out

- HTTP client set-up, gRPC serving, logging, flags and signals; remote calls appear as atomic steps that fail or work.
- `formatBytes`, which only shapes error texts; errors carry a status and no text.
- Capacity query, volume statistics, identity and capability answers, unimplemented calls: single branches.
- `ValidateVolumeCapabilities` beyond its check of capabilities and context keys; the dataset look-up is one branch.
- The checks of capability, target path and id prefix before a node publish or unpublish: single branches each.
- `ListVolumes` of the controller: the listing is modelled, the refusal of pagination after it is not.
- JSON: reading a list of portals or an object of secrets is a parameter, fixed only on the texts create leaves there, `[]` and none.
- NFS publish and unpublish on the node, and the NFS client's mount options: pass-through to the mount library.
- Mount options, file system type and read-only flag of an iSCSI mount: passed on without a branch that matters here.
- Two calls in flight on one volume: the code has no lock, so uniqueness rests on the rule of one call per volume.
- What others do to the store during a listing is given to the listing methods as the stores they will find; who does it is in the step machines.
- A call that takes effect only after later calls have been made.
- Fields of the remote objects that no branch reads (rpm, blocksize, mode, authentication method, share options).
- The two drivers share one server in reality; the model gives each its own store, since they touch different kinds of object or different storage paths.
