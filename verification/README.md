# A verified model of the CloudSigma controllers

This project models the controllers of the CloudSigma provider and proves what they keep over
whole runs. It covers five parts that change shared state:

- the **load balancer controller** of each cluster, which hands out the account's IPs, remembers
  them in memory, publishes them in service statuses and reserves them across clusters with tags;
- the **tag table** that it shares with the CSI driver and the machine controller;
- the **CSI controller**, which attaches and detaches volumes by rewriting a server's whole drive
  list, one update per request, and picks device channels first-fit;
- the **machine reconciler** with server creation, rollback and deletion;
- the **impersonation token cache**.

Remote calls are atomic steps. Their answers (success, failure, a lost reply, an unreadable page, a
crash) are parameters of the step, so each step is a function and a run is a sequence of events.
The main theorems hold for every run. Code that updates state in place is a class whose methods are
proved equal to those step functions; a method that does several steps returns its events as a ghost
result, so a theorem about runs is a theorem about the method.

| file | content |
|---|---|
| `Base.dfy` | options and the order-keeping list filter |
| `Tags.dfy`, `TagStore.dfy` | the tag table, its laws, and the loops that change it |
| `TagRaces.dfy` | the tag table under interleaved requests |
| `LoadBalancer.dfy` | the controller's steps; no double allocation |
| `Reservation.dfy` | restart safety and exclusivity between clusters |
| `Steadiness.dfy` | sticky service IPs and failover |
| `Outcomes.dfy` | what a reconcile and a release achieve: statuses, tags, freed IPs |
| `Controller.dfy` | the load balancer controller as an object |
| `Channels.dfy` | the device channel allocator |
| `Attach.dfy`, `Driver.dfy` | publish, unpublish, create, delete; the driver as an object |
| `AttachRaces.dfy` | the same operations interleaved, with their locks |
| `AttachThreats.dfy` | exactly when interleavings lose a publish or attach a volume twice |
| `Servers.dfy` | drives through server creation, rollback and deletion |
| `Machine.dfy`, `MachineController.dfy` | the machine reconciler as steps and as an object |
| `Readiness.dfy` | what the reconciler reports and persists, and in which order |
| `Convergence.dfy`, `Deletion.dfy` | the reconciler settles; the finalizer and error classification |
| `Tokens.dfy`, `TokenClient.dfy` | the token cache under interleaving, and the client as an object |

## What turned out false of the code

Each is proved together with the exact condition under which the code does meet the property.

- The tag listings ignore the HTTP status and the JSON error (`ccm/controllers/loadbalancer_controller.go:632-633`),
  so an error page reads as "no tags". After a restart that gives one IP to two services
  (`NewcomerTakes`, `GarbledIff`), and it makes a second tag of one name (`EnsureUniqueIff`, `RetagUniqueIff`).
- A graceful shutdown removes the tags of all recorded IPs (lines 990-1015); a restart after it is safe
  only if no status shows one of them (`RestartSafeIff`, `SafeAfterShutdownIff`).
- A first healthy node without a provider ID gets an IP published that is never recorded (lines
  410-448). This is the only way a cooperating step breaks the reservation (`OrderlyIff`) or the
  agreement of statuses and memory (`MirroredIff`); a later pool refresh can then replace a
  service's IP (`UnrecordedThenReplaced`).
- The probe of an IP and the write of its tag are separate requests, so two clusters can take the
  same IP in between (`RaceIff`). A PUT replaces a tag's whole list, so writers that share a tag can
  undo each other (`FrameIff`, `ReservationLostIff`, `SharedTagLoses`), and two that find a tag missing
  both make it (`NamesIff`, `TwoPostsDuplicate`).
- Adopting a published IP skips the switch to manual mode (lines 357-366, `SwitchedIff`).
- A publish goes ahead when the drive's mounted_on is out of date and does not name the old node
  first, when an error about the old node contains "404" anywhere in its text, and when detaching from
  it fails. These three, and nothing else, attach a volume twice in sequential runs (`PublishSingleIff`,
  `StaleMountAttachesTwice`, `MisreadAttachesTwice`). The same text search makes an unpublish report
  success with the volume still attached (`UnpublishDetachesIff`).
- An unpublish takes no lock, a migration holds only its target's, and the load balancer controller
  writes back the drives of a node that it switches to manual mode (`ccm/controllers/loadbalancer_controller.go:672-747`).
  All three can erase a publish that reported success (`ThreatLoses`, `NothingLostIff`). Two publishes
  of one volume to two nodes hold different locks (`TwoPublishesRace`, `AttachedOnceIff`).
- With all 607 channels taken the fallback repeats 202:2 (`NextChannelComplete`, `AttachDistinctIff`).
- Deleting a server deletes every drive in its list, CSI volumes included (`DeleteUndoesCreate`).
- Errors are told apart by searching their text, so a server whose UUID contains 404 reads as not
  found (`UUIDReadAsNotFound`, `ClassifyIff`), and a finalizer can go while the server stays
  (`OrphansIff`). The comment above `GetServer` promises "not found (404)" only; the model follows
  the code. At most one server per machine holds all the same (`AtMostOneServer`).
- A server that was created but never bound outlives its machine (`NoServerLeftIff`).
- A requested limit under 1 GiB is exceeded (`VolumeSizeBounds`).
- The recorded expiry of a token counts from the arrival of the answer, so a cached token has the
  buffer minus the network latency left, not the whole buffer (`BoundIsTight`, `KeepsBufferIff`).

## Model

| member | source | states |
|---|---|---|
| Base.FilterAppend | csi/driver/controller.go:366-373 | the list-rebuilding loops go element by element: they keep what passes, in its order |
| Tags.OwnTags | csi/driver/tags.go:36-44 | every tag the CSI driver puts on a drive, or the machine controller on a server, is one that its own untagging removes |
| Tags.ComponentsApart | csi/driver/tags.go:154-159 | the components share the cluster tags and no others, so untagging by one leaves what another put on |
| Tags.Find | ccm/controllers/loadbalancer_controller.go:913-921 | the lookup stops at the first tag of that name |
| Tags.AnyRunFrames | pkg/cloud/tags.go:56-149 | whatever the three components do to the shared table, with whatever failures, resources they did not name keep their place and order in every tag |
| Tags.RetagFrame | ccm/controllers/loadbalancer_controller.go:770-797 | one tagging, even with failing or unreadable calls, moves no other resource |
| Tags.EnsureAllMembers | csi/driver/tags.go:105-152 | successful ensure calls add the resource once to each named tag, append it last, and keep names unique |
| Tags.StripMembers | csi/driver/tags.go:56-102 | a complete untagging removes the resource from every managed tag and from no other |
| Tags.StripExactly | ccm/controllers/loadbalancer_controller.go:1050-1097 | a removal pass takes the resource out of exactly the managed tags whose PUT goes through, and of none without a readable list |
| Tags.TagLaw | ccm/controllers/loadbalancer_controller.go:770-797 | a successful tagging leaves the IP in exactly the three desired managed tags, for every order of the map of desired tags |
| Tags.TagIdempotent | ccm/controllers/loadbalancer_controller.go:770-797 | tagging again, in any order, changes nothing in the table |
| Tags.UntagAfterTag | ccm/controllers/loadbalancer_controller.go:1018-1100 | untagging after tagging leaves the IP in no managed tag and everything else as before |
| Tags.UntagAfterAdds | pkg/cloud/tags.go:30-102 | the same round trip for the CSI driver and the machine controller |
| Tags.EnsureUniqueIff | ccm/controllers/loadbalancer_controller.go:907-944 | an ensure call keeps names unique if and only if it does not make, over an unreadable list, a tag that is there |
| Tags.EnsureAllUniqueIff | ccm/controllers/loadbalancer_controller.go:907-944 | the same for a whole sequence of ensure calls |
| Tags.RetagUniqueIff | ccm/controllers/loadbalancer_controller.go:770-797 | the same for a whole tagging, clean-up pass included |
| Tags.EnsureReserves | ccm/controllers/loadbalancer_controller.go:883-986 | once the service tag's write went through the IP is reserved, whatever the other calls do |
| Tags.StripFrees | ccm/controllers/loadbalancer_controller.go:1050-1097 | a complete removal pass frees the IP |
| TagRaces.FrameIff | ccm/controllers/loadbalancer_controller.go:841-870 | a single request leaves all other resources in place if and only if it is not a PUT worked out from a stale list |
| TagRaces.FreshRunFrames | pkg/cloud/tags.go:56-149 | in every interleaving of requests without stale PUTs, resources nobody named keep their place and order in every tag |
| TagRaces.NamesIff | ccm/controllers/loadbalancer_controller.go:907-944 | a request keeps tag names unique if and only if it does not POST a tag that is there |
| TagRaces.TwoPostsDuplicate | ccm/controllers/loadbalancer_controller.go:883-944 | two processes that list before either POSTs make a tag twice, every list readable |
| TagRaces.ReservationLostIff | ccm/controllers/loadbalancer_controller.go:950-985 | the exact condition under which a request about another IP loses a reservation |
| TagRaces.SharedTagLoses | ccm/controllers/loadbalancer_controller.go:779 | two clusters that share a service tag and read it before either writes: the first reservation is lost |
| TagRaces.SoloEnsure | ccm/controllers/loadbalancer_controller.go:883-986 | uninterrupted, the requests of an ensure call have its effect |
| TagRaces.SoloRemove | ccm/controllers/loadbalancer_controller.go:1050-1097 | so has the removal from one tag |
| TagStore.RemoveResource | ccm/controllers/loadbalancer_controller.go:841-849 | the rebuilt list and whether the resource was in it |
| TagStore.StripResource | ccm/controllers/loadbalancer_controller.go:801-880 | the loop of one PUT per managed tag has the effect of the removal pass, per failing PUT |
| TagStore.EnsureTag | ccm/controllers/loadbalancer_controller.go:883-986 | find by name, then POST, PUT or nothing |
| TagStore.EnsureTags | csi/driver/tags.go:46-50 | the loop of ensure calls |
| TagStore.RetagResource | ccm/controllers/loadbalancer_controller.go:770-797 | without a token nothing; else clean, then ensure |
| LoadBalancer.DesiredTags | ccm/controllers/loadbalancer_controller.go:777-781 | all desired tags are ones that untagging removes again |
| LoadBalancer.FirstPoolIP | ccm/controllers/loadbalancer_controller.go:349-350 | the status IP a reconcile acts on is a pool IP, and there is none only if no status IP is in a pool |
| LoadBalancer.LastPoolIP | ccm/controllers/loadbalancer_controller.go:219-224 | recovery keeps a pool IP of the status if there is one |
| LoadBalancer.AllocateFirst | ccm/controllers/loadbalancer_controller.go:577-590 | allocation takes the first free pool position and finds none only if none is free |
| LoadBalancer.SoundStep | ccm/controllers/loadbalancer_controller.go:305-538 | every step keeps the service map injective and inside the assignments |
| LoadBalancer.NoDoubleAllocation | ccm/controllers/loadbalancer_controller.go:277-591 | no run from empty memory gives one IP to two services, whatever statuses, stale copies, other clusters and failures do |
| LoadBalancer.ReleaseKeepsOthers | ccm/controllers/loadbalancer_controller.go:309-322 | releasing one service drops no other's IP or assignment |
| Reservation.AllocatedIsFresh | ccm/controllers/loadbalancer_controller.go:553-603 | with readable listings an allocated IP is neither assigned here nor tagged by anyone |
| Reservation.RestartRecovers | ccm/controllers/loadbalancer_controller.go:204-229 | recovery from distinct, tagged statuses establishes the invariant |
| Reservation.RecoveringReconcile | ccm/controllers/loadbalancer_controller.go:345-449 | a service reconcile keeps it, even if tagging, switching and publishing fail |
| Reservation.RecoveringStep | ccm/controllers/loadbalancer_controller.go:247-342 | so does every other step |
| Reservation.RestartSafe | ccm/controllers/loadbalancer_controller.go:204-229 | after a restart no later run gives one IP to two services, new services first included |
| Reservation.RestartSafeIff | ccm/controllers/loadbalancer_controller.go:204-229 | every run after a restart with readable probes, for all pools and failures, is safe if and only if the statuses name distinct IPs, each tagged |
| Reservation.NewcomerTakes | ccm/controllers/loadbalancer_controller.go:596-645 | after any restart a new service takes a published IP whose reservation is gone or whose probe is unreadable |
| Reservation.GarbledIff | ccm/controllers/loadbalancer_controller.go:596-645 | with any probes, a reconcile after a restart gives one IP to two services exactly when the node is usable and the first free position is free only by an unreadable probe, its IP being held, unassigned, by another service |
| Reservation.UntagAllFrees | ccm/controllers/loadbalancer_controller.go:990-1015 | a complete shutdown frees exactly the recorded IPs |
| Reservation.ShutdownIff | ccm/controllers/loadbalancer_controller.go:990-1015 | after a complete shutdown a restart has the premises of restart safety if and only if no status shows a recorded IP |
| Reservation.SafeAfterShutdownIff | ccm/controllers/loadbalancer_controller.go:248-254 | every run after a complete shutdown and a restart is safe if and only if no status shows a recorded IP |
| Reservation.TagIPReserves | ccm/controllers/loadbalancer_controller.go:607-645 | a tagging whose service tag goes through reserves this IP and changes no other reservation |
| Reservation.OrderlyReconcile | ccm/controllers/loadbalancer_controller.go:345-449 | a reconcile only claims IPs nobody had reserved and keeps every claim reserved |
| Reservation.OrderlyRelease | ccm/controllers/loadbalancer_controller.go:309-322 | a release only frees IPs this cluster held |
| Reservation.OrderlyRestart | ccm/controllers/loadbalancer_controller.go:120-153 | a restart claims nothing new |
| Reservation.OrderlyIff | ccm/controllers/loadbalancer_controller.go:396-448 | a cooperating step keeps a cluster orderly if and only if it publishes no unrecorded IP |
| Reservation.ExclusiveStep | ccm/controllers/loadbalancer_controller.go:553-645 | a step of one cluster keeps all clusters exclusive |
| Reservation.AlwaysExclusive | ccm/controllers/loadbalancer_controller.go:305-645 | for any number of clusters and any run, restarts included, claims are disjoint and reserved |
| Reservation.RaceIff | ccm/controllers/loadbalancer_controller.go:397-428 | two clusters that both probe before either tags stay exclusive if and only if they picked different IPs |
| Reservation.FreshAccountIsExclusive | ccm/controllers/loadbalancer_controller.go:126-128 | new clusters start exclusive over any tag table |
| Reservation.ExclusiveMeans | ccm/controllers/loadbalancer_controller.go:605-645 | an assigned IP carries a service tag and no other controller has it assigned |
| Outcomes.RecordedIsPublished | ccm/controllers/loadbalancer_controller.go:386-394 | a recorded service whose status shows no pool IP gets its IP published; a failed write changes nothing |
| Outcomes.SyncHealsStatuses | ccm/controllers/loadbalancer_controller.go:277-342 | one pass over a current listing, with status writes that succeed, heals every earlier failure: each listed service that has an IP shows it |
| Outcomes.FailedSwitchChangesNothing | ccm/controllers/loadbalancer_controller.go:413-418 | if the node cannot be switched to manual mode, a new service stays as it was |
| Outcomes.ReconcileTags | ccm/controllers/loadbalancer_controller.go:353-428 | with tag calls that succeed, a reconcile leaves the service's IP in exactly its cluster, service and managed-by tags, of all managed ones, and every other resource and tag as it was |
| Outcomes.ReleaseFrees | ccm/controllers/loadbalancer_controller.go:309-322 | a complete release leaves the IP untagged, unrecorded and unassigned, and everything else as it was |
| Outcomes.ReleasedIsAllocatable | ccm/controllers/loadbalancer_controller.go:553-603 | a released IP is free for the next allocation, in this cluster and the others |
| Outcomes.AssignedNodesHaveUUIDs | ccm/controllers/loadbalancer_controller.go:357-420 | no step assigns an IP to a node without a UUID |
| Steadiness.MirroredIff | ccm/controllers/loadbalancer_controller.go:386-448 | statuses and memory stay in step if and only if no unrecorded IP is published |
| Steadiness.StickyIff | ccm/controllers/loadbalancer_controller.go:349-368 | a reconcile keeps a recorded IP if and only if the status does not show an unassigned pool IP that the node could take |
| Steadiness.StickyRun | ccm/controllers/loadbalancer_controller.go:345-449 | a service keeps its IP, in memory and in any non-empty status, through every steady run until its release |
| Steadiness.SyncSteady | ccm/controllers/loadbalancer_controller.go:277-342 | a sync over a current listing is such a run |
| Steadiness.StickyAcrossRestart | ccm/controllers/loadbalancer_controller.go:204-229 | a published IP still in a pool survives a restart, recovered at once or adopted by the next reconcile |
| Steadiness.ServedIff | ccm/controllers/loadbalancer_controller.go:396-448 | a new service that meets a usable node is recorded, assigned and published if and only if its pool has a free IP |
| Steadiness.SwitchedIff | ccm/controllers/loadbalancer_controller.go:357-366 | adopting a published IP is the one step that can leave an IP on a node not recorded in manual mode |
| Steadiness.UnrecordedThenReplaced | ccm/controllers/loadbalancer_controller.go:410-448 | a run in which an unrecorded publish makes a recorded IP change |
| Steadiness.FailoverLaw | ccm/controllers/loadbalancer_controller.go:472-535 | failover moves exactly the IPs on unhealthy nodes, to the first healthy node, once that is in manual mode, and touches nothing else |
| Steadiness.FailoverHeals | ccm/controllers/loadbalancer_controller.go:452-538 | with a usable first node every assignment ends on a healthy node and a second check changes nothing |
| Controller.NodeUUID | ccm/controllers/loadbalancer_controller.go:1302-1312 | strips the provider prefix, and only that |
| Controller.LoadBalancerController.constructor | ccm/controllers/loadbalancer_controller.go:126-128 | a new controller has empty memory |
| Controller.LoadBalancerController.DiscoverOwnedIPs | ccm/controllers/loadbalancer_controller.go:180-197 | the pools are the listed IPs with and without subscription, in listing order |
| Controller.IPsWhereAppend | ccm/controllers/loadbalancer_controller.go:186-195 | that selection goes object by object, so it keeps order and repetitions |
| Controller.LoadBalancerController.RecoverServiceState | ccm/controllers/loadbalancer_controller.go:204-229 | recovery in any listing order is the restart step |
| Controller.LoadBalancerController.AllocateIP | ccm/controllers/loadbalancer_controller.go:553-591 | the first free IP of the annotated pool |
| Controller.LoadBalancerController.ReconcileOne | ccm/controllers/loadbalancer_controller.go:345-449 | is the reconcile step |
| Controller.LoadBalancerController.ReleaseDeleted | ccm/controllers/loadbalancer_controller.go:309-322 | releases exactly the services that are gone, in any map order |
| Controller.LoadBalancerController.CleanupAllIPTags | ccm/controllers/loadbalancer_controller.go:990-1015 | untags every recorded IP once, in any map order |
| Controller.LoadBalancerController.CheckIPFailover | ccm/controllers/loadbalancer_controller.go:452-538 | is a run of failover steps over all assignments, with the failover law as its result |
| Controller.LoadBalancerController.SyncLoadBalancers | ccm/controllers/loadbalancer_controller.go:277-342 | releases every recorded service that is not listed, reconciles every listed one with the answers it got, then fails over; keeps soundness; steady on a current listing; all assignments healthy when the first node is already in manual mode |
| Controller.TaggedServiceIPs | ccm/controllers/loadbalancer_controller.go:635-644 | the set of IPs with a service tag |
| Controller.HealthyNodes | ccm/controllers/loadbalancer_controller.go:1288-1299 | the UUIDs of the ready nodes in node order |
| Controller.FirstHealthy | ccm/controllers/loadbalancer_controller.go:1288-1299 | new and moved IPs go to the first ready node |
| Channels.DecInjective | csi/driver/controller.go:654 | distinct numbers print differently |
| Channels.DecReads | csi/driver/controller.go:654 | it is the number itself that is printed |
| Channels.ShowInjective | csi/driver/controller.go:654 | distinct slots print to distinct channel strings |
| Channels.NextChannelComplete | csi/driver/controller.go:634-663 | an unused channel is returned exactly when one of the 607 is free, and it is the first free one |
| Channels.NextChannelIsDataSlot | csi/driver/controller.go:640-662 | never unit 3, 0:0 or 0:1 |
| Channels.FewDrivesHaveRoom | csi/driver/controller.go:634-663 | fewer than 607 drives leave a free slot |
| Channels.FindNextDeviceChannel | csi/driver/controller.go:634-663 | the nested loops are first fit over the 607 slots |
| Attach.FirstOther | csi/driver/controller.go:264-266 | the mount migrated away from is the first in the list that is not the target, and there is none only if all are the target |
| Attach.PublishAttaches | csi/driver/controller.go:232-334 | a successful publish leaves the volume on the node at the channel it returns |
| Attach.PublishSucceedsIff | csi/driver/controller.go:237-334 | the exact answers under which a publish reports success |
| Attach.PublishAppends | csi/driver/controller.go:305-322 | what a publish writes: one virtio entry at the end, not booted from, at an unused channel if one is free |
| Attach.UnpublishSucceedsIff | csi/driver/controller.go:350-451 | the exact answers under which an unpublish reports success: gone, not attached, accepted, or shown by the re-check |
| Attach.UnpublishDetachesIff | csi/driver/controller.go:350-451 | an unpublish that reports success leaves the volume off the node or the node gone, if and only if no error about the node was misread as 404; re-check included |
| Attach.PublishOnlyMoves | csi/driver/controller.go:284-322 | a publish moves no other volume's entry or channel on any server, whatever fails |
| Attach.UnpublishOnlyMoves | csi/driver/controller.go:362-384 | neither does an unpublish |
| Attach.RoundTrip | csi/driver/controller.go:305-384 | unpublish after publish of an unattached volume restores the fleet, whatever mounted_on says |
| Attach.PublishSingleIff | csi/driver/controller.go:263-322 | for any mounted_on and answers, a publish keeps single attachment if and only if it does not attach while some server keeps the volume: one that mounted_on does not name first, that is misread as gone or whose detach is rejected |
| Attach.StaleMountAttachesTwice | csi/driver/controller.go:261-303 | with all calls succeeding, any mounted_on that does not name the volume's server first attaches it twice |
| Attach.MisreadAttachesTwice | csi/driver/controller.go:273-279 | any error text that quotes an old node whose UUID contains 404 attaches the volume twice |
| Attach.UnpublishSingle | csi/driver/controller.go:362-384 | an unpublish keeps it |
| Attach.FindDrive | csi/driver/controller.go:600-613 | the first listed drive of that name, and there is none only if no listed drive has it |
| Attach.CreateSucceedsIff | csi/driver/controller.go:101-146 | the exact answers under which a creation reports success, and which drive it returns |
| Attach.OnePerNameIff | csi/driver/controller.go:101-139 | a creation, its reply lost or not, leaves one drive per name if and only if the list did not hide one of that name |
| Attach.CreateIdempotent | csi/driver/controller.go:101-146 | retrying a creation that took effect, reply lost or not, returns that volume and changes nothing |
| Attach.DeleteIff | csi/driver/controller.go:174-200 | a deletion touches nothing else; success means the volume is gone unless an error was misread; no list is left dangling unless the status was out of date |
| Attach.DeleteSucceedsIff | csi/driver/controller.go:174-200 | the exact answers under which a deletion reports success |
| Attach.StepSingleIff | csi/driver/controller.go:47-451 | the exact condition, for every operation and any answers, to keep single attachment and existing drives |
| Attach.RunSingle | csi/driver/controller.go:47-451 | over every sequential run one drive per name; and without the breaking operations each volume is in at most one list, once, and every listed drive exists |
| Attach.VolumeSizeBounds | csi/driver/controller.go:68-86 | the granted size is large enough, and within the limit exactly when the limit is absent or at least 1 GiB |
| Attach.VolumeSizeIff | csi/driver/controller.go:68-86 | which sizes are granted: the requested one, 10 GiB by default, raised to 1 GiB, within the limit and 10 TiB |
| Driver.CsiDriver.GetServerLock | csi/driver/controller.go:204-215 | one lock per server, made on first use, never replaced |
| Driver.CsiDriver.CreateVolume | csi/driver/controller.go:101-139 | is the creation step, failing list and lost reply included |
| Driver.CsiDriver.DeleteVolume | csi/driver/controller.go:174-200 | is the deletion step |
| Driver.CsiDriver.DetachElsewhere | csi/driver/controller.go:261-303 | is the migration part of a publish |
| Driver.CsiDriver.ControllerPublishVolume | csi/driver/controller.go:237-334 | is the publish step, result and fleet |
| Driver.CsiDriver.ControllerUnpublishVolume | csi/driver/controller.go:350-451 | is the unpublish step, and the polls change neither result nor fleet |
| Driver.RemoveDrive | csi/driver/controller.go:362-373 | the rebuilt list and whether the volume was in it |
| AttachRaces.AttachDistinctIff | csi/driver/controller.go:305-316 | attaching keeps channels distinct exactly when a slot is free |
| AttachRaces.DistinctStep | csi/driver/controller.go:284-384 | no request of any operation writes or holds a list with a repeated channel |
| AttachRaces.UniqueChannels | csi/driver/controller.go:218-451 | in every interleaving, locked or not, no server has two drives on one channel |
| AttachRaces.LocksLast | csi/driver/controller.go:204-215 | a server's lock is made once and never replaced in any run |
| AttachRaces.MutualExclusion | csi/driver/controller.go:230-233 | at most one publish per server is in flight |
| AttachRaces.AnchoredStep | csi/driver/controller.go:246-254 | a volume whose publishes all end at their first GET stays listed where they are bound |
| AttachRaces.KeptStep | csi/driver/controller.go:230-334 | a thread in flight has the current list in hand, and reported publishes stay listed |
| AttachRaces.SettledStep | csi/driver/controller.go:338-384 | when every volume bound for the server is there, whatever unpublishes and migrations write back keeps them |
| AttachRaces.NothingLost | csi/driver/controller.go:230-334 | if no request threatens it, every publish that reported success is in the final list at its channel, whatever mounted_on says and whatever fails; channels agree exactly when volumes do |
| AttachThreats.FreeTarget | csi/driver/controller.go:246-293 | a mobile volume can be got off the target of a migration |
| AttachThreats.ThreatLoses | csi/driver/controller.go:273-293 | every unpublish from a server, switch of it to manual mode and migration away from it that is a threat loses a reported publish in some interleaving |
| AttachThreats.NothingLostIff | csi/driver/controller.go:230-384 | for any requests, no interleaving, with any failures and any mounted_on, loses a reported publish if and only if no request threatens one |
| AttachThreats.AtHomeStep | csi/driver/controller.go:218-451 | no step brings a volume to a server that neither held it nor was to get it |
| AttachThreats.TwoPublishesRace | csi/driver/controller.go:230-254 | two publishes of one volume hold different locks and attach it twice, though every answer is exact and succeeds |
| AttachThreats.AttachedOnceIff | csi/driver/controller.go:204-334 | a volume is on at most one server in every interleaving if and only if at most one server holds it or is to get it, be mounted_on exact or not |
| AttachRaces.SoloPublish | csi/driver/controller.go:237-334 | a publish that nobody interrupts has the effect and result of the sequential operation, for all answers |
| AttachRaces.SoloUnpublish | csi/driver/controller.go:350-451 | so has an unpublish |
| Servers.FailedCreateConserves | pkg/cloud/servers.go:48-66 | a failing creation leaves exactly its residue, so nothing if and only if no clone leaked and every rollback deletion worked |
| Servers.CreateAdds | pkg/cloud/servers.go:48-181 | a successful creation adds exactly the new server's drives |
| Servers.CreateSucceedsIff | pkg/cloud/servers.go:48-181 | a creation succeeds exactly when every clone and the server's POST do |
| Servers.CreatedInOrder | pkg/cloud/servers.go:48-92 | one distinct drive per disk, in disk order: a clone of that disk's own source and size, attached with its boot order, device and channel |
| Servers.DeleteIff | pkg/cloud/servers.go:345-415 | a deletion that reports success removed the server and its drives and nothing else, if and only if the server was not misread as gone |
| Servers.DeleteSucceedsIff | pkg/cloud/servers.go:345-415 | the exact answers under which a deletion succeeds; one that fails has touched nothing |
| Servers.DeleteUndoesCreate | pkg/cloud/servers.go:345-415 | deletion undoes creation whatever was provisioned since, minus exactly the drives attached in between |
| Servers.Client.DeleteDrives | pkg/cloud/servers.go:395-402 | the deletion loop goes on past failures |
| Servers.Client.CloneDrives | pkg/cloud/servers.go:48-66 | the cloning loop stops at the first failure with the drives made so far |
| Servers.Client.CreateServer | pkg/cloud/servers.go:44-181 | is the creation step, with its rollback loops |
| Servers.Client.DeleteServer | pkg/cloud/servers.go:346-415 | is the deletion step |
| Machine.FindFacts | pkg/cloud/servers.go:432-464 | a find returns an own or same-named server, and none only if no accessible server has the UID |
| Machine.ReconcileCareful | controllers/cloudsigmamachine_controller.go:225-497 | with any failures, misread errors, lost replies and crashes a reconcile creates at most one server, only if none has the UID, and binds only to own servers |
| Machine.TidyStep | controllers/cloudsigmamachine_controller.go:241-423 | every event of the account keeps servers and bindings tidy |
| Machine.AtMostOneServer | controllers/cloudsigmamachine_controller.go:309-423 | no run, however errors are read, gives a machine two accessible servers or two machines one instance |
| Machine.NoServerLeftIff | controllers/cloudsigmamachine_controller.go:499-611 | a deletion leaves no accessible server of the machine if and only if there was none or the bound one was accessible and deleted |
| Readiness.ReadyIsEarned | controllers/cloudsigmamachine_controller.go:462-491 | whatever fails or is misread, a machine becomes Ready only if the server it is bound to runs |
| Readiness.ReportIsExact | controllers/cloudsigmamachine_controller.go:425-491 | for an instance seen as it is, with writes that succeed: Ready exactly if it runs, unless it is stopped, when it is started; provider ID and state name it |
| Readiness.ReconcileInOrder | controllers/cloudsigmamachine_controller.go:236-420 | in every reconcile the provider ID follows the persisted instance ID, a new server starts only once both are persisted, and nothing in the cloud changes before the finalizer is |
| Readiness.CreatesOnlyWhenReady | controllers/cloudsigmamachine_controller.go:310-376 | a server is made only when the find found none, the bootstrap data is there and the creation was accepted |
| Readiness.UnreadableChangesNothing | controllers/cloudsigmamachine_controller.go:291-294 | a GET or find that fails changes nothing |
| Readiness.FailedWriteStops | controllers/cloudsigmamachine_controller.go:429-459 | if the provider ID cannot be corrected, nothing is reported or started |
| Readiness.OrphanIsForgotten | controllers/cloudsigmamachine_controller.go:280-290 | an instance of another user is forgotten if no own server is found or the find fails |
| Readiness.VanishedIsReplacedAtOnce | controllers/cloudsigmamachine_controller.go:297-423 | a vanished server is replaced in the same reconcile, even if clearing its ID fails |
| Readiness.FindIff | pkg/cloud/servers.go:432-464 | a find returns a server of the UID if there is one, else one of the name if there is one, else none |
| Readiness.ProviderRoundTrip | ccm/controllers/loadbalancer_controller.go:1302-1312 | the provider ID that the machine controller writes is the one the load balancer controller reads |
| MachineController.MachineReconciler.FindServerByNameOrMeta | pkg/cloud/servers.go:432-464 | metadata first, then the name, over the listing |
| MachineController.MachineReconciler.BindTo | controllers/cloudsigmamachine_controller.go:395-413 | status first, then provider ID; stops at the first failed write |
| MachineController.MachineReconciler.ObserveServer | controllers/cloudsigmamachine_controller.go:425-493 | is the step for a server that exists |
| MachineController.MachineReconciler.ReconcileNormal | controllers/cloudsigmamachine_controller.go:225-497 | is the reconcile step |
| Convergence.RoundProgress | controllers/cloudsigmamachine_controller.go:241-496 | each successful reconcile strictly lowers the distance to convergence |
| Convergence.ConvergedStays | controllers/cloudsigmamachine_controller.go:425-493 | a converged state is a fixed point |
| Convergence.Converges | controllers/cloudsigmamachine_controller.go:241-496 | from every persisted state five successful reconciles reach Ready with matching IDs, and further ones change nothing |
| Deletion.UUIDReadAsNotFound | controllers/cloudsigmamachine_controller.go:580-585 | any error text around a UUID with 404 in it reads as not found |
| Deletion.ClassifyIff | pkg/cloud/servers.go:190-217 | the reading of an error agrees with its HTTP status if and only if the status is 404 or 403 or no searched word occurs |
| Deletion.OrphansIff | controllers/cloudsigmamachine_controller.go:508-611 | the exact condition under which the finalizer goes although the server is there and is not deleted |
| Deletion.CooperativeCloudReleases | controllers/cloudsigmamachine_controller.go:499-611 | the finalizer goes when there is no server, when it is gone, or when it stops and its deletion is accepted |
| Deletion.StuckServerIsDeleted | controllers/cloudsigmamachine_controller.go:548-592 | a server that never stops is deleted after twelve polls |
| Deletion.FailuresKeepFinalizer | controllers/cloudsigmamachine_controller.go:515-591 | the finalizer stays after an unreadable GET, a failed stop, or a refusal with any other text |
| Deletion.WaitForStop | controllers/cloudsigmamachine_controller.go:548-565 | the polling loop ends at the first answer that is not a server still stopping, after at most 12 polls |
| Deletion.ReconcileDelete | controllers/cloudsigmamachine_controller.go:499-611 | the finalizer goes exactly in the listed cases; delete is called only after stopped was seen or 12 polls |
| Tokens.KeyInjective | pkg/auth/impersonation.go:137 | with regions free of ':' the cache key determines the pair |
| Tokens.KeyCollides | pkg/auth/impersonation.go:137 | a region with ':' always shares its key with another pair |
| Tokens.StepGenuine | pkg/auth/impersonation.go:139-167 | every step keeps cached and held tokens genuine |
| Tokens.CacheRefinesFetch | pkg/auth/impersonation.go:129-168 | in every interleaving a returned token was minted for exactly its pair, and a cached one has the buffer minus the latency left |
| Tokens.BoundIsTight | pkg/auth/impersonation.go:76-78 | for every latency a prompt run serves a cached token with exactly the buffer minus the latency left |
| Tokens.KeepsBufferIff | pkg/auth/impersonation.go:139-167 | the whole buffer is left in every prompt run if and only if answers take no time |
| Tokens.DefaultsKeepTokensAlive | pkg/auth/impersonation.go:33-37 | with the defaults a cached token lives at least 270 more seconds |
| Tokens.ClearForgets | pkg/auth/impersonation.go:368-395 | a clear forgets everything, or one pair and nothing else |
| Tokens.ClearedIsFetched | pkg/auth/impersonation.go:387-395 | a get after a clear goes to the server |
| Tokens.NobodyIsImpersonated | pkg/auth/impersonation.go:130-135 | a get without an e-mail or a region fails without a request |
| TokenClient.SecondGetIsCached | pkg/auth/impersonation.go:139-167 | a get soon after a get needs no request and returns the same token; other pairs are untouched |
| TokenClient.GetTokenSource | pkg/auth/impersonation.go:129-168 | a token comes from the cache with the buffer left, or from a fresh impersonation that is then cached |
| TokenClient.GetTokenIff | pkg/auth/impersonation.go:129-191 | the exact answers under which a get returns a token |
| TokenClient.GetKeepsServiceTokens | pkg/auth/impersonation.go:170-305 | service tokens obtained on the way are kept even if the get fails later |
| TokenClient.CacheOrigin | pkg/auth/impersonation.go:156-163 | over every run of gets and clears, a cached token is one answered to a get of that pair, not cleared since, with the expiry of that answer: its seconds, or 900 |
| TokenClient.ServedTokensAreLive | pkg/auth/impersonation.go:139-167 | so a token served from the cache outlives the buffer when it is checked |
| TokenClient.ServiceTokenSource | pkg/auth/impersonation.go:194-305 | a service account or RPT token comes from the cache and outlives the buffer, or from a new answer that is then cached |
| TokenClient.ServiceTokenReused | pkg/auth/impersonation.go:194-305 | asked again, the same token is reused exactly while it outlives the buffer; an empty one never |
| TokenClient.ImpersonationClient.GetServiceAccountToken | pkg/auth/impersonation.go:194-248 | reuse or fetch and store |
| TokenClient.ImpersonationClient.GetRPTToken | pkg/auth/impersonation.go:251-305 | reuse or fetch and store |
| TokenClient.ImpersonationClient.GetImpersonatedToken | pkg/auth/impersonation.go:129-191 | is the get on all three caches |
| TokenClient.ImpersonationClient.ClearCache | pkg/auth/impersonation.go:368-384 | forgets every token |
| TokenClient.ImpersonationClient.ClearUserToken | pkg/auth/impersonation.go:387-395 | forgets one pair |

## Left out

- HTTP, JSON, SDK and Kubernetes plumbing, logging, sleeps and tickers: a remote call is one step with a given answer.
- Tag UUIDs: none of the components deletes a tag, so a tag's position in the table stands for its UUID.
- Configuration pods, iptables and endpoints of the load balancer, and the NICs in the switch to manual mode: for the load balancer it is one call that succeeds or fails, and `AttachRaces` has its GET and PUT as far as drives go.
- A service that stops being of type LoadBalancer loses its status in the model; an API server that keeps the old status is not modelled.
- Reservation.AlwaysExclusive: steps are whole service reconciles and releases, and there is no graceful shutdown; `RaceIff` and `ShutdownIff` show why.
- Reservation.RestartSafeIff: the runs have readable probes (`GarbledIff` drops that), current copies of services, and other clusters that leave this one's recovered IPs tagged.
- Convergence.Converges: assumes bootstrap data, no server in a state outside the start/stop cycle, and that a started server runs by the next reconcile.
- MachineController.MachineReconciler.ObserveServer: the network addresses it reports are not modelled.
- MachineController.MachineReconciler.ReconcileNormal: neither are the server's tags and its network addresses.
- Machine.AtMostOneServer: assumes that the list shows every accessible server, which the API promises only eventually.
- Servers.Client.DeleteServer: the public IPs that deletion also releases are not modelled.
- Servers.Client.CreateServer: NICs, metadata and cloud-init data of the new server are not modelled.
- Tokens.CacheRefinesFetch: the service account and RPT caches appear only in the sequential client; a failure to get either is a failed fetch.
- AttachThreats.NothingLostIff: assumes that the server stays, that it lists each volume once and has a free channel at the start, and that every attach finds one.
- Driver.CsiDriver.CreateVolume: argument checks other than the size, and the tagging, are not modelled.
- Driver.CsiDriver.DeleteVolume: the untagging is not modelled.
- Tags.AnyRunFrames: tagging and untagging passes are whole steps; `TagRaces` interleaves their requests.
- The node service of the CSI driver, the node and cluster controllers, volume expansion and capability checks: host plumbing or easy members.
