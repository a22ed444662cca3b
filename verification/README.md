# Verified model of the CAPCS cluster controller

Cluster API Provider cloudscale.ch (CAPCS) builds a Kubernetes cluster's infrastructure through an
API whose calls can fail, time out, or time out after landing. This project models its reconcilers,
its admission webhook and its machine-level protocols in Dafny and proves what they promise over
whole runs. Nothing here is executed; `dafny verify dfyconfig.toml` checks everything.

## How it is modelled

- **Cloud.** A `World` holds resources with kind, ownership tag and parent, router interfaces, pool
  members, server groups and floating IP assignments. History fields record every id CAPCS created
  (`made`) and every id it ever asked the API to delete or detach (`targets`, `disbanded`).
- **Calls.** The k-th API call of a pass meets the fate `f(k)`: success, failure or timeout, the last
  two with or without effect, a refusal because of pool members, what outsiders did since the previous
  call, and the attributes a read reports. Theorems hold for all `f`, so for every failure pattern.
- **Stages.** Each reconciler is a function from state to state (`Networks`, `Routers`, `LoadBalancer`,
  `FloatingIps`, `ServerGroups`, `Controller`). Module `Scope` has the same reconcilers in their own
  form, a class whose status lists are edited in loops, each method proved equal to its function.
- **Runs.** A run is any sequence of reconciles, admitted spec updates, a deletion request and outside
  changes, from the creation of a cluster (`Runs.IsRun`).
- **Shape and family** of status and cloud are invariants of every run, whatever others do: status entries
  follow the spec (`StatusShape.Shaped`), children hang below the recorded parents (`Family.Related`).
- **Router ownership** is an invariant (`Ownership.Good`) over cloud, spec and status that every call of
  every stage keeps (`OwnershipSteps`, `OwnershipRouters`, `OwnershipTeardown`, `OwnershipRuns`).

Assumptions about the API: ids are non-empty and never handed out twice; a router or network with an
interface on it is not deleted; a router has at most one interface per network; deletes cascade to
children; lists show what has landed; a timed-out write has landed when the call returns or never
will; ownership tags are put on by CAPCS only. Router names and interface networks are unique by the
CRD schema, machine names within a namespace. Server groups have ids of their own. A spec update takes
effect between passes.

Some promises do not hold without an assumption; for each there is a witness and the condition under
which it does hold.

- `Intrusion.StrangersInterfaceIsDetached` is a run in which somebody attaches an adopted router to a
  network between CAPCS's read and its create; the write-ahead entry then makes the next pass claim the
  interface, and deletion detaches it. `OwnRouterIntrusion.GuestOnOwnRouterIsDetached` is the same on a
  router of CAPCS's own. The ownership theorems therefore let outsiders attach anywhere except on CAPCS's
  own routers and networks and where the spec asks CAPCS to attach. Without that assumption
  `Risk.OnlyInterfacesAreAtRisk` says that nothing but such an interface is ever targeted wrongly, and
  `Risk.SafeWithoutAttaching` that nothing is if the spec has CAPCS attach no interface. For specs without
  uuids that is exact (`RiskExact.SafeIffNothingToAttach`).
- The wait after a timed-out server group create keeps one group per name and zone exactly when no two
  workers want the same one (`GroupCreation.DelaysAreHarmlessIff`).
- Teardown ends only when the cluster's servers are gone and nobody else is on what it deletes
  (`TeardownConverges.TwoPassesFinishIff`); after a peaceful run only the servers matter.
- A recorded load balancer goes with the finalizer exactly when it is enabled
  (`DisabledLb.LoadBalancerGoesIff`); in no run is a disabled one recorded
  (`FamilyRuns.DisabledIsNeverRecorded`).

The code and a field comment disagree about the member port: the comment of the pool member field says
6443, the code uses the API server port, and so does the model.

## Model

| member | source | states |
|---|---|---|
| Safety.OnlyOwnWorkIsTargeted | internal/controller/cloudscalecluster_router.go:364-500 | in every reachable state, whatever failed or timed out with or without effect, every id the controller ever asked the API to delete or detach is one it created: no foreign interface is detached, no adopted router, network or floating IP deleted |
| Safety.EveryInterfaceIsNamed | internal/controller/cloudscalecluster_router.go:308-346 | every live interface CAPCS made is named by a managed entry of its router, by uuid or as a pending entry that resolves through its network |
| Safety.NoInterfaceOutlivesTheCluster | internal/controller/cloudscalecluster_controller.go:252-268 | in every reachable state without the finalizer no interface CAPCS made is attached |
| StatusShape.StatusIsWellFormed | internal/controller/cloudscalecluster_network.go:283-302 | at every point of every run, whatever others do, status entries are unique by key, each is for an entry of the spec, and its managed flag equals "that entry has no uuid" |
| StatusShape.StepKeepsShape | internal/controller/cloudscalecluster_controller.go:73-160 | every reconcile, update, deletion request and outside change keeps this shape |
| StatusShape.DeleteRoutersKeepsShape | internal/controller/cloudscalecluster_router.go:376-422 | the delete loop keeps it for the list it is about to write |
| Runs.RunIsSafe | internal/controller/cloudscalecluster_controller.go:73-160 | the ownership invariant holds at every point of every peaceful run |
| Runs.StepKeepsSafe | internal/controller/cloudscalecluster_controller.go:73-160 | every reconcile, admitted update, deletion request and outside change keeps it |
| Runs.NormalPassKeepsSound | internal/controller/cloudscalecluster_controller.go:163-222 | a normal pass keeps it, wherever it stops |
| Runs.DeletePassKeepsSafe | internal/controller/cloudscalecluster_controller.go:226-269 | a delete pass keeps it, and removes the finalizer only when no CAPCS-made interface is attached |
| Unattached.DeletePassLeavesBare | internal/controller/cloudscalecluster_controller.go:226-269 | a delete pass attaches nothing: where no CAPCS-made interface is attached, as on an object that has lost its finalizer, none is afterwards |
| Runs.DeleteRoutersLeavesNone | internal/controller/cloudscalecluster_router.go:364-423 | deleteRouters without an error leaves no managed entry and no CAPCS-made interface attached |
| Runs.AdmittedUpdateExtends | internal/webhook/v1beta2/cloudscalecluster_webhook.go:381-429 | an admitted update keeps every network, router and interface with its uuid, which is what ownership decisions rest on |
| OwnershipRouters.RoutersKeepGood | internal/controller/cloudscalecluster_router.go:43-77 | the router stage keeps the invariant from any router on |
| OwnershipRouters.InterfaceKeepsGood | internal/controller/cloudscalecluster_router.go:219-246 | adopting, claiming and creating an interface keep it and the snapshot the pass works from |
| OwnershipRouters.ClaimKeepsGood | internal/controller/cloudscalecluster_router.go:278-304 | claiming a live interface keeps the invariant: the managed entry it writes stands for an interface CAPCS made, on the attachment it names |
| OwnershipRouters.AttachKeepsGood | internal/controller/cloudscalecluster_router.go:308-346 | write-ahead entry, create and confirmation keep it, also when the answer is lost |
| OwnershipTeardown.DetachOneKeepsGood | internal/controller/cloudscalecluster_router.go:464-498 | detaching one entry, pending ones resolved through the live interfaces, keeps it |
| OwnershipTeardown.DeleteRoutersKeepsGood | internal/controller/cloudscalecluster_router.go:376-422 | the delete loop keeps it for the list it is about to write; without an error nothing managed is left |
| OwnershipTeardown.DeleteNetworksKeepsGood | internal/controller/cloudscalecluster_network.go:220-266 | deleting networks keeps it once no interface entry is managed |
| OwnershipSteps.ObtainKeepsGood | internal/controller/cloudscale_services.go:22-67 | get, adopt by tag or create yields a CAPCS-made id and keeps it |
| Intrusion.StrangersInterfaceIsDetached | internal/controller/cloudscalecluster_router.go:308-341 | without the restriction on outside attaches a run leads to the detach of an interface CAPCS never created |
| OwnRouterIntrusion.GuestOnOwnRouterIsDetached | internal/controller/cloudscalecluster_router.go:278-341 | the same on a router CAPCS created: an attach right after its creation is claimed by the next pass and detached at deletion |
| Risk.OnlyInterfacesAreAtRisk | internal/controller/cloudscalecluster_router.go:429-500 | in every run, whatever others attach or delete, each targeted id is CAPCS's own or was taken, by its id or by a router read, for the interface of a managed interface entry |
| Risk.SafeWithoutAttaching | internal/controller/cloudscalecluster_router.go:219-246 | if every interface of the spec is an existing one, only CAPCS's own work is targeted even if others attach anywhere |
| RiskExact.SafeIffNothingToAttach | internal/controller/cloudscalecluster_router.go:196-346 | for every admitted spec without uuids: all runs that end with it, whatever others do, only ever target CAPCS's own work iff no router asks for an interface |
| Risk.DeletePassRisks | internal/controller/cloudscalecluster_controller.go:226-269 | what a delete pass newly targets CAPCS made, or a managed interface entry stands for |
| Risk.NormalPassTargetsNothing | internal/controller/cloudscalecluster_controller.go:163-222 | a normal pass asks for no deletion of a resource and no detach |
| Teardown.NothingRecordedSurvives | internal/controller/cloudscalecluster_controller.go:226-269 | from any status, over any sequence of delete passes, once the finalizer is gone every network, router, interface, enabled load balancer and managed floating IP status recorded as CAPCS-owned is gone, and nothing is left on an attachment that a pending entry stood for |
| Teardown.NoPendingInterfaceSurvives | internal/controller/cloudscalecluster_router.go:464-498 | the interface of an attach whose answer was lost is off its router when the finalizer is gone, though status never had its id |
| Teardown.AttachedAccount | internal/controller/cloudscalecluster_router.go:429-500 | the detach loop keeps an entry for the interface, now with its id, or the interface is off the attachment |
| Teardown.AttemptsCarry | internal/controller/cloudscalecluster_controller.go:226-269 | until then no entry falls off the books before what it stands for is gone |
| Teardown.DeletePassTearsDown | internal/controller/cloudscalecluster_controller.go:226-269 | one delete pass loses track of nothing, and passing all stages means nothing is recorded any more |
| Teardown.FinalizerGoesWithTheLastEntry | internal/controller/cloudscalecluster_controller.go:263-268 | after a pass the finalizer is absent iff all stages passed or it was absent before |
| Teardown.RoutersCarry | internal/controller/cloudscalecluster_router.go:376-422 | router entries and their interfaces stay accounted through the delete loop |
| Teardown.NetworksCarry | internal/controller/cloudscalecluster_network.go:220-266 | network entries stay accounted through the delete loop |
| Teardown.NetworksLater | internal/controller/cloudscalecluster_network.go:220-266 | the pool-members exit leaves status as it was, and no deleted id comes back |
| Teardown.NothingBelowSurvives | internal/controller/cloudscalecluster_loadbalancer.go:598-635 | with a load balancer gone its pool, listener and monitor are gone, with a network its subnet |
| FamilyRuns.NoRecordedChildSurvives | internal/controller/cloudscalecluster_loadbalancer.go:598-635 | from every state of every run: once the finalizer is gone, so is every pool, listener, health monitor and managed subnet that status recorded, although no delete names them |
| FamilyRuns.ChildrenAreBelow | internal/controller/cloudscalecluster_loadbalancer.go:241-384 | at every point of every run a live recorded pool, listener or monitor is below the recorded load balancer, a managed subnet below its recorded network |
| FamilyRuns.RunKeepsKin | internal/controller/cloudscalecluster_controller.go:73-160 | the family invariant behind it, kept whatever others do: tagged children hang below the recorded parent, and recorded managed ids are CAPCS's |
| FamilyRuns.RunIsFit | internal/controller/cloudscalecluster_controller.go:73-160 | every state a run reaches meets what the teardown theorems ask |
| TeardownConverges.OnePassFinishesIff | internal/controller/cloudscalecluster_controller.go:226-269 | from any status, an undisturbed delete pass removes the finalizer iff no group of the cluster holds one of its servers, and the entries up to each managed router, and all entries for each managed network, name every interface on it |
| TeardownConverges.TwoPassesFinishIff | internal/controller/cloudscalecluster_controller.go:226-269 | two or more such passes do iff no group holds a server of the cluster and no managed router or network carries an interface that no managed entry names |
| TeardownConverges.PeacefulTeardownEndsIff | internal/controller/cloudscalecluster_controller.go:226-269 | from every state of a peaceful run two or more such passes remove the finalizer iff no group holds a server of the cluster |
| TeardownEnds.RoutersGoCleanly | internal/controller/cloudscalecluster_router.go:376-422 | undisturbed, the router loop detaches exactly the interfaces managed entries name, and fails iff a managed router still carries one when its turn comes |
| Family.PartKeepsFamily | internal/controller/cloudscalecluster_loadbalancer.go:241-286 | an id moves only when the old resource is gone, and then nothing hangs below the old one |
| Family.ManagedNetworkKeepsFamily | internal/controller/cloudscalecluster_network.go:112-205 | the subnet recorded is on the network recorded, also when either was adopted by tag or the other one timed out |
| FamilyRuns.DisabledIsNeverRecorded | internal/controller/cloudscalecluster_loadbalancer.go:62-75 | in no run does status hold the id of a disabled load balancer or of one of its parts |
| DisabledLb.LoadBalancerGoesIff | internal/controller/cloudscalecluster_loadbalancer.go:598-635 | from any status, unless others delete it, a recorded load balancer is gone with the finalizer iff it is enabled |
| DisabledLb.DisabledIsLeft | internal/controller/cloudscalecluster_loadbalancer.go:598-606 | disabled, it is never cleared from status, nor targeted unless status has its id elsewhere too |
| DisabledLb.StrayIsLeft | internal/controller/cloudscalecluster_loadbalancer.go:598-606 | a state from which one undisturbed pass drops the finalizer and leaves the load balancer |
| TeardownTargets.TeardownIsConfined | internal/controller/cloudscalecluster_controller.go:226-269 | over any sequence of delete passes from any status only ids recorded as managed at the start, or interfaces that were on the attachment of a pending entry or did not exist yet, are deleted or detached |
| TeardownTargets.DeletePassConfined | internal/controller/cloudscalecluster_controller.go:226-269 | the same for one pass, and nothing more is allowed to the next |
| TeardownReads.EveryTargetHasGrounds | internal/controller/cloudscalecluster_router.go:429-500 | over any sequence of delete passes every id newly targeted was, in some pass, recorded as managed or shown by that pass's read of the router on the attachment of a pending entry |
| TeardownReads.PassHasGrounds | internal/controller/cloudscalecluster_controller.go:226-269 | the same for one pass, with the router reads at the points the loop makes them |
| TeardownReads.EveryDisbandedWasListedEmpty | internal/controller/cloudscalecluster_servergroup.go:57-90 | over any sequence of delete passes every server group deleted was listed, in some pass, as the cluster's and without a server |
| TeardownTargets.OnlyEmptyGroupsAreDeleted | internal/controller/cloudscalecluster_servergroup.go:57-90 | the same for one group stage |
| TeardownTargets.GroupStagePasses | internal/controller/cloudscalecluster_servergroup.go:57-93 | the stage passes only if no group held a server of the cluster, and then its empty groups are gone |
| PartialFailure.DeleteNetworksExactly | internal/controller/cloudscalecluster_network.go:211-267 | what is left is exactly, in order, the unmanaged entries and the managed ones whose delete failed other than 404; an error iff one failed; untouched list on the pool-members exit |
| PartialFailure.DeleteRoutersExactly | internal/controller/cloudscalecluster_router.go:364-423 | the list left is, in order, the entries with an id that are unmanaged or whose interfaces or router met a failure, each with exactly its remaining interfaces; an error iff one met a failure |
| PartialFailure.DeleteRouterExactly | internal/controller/cloudscalecluster_router.go:376-420 | an entry stays iff it has an id and is unmanaged, had an interface failure, or its delete was answered other than done or 404; the router is not asked for after an interface failure |
| PartialFailure.DeleteInterfacesExactly | internal/controller/cloudscalecluster_router.go:429-500 | a read answered 404 drops all entries, a failed read keeps all with an error; otherwise what is left is, in order, the unmanaged entries and the managed ones whose detach failed other than 404, with the id they resolved to, and an error iff one failed |
| AtMostOne.NeverTwoOfAKind | internal/controller/cloudscale_services.go:31-66 | at every point of every run, passes from arbitrary older statuses and unruly outsiders included, no tag marks two resources of a kind, no router has two interfaces on a network, no pool two members of a name |
| AtMostOne.EnsureIsLawful | internal/controller/cloudscale_services.go:22-67 | ensureResource lets the caller create only when nothing carries the tag |
| AtMostOne.NormalPassIsLawful | internal/controller/cloudscalecluster_controller.go:163-222 | a normal pass from any status keeps it |
| AtMostOne.DeletePassIsLawful | internal/controller/cloudscalecluster_controller.go:226-269 | a delete pass from any status keeps it |
| History.ReplacedIsGone | internal/controller/cloudscale_services.go:31-66 | a recorded resource is replaced only when it is gone for good |
| ProgressBound.StallsAreBounded | internal/controller/cloudscale_services.go:22-67 | if timed-out creates land, nothing is removed from outside and machines only join or gain addresses, then over passes with any number of spec updates between them those that stop on a timed-out create are at most the resources the last spec and machine list ask for that were not there at first |
| ProgressBound.StallsFromCreation | internal/controller/cloudscalecluster_controller.go:163-222 | from creation on there are at most as many as the last spec with the last machine list asks for |
| ProgressRuns.NormalPassGoes | internal/controller/cloudscalecluster_controller.go:163-222 | every pass keeps what is there, and one that stalls brings a resource of the spec that was not there |
| Progress.ObtainGrows | internal/controller/cloudscale_services.go:22-67 | a lost create means the tag was free and is now taken |
| Progress.NetworksGo | internal/controller/cloudscalecluster_network.go:41-76 | the network stage goes forward; entries are never changed, only appended |
| Progress.RoutersGo | internal/controller/cloudscalecluster_router.go:43-77 | the router stage goes forward although one stalled router does not hold back the others |
| Progress.CreateInterfaceGoes | internal/controller/cloudscalecluster_router.go:317-341 | a lost attach joins a router and a network that were not joined before |
| ProgressRuns.MembersGo | internal/controller/cloudscalecluster_loadbalancer.go:386-440 | the member stage goes forward; a lost create adds a wanted name the pool did not have |
| Provisioned.PassDecidesProvisioned | internal/controller/cloudscalecluster_controller.go:163-222 | a pass through all four stages sets Provisioned exactly when the endpoint has a host; any other pass leaves it and the spec alone |
| Provisioned.ProvisionedIsMonotone | internal/controller/cloudscalecluster_controller.go:277-364 | once true at a point of a run, whatever others do to the cloud, it is true at every later point, with the same host |
| Provisioned.RouterIsProvisioned | internal/controller/cloudscalecluster_router.go:81-108 | a router that does not requeue has an id and an id for every interface, and leaves other entries alone |
| Provisioned.NetworksAreFull | internal/controller/cloudscalecluster_network.go:41-76 | after the stage every network of the spec has an entry with both ids |
| Provisioned.LoadBalancerHasIds | internal/controller/cloudscalecluster_loadbalancer.go:62-178 | after the stage an enabled load balancer, its pool and listener have ids |
| Provisioned.FloatingIpHasId | internal/controller/cloudscalecluster_floatingip.go:42-70 | after the stage a requested floating IP has an id |
| MemberConvergence.MembersConverge | internal/controller/cloudscalecluster_loadbalancer.go:386-440 | after a member pass without error or requeue the pool's name-to-address map equals the desired one iff the pool is still there or nothing is desired |
| MemberConvergence.SecondPassIsQuiet | internal/controller/cloudscalecluster_loadbalancer.go:386-440 | an immediate second pass makes the list call and no other |
| MemberConvergence.ConvergedPassOnlyLists | internal/controller/cloudscalecluster_loadbalancer.go:407-437 | on a converged pool nothing is created, updated or deleted |
| MemberConvergence.DesiredMembersExact | internal/controller/cloudscalecluster_loadbalancer.go:442-501 | each desired member carries its machine's first internal address inside the CIDR of a network with the subnet it names; a control-plane machine is left out exactly when it has none |
| Ip.ContainsIsRange | internal/controller/cloudscalecluster_loadbalancer.go:480-492 | containment, as in section 3.1 of RFC 4632, is lying between the first and last address of the block |
| AdmissionChains.ChainKeeps | internal/webhook/v1beta2/cloudscalecluster_webhook.go:201-309 | along every chain of admitted updates each spec is create-valid, and every earlier network, router and interface is there with the same uuid, cidr, mtu, gateway and address |
| AdmissionChains.MemberNetworkFixed | internal/webhook/v1beta2/cloudscalecluster_webhook.go:243-256 | with the load balancer enabled the network pool members live on never changes over such a chain, the fallback to the first status network included |
| AdmissionChains.MemberSubnetIsOfMemberNetwork | internal/controller/cloudscalecluster_loadbalancer.go:519-538 | the member subnet is the one status records for that network |
| SpecRuns.RunIsChain | internal/webhook/v1beta2/cloudscalecluster_webhook.go:201-309 | the specs of a run, the controller's endpoint write included, are a chain of admitted updates |
| SpecRuns.MembersStayOnTheirNetwork | internal/controller/cloudscalecluster_loadbalancer.go:519-538 | at any two points of any run with the load balancer enabled at which a member subnet is known, it is the subnet of one and the same network |
| AdmissionChains.DefaultIdempotent | internal/webhook/v1beta2/cloudscalecluster_webhook.go:65-123 | defaulting twice is defaulting once |
| AdmissionChains.EndpointWriteAdmitted | internal/controller/cloudscalecluster_controller.go:277-303 | the controller's own endpoint write is unchanged by defaulting and passes the update rules |
| AdmissionChains.NetworksKeptTransitive | internal/webhook/v1beta2/cloudscalecluster_webhook.go:381-429 | network immutability composes |
| AdmissionChains.RoutersKeptTransitive | internal/webhook/v1beta2/cloudscalecluster_webhook.go:527-582 | router immutability composes, interfaces included |
| Admission.ValidateNetworks | internal/webhook/v1beta2/cloudscalecluster_webhook.go:318-364 | errors iff a name repeats, uuid and cidr are both or neither set, a cidr does not parse or a gateway has no cidr around it |
| Admission.ValidateNetworkReference | internal/webhook/v1beta2/cloudscalecluster_webhook.go:367-376 | an error iff no network has the name |
| Admission.IndexNetworks | internal/webhook/v1beta2/cloudscalecluster_webhook.go:433-439 | names map to the last network that carries them |
| Admission.ValidateRouters | internal/webhook/v1beta2/cloudscalecluster_webhook.go:444-451 | errors iff some router breaks the rules |
| Admission.ValidateSingleRouter | internal/webhook/v1beta2/cloudscalecluster_webhook.go:459-476 | errors iff uuid and internetGateway are both set or an interface breaks the rules |
| Admission.ValidateRouterInterface | internal/webhook/v1beta2/cloudscalecluster_webhook.go:481-522 | errors iff the network is undefined, an adopted interface is on a managed router or has an address, or another one has no address inside a managed network |
| Admission.ValidateNetworkImmutability | internal/webhook/v1beta2/cloudscalecluster_webhook.go:381-429 | errors iff a network was removed or changed |
| Admission.ValidateRouterDiff | internal/webhook/v1beta2/cloudscalecluster_webhook.go:527-582 | errors iff a router or one of its interfaces was removed or changed |
| Admission.ValidateInterfaceDiff | internal/webhook/v1beta2/cloudscalecluster_webhook.go:556-578 | errors iff an interface was removed or changed |
| Admission.ValidateLbImmutability | internal/webhook/v1beta2/cloudscalecluster_webhook.go:611-641 | errors iff a load balancer setting, its enabled flag included, changed |
| Admission.ValidateRest | internal/webhook/v1beta2/cloudscalecluster_webhook.go:170-196 | errors iff a network reference or the member network is unresolved, or the floating IP has both or neither of family and address, an address that is no IP, no load balancer to create it for, or a private one |
| Admission.ValidateCreate | internal/webhook/v1beta2/cloudscalecluster_webhook.go:152-198 | errors iff the spec is not create-valid |
| Admission.ValidateUpdate | internal/webhook/v1beta2/cloudscalecluster_webhook.go:201-309 | errors iff the update is not valid |
| Admission.ClusterObject.ApplyDefaults | internal/webhook/v1beta2/cloudscalecluster_webhook.go:65-89 | the spec is filled in in place as the defaulting function says |
| Admission.ClusterObject.DefaultLoadBalancer | internal/webhook/v1beta2/cloudscalecluster_webhook.go:91-117 | load balancer and health monitor defaults, nothing else touched |
| Regions.NewRegionInfo | internal/cloudscale/regions.go:30-46 | the nested loops build both indexes, the last region of a zone or slug winning |
| Regions.DefaultZonePasses | internal/cloudscale/regions.go:49-65 | with no zone shared between regions a defaulted zone passes the zone check |
| Regions.DefaultZonePassesIff | internal/cloudscale/regions.go:49-65 | in general it passes exactly when every region listed after one of that slug with the zone, and listing the zone too, has the same slug |
| GroupCreation.AtMostOneGroup | internal/controller/cloudscalemachine_servergroup.go:35-121 | for any number of workers in any interleaving in which nobody lists for a group while a create of it is on its way, at most one group per name and zone exists |
| GroupCreation.FinishedWorkersAgree | internal/controller/cloudscalemachine_servergroup.go:75-121 | in such an interleaving with no outside deletion all workers finished for a name and zone hold the same, existing group |
| GroupCreation.DelaysAreHarmlessIff | internal/controller/cloudscalemachine_servergroup.go:106-117 | if a timed-out create lands before its own worker lists again, as the requeue intends, all interleavings keep one group per name and zone iff no two workers are after the same one |
| GroupCreation.SharedKeyMakesTwo | internal/controller/cloudscalemachine_servergroup.go:69-117 | in any fleet with two workers after one group such an interleaving makes two |
| GroupCreation.ListingTooEarlyMakesTwo | internal/controller/cloudscalemachine_servergroup.go:81-117 | from any state, a worker that lists while a create of its group is on its way can make two |
| GroupCreation.FindGroup | internal/controller/cloudscalemachine_servergroup.go:91-96 | the loop finds the first listed group of the name in the zone, or none |
| ServerLookup.LookupFindsExactlyOwn | internal/controller/cloudscalemachine_server.go:285-300 | for accepted tags a server matches the lookup of exactly the machine it was created for |
| ServerLookup.TagValueInjective | internal/controller/cloudscalemachine_server.go:295-300 | namespace/cluster/name is injective on slash-free names |
| ServerLookup.NeverTwoServersNeverAnothers | internal/controller/cloudscalemachine_server.go:112-184 | in every run a machine never has two servers, and a live server it records is its own and nobody else's |
| ServerLookup.OverriddenTagHidesServer | internal/controller/cloudscalemachine_server.go:285-292 | a user tag on the lookup key hides the server exactly when its value differs |
| ServerLookup.MachineCreateTags | internal/controller/cloudscalemachine_server.go:285-292 | user tags are copied over the lookup tag |
| ServerLookup.ValidateTags | internal/webhook/v1beta2/cloudscalemachine_validation.go:149-159 | the reserved keys are reported, and no others |
| Scope.ClusterScope.ObtainResource | internal/controller/cloudscale_services.go:22-67 | get by id, adopt by tag or create, as the function says |
| Scope.ClusterScope.CreateIfMissing | internal/controller/cloudscalecluster_network.go:133-158 | the create after ensureResource, with its three answers |
| Scope.ClusterScope.SetNetworkStatus | internal/controller/cloudscalecluster_network.go:283-302 | overwrites the entry of that name or appends it |
| Scope.ClusterScope.ReconcilePreExistingNetwork | internal/controller/cloudscalecluster_network.go:84-109 | reads the network once and caches its first subnet |
| Scope.ClusterScope.ReconcileManagedNetwork | internal/controller/cloudscalecluster_network.go:112-205 | network, then subnet, then the entry; early exits leave status alone |
| Scope.ClusterScope.ReconcileNetworkStage | internal/controller/cloudscalecluster_network.go:41-76 | the loop over the spec stops at the first network that does not finish |
| Scope.ClusterScope.DeleteNetworkStage | internal/controller/cloudscalecluster_network.go:211-267 | builds the remaining list, stops at once on a refusal |
| Scope.ClusterScope.SetRouterStatus | internal/controller/cloudscalecluster_router.go:521-533 | overwrites id and flag or appends a bare entry |
| Scope.ClusterScope.SetRouterInterfaceStatus | internal/controller/cloudscalecluster_router.go:536-555 | upserts the interface entry of the named router |
| Scope.ClusterScope.ReconcileRouterInterface | internal/controller/cloudscalecluster_router.go:219-246 | adopt, claim or create, with the write-ahead entry |
| Scope.ClusterScope.ReconcileRouterInterfaces | internal/controller/cloudscalecluster_router.go:196-249 | the loop over the interfaces with the index of live ones |
| Scope.ClusterScope.ReconcileOneRouter | internal/controller/cloudscalecluster_router.go:81-108 | resolve, record, wait until active, attach |
| Scope.ClusterScope.ReconcileRouterStage | internal/controller/cloudscalecluster_router.go:43-77 | all routers in one call, results joined, an error ends it |
| Scope.ClusterScope.DetachEntry | internal/controller/cloudscalecluster_router.go:465-497 | one entry of the detach loop |
| Scope.ClusterScope.DeleteRouterInterfaces | internal/controller/cloudscalecluster_router.go:429-500 | reads the router once and detaches what CAPCS created |
| Scope.ClusterScope.DeleteRouterEntry | internal/controller/cloudscalecluster_router.go:376-419 | interfaces first, then a managed router |
| Scope.ClusterScope.DeleteRouterStage | internal/controller/cloudscalecluster_router.go:364-423 | builds the remaining list and the error |
| Scope.ClusterScope.ReconcileLbPart | internal/controller/cloudscalecluster_loadbalancer.go:241-286 | the id found or created is recorded, a failed create clears it |
| Scope.ClusterScope.ReconcileLbParts | internal/controller/cloudscalecluster_loadbalancer.go:241-384 | pool, listener and health monitor in this order |
| Scope.GetDesiredMembers | internal/controller/cloudscalecluster_loadbalancer.go:442-501 | the machines with an internal address on the member subnet |
| Scope.ClusterScope.ReconcileLbMembers | internal/controller/cloudscalecluster_loadbalancer.go:386-440 | list, upsert, prune |
| Scope.ClusterScope.UpsertMembers | internal/controller/cloudscalecluster_loadbalancer.go:414-429 | creates missing members and fixes changed addresses |
| Scope.ClusterScope.PruneMembers | internal/controller/cloudscalecluster_loadbalancer.go:431-437 | deletes members nobody wants |
| Scope.ClusterScope.ReconcileLoadBalancerStage | internal/controller/cloudscalecluster_loadbalancer.go:62-178 | the stage with its early exits, VIP and readiness |
| Scope.ClusterScope.DeleteLoadBalancerStage | internal/controller/cloudscalecluster_loadbalancer.go:598-635 | deletes an enabled load balancer and clears its ids |
| Scope.ClusterScope.ReconcileManagedFloatingIp | internal/controller/cloudscalecluster_floatingip.go:89-160 | find or create, assign |
| FloatingIps.FloatingIpServesTarget | internal/controller/cloudscalecluster_floatingip.go:42-243 | once the stage proceeds and a load balancer or server is known, the floating IP in status is assigned to it, whether it was given, found by id or tag, or created |
| Scope.ClusterScope.ReconcileFloatingIpStage | internal/controller/cloudscalecluster_floatingip.go:42-70 | pre-existing or managed floating IP |
| Scope.FindTarget | internal/controller/cloudscalecluster_floatingip.go:176-206 | the load balancer, or the first control-plane server |
| Scope.ClusterScope.AssignFloatingIp | internal/controller/cloudscalecluster_floatingip.go:209-243 | assigns unless already assigned |
| Scope.ClusterScope.DeleteFloatingIpStage | internal/controller/cloudscalecluster_floatingip.go:247-288 | deletes a managed floating IP only |
| Scope.ClusterScope.DeleteServerGroupStage | internal/controller/cloudscalecluster_servergroup.go:43-93 | waits for owned servers, skips foreign ones, deletes empty groups |
| Scope.ClusterScope.ReconcileControlPlaneEndpoint | internal/controller/cloudscalecluster_controller.go:277-364 | fills in the endpoint at most once and decides Provisioned |
| Scope.ClusterScope.ReconcileNormally | internal/controller/cloudscalecluster_controller.go:163-222 | four stages, the first that does not finish ends the pass |
| Scope.ClusterScope.ReconcileDeletion | internal/controller/cloudscalecluster_controller.go:226-269 | reverse order, finalizer last |
| Scope.ClusterScope.ReconcileObject | internal/controller/cloudscalecluster_controller.go:73-160 | one reconcile of the object |
| Scope.IndexByNetwork | internal/controller/cloudscalecluster_router.go:208-215 | the index is the inverse of the live interfaces |
| Scope.UpsertInterface | internal/controller/cloudscalecluster_router.go:541-553 | overwrites the entry of that network or appends it |
| Scope.IndexMembers | internal/controller/cloudscalecluster_loadbalancer.go:402-405 | names map to the last member that carries them |
| Scope.WantedNameSet | internal/controller/cloudscalecluster_loadbalancer.go:407-410 | exactly the desired names |
| Scope.FirstAddress | internal/controller/cloudscalecluster_loadbalancer.go:480-492 | the first internal address inside the CIDR |
| Scope.GetOwnedServerIds | internal/controller/cloudscalecluster_servergroup.go:97-113 | the server ids of the cluster's machines |
| Scope.ClassifyServers | internal/controller/cloudscalecluster_servergroup.go:58-66 | the two flags of the inner loop; neither iff the group is empty |
| Types.FindPutNetwork | api/v1beta2/cloudscalecluster_types.go:440-447 | a lookup after an upsert finds the written entry and leaves other names alone |
| Types.FindPutRouter | api/v1beta2/cloudscalecluster_types.go:450-457 | the same for routers, whose interfaces the upsert keeps |
| Types.FindPutInterface | api/v1beta2/cloudscalecluster_types.go:422-429 | the same for interfaces |

## Left out

- HTTP transport, oauth, the Kubernetes client, watches, events, logging, tracing and credentials.
- Conditions and requeue durations: a stage's result says whether it proceeds, requeues, stalled or failed.
- CIDR and IP text parsing: specs and statuses hold parsed prefixes and addresses, or text marked as not parsing.
- MTU, gateway and type of created resources, interface addresses, the warning about SNAT, and the diagnostic listing after a refused network delete.
- Two clusters of the same name in different namespaces share the tag key of networks, routers and load balancers; the model has one cluster.
- Spec updates during a pass: the model lets them take effect between passes.
- Leaks of creates that landed after a timeout when deletion starts before the next normal pass: teardown is about what status records; interfaces are the exception and are covered.
- ProgressBound.StallsAreBounded: machines may join but not leave, because a member of a machine that comes and goes may be created any number of times.
- ProgressBound.StallsFromCreation: has the same restriction on machines.
- TeardownTargets.TeardownIsConfined: allows every id not handed out yet while an entry is pending, so that it can speak of the first state only; TeardownReads.EveryTargetHasGrounds says which of them.
- TeardownTargets.DeletePassConfined: has the same allowance; TeardownReads.PassHasGrounds says which.
- Safety.OnlyOwnWorkIsTargeted: keeps others off all networks CAPCS made, although a router that no spec names could be let on; without any such assumption there is Risk.OnlyInterfacesAreAtRisk.
- GroupCreation.AtMostOneGroup: needs a group's creates to have landed when anybody lists for it, because of GroupCreation.ListingTooEarlyMakesTwo; for the weaker wait the code makes there is GroupCreation.DelaysAreHarmlessIff.
- GroupCreation.FinishedWorkersAgree: has the same assumption.
- Scope.ClusterScope.DeleteRouterStage: the pruned interface lists are returned and written with the remaining list, not by reference; nothing reads the list in between.
- Machine template validation, flavors, server status conditions, interface requests and bootstrap data.
