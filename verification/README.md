# Verified model of kubernetes-switchcloud

Two programs of the repository are modelled: `loadbalancer-controller`, which
gives tenant Services of type LoadBalancer an Octavia balancer, a floating IP
and security-group rules in OpenStack, and `talos-edge-router`, which routes TLS
connections by the server name in their ClientHello. OpenStack and the Kubernetes
API servers are plain state; every request may fail, with or without having been
carried out. `dafny verify dfyconfig.toml` checks everything.

How the files follow the programs:

- `Finalizers.dfy` is the protocol: every API request of the controllers, every
  user edit and every step of Octavia is one `Action` with the condition under
  which it is allowed. What a pass reads is an action too, and what it may do
  depends on what it read; no-leak holds in all runs. `Rely.dfy` says what one
  tenant's worker can rely on while others act, and what a pass leaves alone.
  `ServiceController.dfy` and `ClusterController.dfy` are the reconcilers request
  by request; each method shows that it only sends requests that are allowed
  whenever the service accepts them. `Teardown.dfy` puts whole passes together,
  `Stragglers.dfy` says what passes overtaken by a teardown can still do, and
  `Leaks.dfy` has the runs in which something is lost after all.
- `Listeners.dfy`, `SecurityGroups.dfy`, `WorkerPorts.dfy`, `Sweep.dfy` and
  `Tags.dfy` are the OpenStack half: listeners, pools and members; NodePort rules;
  worker ports; the orphan sweep; the names and descriptions that tie resources to
  Services.
- `Sessions.dfy`, `SessionManager.dfy` and `TenantSession.dfy` are the manager of
  per-tenant sessions: one step per goroutine action, the control flow over these
  steps, and one session's goroutines.
- `Router.dfy`, `ClientHello.dfy`, `HelloGrammar.dfy`, `ReplayConn.dfy`,
  `IPSync.dfy` and `ExternalIPs.dfy` are the edge router: routing table, parser,
  its grammar, the replaying connection, and the node-address syncer.
- `Requests.dfy`, `Ids.dfy` and `Text.dfy` hold what several of them need.

Formats follow sections 4.1.2 and 5.1 of RFC 8446, section 7.4.1.2 of RFC 5246
and section 3 of RFC 6066; Service and namespace names are labels in the sense of
section 2.3.1 of RFC 1035.

Where code and comments differ, the model follows the code:

- `ksc.IsNotFound` is described as "the configuration object is missing", but is
  also true when the Secret with the credentials is missing: the finalizer is then
  dropped without cleanup although the configuration exists
  (`loadbalancer-controller/internal/ksc/resolve.go:323-328`, `ResolveConfig`);
  `MissingSecretLeaks` is a run in which an active balancer is left behind.
- A failed listing of sibling releases, or a failed look at the one that would do,
  counts as "no credentials to borrow", so the cluster finalizer is dropped without a
  sweep (`loadbalancer-controller/internal/controller/cluster_controller.go:203-217`);
  `FailedListingLeaks` is such a case.
- The group pass of the orphan sweep is called best-effort, but a group still in
  use ends it with an error (`loadbalancer-controller/internal/openstack/sweep.go:299-301`).
- Addresses of unknown clusters are said to be left to the cluster sweep; that only
  takes those bound to a balancer of the cluster
  (`loadbalancer-controller/internal/openstack/sweep.go:395-402`).
- An empty union of node addresses is written again on every pass, because a nil and
  an empty slice compare unequal (`talos-edge-router/internal/sniproxy/ipsync.go:155-170`).

## Model

| member | source | states |
|---|---|---|
| Finalizers.NoLeak | loadbalancer-controller/internal/controller/service_controller.go:81-454 | In every run of allowed actions, however users, Octavia and all controllers interleave: a balancer or address of a Service exists only while it carries the finalizer, or a pass over it is in the run that read the Service, then found the configuration object or its credentials Secret missing, or the release missing or marked for deletion, then dropped the finalizer, and no pass has completed a cleanup since; the one exemption is an address allocated after the tenant's release had been marked for deletion, if the release was created again |
| Finalizers.StepKeepsInv | loadbalancer-controller/internal/openstack/floatingip.go:24-83 | Every allowed action keeps the invariant the no-leak result rests on: one balancer per Service, one address per port, and an address only on a standing balancer of the same Service unless it was allocated after the marking |
| Finalizers.ReleasedOnlyBy | loadbalancer-controller/internal/controller/service_controller.go:105-173 | A Service counts as released only after a pass over it dropped the finalizer in one of the two branches, on what that very pass had read: no configuration object or no credentials Secret (a malformed Secret is neither), or a release missing or marked |
| Finalizers.ActsOnWhatItRead | loadbalancer-controller/internal/controller/service_controller.go:105-217 | In every run, each claim, balancer request or change, address allocation and published address comes from a pass that read the Service balanced and not being deleted, then load balancers switched on with a network and usable credentials, then the release alive; each deletion, clean drop of the finalizer and clearing of the status from a pass that read anything else under a live release |
| Finalizers.ConfigByInput | loadbalancer-controller/internal/ksc/resolve.go:87-190 | What is read of a configuration, input by input: not found exactly when the object or its credentials Secret is missing, an error exactly when the credentials are unusable, else each field; without a network it is switched off as misconfigured, and no CIDRs means from everywhere |
| Finalizers.RecreatedOnlyBy | loadbalancer-controller/internal/controller/service_controller.go:117-130 | A tenant counts as re-created only after a release of its name was created while it had none and had had a marked one |
| Finalizers.LateOnlyBy | loadbalancer-controller/internal/controller/service_controller.go:117-130 | An address counts as late only if it was allocated for a tenant whose release had been marked |
| Stragglers.OneStraggler | loadbalancer-controller/internal/controller/service_controller.go:117-173 | In every run, with requests interleaved in any way: all new balancers and addresses a tenant is given after its release was marked, and not created again, are for one Service, in the one pass that read the release alive before the marking |
| Stragglers.PassIsOlder | loadbalancer-controller/internal/controller/service_controller.go:117-132 | Each such request belongs to a pass that began and read the release before the marking |
| Rely.StepIsCalm | loadbalancer-controller/internal/multicluster/session.go:27-32 | No action of anybody else takes a claim, changes what the pass has read, gives the tenant a balancer, puts one of its balancers on the way out (unless the tenant is torn down) or binds an address to its ports |
| Rely.SafeCreateLB | loadbalancer-controller/internal/openstack/loadbalancer.go:63-100 | A claimed Service found without a balancer, in a pass that read it as wanted under a live release, may ask for one, whatever others do before the request is served |
| Rely.SafeCreateFIP | loadbalancer-controller/internal/openstack/floatingip.go:32-58 | In such a pass an address may be allocated on a balancer once seen active, whatever others do meanwhile |
| Rely.SafeDeleteLB | loadbalancer-controller/internal/openstack/loadbalancer.go:126-146 | In a pass that read the Service as one that has to go, a balancer whose port was seen free may be deleted, whatever others do meanwhile |
| Rely.SafeDropFinalizer | loadbalancer-controller/internal/controller/service_controller.go:395-416 | Once a cleaning pass found no balancer, or a pass read that the tenant is gone, the finalizer may come off at any later time |
| Rely.OwnResourcesOnly | loadbalancer-controller/internal/openstack/loadbalancer.go:55-146 | What a pass over one Service does leaves every other Service, its balancer and its address, and all configurations and releases, as they are |
| ServiceController.Worker.Reconcile | loadbalancer-controller/internal/controller/service_controller.go:81-354 | Any pass, broken after any request and interleaved with others, is a legal run of the protocol. Undisturbed it does, case by case on the objects as they were: nothing for a Service that is gone, or unclaimed with nothing to provide it for; nothing, and an error, where the credentials are unusable; only the finalizer off, and no other, where the configuration or its Secret is missing or the release is missing or marked; under a live release with usable credentials one step towards gone for a claimed Service that is being deleted, not balanced, switched off or without a network, and one step towards provided, never one back, for any other. Every other Service, balancer, address, configuration and release stays as it is; in the network only the Service's own rules change, in the one group they go to, and with the cluster's own group the worker ports found, by attaching and detaching. With requests served it fails only on the listed faults |
| ServiceController.Worker.Round | loadbalancer-controller/internal/controller/service_controller.go:81-354 | Any number of passes over any Services leave every other Service's rules and the baseline in every group |
| ServiceController.Worker.Provide | loadbalancer-controller/internal/controller/service_controller.go:219-354 | Takes one step: request the balancer when there is none, or make one change that brings it closer to the Service's ports and the workers listed, or, with nothing left to change, expose it; a requeue follows only such a request or change, or Octavia at work; success means an active settled balancer, worker ports prepared, the wanted rules in place and the right address published; the network changes within the frame of a pass |
| ServiceController.Worker.EnsureBalancer | loadbalancer-controller/internal/openstack/loadbalancer.go:55-102 | Goes on only with an active balancer of this Service; requests exactly one balancer and only when none was found |
| ServiceController.StepView | loadbalancer-controller/internal/openstack/loadbalancer.go:165-253 | A call changes at most one thing and then brings the balancer strictly closer; in sync only when settled |
| ServiceController.Worker.SyncBalancer | loadbalancer-controller/internal/controller/service_controller.go:258-262 | All that a sync does to the world is one such change of one active balancer |
| ServiceController.Worker.EnsureFloatingIP | loadbalancer-controller/internal/openstack/floatingip.go:24-61 | Success means the balancer's port carries an address of this Service, an existing one or one new one; a balancer without a port is an error |
| ServiceController.Worker.DeleteFloatingIP | loadbalancer-controller/internal/openstack/floatingip.go:64-83 | Success leaves the port without an address; no other port changes |
| ServiceController.Worker.DeleteBalancer | loadbalancer-controller/internal/openstack/loadbalancer.go:110-146 | Not pending means no balancer with the Service's name is left; the port is freed before the balancer is put on its way out; pending without a request when Octavia is at it already |
| ServiceController.DeletionProgress | loadbalancer-controller/internal/openstack/loadbalancer.go:110-146 | An undisturbed deletion never goes back and gets on unless Octavia is deleting already |
| ServiceController.Worker.Cleanup | loadbalancer-controller/internal/controller/service_controller.go:361-417 | The measure over balancer, address, published address and finalizer never rises and falls on every error-free pass not waiting for Octavia; when the finalizer is off there is no balancer, nothing published and no rule of the Service in its group; in the network only the Service's rules change, in that group |
| ServiceController.Worker.WipeRules | loadbalancer-controller/internal/controller/service_controller.go:380-393 | The Service's rules leave the operator's group if one is pinned, else the cluster's own, which is never created for this; all other rules, groups and ports stay |
| ServiceController.Worker.ClearIngress | loadbalancer-controller/internal/controller/service_controller.go:562-589 | Empties the published addresses and changes nothing else |
| ServiceController.Worker.DropFinalizerOf | loadbalancer-controller/internal/controller/service_controller.go:436-455 | Takes this finalizer and no other off the Service, which is gone only if it was waiting for nothing else, and changes nothing else about the Service or the cloud; nothing at all when the snapshot had none |
| ServiceController.Worker.PreparePorts | loadbalancer-controller/internal/controller/service_controller.go:318-336 | Success leaves every worker port found with the cluster's group and without the default one; ports that carry no worker address stay, and the others change only by attaching and detaching |
| ServiceController.Worker.EnsureRules | loadbalancer-controller/internal/controller/service_controller.go:338-340 | Success leaves exactly the wanted keys in the cluster's own group; in an operator's also a key that two rules of the Service shared; all other rules, groups and ports stay |
| ServiceController.Worker.PatchStatus | loadbalancer-controller/internal/controller/service_controller.go:529-554 | Publishes exactly the given address unless listed already; an empty one is an error |
| ServiceController.Worker.StepAside | loadbalancer-controller/internal/controller/service_controller.go:132-173 | For a terminating tenant a pass only takes the finalizer off, and wipes the Service's own rules, and no others, from an operator's group |
| ServiceController.Worker.Drain | loadbalancer-controller/internal/controller/service_controller.go:361-417 | With requests served and Octavia keeping up, passes over a claimed Service that is being deleted, no longer balanced, switched off or without a network, under a live release with usable credentials, end with no balancer, address or published address left, no rule (in an operator's group, which has to exist, only keys that two of its rules shared), this finalizer and no other off it, and all else untouched, the network but for its rules included |
| ServiceController.Worker.StandingUnlessLate | loadbalancer-controller/internal/controller/service_controller.go:361-417 | What that needs, every address of the Service on a standing balancer, holds under a live release but for a late address of a release created again |
| ServiceController.Worker.Supply | loadbalancer-controller/internal/controller/service_controller.go:197-354 | With requests served, Octavia keeping up and nothing wrong with the Service, its balancer and its configuration, each said of the objects themselves, passes over a wanted Service end with an active balancer of just its ports and the workers, the floating IP published where one is to be had and else the balancer's own address, just the wanted rules, the worker ports moved to the cluster's group, and the network changed only within the frame of a pass |
| ServiceController.Worker.OneStageNearer | loadbalancer-controller/internal/controller/service_controller.go:197-354 | One pass over such a Service provides it or leaves it one stage, or one change of its balancer, nearer |
| ServiceController.Worker.PassIsAside | loadbalancer-controller/internal/controller/service_controller.go:81-354 | A run of actions for one Service leaves every other one, its balancer and its address alone |
| ServiceController.TwinFreeKept | loadbalancer-controller/internal/openstack/securitygroup.go:191-238 | A run for one Service never leaves two rules of any Service with one key |
| ClusterController.Controller.Reconcile | loadbalancer-controller/internal/controller/cluster_controller.go:89-185 | A pass touches only its tenant's release (of that only the cluster finalizer), its balancers and the addresses on them, none while the release lives; marks a live release; and lets a terminating one go either with every balancer on its way out and no address on them, if the tenant's own configuration or that of a listed sibling has usable credentials, switched on or not, or with the cloud untouched if none has. With requests served it succeeds on a marked release exactly when its credentials are not broken and, with credentials, Octavia accepts the deletion of each balancer |
| ClusterController.Controller.Retire | loadbalancer-controller/internal/controller/cluster_controller.go:129-168 | With requests served, the first pass after Octavia has settled lets a marked release go, and once Octavia is done nothing of a tenant is left that has usable credentials or a sibling with some, its addresses included if they were on standing balancers |
| ClusterController.Controller.Sweep | loadbalancer-controller/internal/openstack/sweep.go:58-116 | Success puts every balancer with the tenant's prefix on its way out, each with its port freed first; only addresses of the tenant on those balancers go, and nothing else in the cloud changes; a balancer still being created, updated or deleted makes it fail, and with requests served nothing else does |
| ClusterController.Controller.FindCredentials | loadbalancer-controller/internal/controller/cluster_controller.go:133-151 | Credentials are found exactly when the tenant's own configuration has usable ones, or that of a named sibling if all was answered; unusable own ones are an error |
| ClusterController.Controller.BorrowCredentials | loadbalancer-controller/internal/controller/cluster_controller.go:195-220 | The loop over the siblings, in any order, finds credentials exactly when some named sibling has usable ones, or, when a request failed, perhaps not |
| ClusterController.PrefixIsTenant | loadbalancer-controller/internal/openstack/sweep.go:59-75 | The prefix test selects exactly the balancers of that tenant |
| ClusterController.StepEvolves | loadbalancer-controller/internal/controller/cluster_controller.go:58-66 | What the cluster controller has seen stays its tenant's, and a port it freed stays free for any pass that will clean up, whatever anybody does |
| Teardown.TornDown | loadbalancer-controller/internal/controller/cluster_controller.go:89-185 | Over any order of atomic passes, user edits and Octavia steps: when a marked release loses the cluster finalizer in a pass with usable credentials, its own or those of a listed sibling, every balancer of the tenant is on its way out and carries no address, and other tenants' balancers and addresses are untouched by that pass; ever after the tenant has only balancers it had before, on their way out or failed while being deleted (ERROR), no address on them, and none at all if it was tidy when marked |
| Teardown.MarkingIsTidy | loadbalancer-controller/internal/controller/cluster_controller.go:89-126 | At the first marking of a release every address of the tenant is on a standing balancer |
| Teardown.LettingGoHappens | loadbalancer-controller/internal/controller/cluster_controller.go:129-168 | A run in which a tenant with an active balancer and an address on it is swept and let go in one pass |
| Teardown.NothingNewComes | loadbalancer-controller/internal/controller/service_controller.go:117-173 | From the moment the release is marked, no pass gives the tenant a new balancer or address, and no balancer on its way out returns |
| Teardown.OnlyTheTeardown | loadbalancer-controller/internal/controller/cluster_controller.go:170-185 | Only a pass over the tenant's own release takes the cluster finalizer off, and where its own configuration has usable credentials that is one `TornDown` is about |
| Teardown.CanBeAboutToGo | loadbalancer-controller/internal/controller/cluster_controller.go:115-126 | The state that run starts from is reached from an empty system |
| Leaks.InterleavedPassLeaks | loadbalancer-controller/internal/controller/service_controller.go:117-132 | Atomic passes are needed: a run from an empty system in which a pass reads the release alive, then it is marked and let go, then that pass creates its balancer |
| Leaks.MissingSecretLeaks | loadbalancer-controller/internal/ksc/resolve.go:318-328 | A run in which the finalizer comes off with the balancer active, because only the Secret with the credentials is missing |
| Leaks.RecreationLeaks | loadbalancer-controller/internal/controller/service_controller.go:117-130 | The one exemption is needed: a run in which an address allocated during a teardown outlives a full cleanup after the release was created again |
| Leaks.FailedListingLeaks | loadbalancer-controller/internal/controller/cluster_controller.go:195-220 | A run in which, with the tenant's configuration gone, one pass with a failed listing lets the release go with its balancer active although a sibling has credentials |
| Listeners.Octavia.SyncListenersAndMembers | loadbalancer-controller/internal/openstack/loadbalancer.go:165-253 | At most one change per call; in sync exactly when settled; a change lowers the work left; nothing is sent while Octavia is busy or a port is unusable |
| Listeners.Octavia.Converge | loadbalancer-controller/internal/openstack/loadbalancer.go:147-164 | Repeated calls settle the balancer with at most three changes per port and one per stale listener |
| Listeners.NoWorkIffSettled | loadbalancer-controller/internal/openstack/loadbalancer.go:207-250 | No work is left exactly when there is one listener per Service port and no other, each with a pool of exactly the workers at that NodePort and subnet |
| Listeners.SettledMeans | loadbalancer-controller/internal/openstack/loadbalancer.go:207-250 | Settled says exactly: every listener has the name of a Service port, and every Service port has a listener of its name with a pool whose members are the workers at that NodePort and subnet, and no other |
| Listeners.FirstBadPort | loadbalancer-controller/internal/openstack/loadbalancer.go:180-192 | The error names the first port that cannot be served, and which of the two faults it has |
| Listeners.ListenerCreated | loadbalancer-controller/internal/openstack/loadbalancer.go:210-220 | Creating a missing listener keeps names distinct and leaves one step less |
| Listeners.PoolCreated | loadbalancer-controller/internal/openstack/loadbalancer.go:317-341 | Creating a missing pool keeps one pool per listener and leaves less to do |
| Listeners.MembersUpdated | loadbalancer-controller/internal/openstack/loadbalancer.go:412-434 | The member batch keeps addresses distinct and leaves one step less |
| Listeners.ListenerDeleted | loadbalancer-controller/internal/openstack/loadbalancer.go:237-250 | Deleting a stale listener with its pool leaves every wanted listener alone and one step less |
| Listeners.DriftIsDifference | loadbalancer-controller/internal/openstack/loadbalancer.go:392-411 | The drift test on address-keyed maps finds a drift exactly when the member sets differ |
| Listeners.ListenerNameInjective | loadbalancer-controller/internal/openstack/loadbalancer.go:211-212 | Different port and protocol pairs get different listener names |
| Listeners.ProtocolNames | loadbalancer-controller/internal/openstack/loadbalancer.go:211-212 | The listener names for each protocol, spelled out |
| Listeners.Octavia.SyncMembers | loadbalancer-controller/internal/openstack/loadbalancer.go:381-435 | Replaces the members exactly when they differ from the wanted ones |
| Listeners.Octavia.FindPoolForListener | loadbalancer-controller/internal/openstack/loadbalancer.go:343-379 | The first pool attached to the listener, if any |
| Tags.ParseIffPrinted | loadbalancer-controller/internal/openstack/sweep.go:496-517 | The tag parser accepts exactly the printed tags of well-formed owners and gives the owner back |
| Tags.TagInjective | loadbalancer-controller/internal/openstack/loadbalancer.go:34-42 | Different Services have different tags |
| Tags.Formats | loadbalancer-controller/internal/openstack/securitygroup.go:278-288 | Tags, rule descriptions, cluster prefixes and group names, spelled out |
| Tags.CacheKeyInjective | loadbalancer-controller/internal/openstack/sweep.go:197 | The cache key of the sweep separates different Services |
| Tags.ParsersAgree | loadbalancer-controller/internal/openstack/sweep.go:473-517 | Both parsers name the same cluster |
| Tags.ClusterPrefixIff | loadbalancer-controller/internal/openstack/sweep.go:59 | The sweep prefix of a cluster matches exactly the names the parser assigns to it |
| Tags.RulePrefixIsIdentity | loadbalancer-controller/internal/openstack/securitygroup.go:278-288 | A Service's description prefix matches a rule exactly when the rule is that Service's |
| Tags.RuleDescriptionRejected | loadbalancer-controller/internal/openstack/sweep.go:508-514 | No rule description passes for a Service tag, whatever its parts contain |
| SecurityGroups.SecurityGroup.EnsureNodePortRules | loadbalancer-controller/internal/openstack/securitygroup.go:191-238 | After success the Service's rule keys are the port x CIDR grid (a surplus key survives only where two of its rules shared it); wanted rules that existed are there in every intermediate state; others' rules stay; nothing is sent when the keys match already |
| SecurityGroups.GridKeyByKey | loadbalancer-controller/internal/openstack/securitygroup.go:292-325 | A key is wanted exactly when its CIDR is allowed and some Service port has its protocol and its port as NodePort, not zero |
| SecurityGroups.SecurityGroup.DeleteNodePortRules | loadbalancer-controller/internal/openstack/securitygroup.go:244-268 | After success no rule of the Service is left, except where two shared a key; others' rules stay |
| SecurityGroups.SecurityGroup.ListOwned | loadbalancer-controller/internal/openstack/securitygroup.go:327-373 | Finds exactly the keys of the Service's rules |
| SecurityGroups.SecurityGroup.AfterDeletes | loadbalancer-controller/internal/openstack/securitygroup.go:214-223 | Which keys are left after the listed unwanted rules went |
| SecurityGroups.SharedGroupIsSafe | loadbalancer-controller/internal/openstack/securitygroup.go:191-268 | Whatever a run for one Service does, other Services' rules and the baseline rules stay |
| SecurityGroups.OthersNotOwned | loadbalancer-controller/internal/openstack/securitygroup.go:340-360 | Rules of other Services and the baseline rules are never taken for one's own |
| SecurityGroups.RuleForOwned | loadbalancer-controller/internal/openstack/securitygroup.go:292-385 | A rule written for a key has that key, carries the Service's prefix, is an ingress rule for that one port, IPv6 exactly for an IPv6 CIDR, and is recognised as the Service's |
| WorkerPorts.AttachDetach | loadbalancer-controller/internal/openstack/portattach.go:26-230 | Attaching then detaching gives the original groups in order minus the default one, plus the cluster group |
| WorkerPorts.Neutron.IsolateWorkers | loadbalancer-controller/internal/controller/service_controller.go:318-336 | For any address list, with two addresses on one port too: every found port ends as stated, none is ever without a group once attaching succeeded, and the refusal cannot happen |
| WorkerPorts.Neutron.EnsureSGAttachedToWorkers | loadbalancer-controller/internal/openstack/portattach.go:26-62 | Every found port gets the group once, others stay |
| WorkerPorts.Neutron.DetachDefaultSGFromWorkers | loadbalancer-controller/internal/openstack/portattach.go:176-230 | Every found port loses the default group; a port is refused only when it would be left with none; every intermediate state is as before or stripped |
| Sweep.Project.SweepOrphans | loadbalancer-controller/internal/openstack/sweep.go:156-311 | Attempts at most, and when no request fails exactly, the deletions the uncached filters select (addresses: one per port; groups: distinct names). Name by name: balancers of unknown clusters and of Services known to be gone, no other tagged one; groups of unknown clusters, never one of a known cluster or without the prefix. Asks about a Service at most once and only of known clusters; with every request served it succeeds |
| Sweep.Project.SweepFloatingIPs | loadbalancer-controller/internal/openstack/sweep.go:403-468 | The address pass attempts exactly the addresses of gone Services of known clusters, conflicts aside |
| Sweep.Project.SweepClusterResources | loadbalancer-controller/internal/openstack/sweep.go:58-116 | Attempts exactly the cluster's balancers, the addresses bound to them before each, and its group |
| Sweep.Project.SweepClusters | loadbalancer-controller/internal/openstack/sweep.go:261-272 | Sweeps each unknown cluster once, in any order |
| Sweep.Project.SweepGroups | loadbalancer-controller/internal/openstack/sweep.go:277-308 | Attempts the groups of unknown clusters not swept already, and none of a known cluster or without the prefix; one still in use ends the pass |
| Sweep.Project.ScanLB | loadbalancer-controller/internal/openstack/sweep.go:171-228 | The cached decision about one balancer is the uncached one |
| Sweep.Project.Exists | loadbalancer-controller/internal/openstack/sweep.go:197-218 | The table answers like the tenant's API and saves every second question |
| Sweep.TaggedFate | loadbalancer-controller/internal/openstack/sweep.go:171-228 | A tagged balancer goes exactly when its cluster is unknown or its Service is known to be gone |
| Sweep.GroupFate | loadbalancer-controller/internal/openstack/sweep.go:277-308 | The group of a cluster is selected exactly when the cluster is unknown, and a group without the prefix never |
| Sweep.UnknownIff | loadbalancer-controller/internal/openstack/sweep.go:171-186 | A resource is of an unknown cluster exactly when its name starts with the prefix of a cluster that is not known |
| Sweep.LiveBalancersStay | loadbalancer-controller/internal/openstack/sweep.go:171-228 | Operators' balancers, and those whose lookup said live or failed, are never selected |
| Sweep.LiveAddressLostExactlyWhen | loadbalancer-controller/internal/openstack/sweep.go:84-89 | A live Service loses its address exactly when its port is that of a balancer whose name has the prefix of an unknown cluster |
| Sweep.GoneAddressGoes | loadbalancer-controller/internal/openstack/sweep.go:403-468 | The address of a gone Service of a known cluster is selected whenever Services are looked up |
| Sweep.LiveAddressesStay | loadbalancer-controller/internal/openstack/sweep.go:403-468 | It does not where every address carries the name of the balancer it is bound to |
| Sweep.BorrowedAddressIsLost | loadbalancer-controller/internal/openstack/sweep.go:84-89 | An input on which a live Service does lose its address |
| Sweep.TwoKinds | loadbalancer-controller/internal/openstack/sweep.go:246-276 | Balancers of gone Services and of unknown clusters are apart |
| Sessions.EveryRun | loadbalancer-controller/internal/multicluster/manager.go:173-391 | In every run: with passes one after another at most one Session per tenant has goroutines; once all passes have ended, every Session with goroutines is the published one of its tenant |
| Sessions.StepKeepsInv | loadbalancer-controller/internal/multicluster/manager.go:173-324 | Every goroutine step, overlapping passes included, keeps every Session published, stopped or in the hands of the one pass that will publish or stop it |
| Sessions.StepKeepsSolo | loadbalancer-controller/internal/multicluster/manager.go:173-324 | What passes one after another keep on top |
| Sessions.PredecessorStopped | loadbalancer-controller/internal/multicluster/manager.go:241-295 | When a Session starts, every earlier one of its tenant has been fully stopped |
| Sessions.PassResult | loadbalancer-controller/internal/multicluster/manager.go:297-324 | At the end of a pass the table of kubeconfig hashes is the wanted one less the failed builds |
| Sessions.NothingStranded | loadbalancer-controller/internal/multicluster/manager.go:312-320 | However passes overlap, once they ended every started Session is published or stopped |
| Sessions.NoDuplicateAlone | loadbalancer-controller/internal/multicluster/manager.go:312-320 | The duplicate branch is never taken by passes that do not overlap |
| Sessions.OverlapRunsTwo | loadbalancer-controller/internal/multicluster/manager.go:312-320 | Overlapping passes can have two Sessions of one tenant running |
| Sessions.SomebodyMoves | loadbalancer-controller/internal/multicluster/manager.go:213-324 | While a pass is under way some goroutine can move, whoever holds the lock |
| Sessions.StepLowers | loadbalancer-controller/internal/multicluster/manager.go:213-390 | Every step of a pass under way leaves less ahead, in a well-founded order |
| Sessions.PassesEnd | loadbalancer-controller/internal/multicluster/manager.go:213-390 | No pass waits or runs for ever: whatever the order of steps and however passes overlap, those under way all end |
| SessionManager.Manager.ReconcileAll | loadbalancer-controller/internal/multicluster/manager.go:173-324 | One pass ends with exactly the wanted tenants less the failed builds; a tenant whose kubeconfig did not change keeps its very Session; of the others those fail, and only those, that no Session can be built and started for; a failed listing changes nothing |
| SessionManager.Manager.StopAll | loadbalancer-controller/internal/multicluster/manager.go:364-390 | Takes every Session out of the table under the lock and stops each: the table is empty and every Session stopped |
| SessionManager.Manager.Start | loadbalancer-controller/internal/multicluster/manager.go:107-155 | Whatever passes ran and however it ends, every Session is stopped |
| TenantSession.Session.Start | loadbalancer-controller/internal/multicluster/session.go:91-167 | All three goroutines run, or none is left, and they run when the cache syncs and the informer registers; waiting for the cache goroutine does not hang |
| TenantSession.Session.Stop | loadbalancer-controller/internal/multicluster/session.go:173-183 | From any state a Session can be in: ends every goroutine the first time, never hanging, and does nothing again |
| TenantSession.Session.Wait | loadbalancer-controller/internal/multicluster/session.go:180 | Waiting hangs exactly when some goroutine has no reason to end |
| TenantSession.Session.Build | loadbalancer-controller/internal/multicluster/manager.go:275-292 | A build goroutine hands over a running Session or a stopped one |
| Routing.Router.Upsert | talos-edge-router/internal/sniproxy/router.go:99-156 | Both maps agree afterwards with the history extended by this event, for any order of iteration |
| Routing.Router.Delete | talos-edge-router/internal/sniproxy/router.go:158-182 | The same for a delete event |
| Routing.Router.Backend | talos-edge-router/internal/sniproxy/router.go:186-195 | The answer is the one read off the history: the most recent claim, if its Service had no later event, and the port printed is that of the first port of that Service with the port name of the label |
| Routing.ClaimByPorts | talos-edge-router/internal/sniproxy/router.go:99-137 | A Service claims a host exactly when its annotation names it, its label says "true" and the first port of the listener's port name is not zero; that port is the one printed |
| Routing.LastListenerDecides | talos-edge-router/internal/sniproxy/router.go:40-79 | The port name of a label is the target port, or else the name, of the last listener with that label |
| Text.DecimalValue | talos-edge-router/internal/sniproxy/router.go:125 | The decimal text of a number has its value |
| Routing.Router.EntryHasOneOwner | talos-edge-router/internal/sniproxy/router.go:111-182 | Each entry has exactly one owner, a live Service whose latest event gives that port |
| Routing.ExpectedStep | talos-edge-router/internal/sniproxy/router.go:99-195 | One more event moves the answer for a host in exactly one of three ways |
| Routing.EventsLeaveOthersAlone | talos-edge-router/internal/sniproxy/router.go:111-182 | An event changes an entry only by claiming it, or when its own Service held it |
| Routing.ResyncRestores | talos-edge-router/internal/sniproxy/router.go:82-156 | One resync pass, in any order, makes the served hosts exactly those claimed by live Services, each routed to a live claimant |
| Routing.ContendedHostIsLost | talos-edge-router/internal/sniproxy/router.go:158-182 | A winner that leaves takes the host down although a losing claimant is live |
| Routing.MissingExactlyWhen | talos-edge-router/internal/sniproxy/router.go:158-195 | A claimed host is missing exactly when its last claimant has moved on |
| Routing.OwnerPrefixIsIdentity | talos-edge-router/internal/sniproxy/router.go:106-147 | The string-prefix test on a backend recovers its owner exactly |
| Routing.KeyInjective | talos-edge-router/internal/sniproxy/router.go:104-110 | Different Services have different keys |
| Routing.Router.ServicePort | talos-edge-router/internal/sniproxy/router.go:258-265 | By index: the number of the first port of that name; zero when none has it |
| ClientHello.ExtractSNI | talos-edge-router/internal/sniproxy/peek.go:87-165 | The cursor parser never leaves the buffer and computes what the slicing parser does, errors included |
| ClientHello.ScanExtensions | talos-edge-router/internal/sniproxy/peek.go:142-164 | The extension loop terminates and finds what the slicing parser finds |
| ClientHello.ParseSNIExtension | talos-edge-router/internal/sniproxy/peek.go:167-191 | The name-list loop terminates and finds what the slicing parser finds |
| HelloGrammar.AcceptsExactly | talos-edge-router/internal/sniproxy/peek.go:87-191 | Accepted are exactly the buffers that start with a ClientHello record whose extensions are complete non-SNI ones, then an SNI one holding that name; the handshake length is ignored |
| HelloGrammar.HelloRoundTrip | talos-edge-router/internal/sniproxy/peek.go:87-191 | Parsing a printed hello gives the first host name of its first server_name extension |
| HelloGrammar.SampleParses | talos-edge-router/internal/sniproxy/peek.go:87-191 | A hello given byte by byte parses to the name in it |
| HelloGrammar.HostIff | talos-edge-router/internal/sniproxy/peek.go:167-191 | A name list yields a name exactly when that is its first host_name entry |
| ReplayConn.ReadSNI | talos-edge-router/internal/sniproxy/peek.go:58-80 | Reads exactly one record and on success replays it from where the stream stood; each refusal states its reason; and where the connection delivers all the client sends, the outcome is the one determined by those bytes |
| ReplayConn.PeekConn.Read | talos-edge-router/internal/sniproxy/peek.go:37-46 | Delivers the next bytes of the stream, never more than asked for |
| ReplayConn.PeekConn.CopyOut | talos-edge-router/internal/sniproxy/peek.go:37-84 | For any buffer sizes and chunking the bytes read are a prefix of the original stream: nothing lost, repeated or reordered; and on a connection that does not fail, as many reads get as many bytes, or all |
| SyncLoop.EveryRunIsSafe | talos-edge-router/internal/sniproxy/ipsync.go:39-99 | In every interleaving no node change is lost, and each sync after the first starts at least the interval after the previous one ended |
| SyncLoop.Syncer.Run | talos-edge-router/internal/sniproxy/ipsync.go:74-99 | The loop as written, with others acting between any two of its steps, only extends a run of the transition system; once all is quiet the trigger is served and every change has been listed |
| SyncLoop.Syncer.Debounce | talos-edge-router/internal/sniproxy/ipsync.go:76-95 | From a trigger to the next sync, which starts at least the interval after the previous one ended |
| ExternalIPs.ServiceApi.SyncExternalIPs | talos-edge-router/internal/sniproxy/ipsync.go:102-180 | Writes the strictly sorted union of all nodes' internal, external and annotated addresses, and only when it differs |
| ExternalIPs.ServiceApi.SyncTwice | talos-edge-router/internal/sniproxy/ipsync.go:155-180 | An immediate second pass writes nothing exactly when the union is not empty |
| ExternalIPs.ServiceApi.CollectIPs | talos-edge-router/internal/sniproxy/ipsync.go:108-145 | Gathers each internal, external and annotated address once |
| ExternalIPs.UnionUnique | talos-edge-router/internal/sniproxy/ipsync.go:102-150 | The list does not depend on the order in which nodes are listed |
| ExternalIPs.FirstDifferenceDecides | talos-edge-router/internal/sniproxy/ipsync.go:141-162 | The order addresses are sorted in: at the first difference the smaller character, or the end, comes first |
| ExternalIPs.SplitJoin | talos-edge-router/internal/sniproxy/ipsync.go:125-140 | Splitting at commas loses nothing |
| ExternalIPs.TrimmedIs | talos-edge-router/internal/sniproxy/ipsync.go:125-140 | Trimming an annotated address takes all white space off both ends and nothing else |
| ExternalIPs.Spaces | talos-edge-router/internal/sniproxy/ipsync.go:130 | Which ASCII characters count as white space |

## Left out

- Pagination, retries, request bodies and the contents of errors; a request is answered, fails, or fails after being carried out.
- Stale reads and hand-stripped finalizers; leader election and one worker per tenant are assumed, as the code sets them up.
- Parsing of configuration objects, credentials files and CIDRs: a configuration is a value; whether its credentials are usable, missing or broken is part of it.
- Operators' own balancers in the protocol model: every balancer there has an owner; `Sweep` has balancers of any name.
- The orphan sweep as a party to the finalizer protocol: it acts for Services that are already gone, and deletes their balancers before their addresses.
- The sweep of Nova servers, which only repeats the prefix filter, and addresses of unknown clusters without a balancer, which the code skips by design.
- Baseline rules are not created in the model; that no run removes them is `SharedGroupIsSafe`.
- How workers' addresses and the external network are looked up: each network has a list of addresses without duplicates and maybe a subnet, and the project has an external network or not.
- ServiceController.Worker.Drain: only where every address of the Service is on a standing balancer, because `RecreationLeaks` may have left one that no pass finds again.
- ServiceController.Worker.Supply: Octavia and Neutron are taken to hand out balancers with a port and addresses that are not empty, because a pass over any other fails for good.
- Sessions.PassResult: for passes one after another, because of overlapping passes the first to publish wins.
- SessionManager.Manager.ReconcileAll: leaves the duplicate branch to `Sessions`, because here passes do not overlap.
- The informer's event delivery, the tombstones of deleted objects, and the waking of the manager: a listing or an event is an argument.
- Socket piping, dialing, deadlines, logging, flags and signals of the edge router; a connection is a byte stream delivered in arbitrary chunks.
- The CSR signer, the metadata setter, the apiserver proxy, Helm charts and shell hooks: wrappers around libraries.
