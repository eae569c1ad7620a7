# Verified model of the nullnet control plane

The control plane keeps a table of services. A service is registered once some host runs a replica of it. Every
replica has a table of clients: proxied users, and the replicas of services that depend on it. An entry carries the ID
of an overlay network, the number of chains that run over it, and a time stamp. A request of a user sets up a chain:
the edge from its proxy to a replica of the service, and one edge for each dependency behind it. Timeouts,
disconnects, host registrations and configuration reloads take chains down again, and a pool hands the IDs out and
takes them back.

## What is where

| files | contents |
|---|---|
| `Types`, `ServiceTable` | values, reading and changing the table |
| `NetIdPool`, `Net` | the ID pool (a class) and the address plan |
| `Chains` | building a chain, walking it for teardown (methods with the source's loops) |
| `Teardown`, `Changes` | teardowns and changes as relations: a hash map is visited in any order |
| `Setup`, `Requests` | setting up edges side by side, requests, backend triggers |
| `ControlPlane`, `Detection`, `Server` | the program itself: class `Plane`, whose methods change the table in place, and the handlers; each is proved against the relations |
| `Loader`, `Timeout`, `Sleep` | configuration loader and timeout loop |
| `Walks`, `Cycles` | what the teardown walk collects; which configurations have walks that do not end |
| `Settlement`, `Users`, `Reconcile` | what teardowns release, whom they remove, which replicas remain; for every configuration |
| `Interleaving`, `Addresses` | ownership of IDs and addresses in every interleaving |
| `Strays`, `Leaks`, `Ownership`, `LostOwners` | which steps of an interleaving leave an ID in use without an owner |
| `Counts`, `Races` | where a setup counts its chain; what racing setups of one edge count |
| `ChainSetup`, `AtomicSetup`, `Sharing`, `AtomicRequests`, `Runs`, `NetworkBound` | requests handled one at a time, for every configuration, and whole runs |
| `Success`, `Stickiness`, `Placement` | when a chain can be set up; when a client stays on one replica |
| `NewNetworks`, `Limits`, `BackendTriggers` | what a request and a trigger come to: a network of its own or a shared one, a chain, a refusal, nothing |
| `UserChanges`, `Upstream`, `Departures`, `Reloads` | which users and trigger chains a change, a removal of replicas, a disconnect, a registration and a reload take and which they leave, for every configuration |
| `Endpoints` | whom a teardown tells, of an entry or of an aborted setup |
| `Declarations`, `Registration` | what a declared service is loaded with; when a service is registered |
| `Counterexamples` | short runs in which the code does not do what it is meant to do |
| `Flow`, `FlowTeardown`, `Conservation`, `FlowTriggers`, `FlowOperations`, `Cascade`, `FlowChanges`, `FlowSetup`, `FlowReuse`, `FlowRequests` | conservation of chains |

## Regimes

The code is right under conditions that it does not check. They are stated as preconditions, each where it is needed
and no further.

- *Interleaving*: any number of edge setups between all other operations, step by step. Needs no shared networks
  (no `max_networks`). Nothing else is assumed, but where dependencies are walked the configuration is acyclic. That is
  the exact condition for a configuration: every walk on every plausible table with it ends if and only if it is
  acyclic, where a table is plausible if its entries are edges from existing replicas to services that they depend on
  (`Cycles.WalksEndIffAcyclic`); not every plausible table can be reached. The loader accepts a service that lists
  itself, and after one registration and one request its walk goes on for ever
  (`Counterexamples.SelfDependencyNeverEnds`).
- *Atomic* (`Runs.AtomicRun`): one request, trigger, timeout pass, disconnect, registration or reload after the other;
  the edges of one chain still interleave in every way. Networks may be shared. Dependencies may repeat, form diamonds
  and have many replicas; triggers are allowed.
- *Flow* (`FlowChanges.InRegime`): atomic, and at every moment the dependency lists agree on their tails (`Coherent`),
  a service that others depend on has at most one replica (`Sticky`), and trigger chains start apart
  (`TriggersApart`): the first service of a trigger chain is no proxy dependency of the service that the trigger
  belongs to, starts no other of its trigger chains, has at most one replica, and lists the rest of the chain. The
  loader produces coherent tables exactly from files whose lists agree (`Loader.CoherentIffAgreeing`).

The methods of `Plane` ask for a table in which no service has two replicas of one identity (`Unique`), which every
operation keeps, and for an acyclic configuration where they walk dependencies.

Three things the code is meant to do it does not always do. The model follows the code, has runs for each of them, and
says exactly when each of them happens.

- Every edge counts the chains over it. A chain is counted on the first replica that holds the client, and that is not
  always the one that the edge leads to (`Counts.CommitCounts`, `Counts.ReuseCounts`): in the run
  `Counterexamples.ClientOnTwoReplicas` the second edge counts nothing. Where it is, of several setups of one new edge
  that race exactly those are not counted that start on the slot that another one has reserved and not committed yet
  (`Interleaving.RaceLosesAChain`, `Races.RaceCounts`); where it is not, all of them are counted on the replica before
  (`Races.RaceCountsBefore`).
- Every client is on one replica of a service (src/services/service_info.rs:264 calls it an invariant). It fails for a
  service client with two replicas of a dependency and two users (`Counterexamples.ClientOnTwoReplicas`), and for a user
  whose slot is removed while its setup waits (`LostOwners.CommitOverCommit`). In every interleaving just two kinds of
  step can do it, the start of a service edge and the commit of any edge, and they do it if and only if another replica
  holds the client by then (`Placement.TaskSticksIff`, `Placement.RunSticksIff`). For requests served one at a time:
  an answered one keeps every service client on one replica if and only if each edge of its chain leads to the replica
  that holds its client already, or to any if none does (`Stickiness.RequestSticksIff`).
- Every ID in use has an owner: an entry, a setup that is under way, or a release. No ID ever has two. In every
  interleaving an ID loses its owner for good in exactly these steps (`Ownership.TaskKeepsIff`,
  `Ownership.SectionKeepsIff`, `Ownership.RunKeepsIff`): a setup commits although its replica has gone; a setup commits
  over, or gives up and removes, an entry that another one has committed meanwhile; a teardown takes a user that is on
  several replicas from one that was not meant; a removal drops a replica or a service that still has an entry with a
  network. `Counterexamples.CommitWithoutReplica`, `LostOwners.CommitOverCommit`, `LostOwners.AbortAfterCommit` and
  `LostOwners.RemovalLosesBoth` are runs of all four. Timeouts, proxy disconnects and new settings never do it
  (`Leaks.SettingsKeep`), and in the flow regime nothing does (`Runs.RunsAreExact`).

The main results are `Interleaving.IdsAreExclusive`, `Runs.RunsAreOrderly`, `Runs.RunsAreExact`,
`ChainSetup.FailedSetupIsNoOp`, `FlowRequests.CountsFollowRoots`, `FlowRequests.TimeoutUndoesRequest`,
`FlowTeardown.WalkAgreesWithBuilder`, `Cascade.CascadeIsCompleteAndFramed`, `NetworkBound.NetworksAreBounded`,
`Reconcile.ReregistrationReconciles`, `Reconcile.ReloadConverges`, `Sleep.NeverOversleeps`,
`Cycles.WalksEndIffAcyclic`, `Ownership.RunKeepsIff`, `Placement.RunSticksIff`, `Races.RaceCounts`,
`Stickiness.RequestSticksIff`, `Limits.OwnNetworkBelowLimit`, `Limits.SharedAtLimit`,
`BackendTriggers.TriggerCanSucceed`, `BackendTriggers.TriggerBringsItsChain`, `Reloads.ReloadTakes`,
`Departures.DisconnectSpares` and `Endpoints.TeardownsTellBothEnds`.

## Model

| member | source | states |
|---|---|---|
| NetIdPool.PoolRefinesLeastUnused | src/net_id_pool.rs:29-70 | over every run that never gives back an ID that was not handed out, the counter with its freed set answers like a search for the least unused ID, and live plus freed equals the IDs ever handed out |
| NetIdPool.AllocateSpec | src/net_id_pool.rs:39-54 | an allocation returns the least ID of the range that is not live, or nothing if and only if all are live, and makes just that ID live |
| NetIdPool.FreeIsSoundIffIssued | src/net_id_pool.rs:57-61 | giving an ID back keeps the pool sound if and only if it is not an ID of the range that was never handed out; only that ID stops being live |
| NetIdPool.UndisciplinedReleaseDuplicates | src/net_id_pool.rs:57-61 | after giving back an ID that was never handed out the pool hands it out twice |
| NetIdPool.CountIds | src/net_id_pool.rs:66-69 | the number in use is the number handed out less the number given back |
| NetIdPool.PoolCapacity | src/net_id_pool.rs:7-54 | an allocation of a sound pool fails if and only if all the IDs 101 to 4094 of a VLAN, or 101 to 2097151 of a VXLAN, are in use |
| NetIdPool.IdPool.Acquire | src/net_id_pool.rs:39-54 | the in-place pool allocates as specified: the least unused ID of a sound pool |
| NetIdPool.IdPool.Release | src/net_id_pool.rs:57-61 | the in-place pool ignores IDs outside the range and frees the others |
| Net.RoleAddressExact | src/net.rs:59-171 | for every allocatable ID the offset fits in 24 bits, no octet overflows, and a role's address is exactly its distance from the start of the block |
| Net.SetupIsConsistent | src/net.rs:59-171 | both endpoints are told the same server address, never the unspecified one; all addresses of both messages lie in the block of the ID and the two sides share none |
| Net.AddressPlan | src/net.rs:59-171 | as numbers, the addresses in the two messages are the start of the ID's block plus 1 and 2 for a VLAN, plus 1 to 4 for a VXLAN, and the server is reached at plus 1, or at plus 2 if it is on a host of a VXLAN |
| Setup.SetupTellsEachEnd | src/net.rs:9-171 | each end of an edge is told the ID, its own address and container and that of the other end, and its side; only the client's end the name and address of the server and the port that enters the chain |
| Net.BlocksAreDisjoint | src/net.rs:59-171 | blocks of different IDs share no address |
| Addresses.AddressesNeverClash | src/net.rs:59-171 | in every interleaving two entries that have networks have different server addresses, in disjoint blocks |
| Addresses.SharedAddressIsSharedNetwork | src/nullnet_grpc_impl.rs:145-181 | in every atomic run two entries have one server address only if they are users of one proxy on one replica, on one network |
| Addresses.TeardownReachesBothEnds | src/orchestrator.rs:126-145 | in every atomic run the teardown of an entry goes to where its client is and to the replica that serves it |
| Endpoints.SetupTellsBothEnds | src/nullnet_grpc_impl.rs:598-660 | in every interleaving a step of an edge setup takes a network down if and only if its endpoints do not answer or its service is gone, and then tells where the client is and the replica, each with its container, with the ID that it held |
| Endpoints.TeardownsTellBothEnds | src/orchestrator.rs:126-145 | in every atomic run every teardown ever sent told both ends of an edge: of an entry with its network, or of an edge of the chain that was being set up, with an ID that was not in use |
| ServiceTable.HolderSpec | src/services/service_info.rs:310-315 | the search across replicas finds a replica that holds the client, and finds none only if none holds it |
| ServiceTable.AddChainSpec | src/services/service_info.rs:264-273 | one chain more and a new time stamp for the client's entry, every other entry unchanged |
| ServiceTable.RemoveClientSpec | src/services/service_info.rs:428-434 | exactly the found entry of the client goes |
| ServiceTable.LeastClients | src/services/service_info.rs:381-385 | the picked replica has no more clients than any other and fewer than every earlier one |
| ServiceTable.RetainSpec | src/services/service_info.rs:57-86 | exactly the replicas to keep are kept, with their clients and ports |
| Registration.RegisteredIffReplicated | src/services/service_info.rs:28-86 | in every atomic run a service is registered if and only if it has a replica |
| Settlement.DecrementSpec | src/services/service_info.rs:284-306 | one chain less; at zero the entry goes and its network is taken down at the endpoints it names |
| Chains.BuildLinearChain | src/services/service_info.rs:540-580 | the loop builds the chain that goes from the replica through the picked replica of each dependency in turn |
| Chains.CollectDepChainEdges | src/services/changes.rs:309-355 | the loop collects the specified walk and ends, on every acyclic configuration |
| Walks.WalkIsPath | src/services/changes.rs:309-355 | on every acyclic configuration the walk collects exactly, in order, the edges to all dependencies of each place on a path that starts at the replica, goes from each place to the last dependency that has an entry for it, on the first replica that holds it, and ends where there is none |
| Walks.PathIsOne | src/services/changes.rs:309-355 | there is just one such path |
| Chains.CollectBackendChainEdges | src/services/changes.rs:362-402 | the loops collect the edges of the trigger chains, those through a given dependency only if one is given, in some order of the ports |
| Chains.TriggerWalkRetraces | src/services/changes.rs:362-402 | the walk of a trigger chain that is fully set up meets exactly the edges that the builder makes, in order |
| FlowTeardown.WalkAgreesWithBuilder | src/services/changes.rs:309-355 | flow regime: whenever a replica is used, the collected edges that have entries are exactly the edges of the builder, each once and in its order; all others are ghosts |
| FlowTeardown.WalkLowers | src/services/changes.rs:484-497 | flow regime: a walk takes one chain from every edge of the chain and touches nothing else |
| Settlement.DecrementSettles | src/services/service_info.rs:286-306 | a decrement of an unshared entry releases its network if and only if nothing uses it any more |
| Settlement.SharedNetworkDownOnce | src/services/changes.rs:273-302 | under any filter `teardown_chain` takes the network of a matched user down exactly once if no remaining client of the service uses it, and not at all otherwise |
| Settlement.ChainSettles | src/services/changes.rs:234-303 | a chain teardown changes no network of an entry, releases only networks that were in use and are not any more, none twice, and (users being on one replica) all of them |
| Settlement.OpsSettle | src/services/changes.rs:181-551 | the same for every sequence of chain and backend teardowns |
| Users.OpsCutUsers | src/services/changes.rs:44-57 | every sequence of teardowns removes exactly the users that some filter matches and leaves the others unchanged |
| Users.ApplyUsers | src/services/changes.rs:555-685 | after any list of changes no user is left that one of them concerns, and those left are unchanged |
| Users.DisconnectRemovesUsers | src/orchestrator.rs:69-79 | after a disconnect no user of a proxy on that node is left |
| Users.AllTimedOutUsers | src/services/changes.rs:671-683 | timeouts remove exactly the users they name |
| UserChanges.ChangeTakes | src/services/changes.rs:555-685 | on every table a change that removes no replicas takes exactly the users that it concerns (for a service that goes or gets other dependencies, those of all services that list it, in dependencies or triggers) and leaves all others as they are |
| UserChanges.ApplyTakes | src/services/changes.rs:555-685 | so does every list of such changes |
| UserChanges.LastRemovalTakes | src/services/changes.rs:577-652 | if the last replicas of a service go, exactly the users on them and those of the services that list it go too |
| UserChanges.RemovalTakes | src/services/changes.rs:505-551 | if only some go, exactly the users on them and those of the replicas that are clients of them, once the trigger chains of those that go are down |
| Upstream.RemovalLowersUpstream | src/services/changes.rs:521-546 | and each trigger chain through the service that starts on a replica that is a client of one that goes loses a chain on its first edge |
| Upstream.RemovalLowersGoing | src/services/changes.rs:586-640 | and so does each trigger chain that starts on a replica that goes |
| Departures.DisconnectSpares | src/services/changes.rs:139-177 | a disconnect leaves a user as it is that is of another proxy and on another node, whose replica is no client of one on the node, and whose service lists no service that loses all its replicas |
| Departures.RegistrationSpares | src/nullnet_grpc_impl.rs:498-516 | a host's list leaves a user as it is that the replicas it leaves out do not concern in that way |
| Reloads.ReloadTakes | src/services/changes.rs:59-104 | a reload takes exactly the users whose service is gone, is or lists one that is gone or has other dependencies, becomes or ceases to be an entry point, or has a new or shorter positive timeout that they have been idle for; all others keep their entries |
| Reloads.ReloadTakesTriggers | src/services/changes.rs:59-104 | flow regime: the trigger chains left after a reload are old ones of services with the same triggers, dependencies and reachability, through services that stay with the same dependencies |
| Reconcile.ChangePorts | src/services/changes.rs:555-685 | one change removes exactly the replicas it names, whatever it tears down on the way |
| Reconcile.ApplyPorts | src/services/changes.rs:555-685 | any list of changes removes exactly the replicas and services it names, in whatever order |
| Reconcile.ReregistrationReconciles | src/nullnet_grpc_impl.rs:498-516 | after a host sent its list, its replicas are exactly the listed pairs of configured services on their last listed ports; all other replicas are unchanged and identities stay unique |
| Reconcile.LastPortIs | src/services/service_info.rs:30-53 | the last listed port of a pair is that of the last item that names it |
| Reconcile.ReloadConverges | src/services/input.rs:149-156 | after a reload names and configurations are the loaded ones, and every service that stays keeps its registration, replicas and ports, for every order of changes |
| Reconcile.DisconnectRemovesReplicas | src/services/changes.rs:139-177 | after a disconnect no replica is on that node and all others are as before |
| Interleaving.IdsAreExclusive | src/nullnet_grpc_impl.rs:531-708 | in every interleaving of edge setups with rollbacks, timeouts, disconnects, registrations and reloads, every ID has at most one owner (an entry, an edge setup, or a release under way), and what is owned is in use |
| Interleaving.CommitOwnsIffReplica | src/nullnet_grpc_impl.rs:631-651 | a commit for a registered service succeeds and its ID stays in use; the ID goes to an entry, and has an owner, if and only if the replica is still there |
| Ownership.TaskKeepsIff | src/nullnet_grpc_impl.rs:567-651 | a step of an edge setup leaves every ID in use with an owner, as before, if and only if it does not commit to a replica that has gone and overwrites or removes no entry that has a network |
| Ownership.SectionKeepsIff | src/services/changes.rs:555-685 | so does a rollback, timeout, disconnect, registration or reload if and only if no teardown in it takes a user from a replica that its filter does not match and no change drops a replica or service that still has a network |
| Ownership.RunKeepsIff | src/nullnet_grpc_impl.rs:531-708 | at the end of a run in any interleaving every ID in use has an owner if and only if every step of the run was such a one |
| Strays.ChainLeaksIff | src/services/changes.rs:267-302 | a chain teardown releases every network that falls out of use if and only if the first replicas that hold a matched user, as many as are matched, are matched ones or have no network for it |
| Leaks.FinishLeaksIff | src/services/changes.rs:577-652 | so does the end of a change if and only if what it drops has no network |
| Leaks.SettingsKeep | src/services/changes.rs:555-685 | timeouts, proxy disconnects and changed dependencies, triggers and reachability always do, on every table |
| LostOwners.CommitOverCommit | src/nullnet_grpc_impl.rs:631-651 | an interleaving in which a user times out and asks again while its setup waits, and both setups succeed with their replicas there: on one replica the second network is overwritten and its ID has no owner, on two the user is on both |
| LostOwners.AbortAfterCommit | src/nullnet_grpc_impl.rs:598-622 | the same, but the first setup gets no answer and removes the entry of the second |
| LostOwners.RemovalLosesBoth | src/services/changes.rs:273-279 | an interleaving in which a user is on two replicas, one of them goes, and both IDs lose their owner |
| Interleaving.OrphanStays | src/nullnet_grpc_impl.rs:631-651 | an ID that is in use and has no owner stays in use without one, whatever happens |
| Interleaving.FreeStepOwned | src/net_id_pool.rs:57-61 | an ID that is given back is used by no entry and held by no edge setup; the 0 of a reserved slot is ignored |
| Interleaving.AdvanceMoves | src/nullnet_grpc_impl.rs:531-673 | every critical section of an edge setup moves at most its own ID: from the pool to the setup to the entry, or back |
| Interleaving.RaceLosesAChain | src/nullnet_grpc_impl.rs:549-556 | two racing setups of one new edge both succeed and the count ends at one |
| Races.RaceCounts | src/nullnet_grpc_impl.rs:549-556 | of any number of racing setups of one new edge that all succeed, where no replica before holds the client, the count is their number less those that started on the reserved slot, and one more than the number of those that started after the commit |
| Races.BothCountIffAfterCommit | src/nullnet_grpc_impl.rs:549-556 | two racing setups that both succeed count two chains if and only if one starts when the entry has its network |
| Races.RaceCountsBefore | src/services/service_info.rs:264-273 | if a replica before the edge's holds the client, all racing setups that succeed are counted there and none on the edge |
| Races.CommitAddsIffUncounted | src/nullnet_grpc_impl.rs:634-648 | a commit leaves one chain more on its edge than it finds if and only if the count there was zero and no replica before holds the client |
| Counts.CommitCounts | src/nullnet_grpc_impl.rs:634-648 | after a commit the edge counts one chain if no replica before holds the client; otherwise it counts none and the first replica that holds the client one more |
| Counts.ReuseCounts | src/nullnet_grpc_impl.rs:549-556 | an edge that is there already counts one chain more on the first replica that holds the client, and nothing else changes |
| Counts.LaterIsNotCounted | src/services/service_info.rs:264-273 | a chain that is set up adds nothing to the count of an entry whose client is on an earlier replica too |
| Interleaving.ServiceClientSpreads | src/nullnet_grpc_impl.rs:544-548 | the setup of a dependency edge puts a service client on a second replica |
| Stickiness.StartSticksIff | src/nullnet_grpc_impl.rs:544-565 | after the start of an edge its service client is on one replica if and only if it was on no other one than the picked one |
| Stickiness.CommitSticksIff | src/nullnet_grpc_impl.rs:631-651 | after a commit its client, a user or not, is on one replica if and only if no other one holds it |
| Placement.TaskSticksIff | src/nullnet_grpc_impl.rs:544-651 | a step of an edge setup keeps every client on one replica if and only if it puts its client where it is already, or where nobody else holds it |
| Placement.RunSticksIff | src/services/service_info.rs:264 | in any interleaving every client is on one replica of a service throughout if and only if every setup step is of that kind; nothing else can spread a client |
| Stickiness.ChainSticksIff | src/services/service_info.rs:551-553 | a chain that was set up leaves every service client on one replica, as before, if and only if each edge leads to the replica that holds its client, or nobody holds it |
| Stickiness.RequestSticksIff | src/nullnet_grpc_impl.rs:105-187 | an answered request keeps every service client on one replica if and only if it asks for no new chain or the chain sticks to the replicas that hold its clients |
| Stickiness.TriggerSticksIff | src/nullnet_grpc_impl.rs:390-496 | the same for a backend trigger whose chain is set up |
| Stickiness.RunsStick | src/services/service_info.rs:264 | in an atomic run in which every new chain sticks, every service client is on one replica of a service throughout |
| Counterexamples.ClientOnTwoReplicas | src/services/service_info.rs:264 | a run of one registration and two answered requests after which a service client is on two replicas, and the second edge counts no chain |
| Counterexamples.CommitWithoutReplica | src/nullnet_grpc_impl.rs:631-651 | an interleaving in which a setup succeeds whose replica has gone, and its ID is in use without an owner |
| Setup.ReserveSpec | src/nullnet_grpc_impl.rs:557-565 | an edge that is not there yet reserves its slot and changes nothing else |
| Setup.CommitSpec | src/nullnet_grpc_impl.rs:631-651 | a commit puts the entry of the network over the slot with one chain, and changes nothing else |
| Setup.AbortSpec | src/nullnet_grpc_impl.rs:567-576 | an abort removes the slot and changes nothing else |
| ChainSetup.FailedSetupIsNoOp | src/nullnet_grpc_impl.rs:678-708 | if any edge fails, for lack of an ID or an answer, then for every interleaving of the edges and every order of the rollback the entries, counts and IDs in use are as before, apart from time stamps; for edges to services of their own that hold their clients nowhere else |
| FlowSetup.ChainIsReady | src/nullnet_grpc_impl.rs:281-311 | in the flow regime the chain of every new user is of that kind |
| ChainSetup.SuccessfulSetup | src/nullnet_grpc_impl.rs:519-712 | if none fails, every edge has one chain more, over its old network or a new one of its own that was not in use |
| Success.ChainCanSucceed | src/nullnet_grpc_impl.rs:519-712 | a chain whose replicas exist can be set up while there is an ID for every edge: there is a course in which all edges succeed, after which the entries are those before and those of the chain |
| Success.RequestCanBeAnswered | src/nullnet_grpc_impl.rs:105-187 | so a new user's request for a service with all its dependencies can be answered |
| NewNetworks.ChainNetsAreNew | src/nullnet_grpc_impl.rs:519-712 | after a chain setup, whether it fails or not, every entry has the network that it had, or is of an edge of the chain and has one that was not in use |
| Limits.OwnNetworkBelowLimit | src/nullnet_grpc_impl.rs:145-187 | a new user that is answered gets a network of its own, which was not in use, on a replica with the fewest clients, unless there is a limit, the users on the service are as many, and one of them is behind the same proxy |
| Limits.SharedAtLimit | src/nullnet_grpc_impl.rs:145-181 | in that case it is answered with the address and the port of the network with the fewest chains among the users behind the same proxy, is on that network on the same replica, and no ID is taken |
| Limits.KnownIsAnswered | src/nullnet_grpc_impl.rs:132-143 | a user that is on the service is answered with its own network whatever the limit, and only its time stamp changes |
| Limits.RefusalsAre | src/nullnet_grpc_impl.rs:105-187 | each refusal is given if and only if its cause is there, and none but a failed setup changes anything |
| Limits.ChainLeads | src/nullnet_grpc_impl.rs:281-371 | the chain of a request exists if and only if every dependency has a replica; it leads from the replica along the dependencies, to a replica with the fewest clients each time, and ends with the user's own edge |
| BackendTriggers.TriggerIs | src/nullnet_grpc_impl.rs:390-496 | a trigger whose service is an entry point with a replica on the sender's host, and whose configured chain is not empty, has replicas throughout and has no first entry, sets up the edges along that chain from the first such replica, the first one with the port |
| BackendTriggers.TriggerIsIdle | src/nullnet_grpc_impl.rs:401-453 | every other trigger changes nothing |
| BackendTriggers.TriggerCanSucceed | src/nullnet_grpc_impl.rs:464-496 | while there are IDs a course exists after which the entries are those before and those of the chain |
| BackendTriggers.TriggerBringsItsChain | src/nullnet_grpc_impl.rs:390-496 | every new entry is of the chain configured for the port, whose first edge comes from the service's first replica on the sender's host |
| AtomicSetup.AtomicChain | src/nullnet_grpc_impl.rs:519-712 | for every configuration a chain setup touches no other user; the user is on its network, whose address is the answer, if it succeeds, and gone if it fails |
| AtomicRequests.RequestIsOrderly | src/nullnet_grpc_impl.rs:105-187 | an answer names the server address and the port of the network and the replica the user is on; a refusal changes no user; a known or sharing user starts a new idle time |
| AtomicRequests.TriggerIsOrderly | src/nullnet_grpc_impl.rs:390-496 | a backend trigger touches no user and keeps the state orderly |
| Runs.RunsAreOrderly | src/nullnet_grpc_impl.rs:105-187 | in every atomic run networks are shared only by users of one proxy on one replica, a user is on one replica of a service, with its network, and every network of an entry is in use |
| NetworkBound.NetworksAreBounded | src/nullnet_grpc_impl.rs:145-181 | in every atomic run with fixed limits the networks one proxy holds on a service never exceed the limit (one if it is zero), although the code compares clients of all proxies |
| NetworkBound.NetsAtMostClients | src/services/service_info.rs:317-324 | the compared count is at least the number of networks of any proxy |
| Runs.RunsAreExact | src/services/changes.rs:577-652 | in every run in the flow regime the flow is conserved everywhere and the IDs in use are exactly those of the entries, though replicas and services are dropped with their tables |
| Runs.FlowIsConserved | src/services/service_info.rs:264-306 | the outgoing edge of a replica counts its users plus the chains on its incoming edges, those of triggers included, and no count is zero |
| Runs.NothingWithoutRoots | src/net_id_pool.rs:64-69 | without users and trigger chains there are no entries and no ID is in use |
| Runs.NothingWithoutUsers | src/net_id_pool.rs:64-69 | if no triggers are configured, no users is enough |
| Runs.DisconnectIsComplete | src/orchestrator.rs:69-79 | in orderly states a disconnect leaves no replica on the node and no user of its proxy, in the flow regime no entry from its replicas, and all other replicas as they are |
| Flow.ChainAlive | src/services/changes.rs:480-497 | a replica with something flowing into it has the whole chain behind it |
| Flow.CoherentIsAcyclic | src/services/changes.rs:320-352 | agreement on tails makes every walk end |
| Conservation.Rebalance | src/nullnet_grpc_impl.rs:145-181 | one chain more, or less, for a user and for every edge behind it keeps the flow balanced |
| FlowOperations.ChainKeepsFlow | src/services/changes.rs:234-303 | a chain teardown under any filter keeps the flow conserved |
| FlowTriggers.TriggerWalkIs | src/services/changes.rs:362-402 | flow regime: the walk of a trigger chain meets the whole chain if its first edge is there, and one edge without an entry otherwise |
| FlowTriggers.BackendKeepsFlow | src/services/changes.rs:407-427 | a backend teardown of a replica keeps the flow conserved and removes the first edges of exactly the trigger chains that it concerns, though they may share all other edges with other chains |
| FlowOperations.OpsKeepFlow | src/services/changes.rs:181-551 | so does every sequence of teardowns, and it removes exactly the matched users and the trigger chains concerned |
| Cascade.NothingThrough | src/services/changes.rs:188-213 | if no user's and no trigger's chain involves a service, nothing is served by it and no dependency edge comes from it |
| Cascade.CascadeIsCompleteAndFramed | src/services/changes.rs:181-227 | after the cascade for a service nothing is served by it or comes from it and it is unregistered if it failed; exactly the users of services that mention it and the trigger chains that start at it or pass it are gone; whatever is left keeps its network, exact counts and the whole chain behind it |
| FlowChanges.FinishTrims | src/services/changes.rs:577-652 | whatever a change drops besides its teardowns has no clients left and is nobody's client |
| FlowChanges.ApplyKeepsFlow | src/services/changes.rs:555-685 | every list of changes keeps the flow conserved and releases exactly the networks that fall out of use |
| FlowChanges.ApplyTriggers | src/services/changes.rs:555-685 | after any list of changes no trigger chain is left that one of them concerns |
| FlowChanges.ReloadKeepsFlow | src/services/input.rs:149-156 | so does a reload: services whose dependencies change are unused when they change, and services whose triggers change have no trigger chains then |
| FlowChanges.ServicesListKeepsFlow | src/nullnet_grpc_impl.rs:498-516 | so does a host registration |
| FlowChanges.DisconnectKeepsFlow | src/orchestrator.rs:69-79 | so does a disconnect, and no service client comes from a replica on that node any more |
| FlowSetup.SetUpKeepsFlow | src/nullnet_grpc_impl.rs:346-371 | a new chain, of a user or of a trigger, keeps the flow conserved, networks properly shared and the pool exact |
| FlowReuse.WalkRaises | src/nullnet_grpc_impl.rs:167-179 | the walk after joining a network adds one chain to every edge of the chain and touches nothing else |
| FlowReuse.ReuseKeepsFlow | src/nullnet_grpc_impl.rs:145-181 | joining a network adds one user and its chain, takes no ID, and keeps the flow conserved |
| FlowRequests.CountsFollowRoots | src/services/service_info.rs:264-306 | two tables with the same replicas, the same users and the same trigger chains have the same count on every edge |
| FlowRequests.RequestKeepsFlow | src/nullnet_grpc_impl.rs:105-187 | a request either brings its new user with a chain or changes nothing but time stamps |
| FlowRequests.TriggerKeepsExact | src/nullnet_grpc_impl.rs:390-496 | a backend trigger either brings its chain, with its first edge, or changes nothing but time stamps |
| FlowRequests.TimeoutUndoesRequest | src/services/changes.rs:671-683 | a new user's answered request followed by its timeout restores all entries, networks, counts and IDs in use, apart from time stamps |
| Loader.ServicesMap | src/services/input.rs:90-137 | the loops produce exactly the declared, mentioned and triggered names; the last declaration wins over the last mention, and that over a trigger (with what, Declarations.DeclaredConfig says) |
| Declarations.DeclaredConfig | src/services/input.rs:123-134 | a declared service is loaded with its last declaration: the declared timeout, or the default if there is none, the declared limit and dependencies, and for each port the chain of its last trigger |
| Declarations.UndeclaredConfig | src/services/input.rs:90-122 | a service that is not declared has no timeout, limit and triggers, and depends on what follows it in the last list that mentions it, or on nothing |
| Declarations.LoadedNames | src/services/input.rs:90-137 | loaded are exactly the names that are declared, mentioned in a list or on the chain of a trigger, and none is registered |
| Loader.LoadedIsClosed | src/services/input.rs:90-137 | every name a loaded service depends on is loaded, and none is registered |
| Loader.AgreeingIsCoherent | src/services/input.rs:140-147 | lists without repeats that agree on tails load into a coherent table, on which the list shrinks at every step of a walk |
| Loader.CoherentIffAgreeing | src/services/input.rs:90-147 | for a file without repeated names the table is coherent if and only if the lists agree |
| Loader.SelfDependencyIsCyclic | src/services/input.rs:123-134 | a service that lists itself is loaded as it is, and the configuration is cyclic |
| Cycles.WalksEndIffAcyclic | src/services/changes.rs:320-352 | for a configuration, every walk on every plausible table ends if and only if no service depends on itself through any number of steps |
| Counterexamples.SelfDependencyNeverEnds | src/services/changes.rs:320-352 | after one registration and one answered request for a service that lists itself, the walk from its replica leads to the same replica and never ends |
| Timeout.NearestIsZeroIffExpired | src/services/service_info.rs:444-474 | the nearest expiry is zero if and only if some user has expired |
| Timeout.CollectTimedOutClients | src/timeout.rs:38-61 | the loops collect exactly the expired users of services with a positive timeout |
| Timeout.NearestTimeout | src/timeout.rs:63-87 | the sleep is the least of the default, all positive timeouts and all remaining times |
| Timeout.SleepsNoShorter | src/timeout.rs:63-87 | it is the default, a positive timeout, or exactly what is left of one for one of its users |
| Timeout.WakesInTime | src/timeout.rs:63-87 | a sleep of that length ends by the expiry of every user, if meanwhile configurations stay and new stamps are not earlier than its start |
| Sleep.NeverOversleeps | src/timeout.rs:15-25 | all steps that can run during a sleep are of that kind, in every interleaving, with shared networks or not; so the loop never sleeps past an expiry, not even of a user that arrives or is refreshed during the sleep |
| Sleep.AtomicNeverOversleeps | src/timeout.rs:15-25 | the same for the requests, triggers, timeouts, disconnects and registrations of an atomic run |
| Sleep.AnsweredIsFresh | src/nullnet_grpc_impl.rs:105-187 | the idle time of a user that is answered starts no earlier than its request |
| Timeout.TimeoutsAreExact | src/timeout.rs:28-36 | in orderly states a pass removes exactly the users last seen as long ago as the positive timeout of their service, or longer |
| Detection.DetectConfigChanges | src/services/changes.rs:59-104 | the loops find exactly the changes between the table and the loaded configuration (what they take down, Reloads.ReloadTakes says) |
| Detection.DetectServicesListChanges | src/services/changes.rs:106-137 | the loops find exactly the replicas of the host that its list leaves out, once each |
| Detection.DetectNodeDisconnectChanges | src/services/changes.rs:139-177 | the loops find the services with replicas on the node, once each, and then its proxy if it has users |
| ControlPlane.Plane.DecrementChain | src/services/service_info.rs:286-306 | in place: the specified decrement, with its teardown |
| ControlPlane.Plane.TeardownChain | src/services/changes.rs:234-303 | in place: the chain teardown relation under the filter |
| ControlPlane.Plane.TeardownBackendChain | src/services/changes.rs:407-427 | in place: the backend teardown relation |
| ControlPlane.Plane.TeardownAllBackendChainsFor | src/services/changes.rs:431-456 | in place: the backend teardowns of all replicas of the service, in their order |
| ControlPlane.Plane.TeardownInvalidatedService | src/services/changes.rs:181-227 | in place: the cascade relation, in some order of the services |
| ControlPlane.Plane.TeardownPartialReplicas | src/services/changes.rs:505-551 | in place: the teardowns of the upstream replicas of all affected clients, then those of the users |
| ControlPlane.Plane.ApplyReplicasRemoved | src/services/changes.rs:577-616 | in place: the change relation for all replicas on a host, with the cascade if they were the last |
| ControlPlane.Plane.ApplyReplicaRemoved | src/services/changes.rs:617-652 | in place: the change relation for one replica, with the cascade if it was the last |
| ControlPlane.Plane.ApplyChanges | src/services/changes.rs:555-685 | in place: the changes in order |
| ControlPlane.Plane.HandleNodeDisconnect | src/orchestrator.rs:69-79 | in place: the disconnect relation |
| ControlPlane.Plane.ApplyTimeouts | src/timeout.rs:28-36 | in place: the timeout relation |
| ControlPlane.Plane.ApplyServicesList | src/nullnet_grpc_impl.rs:498-516 | in place: the registration relation |
| ControlPlane.Plane.ApplyConfigUpdate | src/services/input.rs:149-156 | in place: the reload relation, of which Reconcile.ReloadConverges and Reloads.ReloadTakes say what it comes to |
| ControlPlane.Plane.MergeLoaded | src/services/changes.rs:687-697 | in place: existing services take the loaded configuration and new ones are inserted, whatever the order |
| Server.AdvanceTask | src/nullnet_grpc_impl.rs:531-673 | in place: one critical section of an edge setup; whom it tells, Endpoints.SetupTellsBothEnds says |
| Server.NetChainSetup | src/nullnet_grpc_impl.rs:519-712 | in place: the edges in any interleaving with any answers, then the rollback if one failed; it ends |
| Server.FindReusableNetwork | src/services/service_info.rs:331-367 | the loops find a least used entry among the users of the proxy that have a network, on the first replica that has one, or none if there is none |
| Server.ReuseNetwork | src/nullnet_grpc_impl.rs:145-181 | in place: the user joins the network, every edge behind it counts one chain more |
| Server.HandleProxyRequest | src/nullnet_grpc_impl.rs:105-187 | in place: the request relation, with every refusal (Limits.RefusalsAre) and every network (Limits.OwnNetworkBelowLimit, Limits.SharedAtLimit); the configuration need be acyclic only if the user joins a network |
| Server.HandleBackendTrigger | src/nullnet_grpc_impl.rs:390-462 | in place: the trigger relation (BackendTriggers.TriggerIs, BackendTriggers.TriggerIsIdle) |

## Left out

- gRPC transport, generated protocol code, `main.rs`, `env.rs`: wrappers over libraries; the network type and the default timeout are parameters.
- Channels, message IDs and the 30 second wait for an answer: each endpoint answers or does not, arbitrarily.
- File watching, debouncing and TOML parsing: the loader starts from the parsed declarations.
- The endless loop of `check_timeouts`: its two halves are modelled, how long it sleeps and what a pass does.
- `graphviz.rs`, display names and the textual form of addresses: display only.
- The `services` map is a field of the class; service infos, replicas and client tables inside it are values that the methods replace, so aliasing inside the map is not captured.
- The setup time kept for display (`time_ms`) and the trigger ports sent back to a host: read by nothing that is modelled.
- `u16` ports, `u32` IDs and `usize` counts are unbounded numbers, except for the 32-bit product in the address plan; the proofs keep IDs in range.
- Exact counts while teardowns run between the racing setups of an edge: the exact count is stated for the setups alone.
- Ownership of IDs under interleaving together with shared networks: a rollback does not check for sharing and a request acts on a snapshot, so it is proved for atomic runs only.
- Flow conservation where a trigger chain starts at a proxy dependency of its own service, or where two triggers of a service start alike: the code then takes one first edge for two chains. Ownership, sharing, bounds and replicas are proved for all triggers.
- Reloads during a sleep of the timeout loop: a reload wakes the loop (src/timeout.rs:20), so none happens during a sleep.
