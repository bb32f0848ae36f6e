# SwitchV2P, verified

A Dafny model of SwitchV2P: virtual-to-physical address translation cached inside the switches of
a data-centre network, and proofs of what the protocol guarantees. Everything is proved for all
topologies, all inputs and all runs; hash functions, coin flips, equal-cost choices, gateway
choices, timing and loss are arbitrary.

The project follows the system's parts.

* **Addresses, topology, routes.** `Addressing` is the address plan, `Topology` the fat tree (or
  Clos network) with the interface numbers address assignment produces, `Routing` the tables the
  simulator installs by hand and the lookup that collects every matching route. `Forwarding` proves
  where each table sends each packet, `Walks` what that means for whole walks. `DivMod` and `Lists`
  are the arithmetic and the append-only lists underneath.
* **A switch.** `CacheSpec` and `P4Cache` are the direct-mapped cache (meaning and code),
  `BloomFilter` the invalidation marker, `SwitchSpec` and `P4SwitchApp` the switch (meaning and
  code), `SwitchProperties` what one step guarantees.
* **Hosts and gateways.** `Endpoints`.
* **The whole system.** `Network` is a step machine of all switches, packets, switch-to-switch
  messages, gateways with their delay, hosts, and at most one migration. `Invariants`, `Places` and
  `Preservation` hold its invariant and show that every step keeps it. `Steps` says what each step
  changes and leaves alone; `Theorems`, `Freshness`, `Journeys`, `Messages`, `Poisoning` and `Progress`
  are the guarantees over every run.
* **The other caches.** `LruCache` and `SwitchApp` (controller-driven switches), `Controller` (the
  controller's path and cost model), `ControllerCaches` (the caches it fills), `BluebirdSpec`, `BluebirdProperties` and `Bluebird` (the
  Bluebird slow path), `PipelineSpec` and `Pipeline` (the cache on a programmable switch).

Code that works in place is a class or a method with loops, proved equal to a function on values;
the properties are then lemmas about those functions. Cache slots, filters and registers are
arrays, the wiring and the tables are filled by the nested loops of the original.

Two history counters in a packet, `misdelivered` and `gwVisits`, are not in the original; nothing
in a switch, host or gateway reads them, and `Journeys.CarriesItsHistory` proves that they, and the
hop tag, are the numbers of steps that really happened in the run.

## What turned out not to hold

* Virtual address 0 is the cache's mark of an empty slot, yet the first container gets it. Storing
  another key over it, by Put or by PutIfNotEvict, loses the entry unreported:
  `CacheSpec.KeyZeroIsLost`, with the exact condition in `CacheSpec.PutReportsItsLossExceptKeyZero`
  and `CacheSpec.PutIfNotEvictKeepsAllExceptKeyZero`. In the same slot PutIfNotEvict also passes the
  access bit of address 0 on to an entry that was never hit: `CacheSpec.KeyZeroLeavesItsBit`. What
  is conserved and protected is therefore stated for every nonzero key.
* Source learning and migration do not mix. A packet that a host returned, and that a gateway then
  sent on, still has that host as its outer source, and the leaf that delivers it learns this for the
  packet's sender: `Poisoning.ReturnsPoison`, with a network in which it happens in
  `Poisoning.SourceLearningAfterMisdeliveryIsWrong`. The exact condition for one leaf is
  `SwitchProperties.LeafStaysTruthfulIff`. Over whole runs with both features on, this is the only
  way a cache can hold a mapping the directory neither has nor had: `Poisoning.PoisonHasASource`.
  The run invariant, and with it the theorems on staleness, invalidations, journeys and tags, hold
  with source learning on or off; only `Freshness.StaleMappingNeverReturns` is for runs without it,
  and `Poisoning.OldMappingComesBack` shows why.
* The follow-me rule divides by the configured pod width, the migration by the derived one. They
  agree in every fat tree, but in a Clos network only for leaves below the configured width; for all
  others the rule names no machine at all: `Endpoints.FollowMeFindsTheContainerIff`, with a network
  in which it misses in `Endpoints.FollowMeCanMiss`. Runs with a migration compute both addresses.
  What caches, tags and messages hold, and how often a packet is returned, is proved whether or not
  the rule works; hop counts, routes and arrival (`Network.FollowMeOk`) only where it does.
* The controller's cost table is wrong at its third step when sender and gateway share a pod and
  there are cores, unless the destination is in that pod under another leaf:
  `Controller.SamePodCostIff`, with walks of eight links where the table says six in
  `Controller.SamePodCostIsLow`. No live call reads that entry: the objective uses the table only for
  senders under the gateway's own leaf at the first step, where it is exact, and the exact costs for
  the other steps are commented out.

## Model

| member | source | states |
|---|---|---|
| `Addressing.PrefixMatchesExactlyItsDevices` | switchv2p/ip-utils.cc:24-86 | a route prefix of the plan matches a device's address if and only if it is meant for that device |
| `Addressing.AddressesAreDistinct` | switchv2p/ip-utils.cc:24-86 | two devices of the plan have the same address only if they are the same device |
| `Addressing.HostAddressDecodesToItsLeaf` | switchv2p/p4-switch-app.cc:333-341 | decoding a host's address gives exactly the switch address of its leaf |
| `Topology.AssertionsGiveValidTopology` | switchv2p/sim-base.cc:24-45 | the constructor's assertions, octet bounds and cores between pods give a valid topology; a Clos network needs only the assertions |
| `Topology.AttachHosts` | switchv2p/sim-base.cc:194-203 | the host loop gives every leaf its hosts on its first interfaces, in order |
| `Topology.AttachSpine` | switchv2p/sim-base.cc:206-221 | one turn of the spine loop adds exactly the links of that spine, on both ends |
| `Topology.AssignInterfaces` | switchv2p/sim-base.cc:161-222 | after all loops every device's interfaces are exactly its intended links in their order |
| `Routing.LookupGlobal` | ns3-3.36.1.patch:712-738 | the lookup collects the interfaces of all matching routes, in order of installation |
| `Routing.LookupServesDevice` | switchv2p/sim-base.cc:240-422 | looking up a device's address yields exactly the routes installed for that device |
| `Routing.InstallLeafRoutes` | switchv2p/sim-base.cc:240-308 | a leaf's loops build its specified table |
| `Routing.InstallSpineRoutes` | switchv2p/sim-base.cc:311-393 | a spine's loops build its specified table |
| `Routing.InstallCoreRoutes` | switchv2p/sim-base.cc:396-422 | a core's loops build its specified table |
| `Routing.InstallRoutes` | switchv2p/sim-base.cc:240-422 | all switches, and only they, get their tables |
| `Forwarding.NextHopsTowardDevice` | switchv2p/sim-base.cc:191-422 | connected routes and tables together send a packet for any device to exactly the intended next hops, at every device |
| `Walks.HopTowardHost` | switchv2p/sim-base.cc:240-422 | every equal-cost choice brings a packet for a host one switch closer; the host's leaf delivers it |
| `Walks.WalkReachesHost` | switchv2p/sim-base.cc:240-422 | every walk from a switch visits exactly the computed number of switches, the last one the host's leaf, then the host |
| `Walks.HostToHost` | switchv2p/sim-base.cc:161-422 | for every two hosts and all choices: at most five switches, none twice, then the destination, and never a missing route |
| `Walks.HopTowardSwitch` | switchv2p/sim-base.cc:274-421 | each re-send brings a switch-to-switch packet closer to its switch |
| `Walks.ProtocolPacketsArrive` | switchv2p/p4-switch-app.cc:213-225 | from any leaf to any switch, every walk meets the target within five sends and can always go on before |
| `CacheSpec.PutExact` | switchv2p/include/p4-cache.h:114-128 | every lookup after a Put: the key answers, a colliding key is gone, all others as before |
| `CacheSpec.PutIfNotEvictExact` | switchv2p/include/p4-cache.h:94-105 | every lookup after a PutIfNotEvict |
| `CacheSpec.RemoveExact` | switchv2p/include/p4-cache.h:130-138 | every lookup after a Remove |
| `CacheSpec.TouchExact` | switchv2p/include/p4-cache.h:49-62 | a Get changes no lookup |
| `CacheSpec.PutReportsItsLossExceptKeyZero` | switchv2p/include/p4-cache.h:114-128 | Put reports every entry it loses if and only if it does not overwrite a live entry of virtual address 0 |
| `CacheSpec.PutIfNotEvictKeepsAllExceptKeyZero` | switchv2p/include/p4-cache.h:94-105 | PutIfNotEvict keeps every other entry if and only if it does not overwrite a live entry of virtual address 0 |
| `CacheSpec.KeyZeroIsLost` | switchv2p/include/p4-cache.h:94-123 | an input for which both operations lose the entry of address 0 unreported |
| `CacheSpec.AccessBitRemembersLastHit` | switchv2p/include/p4-cache.h:49-138 | over every history, in every slot but that of key 0 and there too if key 0 is not used, the bit is set if and only if the last Get, Put or Remove on the slot was a hit, and then on the key still stored |
| `CacheSpec.KeyZeroLeavesItsBit` | switchv2p/include/p4-cache.h:94-105 | a history on the slot of key 0 that leaves an entry marked active that was never hit |
| `CacheSpec.LastHitIsLive` | switchv2p/include/p4-cache.h:49-138 | if no value stored is 0, an entry of such a slot whose bit is set is still found |
| `P4Cache.Cache.constructor` | switchv2p/include/p4-cache.h:30-47 | all slots empty |
| `P4Cache.Cache.Get` | switchv2p/include/p4-cache.h:49-62 | returns the lookup and sets or clears the access bit |
| `P4Cache.Cache.GetBit` | switchv2p/include/p4-cache.h:64-69 | returns the slot's bit |
| `P4Cache.Cache.Find` | switchv2p/include/p4-cache.h:71-76 | whether the lookup succeeds, without a change |
| `P4Cache.Cache.PutIfNotEvict` | switchv2p/include/p4-cache.h:94-105 | stores unless another key is there |
| `P4Cache.Cache.Put` | switchv2p/include/p4-cache.h:114-128 | stores and reports the victim |
| `P4Cache.Cache.Remove` | switchv2p/include/p4-cache.h:130-138 | empties the slot |
| `BloomFilter.Filter.constructor` | switchv2p/include/bloom-filter.h:28-37 | no id is marked |
| `BloomFilter.Filter.Get` | switchv2p/include/bloom-filter.h:39-44 | whether the id is marked |
| `BloomFilter.Filter.Put` | switchv2p/include/bloom-filter.h:46-51 | marks this id and no other |
| `P4SwitchApp.Switch.ReceivePacket` | switchv2p/p4-switch-app.cc:368-592 | the in-place code computes the specified step: cache, filter, packet, message and assertion failures |
| `P4SwitchApp.Switch.HandleProtocolPacket` | switchv2p/p4-switch-app.cc:195-228 | the in-place code computes the specified step for a message |
| `P4SwitchApp.Switch.ReceiveTagged` | switchv2p/p4-switch-app.cc:406-453 | the branch for packets with an invalidation tag |
| `P4SwitchApp.Switch.LearnAtLeaf` | switchv2p/p4-switch-app.cc:470-480 | the learning branch of a leaf |
| `P4SwitchApp.Switch.LearnAbove` | switchv2p/p4-switch-app.cc:481-574 | the learning and spilling branches of all other switches |
| `P4SwitchApp.Switch.ResolveLocally` | switchv2p/p4-switch-app.cc:576-589 | the final lookup of gateway-bound packets |
| `P4SwitchApp.Switch.Promote` | switchv2p/p4-switch-app.cc:457-468 | the promotion branch of spines outside the gateway pods |
| `SwitchProperties.ReceiveInventsNothing` | switchv2p/p4-switch-app.cc:406-592 | for any set of mappings: if cache and packet hold only those, so do cache, packet and message afterwards, and a redirection follows one of them, never the one an invalidation tag names |
| `SwitchProperties.MessageInventsNothing` | switchv2p/p4-switch-app.cc:196-228 | the same for messages |
| `SwitchProperties.LeafStaysTruthfulIff` | switchv2p/p4-switch-app.cc:470-480 | a leaf's cache stays truthful if and only if it does not learn a source that is not where the packet says |
| `SwitchProperties.SourcesAreLearnedAfterOneHop` | switchv2p/p4-switch-app.cc:472-475 | with source learning, a leaf learns the source of a gateway-bound packet exactly when its TTL shows a hop before, and of none otherwise |
| `SwitchProperties.ObsoleteTagPurges` | switchv2p/p4-switch-app.cc:489-499 | an obsolete tag makes the switch forget the packet's destination and nothing else, and the packet goes on as it is |
| `SwitchProperties.ReceiveFrame` | switchv2p/p4-switch-app.cc:368-592 | a switch changes nothing in a packet but destination, eviction tag and hit tag, and no eviction tag of an invalidation-tagged packet |
| `SwitchProperties.HitTagMeansRedirected` | switchv2p/p4-switch-app.cc:576-589 | a packet gains a hit tag exactly when it is redirected, to the address the cache has for its destination, and only if it was bound to a gateway |
| `SwitchProperties.RedirectsExactlyOnHits` | switchv2p/p4-switch-app.cc:455-591 | a gateway-bound packet is redirected if and only if the cache, after learning, knows its destination; a spine outside the gateway pods promotes instead |
| `SwitchProperties.UntaggedSendsOnlyLearning` | switchv2p/p4-switch-app.cc:455-591 | without an invalidation tag only a gateway leaf sends, a learning message to the sender's leaf |
| `SwitchProperties.TaggedPacketActs` | switchv2p/p4-switch-app.cc:406-453 | an invalidation tag purges the stale entry and no other, a newer entry redirects the packet, and a leaf answers a hit tag with one invalidation per unmarked switch |
| `SwitchProperties.TaggedAnswersExactly` | switchv2p/p4-switch-app.cc:423-450 | a leaf sends an invalidation exactly when it generates one, on, for a hit switch the filter does not mark, and unless it is that switch; the filter gains exactly that switch, and the hit tag goes at leaves only |
| `SwitchProperties.TaggedCacheExactly` | switchv2p/p4-switch-app.cc:406-421 | every lookup after a tagged packet, and where the packet goes on to |
| `SwitchProperties.LearnsExactly` | switchv2p/p4-switch-app.cc:455-575 | what every later lookup finds, what the packet takes along and what is sent: exactly the taught mapping is added, exactly when the role's rule says so, at the cost of exactly the colliding entry; a gateway leaf that learns, on the coin, sends it to the sender's leaf, if that is another switch, and nothing else is sent |
| `SwitchProperties.MessageActsExactly` | switchv2p/p4-switch-app.cc:196-228 | a learning message stores its pair at its target only, an invalidation takes away exactly its pair wherever it passes, and both go on until they are there |
| `SwitchProperties.MessageSlots` | switchv2p/p4-switch-app.cc:196-228 | every slot, access bit included, after a message |
| `SwitchProperties.InvalidationRemovesOnlyTheStaleEntry` | switchv2p/p4-switch-app.cc:198-211 | an invalidation removes a mapping if and only if it is the one named |
| `SwitchProperties.SpillsAreConserved` | switchv2p/p4-switch-app.cc:455-575 | above the leaves, no mapping of a nonzero key in cache or eviction tag is lost in a step and none appears but the packet's own |
| `SwitchProperties.KeysAreConserved` | switchv2p/p4-switch-app.cc:455-575 | above the leaves, whatever cache and packet claim, a nonzero key found or named by the eviction tag before a step is found or named after it |
| `SwitchProperties.AccessBitProtects` | switchv2p/p4-switch-app.cc:505-553 | at cores, and spines with access bits on, no learning step evicts an entry of a nonzero key whose bit is set, whatever cache and packet claim; its value changes only if the packet teaches one for that key |
| `SwitchProperties.BitsFollowUse` | switchv2p/include/p4-cache.h:49-138 | every access bit after an untagged packet: set exactly if the slot was asked and answered, cleared where learning wrote anew, else as before |
| `SwitchProperties.TaggedBitsFollowUse` | switchv2p/p4-switch-app.cc:406-421 | the same after a tagged packet |
| `Endpoints.Gateway.ReceivePacket` | switchv2p/gateway-app.cc:69-95 | the receive loop resolves the waiting packets by the directory, in order, up to the first unknown destination |
| `Endpoints.Gateway.SendPacket` | switchv2p/gateway-app.cc:58-67 | the packet leaves without eviction and invalidation tag |
| `Endpoints.GatewayIdx` | switchv2p/socket-helper.cc:42-59 | the gateway chosen is one of the gateways |
| `Endpoints.GatewaysServeRanges` | switchv2p/socket-helper.cc:57-58 | without per-flow balancing, gateway i serves the i-th range of virtual addresses, and the last one also every address above the ranges |
| `Endpoints.SocketHelper.VirtualSend` | switchv2p/socket-helper.cc:61-128 | a returned packet keeps hit tag, eviction tag, end points, source and hops, is tagged with the stale mapping and goes to a gateway if a switch redirected it here, else to the machine computed from the migration and the configured pod width; any other goes to a gateway |
| `Endpoints.SocketHelper.SendFollowMeRule` | switchv2p/socket-helper.cc:24-34 | the destination is the machine the migration names, by the configured pod width |
| `Endpoints.FollowMeFindsTheContainerIff` | switchv2p/socket-helper.cc:24-34 | the follow-me rule names the migration's target if and only if the network is a fat tree or the leaf is below the configured width; otherwise it names no machine |
| `Endpoints.FollowMeCanMiss` | switchv2p/socket-helper.cc:27-31 | a Clos network that meets the constructor's assertions, with the default pod width, in which the rule misses |
| `Invariants.SwitchIdsAreRight` | switchv2p/p4-switch-app.cc:581-584 | a hit tag set by a switch identifies exactly that switch, by an id below the switch count |
| `Network.InitializeNodes` | switchv2p/sim-base.cc:136-146 | creating cores, spines, leaves and machines in this order gives every switch its own id, and the ids below the switch count are exactly the switches' |
| `Invariants.SwitchKeepsFate` | switchv2p/p4-switch-app.cc:406-592 | every promise about a packet survives every switch |
| `Invariants.SwitchNeverFaults` | switchv2p/p4-switch-app.cc:423-449 | under the invariant no second tag is added and no filter index is out of range |
| `Places.GatewayBoundLeavesPod` | switchv2p/sim-base.cc:240-422 | a gateway-bound packet moves within pods without gateways only from leaf to spine |
| `Places.SwitchKeepsPlace` | switchv2p/p4-switch-app.cc:576-591 | through any switch a packet stays within its hop budget and TTL on every choice, and there is a route |
| `Preservation.MisdeliveredIsStale` | switchv2p/socket-helper.cc:77-101 | only the old host returns packets, each for the first time, and only for the moved container or, with source learning, for one that a switch wrongly redirected there |
| `Preservation.StepInv` | switchv2p/p4-switch-app.cc:196-592 | every step of the system keeps the invariant |
| `Preservation.RunInv` | switchv2p/p4-switch-app.cc:196-592 | every world of every run satisfies the invariant |
| `Theorems.Coherence` | switchv2p/p4-switch-app.cc:368-592 | in every migration-free run, with source learning on or off: every cache entry, eviction tag, learning message and host a packet is bound to is what the gateways' map says, and there are no invalidations |
| `Theorems.DeliveryIsRightAndShort` | switchv2p/p4-switch-app.cc:378-591 | in such runs a delivered packet is at the host the map names, never misdelivered, with at most one gateway visit and at most ten hops |
| `Theorems.SwitchesNeverDrop` | switchv2p/sim-base.cc:240-422 | in every run in which the follow-me rule works, every switch has a route for what it decides, and TTL never runs out |
| `Theorems.TagDiscipline` | switchv2p/p4-switch-app.cc:423-427 | in every run no packet gets a second hit or invalidation tag, a gateway-bound packet with a hit tag has an invalidation tag, and eviction tags have nonzero values; that there is one eviction tag at most is part of the packet record |
| `Theorems.GatewaysSendClean` | switchv2p/gateway-app.cc:58-95 | in every run a gateway sends packets on without eviction and invalidation tag, from its leaf, bound to a machine the directory names or named |
| `Theorems.LettersArrive` | switchv2p/p4-switch-app.cc:213-225 | in every run every message is sent at most five times and, until it arrives, always has a route |
| `Theorems.AtMostOneInvalidationPerSwitch` | switchv2p/p4-switch-app.cc:423-449 | with the filter on, no leaf ever generates two invalidations for one switch |
| `Messages.HostsReturnWhole` | switchv2p/socket-helper.cc:77-101 | a host keeps its own packets as they are and returns others with all but address, TTL and invalidation tag unchanged |
| `Steps.SentPacketsAreFresh` | switchv2p/socket-helper.cc:125-127 | every field of a packet sent for the first time |
| `Steps.GatewaysResolveWhole` | switchv2p/gateway-app.cc:69-95 | a gateway changes nothing in a packet but its destination, to the machine the directory names |
| `Steps.HeldPacketsLeave` | switchv2p/gateway-app.cc:58-67 | what a machine holds goes to its leaf, from a gateway without tags and else unchanged |
| `Steps.PassingPacketsKeepTheRest` | switchv2p/p4-switch-app.cc:368-592 | a switch changes nothing in a packet but destination, eviction and hit tag, hop count and TTL |
| `Steps.OtherSwitchesStay` | switchv2p/p4-switch-app.cc:368-592 | a step changes at most the one switch that handles a packet or message |
| `Steps.OtherMessagesStay` | switchv2p/p4-switch-app.cc:196-228 | messages change only where they are handled or lost, and only the migration changes the directory |
| `Steps.RecordsGrow` | switchv2p/p4-switch-app.cc:423-449 | what a run records of generated invalidations and fired assertions grows only by those of the step |
| `Steps.LinksMayLose` | switchv2p/sim-base.cc:129-133 | exactly what is on a link may be lost |
| `Messages.SentMessagesEnter` | switchv2p/p4-switch-app.cc:343-365 | exactly the message a switch sends enters the network, on the link to a next hop toward its target, and all other messages stay |
| `Messages.ReturnIsAnswered` | switchv2p/socket-helper.cc:77-101 | in every run, a redirected packet that a host returned makes the first ordinary leaf it passes with its tags send an invalidation of the pair used to the switch that redirected it, unless it is that switch or has marked it |
| `Messages.GatewayLeavesTeach` | switchv2p/p4-switch-app.cc:556-564 | in every run, a gateway leaf sends what it learns to the leaf of the packet's sender, whenever the coin says so |
| `Messages.NoLeafInvalidatesTwice` | switchv2p/p4-switch-app.cc:423-449 | in every run with the filter on, no leaf puts two invalidations for one switch on a link |
| `Messages.MarksHaveACause` | switchv2p/p4-switch-app.cc:445-448 | in every run, a leaf's filter marks a switch only after a tagged packet with that switch's hit tag came to the leaf |
| `Theorems.MigrationStaleness` | switchv2p/trace-sim.cc:355-394 | with one migration, whether or not the follow-me rule works: mappings of other containers stay exact, of the moved one only old and new occur; with source learning the only others map a tainted sender to the old host; invalidations name mappings to the old host that the directory refutes |
| `Theorems.InvalidationsRemoveOnlyStale` | switchv2p/p4-switch-app.cc:406-421 | an entry removed by an invalidation named the old host while the directory named another, and without source learning it was the moved container's |
| `Freshness.SwitchStaysClean` | switchv2p/p4-switch-app.cc:406-592 | a switch and a packet free of the stale mapping stay free of it and send no message with it |
| `Freshness.StaleMappingNeverReturns` | switchv2p/trace-sim.cc:355-394 | without source learning, once no cache, tag, packet under way, pending gateway send or message holds the old mapping, no later step brings it back |
| `Journeys.CarriesItsHistory` | switchv2p/p4-switch-app.cc:378-383 | the numbers a packet carries are the returns, gateway visits and switch visits that happened to it |
| `Journeys.JourneyIsShort` | switchv2p/socket-helper.cc:77-101 | with at most one migration, source learning on or off, a packet is returned at most once, visits at most one gateway, and once returned is bound only to a gateway, to where the directory says its destination is, or where the follow-me rule says; where that rule works, it passes at most ten switches and ten more after a return |
| `Poisoning.TaintedIffSentOn` | switchv2p/gateway-app.cc:58-67 | the tainted senders are exactly those of packets that a gateway sent on after a host had returned them |
| `Poisoning.PoisonHasASource` | switchv2p/p4-switch-app.cc:472-475 | in every run, a cached mapping the directory neither has nor had is a sender mapped to the old host, with source learning on, after a gateway sent on a packet of that sender that the old host had returned |
| `Poisoning.SwitchesCarryOn` | switchv2p/p4-switch-app.cc:368-592 | switches on the way change neither end points, outer source nor invalidation tag |
| `Poisoning.ReturnsPoison` | switchv2p/p4-switch-app.cc:472-475 | a packet returned by a host, resolved and sent on by a gateway, makes the leaf that delivers it map the sender to that host, whatever its cache held |
| `Poisoning.OldMappingComesBack` | switchv2p/p4-switch-app.cc:472-475 | with source learning, a packet from a program left on the old machine teaches the old mapping to any leaf it passes after its first, so that mapping can return |
| `Poisoning.SourceLearningAfterMisdeliveryIsWrong` | switchv2p/p4-switch-app.cc:472-475 | a valid network and a packet in its addresses for which this mapping is false |
| `Journeys.RunsConserveSpills` | switchv2p/p4-switch-app.cc:455-575 | in migration-free runs, every mapping of a nonzero key is conserved between cache and eviction tag at every switch above the ordinary leaves |
| `Journeys.RunsConserveKeys` | switchv2p/p4-switch-app.cc:455-575 | in every run, migration and source learning included, no nonzero key is lost to switch and packet together when a packet without an invalidation tag passes a switch above the ordinary leaves |
| `Journeys.RunsSpareActiveEntries` | switchv2p/p4-switch-app.cc:505-553 | in every run, migration and source learning included, no packet without an invalidation tag evicts an active entry of a nonzero key at a core, or at a spine with access bits on; its value changes only by a packet that teaches that key, and never without a migration |
| `Progress.GoneMeansLost` | switchv2p/sim-base.cc:240-422 | where the follow-me rule works, only loss on a link makes a packet disappear |
| `Progress.EveryPacketArrives` | switchv2p/p4-switch-app.cc:368-592 | where the follow-me rule works, a packet that was not lost and is not delivered can always take a step, and takes at most 25 in all |
| `Progress.LettersCanMove` | switchv2p/p4-switch-app.cc:213-225 | a message under way can always be handled: it ends at its target and elsewhere goes on to a next hop toward it |
| `Progress.MigrationCanHappen` | switchv2p/trace-sim.cc:355-394 | a planned migration can happen at any time, once, and changes the directory for the moved container only |
| `Progress.SwitchesForward` | ns3-3.36.1.patch:712-738 | a switch passes a packet on to one of the next hops with its TTL lowered, unless that runs out or there is none |
| `LruCache.LRUCache.Get` | switchv2p/include/lru-cache.h:27-46 | a hit returns the value and makes the key the most recent, a miss changes nothing |
| `LruCache.LRUCache.Put` | switchv2p/include/lru-cache.h:95-127 | the key becomes the most recent; a full cache gives up its last key for a new one and reports it |
| `LruCache.LRUCache.Remove` | switchv2p/include/lru-cache.h:72-83 | exactly this key goes |
| `LruCache.InclusionProperty` | switchv2p/include/lru-cache.h:27-127 | after any trace the smaller cache is a subsequence of the larger, behind by at most the difference in capacity, and its hits are the larger one's hits with the same value |
| `LruCache.HoldsTheMostRecentlyUsed` | switchv2p/include/lru-cache.h:27-127 | after any trace the cache is exactly the most recently used keys in order of use |
| `LruCache.UsesPutFirst` | switchv2p/include/lru-cache.h:27-127 | a hit or a Put puts its key first with its value and keeps the order of all others; only the least recent of a full cache is dropped, and only for a new key |
| `SwitchApp.ControllerSwitch.BulkInsertToCache` | switchv2p/switch-app.cc:71-80 | the loop puts all items in, in order |
| `SwitchApp.ControllerSwitch.ReceivePacket` | switchv2p/switch-app.cc:119-128 | a gateway-bound packet is redirected if and only if the cache knows its destination |
| `SwitchApp.BulkInsertionStaysIff` | switchv2p/switch-app.cc:71-80 | whatever was cached before, distinct items all stay if and only if they fit the capacity |
| `Controller.FlowHop` | ns3-3.36.1.patch:683-738 | the hash modulo the candidates leads to the spine, core and spine the hash determines |
| `Controller.ControllerKnowsThePath` | switchv2p/ilp-controller-app.cc:261-361 | for every hash the computed switches are exactly those the flow passes, up to the gateway |
| `Controller.RelaxedCostMeansHit` | switchv2p/ilp-controller-app.cc:300-361 | the relaxed-cost disjunction holds if and only if the flow passes a switch that is assigned the destination before the gateway |
| `ControllerCaches.CollectItems` | switchv2p/ilp-controller-app.cc:372-383 | the loop collects exactly the containers assigned to a switch, each once, with the directory's values |
| `ControllerCaches.AnswersAre` | switchv2p/switch-app.cc:71-128 | after the bulk insertion and any lookups a switch answers for every assigned container by the directory, and for others only with leftovers |
| `ControllerCaches.CoveredIsRedirected` | switchv2p/ilp-controller-app.cc:300-385 | over arbitrary earlier caches, a covered gateway-bound packet is redirected before the gateway, to where the directory says or, by a switch not assigned the container, to a leftover |
| `ControllerCaches.RedirectedIsCovered` | switchv2p/switch-app.cc:119-128 | a packet is redirected on its way only if it is covered, or by a leftover of an earlier interval |
| `Controller.LinksAfterRedirection` | switchv2p/sim-base.cc:240-422 | a packet redirected at the n-th switch arrives after a number of links that no equal-cost choice changes |
| `Controller.CostIsExactAcrossPods` | switchv2p/ilp-controller-app.cc:79-138 | with the gateway in another pod the cost table is the number of links at every step, for every destination and every choice |
| `Controller.SamePodCostIff` | switchv2p/ilp-controller-app.cc:79-138 | with the gateway in the same pod the table is exact if and only if the step is not the third, or there are no cores, or the destination is in that pod under another leaf; so it is for a sender under the gateway's own leaf, the case the objective uses |
| `Controller.SamePodCostIsLow` | switchv2p/ilp-controller-app.cc:110-116 | for every such placement with the destination in another pod, a walk redirected at the third switch has eight links where the table says six |
| `Controller.SamePodCostCanBeLow` | switchv2p/ilp-controller-app.cc:110-116 | a topology and placement among them |
| `Controller.TermCost` | switchv2p/ilp-controller-app.cc:253-361 | one term of the objective is packets times the cost of a hit, or of the gateway, as forwarding decides |
| `Controller.QuerySwitches` | switchv2p/ilp-controller-app.cc:232-366 | the objective is the sum of the terms of senders attached to each leaf |
| `Controller.PaysPerPacket` | switchv2p/ilp-controller-app.cc:259-361 | a packet pays the gateway's cost without a hit; with one, the exact links for a sender under the gateway's leaf, and 8 otherwise |
| `Controller.UncachedPaysForEachPacket` | switchv2p/ilp-controller-app.cc:237-251 | without hits a leaf pays the gateway's cost for each packet of its own senders and nothing for others |
| `Controller.UncachedTotal` | switchv2p/ilp-controller-app.cc:232-366 | without hits the objective is the gateway's cost for each packet, counted at the leaf of its sender |
| `Bluebird.Slowpath.BluebirdTxStart` | switchv2p/p4-switch-app.cc:277-284 | one processing and one completion event are scheduled and the transmitter is busy |
| `Bluebird.Slowpath.BluebirdTxComplete` | switchv2p/p4-switch-app.cc:286-297 | the transmitter goes idle or takes the oldest queued packet |
| `Bluebird.Slowpath.BluebirdProcessPacket` | switchv2p/p4-switch-app.cc:250-269 | the packet goes to the host the directory names and its cache entry is scheduled |
| `Bluebird.Slowpath.PopulateBluebirdCache` | switchv2p/p4-switch-app.cc:271-275 | the entry is put into the cache |
| `Bluebird.Slowpath.BluebirdLogic` | switchv2p/p4-switch-app.cc:299-331 | hits and resolved packets pass, misses are queued, started or dropped |
| `Bluebird.Slowpath.ReceiveRawPacket` | switchv2p/p4-switch-app.cc:156-173 | every packet waiting at a socket is received in order, and forgotten if it is forwarded |
| `BluebirdProperties.StepInv` | switchv2p/p4-switch-app.cc:250-331 | every event, in every allowed order, keeps the invariant of the slow path |
| `BluebirdProperties.SlowPathIsFifo` | switchv2p/p4-switch-app.cc:156-331 | in every run: idle means an empty queue, busy exactly one pending completion, missed packets are accepted or dropped once and processed once in arrival order, and the socket map's keys are the packets queued or awaiting |
| `BluebirdProperties.MissedPacketIsQueuedIffItFits` | switchv2p/p4-switch-app.cc:299-328 | a missed packet is accepted if and only if it fits behind the waiting ones, sent at once on an idle device and due after its transmission and the delay, else queued; otherwise it is dropped without a trace |
| `BluebirdProperties.QueueFits` | switchv2p/p4-switch-app.cc:104-106 | in every run the sizes of the waiting packets sum to at most the queue's size |
| `BluebirdProperties.BytesSplit` | switchv2p/p4-switch-app.cc:104-106 | that sum splits over concatenation |
| `BluebirdProperties.OtherPacketsPass` | switchv2p/p4-switch-app.cc:299-310 | all other packets pass at once, to the cached machine or where they are bound, unseen by the slow path |
| `BluebirdProperties.CompletionTakesNext` | switchv2p/p4-switch-app.cc:277-297 | on completion the oldest waiting packet is sent, with both its events, or the transmitter goes idle |
| `BluebirdProperties.ProcessingForgetsAndProgrammes` | switchv2p/p4-switch-app.cc:250-269 | processing takes the oldest sent packet, forgets its socket and schedules its programming |
| `BluebirdProperties.ProgrammedIsFound` | switchv2p/p4-switch-app.cc:271-275 | after programming, lookups of the address answer by the directory and all others that answer do so as before |
| `BluebirdProperties.PacketsCanArrive` | switchv2p/p4-switch-app.cc:156-173 | packets can arrive at any time, several at once |
| `BluebirdProperties.SomeEventCanFire` | switchv2p/p4-switch-app.cc:277-284 | while an event is pending, one can fire |
| `BluebirdProperties.NothingIsStuck` | switchv2p/p4-switch-app.cc:277-297 | when no event is pending, every accepted packet was processed |
| `BluebirdProperties.ProgrammingFollowsProcessing` | switchv2p/p4-switch-app.cc:267-275 | the cache is programmed once per processed packet, in that order, with the directory's values |
| `BluebirdProperties.HitsAreTrue` | switchv2p/p4-switch-app.cc:299-310 | a hit forwards to the host the directory names |
| `Pipeline.Registers.CheckKey` | p4-prototype/p4/switchv2p_cache.p4:15-25 | compares the key and records the result in the access bit |
| `Pipeline.Registers.SetKey` | p4-prototype/p4/switchv2p_cache.p4:26-32 | replaces the key and returns the previous one |
| `Pipeline.Registers.SetKeyIfNotActive` | p4-prototype/p4/switchv2p_cache.p4:33-42 | replaces the key of an inactive entry only |
| `Pipeline.Registers.ClearKey` | p4-prototype/p4/switchv2p_cache.p4:43-50 | frees the entry of this key |
| `Pipeline.Registers.SetVal` | p4-prototype/p4/switchv2p_cache.p4:59-64 | replaces the value and returns the previous one |
| `Pipeline.Registers.CheckTimeout` | p4-prototype/p4/switchv2p_cache.p4:96-107 | restarts an expired timer and says whether it was expired |
| `Pipeline.Registers.Apply` | p4-prototype/p4/switchv2p_cache.p4:133-199 | parser, gateway match and decision tree compute the specified registers, header and mirror |
| `PipelineSpec.PipelineKeepsTruth` | p4-prototype/p4/switchv2p_cache.p4:133-199 | for every switch and packet type, true registers and a true packet give true registers, a true packet and a true mirrored copy |
| `PipelineSpec.RegistersRefineCache` | p4-prototype/p4/switchv2p_cache.p4:14-64 | check, set and clear do to the cache what Get, Put and Remove do, and a check succeeds exactly when the lookup does |
| `PipelineSpec.TagIsEviction` | p4-prototype/p4/switchv2p_cache.p4:173-185 | a spilling switch spares an active entry, and otherwise tags the packet with what Put evicts, or with the entry of the same key |
| `PipelineSpec.PipelineRefinesCache` | p4-prototype/p4/switchv2p_cache.p4:133-199 | for every packet the registers end as the simulator's cache after the corresponding operation, and a gateway-bound packet is redirected, or tagged at a spine, exactly on a hit |
| `PipelineSpec.LeavesLearnSources` | p4-prototype/p4/switchv2p_cache.p4:134-172 | a leaf stores the source pair of a resolved packet: later lookups of the sender answer its machine, colliding keys are gone, all others answer as before; the packet is unchanged |
| `PipelineSpec.HoldingAnswers` | p4-prototype/p4/switchv2p_cache.p4:26-64 | after a store every later lookup is determined |
| `PipelineSpec.OthersLearnPackets` | p4-prototype/p4/switchv2p_cache.p4:173-199 | above the leaves the packet's destination, or its tag, is stored under each switch type's rule and the packet takes the previous entry along |
| `PipelineSpec.ProtocolPacketsAct` | p4-prototype/p4/switchv2p_cache.p4:142-147 | learning packets store their pair, invalidations clear their key, tagged packets their destination, and none is changed |
| `PipelineSpec.GatewayBoundPacketsAsk` | p4-prototype/p4/switchv2p_cache.p4:147-169 | a gateway-bound packet sets or clears one access bit and is redirected or tagged on a hit; a misdelivering machine's is tagged and mirrored when its timer has run out |
| `PipelineSpec.MirroredCopyActs` | p4-prototype/p4/switchv2p_ingress_egress.p4:87-103 | a packet is mirrored exactly under the stated conditions; wherever a learning copy comes the destination is then known, wherever an invalidation copy comes it is then unknown, and each is sent to the right switch |
| `PipelineSpec.CopiesAreRewritten` | p4-prototype/p4/switchv2p_ingress_egress.p4:87-103 | every field of a mirrored copy after egress |
| `PipelineSpec.PipelineConservesSpills` | p4-prototype/p4/switchv2p_cache.p4:148-199 | above the leaves no true pair in registers or eviction tag is lost |
| `PipelineSpec.PipelineCoherence` | p4-prototype/p4/switchv2p_ingress_egress.p4:87-103 | in every run: every slot with a key other than 1 holds its directory value at the key's hash, eviction and learning headers are true pairs, gateway-bound eviction tags name the packet's destination, and resolved packets are bound to the right machine |

## Assumptions

* A topology has addresses that fit their octets and cores between any two pods; `Topology` derives
  the rest from the constructor's assertions.
* Connected routes come before installed ones, and every matching installed route is a candidate,
  without longest-prefix matching, as in the global routing of ns-3.
* Destinations of traffic are not containers on gateway machines.
* Changing a machine's addresses and updating the directory is one step, since no time passes between
  them in this mode. Programs of the moved container may send from the old and from the new machine.
* Where a theorem requires `FollowMeOk`, the network is a fat tree, or the leaf moved to is below the
  configured pod width; `Endpoints.FollowMeFindsTheContainerIff` proves that this is exactly when the
  follow-me rule works.
* A machine takes only packets for its own address.
* The pipelines' gateway resolves a packet and removes its tag, as the simulator's does. The mirrored
  copy carries the header the packet arrived with, and a timer index beyond the register never
  expires.
* In Bluebird runs a packet is in one place at a time, destinations are in the directory, and the
  directory does not change.
* The flow hash is one function of the outer addresses at every switch and in the controller;
  protocol and ports are the same for all flows.

## Left out

- The modes LocalLearning, Direct, OnDemand, NoCache and GwCache: they would add only easy members.
- TCP, the client applications, delay estimation and flow statistics: outside the protocol.
- The controller's search for an assignment: any assignment is allowed; and the traffic matrices
  switches collect for it are inputs.
- Parsing of traces and placements, output, command line and control-plane scripts.
- CRC32, checksums, header serialization and mirror sessions.
- `P4SwitchApp.Switch.ReceivePacket`: takes and returns the packet by value, because tags and header
  are part of the packet record; the cache and the filter are updated in place.
- `BloomFilter.Filter.Get`: an index beyond the filter is a precondition here; the system model counts
  it as a fault and proves that it never occurs.
- P4Cache's three-argument Get, which nothing calls.
- Time: gateway and host delays are pending states without a clock; only the Bluebird machine has one.
- The relaxed cost's constant 8 is not claimed to be a number of links.
