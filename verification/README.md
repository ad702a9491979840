# A verified model of TenantCNI

TenantCNI gives every tenant of a cluster its own /24 block on every node the tenant lives on, hands out the
addresses of that block to containers, separates tenants with firewall rules, and joins the blocks of one tenant
over VXLAN. An operator on each node follows Tenant resources; a CNI plugin, one process per call, leases addresses.
This project models these parts and proves what they promise.

| file | what it models |
|---|---|
| `Text.dfy` | dotted-quad and CIDR text: the keys of the lease map and of the block pool |
| `Subnets.dfy` | the /24 blocks of a node CIDR |
| `Leases.dfy` | the data of one tenant file, the loop of `AllocateIP` pass by pass, and one locked call |
| `TenantStores.dfy` | the tenant store and its allocator as an object updated in place |
| `LeaseRuns.dfy` | whole runs of allocator calls, some of which die between their two stores |
| `CniProcesses.dfy` | CNI calls as interleaved processes over one file and one lock, with deaths |
| `CniProgress.dfy` | how each of these calls comes to its end, and what a death leaves |
| `NodePool.dfy` | the node store: free blocks and tenants, and what a tenant file records |
| `Firewall.dfy` | the FORWARD chain: rule order and verdicts |
| `Node.dfy` | one node over whole runs of tenant and container changes: pool, leases and chain together |
| `Api.dfy` | the Tenant resource |
| `Membership.dfy` | one controller while the node list is edited at will, and what its tenant comes to |
| `Publications.dfy` | where the publications of that controller land |
| `SafeVersions.dfy`, `Survival.dfy` | which versions of the object its operator survives, and how it dies on the others |
| `Upkeep.dfy` | what the operator does about each event in the end: set-up, reverts, devices, rest |
| `Forwarding.dfy` | neighbour table, forwarding database and routes |
| `Protocol.dfy`, `ProtocolProofs.dfy` | all controllers of one tenant over a versioned API object |
| `Convergence.dfy` | how the full mesh of these controllers comes about, and what a missing device does to it |
| `PrefixEdits.dfy` | what edits of Prefix do to the routes of these controllers, after they have been reverted |

Methods of classes follow the source's own statements and are proved equal to specification functions; the lemmas
are about those functions, over every input and every run. Runs are sequences of steps of any length; a step that
cannot be taken leaves the state as it is.

## The reset of the scan

`AllocateIP` restarts its scan with `net.IP(gtw)` (pkg/network/ipam/ipam.go:166, :173, :174), where `gtw` is the
printed gateway. That conversion keeps the bytes of the text, which denote no address, so after it the loop makes
no progress. `Leases.Reset` names both readings: `RawText` is the code as it stands, `ParsedAddr` parses the
gateway, which is the evident intent. Every result about whole runs that does not depend on the reading is proved
for both. For the code as it stands it is proved exactly when the scan ends (`Leases.RawScanEndsIff`), that a block
serves each address at most once by completed allocations (`LeaseRuns.RawNeverReuses`, `LeaseRuns.RawServesOnce`)
and that a scan that does not end holds the tenant's lock (`CniProcesses.SpinsIff`, `CniProcesses.SpinnerBlocksAll`). The 254 containers of the
repository's README.md:5 and the delayed reuse of addresses are proved for the intended reading.

## Where the code falls short of what one would expect

Each of these has a lemma with the failing input or the exact condition.

- The default tenant is to be reachable from everywhere, but its own `addTenant` blocks it against every tenant
  already on the node (`Node.DefaultAddedLaterIsBlocked`). Added first, once and for good, it is reachable
  (`Node.DefaultTrafficAccepted`). `Node.TrafficExact` gives the verdict for every pair of tenants.
- An `addTenant` that gives up its publication or its node label returns before the firewall rules; its block is then
  cut off only by what earlier tenants left behind (`Node.AbortedAddExact`).
- A tenant created without this node in its list may have one Add run twice, which may lose a block
  (`Membership.RepeatHappens`, bounded by `Membership.RepeatedAdds`).
- An Add publishes by index: the entries come from the list read at its start, the list written to is the one cached
  at the attempt. So the addresses may go out under another node's name, or the index may be past the end, which ends
  the operator (`Publications.AttemptLands`, `Publications.PublicationLands`). Publications go to the right entries in
  every run if and only if all versions that others may write have this node at the same places, and wherever the
  initial version has it (`Publications.OnTargetIff`). The full-mesh results therefore keep the list of names fixed.
- The operator dies when the list becomes too short for an Add under way (`Survival.ShortenedListDies`), when the node
  leaves before its Add has run (`Survival.LeavesEarlyDies`, `Survival.QuickRemovalDies`), when the object changes again
  between a node's joining and its Add, in its list (`Survival.JoinUnderChangeDies`) or in VNI or Prefix
  (`Survival.JoinUnderRefixDies`), and when a published peer appears while the device is missing
  (`Survival.NoDeviceDies`): because the Add found the node alone (`Survival.LoneNodeDies`) or was cut short
  (`Survival.GivenUpDies`, `Survival.CutShortDies`, also after a leave and a re-join, `Upkeep.RejoinGivenUpDies`, and
  among all controllers, `Convergence.GivenUpDies`).
- `Survival.SurvivesIff` says, for every initial version and every set of versions that others may write, when every
  interleaving is survived. A node in none of them is safe. A node in the initial version must stay in all of them, at
  places that all of them reach, and either never be alone or never see a published peer later on. A node that is not in
  the initial version must be in all others, be safe from each of them on, and they must agree in VNI and Prefix and
  either show no published peer or be one and the same list. If publications may be given up the clauses on peers are
  stricter (`SafeVersions.Undisturbed`). In particular leaving is never safe, and joining is safe only for good.
- A repeated Add may record another VNI, so that the device that is up is not the one on file
  (`Upkeep.RepeatLosesDevice`); without one the device goes with the tenant (`Upkeep.DevicesGo`).
- An Add of a tenant that is not set up ends the operator when no block is free (`Upkeep.EmptyPoolDies`,
  `Node.AddWithoutBlock`).
- A death between the two stores of an allocation leaves the cursor behind, so once that lease is released the very
  next one takes the same address (`LeaseRuns.ReuseAfterCrash`). A lease delays the reuse of its address if and only if
  its call completed or nothing else was free (`LeaseRuns.DelaysIff`).
- A revert that is given up leaves the edited fields in place, with nothing left to do about it
  (`ProtocolProofs.DroppedRevertStays`); otherwise they are restored (`ProtocolProofs.FieldsRestored`).
- Peers are installed with the Prefix of the version cached at that moment, and the update that brings an edited Prefix
  back leaves the node list alone, so nothing is installed again: the wrong route stays for good
  (`PrefixEdits.EditLosesRoute`, for every edit of Prefix and every pair of nodes). A quiet node has its routes to all
  published peers in every run in which the object ends with its first Prefix, if and only if users may write no other
  one (`PrefixEdits.RoutesIff`, and `PrefixEdits.DeliversIff` for the whole of remote delivery).
- Of the lengths from 24 on, only Prefix 24 lets routes reach the whole block of a peer
  (`Forwarding.WholeBlockNeeds24`), and with Prefix 32 no route stays at all (`Forwarding.AddRoutesExact`).

## Assumptions

- Loading a file returns what was last stored, loads and stores are atomic, and a dying process releases its lock.
- The informer moves the lister cache on before it hands an event to the handler, an update that changes nothing makes
  no version, and the work queue is first in, first out: its items are freshly allocated objects, so it never merges two.
- The metadata name of a Tenant equals `Spec.Name`; node CIDRs have a prefix of at most 24 and no host bits.
- Netlink and iptables calls succeed, except that the kernel refuses a route that is already there or whose
  destination has host bits. Distinct nodes publish distinct VTEP and hardware addresses; hardware addresses are
  arbitrary numbers.
- A write to the API may conflict any number of times, and may be given up at any time, which covers the five attempts
  of the default retry and every other failure of the write.
- A nil dereference or an index past the end of a list ends the operator: `panicked` in `Node` and `Membership`, `Dead`
  in `Protocol`.
- Maps are visited in any order: methods pick the next key arbitrarily, and `Node` takes the order as a parameter.

`Membership` and `Protocol` are two views of controllers. The first has one node, lets everybody else write any version
of the object, and leaves out the tables; the second has all nodes and their tables, and keeps the names of the list
fixed. In both an Add is split at every attempt to write. Failing to label the node changes nothing after the device
is up but the firewall rules, which are in `Node`. In `Node` the operator's
adds and deletes are atomic with respect to each other, since one worker runs them (pkg/controller/controller.go:125).

## Model

| member | source | states |
|---|---|---|
| Text.AddrRoundTrip | pkg/network/ipam/tenant_store.go:128-172 | a printed address parses back to itself (section 3.2.2 of RFC 3986), and its text is never 4 or 16 bytes long, so as a raw `net.IP` it denotes no address |
| Text.AddrCanonical | pkg/network/ipam/tenant_store.go:128-172 | only the printed form parses to a dotted-quad address: two keys that parse alike are the same key |
| Text.OctetIsDecimal | pkg/network/ipam/tenant_store.go:128-172 | an octet is printed in base ten, without leading zeros |
| Text.DottedQuad | pkg/network/ipam/tenant_store.go:128-172 | the four fields of the text are the octets of the address, the most significant first, when printing and when parsing |
| Text.KeyedAt | pkg/network/ipam/tenant_store.go:128-157 | a text is a key of the lease map exactly when it parses to a leased address |
| Text.KeyedRefines | pkg/network/ipam/tenant_store.go:138-168 | lookup, insertion and deletion by printed address are lookup, insertion and deletion by address |
| Text.CidrRoundTrip | pkg/network/ipam/ipam.go:76-94 | a printed CIDR prefix (section 3.1 of RFC 4632) parses back to itself |
| Text.CidrCanonical | pkg/network/ipam/ipam.go:76-94 | only the printed form parses to a prefix, so the pool and the tenant map may be keyed by block |
| Subnets.ListSubnets | pkg/network/ipam/ipam.go:48-58 | the loop yields the blocks of `TenantBlocks`, in order |
| Subnets.BlocksPartition | pkg/network/ipam/ipam.go:48-58 | for a CIDR of length p there are 2^(24-p) aligned, ascending, pairwise disjoint blocks, and an address is in the CIDR if and only if it is in one of them |
| Subnets.FourBlocksOfASlash22 | README.md:5 | a /22 node has exactly four tenant blocks |
| Leases.CandidatesCover | pkg/network/ipam/ipam.go:171-191 | the scan visits usable addresses only, each once, all of them, and comes back to the cursor last |
| Leases.ParsedScanEnds | pkg/network/ipam/ipam.go:164-192 | with the gateway parsed the loop ends within size - 1 passes with the specified outcome |
| Leases.RawScanEndsIff | pkg/network/ipam/ipam.go:164-192 | as written the loop ends if and only if an address after the cursor is free, and then picks what was intended; otherwise no number of passes ends it |
| Leases.EmptyCursor | pkg/network/ipam/ipam.go:164-167 | without a cursor the intended scan starts at the gateway, the scan as written fails at once |
| Leases.ExactCapacity | pkg/network/ipam/ipam.go:171-192 | a block never holds more than size - 2 leases, and the scan finds nothing if and only if it holds exactly that many (254 in a /24) |
| Leases.HolderIs | pkg/network/ipam/tenant_store.go:128-136 | with unique container ids the lease found is the same for every map order; none is found exactly when none exists |
| Leases.CallsKeepValid | pkg/network/ipam/ipam.go:147-203 | every call keeps one address per container and one container per usable address, also between its two stores |
| Leases.AllocateMeans | pkg/network/ipam/ipam.go:147-219 | an allocation succeeds if and only if the id is held or the block is not full; failure changes nothing; repeating it changes nothing and answers the same; check agrees until the release |
| Leases.AllocateIsNextFit | pkg/network/ipam/ipam.go:164-188 | a new lease is the first free usable address in cyclic order after the cursor, becomes the cursor, and touches no other lease |
| TenantStores.TenantStore.LoadTenantData | pkg/network/ipam/tenant_store.go:96-126 | the data become the file's |
| TenantStores.TenantStore.StoreTenantData | pkg/network/ipam/tenant_store.go:86-93 | the file becomes the data |
| TenantStores.TenantStore.GetIPByID | pkg/network/ipam/tenant_store.go:128-136 | finds a lease of the id if there is one, whatever the map order, and with unique ids the only one |
| TenantStores.TenantStore.Contains | pkg/network/ipam/tenant_store.go:152-157 | true exactly for leased addresses |
| TenantStores.TenantStore.Add | pkg/network/ipam/tenant_store.go:138-150 | one lease more, stored with the old cursor |
| TenantStores.TenantStore.Del | pkg/network/ipam/tenant_store.go:159-168 | with unique ids the release, whatever the map order; an unknown id writes nothing |
| TenantStores.TenantStore.ScanForFree | pkg/network/ipam/ipam.go:164-192 | the loop computes the scan's outcome in both readings, or is caught where it repeats for ever |
| TenantStores.TenantStore.AllocateIP | pkg/network/ipam/ipam.go:147-194 | file and reply are those of `Allocate`; the lock is kept exactly when the call hangs |
| TenantStores.TenantStore.ReleaseIP | pkg/network/ipam/ipam.go:195-203 | the file loses the container's lease and nothing else; the lock is free |
| TenantStores.TenantStore.CheckIP | pkg/network/ipam/ipam.go:205-219 | answers the container's address or fails, and writes nothing |
| LeaseRuns.DelayedReuse | pkg/network/ipam/ipam.go:164-203 | between two leases of an address every other usable address was leased at some moment, whatever is released, repeated, checked or cut short in between |
| LeaseRuns.ReuseAfterCrash | pkg/network/ipam/tenant_store.go:138-150 | not so when the first lease died between its stores: its release restores the store and the very next lease takes the same address, while nothing else was leased |
| LeaseRuns.DelaysIff | pkg/network/ipam/ipam.go:180-184 | a lease delays the reuse of its address in every continuation if and only if its call completed or no other usable address was free |
| LeaseRuns.RawNeverReuses | pkg/network/ipam/ipam.go:171-188 | as written, the addresses of completed allocations only ever rise |
| LeaseRuns.RawServesOnce | pkg/network/ipam/ipam.go:171-192 | as written, after size - 2 leases every new container hangs, even on an empty block |
| LeaseRuns.HeldUntilReleased | pkg/network/ipam/ipam.go:158-163 | a container keeps its address through any run without its release, and every repeat answers it |
| CniProcesses.Linearizable | cmd/tenantcni/main.go:75-87 | in every interleaving with deaths the file is valid and is what one sequential order of the calls leaves, up to the cursor of a half-done allocation; every reply is that order's; the gateway of the unlocked load is the tenant's |
| CniProcesses.OrderRespectsTime | pkg/network/ipam/ipam.go:149-185 | a call that took effect before a process was spawned precedes it in that order |
| CniProcesses.RetryGetsStoredLease | pkg/network/ipam/ipam.go:158-185 | a lease stored by a process that died is what every later call for that container gets, until it is released |
| CniProcesses.SpinsIff | pkg/network/ipam/ipam.go:171-176 | in a reachable state a call starts to spin if and only if the code is read as written, its id is new and no address after the cursor is free |
| CniProcesses.SpinnerBlocksAll | pkg/network/ipam/ipam.go:149-176 | from then on, until it is killed, no call of any process takes effect |
| CniProgress.Completes | pkg/network/ipam/ipam.go:147-219 | from every state of every run in which the lock is free for a waiting call (a check also beside other checks), its own steps bring it to its end: it answers, leaves the file and adds the log entry that the call is to, and the lock is as before; or it spins, exactly when its scan cannot end |
| CniProgress.CallCompletes | cmd/tenantcni/main.go:68-87 | the same from the start of the process |
| CniProgress.Begins | cmd/tenantcni/main.go:68-80 | the first load waits for nobody and takes file and gateway as they are |
| CniProgress.DeathFreesLock | pkg/network/ipam/ipam.go:149-156 | a death at any point gives the lock back, leaves the file as it is, and is logged exactly when it comes between the two stores |
| CniProgress.KillingFrees | pkg/network/ipam/ipam.go:149-176 | whoever holds the lock, also in a scan that never ends: once it is killed every waiting call can come to its end |
| NodePool.FileRecords | pkg/network/ipam/ipam.go:87-128 | the new file has the tenant's name, Prefix, VTEP name and VNI, hardware address, the block's first address as VTEP, the next one as gateway and cursor, a bridge name of at most 12 characters, the default one for longer names; VNI and Prefix read back are the tenant's |
| NodePool.NodeStore.LoadNodeData | pkg/network/ipam/node_store.go:82-115 | the data become the file's; a missing file is created empty |
| NodePool.NodeStore.StoreNodeData | pkg/network/ipam/node_store.go:71-79 | the file becomes the data |
| NodePool.NodeStore.Initialise | cmd/tenantcnid/main.go:78-83 | the store ends with the address, the CIDR and exactly its blocks, on file |
| NodePool.NodeStore.AllocateTenant | pkg/network/ipam/ipam.go:61-132 | the head of the queue goes to the tenant, with a fresh file recording its name, VNI, prefix, bridge, VTEP and cursor; an empty queue changes nothing |
| NodePool.NodeStore.Reclaim | pkg/controller/delete.go:144-159 | the tenant's block, if any, returns to the tail, whatever the map order |
| NodePool.FirstAddress | pkg/network/ipam/ipam.go:92-130 | a fresh tenant has no lease, 254 usable addresses, and serves the one after the gateway first |
| Firewall.Chain.AllowForwardingTenant | pkg/network/routing/iptables.go:51-69 | the chain after the two unique appends |
| Firewall.Chain.BlockTenant2TenantTraffic | pkg/network/routing/iptables.go:71-90 | the chain after the two unique inserts at the front |
| Firewall.Chain.AddTenantRules | pkg/controller/add.go:135-153 | the loop over the tenant map, in any order, yields `BlockOthers` for that order |
| Firewall.AllowAdds | pkg/network/routing/iptables.go:51-69 | the rules gained are the two accepts, and drops stay in front |
| Firewall.BlockOthersAdds | pkg/controller/add.go:144-153 | whatever the order, the chain gains exactly the drops, both ways, against every listed tenant but itself and the default one, and drops stay in front |
| Firewall.RulesOnce | pkg/network/routing/iptables.go:51-90 | no call puts a rule into the chain that it has already |
| Firewall.VerdictExact | pkg/network/routing/iptables.go:58-86 | with all drops in front, first match drops if and only if some drop matches, and accepts if and only if none does and some rule matches |
| Node.BlockConservation | pkg/network/ipam/ipam.go:61-85 | on every run free and given blocks are distinct blocks of the CIDR, and their number plus the repeated adds is 2^(24-p) |
| Node.LeasesApart | pkg/network/ipam/ipam.go:92-203 | on every run, also with allocations that die between their stores, no address is leased by two tenants, and no lease is a gateway or VTEP address of any tenant |
| Node.AddTakesEffect | pkg/controller/add.go:50-153 | in every state with a free block an addTenant that runs to its end gives the tenant the head of the queue, an empty file on it, and its rules |
| Node.AddWithoutBlock | pkg/controller/add.go:50-153 | without a free block it ends the operator if the tenant is not there, else keeps block and files and puts the rules in place again, or does nothing if it gives up |
| Node.AddIsolates | pkg/controller/add.go:135-153 | after every run the added tenant is cut off at once, both ways, from every other tenant on the node but the default one, also those without rules, and its own traffic is accepted |
| Node.DeleteTakesEffect | pkg/controller/delete.go:94-163 | a deleted tenant loses its file, its block goes to the tail, and rules and other tenants stay; a missing tenant ends the operator |
| Node.ComesAndGoes | pkg/controller/delete.go:129-159 | adding and deleting a tenant leaves pool and files as they were, but for its block at the tail, and the rules that it brought |
| Node.ChainNoRepeats | pkg/network/routing/iptables.go:51-90 | on every run the chain never has a rule twice |
| Node.ContainerGetsAddress | pkg/network/ipam/ipam.go:147-194 | a container of a tenant on the node gets a free address of the tenant's block if and only if it has none and there is room; nothing else of the node changes; a death between the stores differs in the cursor alone |
| Node.ReleaseDropsOnly | pkg/network/ipam/ipam.go:195-203 | a release drops the leases of that container and changes nothing else of the node |
| Node.TenantIsolation | pkg/controller/add.go:135-153 | on every run with block reuse, packets between distinct tenants but the default one are dropped both ways, packets inside a tenant are accepted, and drops precede accepts |
| Node.TrafficExact | pkg/network/routing/iptables.go:51-88 | on every run, between any two tenants on the node, a packet is dropped if and only if the drop between their blocks is in the chain, accepted if and only if it is not and an accept of one end is, and otherwise matches no rule; a tenant whose add ran to its end has its accepts |
| Node.AbortedAddExact | pkg/controller/add.go:102-133 | an addTenant that gives up leaves its block with the verdicts of the old rules, in each direction and against every tenant; against one with its rules it is cut off if and only if an old drop for that direction is left |
| Node.DefaultTrafficAccepted | pkg/controller/add.go:144-151 | if the default tenant is added first, once, and never deleted, all its traffic with every tenant is accepted |
| Node.DefaultAddedLaterIsBlocked | pkg/controller/add.go:144-151 | added later, it is cut off from every tenant already there |
| Node.NewcomerReachesDefault | pkg/controller/add.go:144-151 | a later tenant and the default one reach each other, in each direction, if and only if no old drop for that direction is left |
| Node.QueueLaw | pkg/controller/delete.go:147-158 | what was free plus what came back is, in order, what was handed out followed by what is free |
| Node.FifoReuse | pkg/network/ipam/ipam.go:70-85 | a returned block is handed out again only after every block that was free when it came back |
| Api.ExistsNode | pkg/controller/utils.go:23-34 | true exactly when an entry has the name |
| Membership.Controller.HandleAdd | pkg/controller/handlers.go:15-31 | an Add at the tail |
| Membership.Controller.HandleUpdate | pkg/controller/handlers.go:33-48 | an Update with both objects at the tail |
| Membership.Controller.HandleDelete | pkg/controller/handlers.go:50-66 | a Delete with the old object at the tail |
| Membership.Controller.AddTenantEvent | pkg/controller/add.go:26-84 | block, file, recorded fields and entries to publish into after the Add has read the cached list; a repeated Add that records another VNI no longer finds the old device; the operator's death without a block |
| Membership.Controller.DeleteTenantEvent | pkg/controller/delete.go:51-163 | block back and device gone if the old list had this node; death without a file |
| Membership.Controller.UpdateTenantEvent | pkg/controller/update.go:40-191 | the re-enqueued Add or Delete, when installing or reverting kills the operator, and when a revert begins |
| Membership.Controller.ProcessNextItem | pkg/controller/controller.go:140-206 | the head of the queue is handled by its kind, up to its first write |
| Membership.Controller.TryOnce | pkg/controller/add.go:86-117 | one attempt: the write at an old index into the list cached now, the conflict, the death past its end, the device after the last one; likewise one attempt to revert |
| Membership.Controller.Worker | pkg/controller/controller.go:133-137 | with nothing new arriving, the worker empties the queue or dies: writes end after five attempts and re-enqueueing ends; what it does is a run of its steps |
| Membership.UpdateMoves | pkg/controller/update.go:53-80 | handling an update keeps the sequence of Adds and Deletes still to come, although they go to the tail |
| Membership.MembershipConverges | pkg/controller/update.go:49-80 | whatever is written and however steps interleave, once nothing is left to deliver or process the tenant is set up exactly when the list last observed has this node, which is the latest one when nothing is left to observe |
| Membership.RepeatedAdds | pkg/controller/add.go:52-64 | created with this node, no Add ever runs on a set-up tenant, with or without a block in the pool; created without it, at most one does |
| Membership.RepeatHappens | pkg/controller/add.go:27-64 | that one is possible |
| Membership.PoolBalance | pkg/controller/delete.go:144-159 | the pool loses at most one block per repeated Add, and none otherwise |
| Publications.AttemptLands | pkg/controller/add.go:86-101 | for every list read, list cached and index: without a conflict the write lands on this node's entry, under another name, or kills the operator, if and only if the cached list has this name, another name, or nothing at the index; no other entry changes |
| Publications.PublicationLands | pkg/controller/add.go:82-101 | each case has its run, from every state in which a first Add is next, for all lists read, lists cached and own indices |
| Publications.ShiftedListMispublishes | pkg/controller/add.go:82-96 | in a run where an entry is put in front meanwhile, the addresses go out under its name |
| Publications.OnTargetIff | pkg/controller/add.go:82-96 | for every initial version and every set of versions that others may write: every publication of every run goes to an entry of the publisher if and only if all that others may write have it at the same places, and wherever the initial version has it |
| SafeVersions.StaysAlive | pkg/controller/add.go:82-117 | a node of the initial version: if it may stay, no interleaving kills its operator |
| SafeVersions.SafeSurvives | pkg/controller/update.go:49-117 | the same for every initial version, including nodes that join for good |
| Survival.QuickRemovalDies | pkg/controller/delete.go:94-107 | joining and leaving before the Add has run kills the operator |
| Survival.LeavesEarlyDies | pkg/controller/delete.go:94-107 | so does leaving before the first Add |
| Survival.JoinUnderChangeDies | pkg/controller/update.go:83-117 | so does a change of the list, with a published peer, between joining and the re-enqueued Add |
| Survival.JoinUnderRefixDies | pkg/controller/update.go:154-185 | so does any change of VNI or Prefix between joining and the re-enqueued Add |
| Survival.ShortenedListDies | pkg/controller/add.go:93-96 | so does a list that becomes too short for an Add under way, for every own index |
| Survival.NoDeviceDies | pkg/controller/update.go:112-117 | set up without a device, a change of the list with a published peer kills the operator, whatever updates are before it |
| Survival.LoneNodeDies | pkg/controller/add.go:110-117 | so it does after an Add that found the node alone, at the next version with a published peer |
| Survival.GivenUpDies | pkg/controller/add.go:102-105 | and after an Add whose publication was given up |
| Survival.CutShortDies | pkg/controller/add.go:102-105 | and after an Add given up between two of its publications, by its own first one |
| Survival.SurvivesIff | pkg/controller/update.go:49-117 | for every initial version, every set of versions that others may write, and with or without publications given up: every interleaving of every run is survived if and only if these versions are safe, a condition on them alone |
| Upkeep.AddExact | pkg/controller/add.go:50-84 | an Add on a list with this node takes a block, records VNI and Prefix of the version read and goes to publish into exactly the own entries, in order; it is fatal if and only if there is neither block nor tenant |
| Upkeep.DeleteExact | pkg/controller/delete.go:94-163 | a Delete gives the block back and takes down the device on file and no other; it is fatal if and only if the tenant is not set up |
| Upkeep.UpdateExact | pkg/controller/update.go:83-185 | an update between lists with this node starts a revert if and only if VNI or Prefix has changed, and is fatal if and only if it installs without a device or reverts without a file |
| Upkeep.OthersExact | pkg/controller/update.go:49-80 | events that do not concern this node change nothing; a join or a leave is re-enqueued at the tail and nothing else happens |
| Upkeep.PublishExact | pkg/controller/add.go:86-117 | one attempt to publish, in full: conflict, death past the end, or the own fields in this entry of a new version, and the device with the last one |
| Upkeep.RevertWrites | pkg/controller/utils.go:47-61 | a revert without conflict leaves the recorded VNI and Prefix and the cached list, and makes a version if and only if that is a change; a conflict changes nothing |
| Upkeep.RevertsToFile | pkg/controller/utils.go:50-52 | what is written back is the VNI and Prefix of the tenant that the file was created for |
| Upkeep.SetsUp | pkg/controller/add.go:50-117 | for every list, the Add of a new object comes to its end: fields recorded, every own entry published and no other touched, the device with this VNI up unless the node is alone, nothing left to do |
| Upkeep.EditIsUndone | pkg/controller/update.go:154-185 | whatever VNI and Prefix somebody writes on a tenant that is set up, the operator brings the object and itself back to exactly the state before |
| Upkeep.DevicesGo | pkg/controller/delete.go:107-127 | on every run without a repeated Add a node without the tenant has no device of it, and one with it at most the one on file |
| Upkeep.LeavesNoDevice | pkg/controller/delete.go:107-127 | so a node that has left the list, with nothing more to process, has no device |
| Upkeep.RejoinGivenUpDies | pkg/controller/update.go:112-117 | leaving, re-joining and giving up the new Add: the next list with a published peer ends the operator |
| Upkeep.RepeatLosesDevice | pkg/controller/add.go:61-117 | with a repeated Add the device that is up may not be the one on file |
| Upkeep.EmptyPoolDies | pkg/controller/add.go:61-80 | an Add for which other tenants have left no block ends the operator |
| Upkeep.SeesAll | pkg/controller/handlers.go:33-48 | every version's change is handed over once, in order, up to the newest version |
| Upkeep.EditArrives | pkg/controller/handlers.go:33-48 | whatever is written comes to be the cached version |
| Upkeep.ResyncComesToNothing | pkg/controller/update.go:39-46 | a resync is one more update that changes nothing |
| Upkeep.ComesToRest | pkg/controller/controller.go:133-137 | from every state of every run, with nobody else writing, the node comes to rest with the tenant set up exactly when the newest version lists the node, or its operator has died |
| Forwarding.Device.AddARP | pkg/network/routing/routes.go:11-20 | the neighbour entry is set |
| Forwarding.Device.AddFDB | pkg/network/routing/routes.go:33-42 | the forwarding entry is set |
| Forwarding.Device.AddRoutesTo | pkg/network/routing/routes.go:56-81 | the routes after add, add and delete |
| Forwarding.Device.InstallPeers | pkg/controller/update.go:92-148 | the loop over the list installs every published peer and skips the others |
| Forwarding.HostBitsMean | pkg/network/routing/routes.go:56-81 | the destinations that the kernel takes are the multiples of 2^(32 - length), for lengths 0 to 32 |
| Forwarding.AddRoutesExact | pkg/network/routing/routes.go:56-81 | the block route is there afterwards if and only if its length is not 32 and it has no host bits; the temporary host route is gone; nothing else changes |
| Forwarding.InstallMeans | pkg/controller/update.go:92-139 | installing a list reaches every published peer of it and loses none that was reached |
| Forwarding.InstallOnly | pkg/controller/update.go:92-139 | the tables only ever speak of peers, as these published themselves |
| Forwarding.RemoteDelivery | pkg/network/routing/routes.go:56-81 | with routes of length 24, every address of a peer's block has one best route (section 5.2.4.3 of RFC 1812), to the peer's VTEP, then by ARP and FDB to its node |
| Forwarding.WholeBlockNeeds24 | pkg/controller/update.go:136-139 | of the lengths from 24 on, only 24 reaches the whole block |
| Protocol.ApiServer.Update | pkg/controller/add.go:86-101 | an update from a stale version is refused and changes nothing |
| Protocol.Operator.ProcessNextItem | pkg/controller/controller.go:140-206 | one event is taken up to its first write |
| Protocol.Operator.BeginAdd | pkg/controller/add.go:50-86 | the fields are recorded and every own entry is to be published |
| Protocol.Operator.UpdateTenant | pkg/controller/update.go:40-191 | peers are installed from the refreshed object, and a changed VNI or Prefix starts a revert |
| Protocol.Operator.Attempt | pkg/controller/add.go:86-133 | one round of a retry: refresh, change the copy or die past its end, update by version; the device after the last publication, the label after it |
| ProtocolProofs.NoLostPublication | pkg/controller/add.go:82-107 | in every version of every run an entry is unset or exactly what its node published, it never goes away, and a node whose Add succeeded is published |
| ProtocolProofs.PairMesh | pkg/controller/update.go:83-148 | on every run a quiet node whose own entries are published has the neighbour and forwarding entries of every node whose entry is published, with exactly the published addresses, and its tables hold nothing else, whatever has become of the other nodes; the route as well on runs in which nobody writes another Prefix |
| ProtocolProofs.FullMesh | pkg/controller/update.go:83-148 | when every Add has succeeded a quiet node has these entries for every other node, and on runs in which nobody writes another Prefix the routes |
| ProtocolProofs.PairDelivers | pkg/controller/update.go:128-139 | one half of `PrefixEdits.DeliversIff`: on runs in which nobody writes another Prefix than 24 every address of the peer's block leaves by one best route to that peer's node |
| ProtocolProofs.MeshDelivers | pkg/controller/update.go:128-139 | on such runs, when every Add has succeeded, this holds for every peer of a quiet node |
| Convergence.MeshForms | pkg/controller/update.go:83-148 | for every new object, whatever its list, there is a run without edits at whose end every Add has succeeded, every entry shows what its node publishes, nothing is left to handle, and every node has the neighbour and forwarding entries of every other one, and the route if the kernel takes it |
| Convergence.TakesAddExact | pkg/controller/add.go:50-84 | an Add records VNI and Prefix of the cached version and goes to publish into exactly the own entries |
| Convergence.TakesUpdateExact | pkg/controller/update.go:83-185 | an update is fatal if and only if the list has changed, the cached one has a published peer and there is no device; otherwise it installs exactly when the list has changed, and starts a revert exactly when VNI or Prefix has |
| Convergence.GivenUpDies | pkg/controller/update.go:112-117 | for every two nodes of every new object: if the Add of the first is given up and the second publishes, the operator of the first dies |
| Convergence.PublishExact | pkg/controller/add.go:86-117 | one attempt to publish, in full, with its conflict and its death |
| Convergence.RevertExact | pkg/controller/utils.go:47-61 | one attempt to revert, in full: the newest version has the recorded VNI and Prefix and its own list |
| Convergence.HandsOver | pkg/controller/handlers.go:33-48 | every change observed is handed over once, in order, however long the queue |
| Convergence.ObservesNext | pkg/controller/handlers.go:33-48 | the cache moves on one version at a time |
| Convergence.ResyncComesToNothing | pkg/controller/update.go:39-46 | a resync is one more update, which on a quiet node changes nothing |
| PrefixEdits.EditLosesRoute | pkg/controller/update.go:83-187 | for every two nodes of every tenant and every other Prefix there is a run with edits to this Prefix only at whose end every node is added, the first node is quiet without a dropped revert, VNI and Prefix are what they were, and it has no route of that length to the second |
| PrefixEdits.RoutesIff | pkg/controller/update.go:136-187 | for every set of Prefix values that users may write: in every run a quiet node has, whenever the object has its first Prefix, a route of that length to every published peer, if and only if the set has no other Prefix; the same when all nodes are added |
| PrefixEdits.DeliversIff | pkg/controller/update.go:128-187 | with Prefix 24, for every set of Prefix values that users may write: in every run, whenever the object has Prefix 24 again, a quiet node delivers every address of every published peer's block, if and only if the set has no other Prefix; the same when all nodes are added |
| ProtocolProofs.FieldsRestored | pkg/controller/update.go:154-191 | whatever VNI and Prefix users write, when a node is quiet the object holds what it recorded, unless it has given up a revert since the last one it wrote |
| ProtocolProofs.DroppedRevertStays | pkg/controller/update.go:177-190 | that exception is needed: for every edit there is a run in which a given-up revert leaves it in place on a quiet node |
| ProtocolProofs.WritesBounded | pkg/controller/utils.go:47-61 | if the nodes recorded the same values, reverts are at most one per edit and one more, publications at most one per entry |

## Left out

- TenantIsolation: speaks of tenants whose `addTenant` ran to its end; the others are the subject of `Node.AbortedAddExact` and `Node.TrafficExact`.
- DefaultTrafficAccepted: needs the default tenant to be added first, because the code blocks it otherwise.
- DelayedReuse: is stated for the parsed gateway; as written no address is leased twice by completed allocations.
- MembershipConverges: says nothing about an operator that has died; when it cannot die is `Survival.SurvivesIff`.
- SurvivesIff: takes the pool to have a block whenever an Add needs one; without it an Add on a tenant not set up ends the operator (`Upkeep.EmptyPoolDies`).
- Completes: speaks of a call that is let in and runs on; that the lock is ever free for a waiting call depends on how the system schedules the processes, and is not stated.
- MeshForms: gives a run; that every run comes there is not so, because of edits, publications given up and deaths.
- Protocol: takes the pool to have a block at every Add as well, so an Add in it never ends the operator for want of one.
- LoadTenantData: a missing tenant file, which the source creates empty and whose missing bridge then ends the CNI call, is not modelled.
- UpdateTenant: in `Protocol` it never re-enqueues, since the names are fixed; the re-enqueueing is in `Membership`.
- PairMesh: keeps the names of the node list fixed, and promises routes only on runs in which nobody writes another Prefix; with other runs they fail, and `PrefixEdits.RoutesIff` is the exact condition.
- FieldsRestored: covers VNI and Prefix; `Spec.Name` is compared by the code but never written back.
- RemoteDelivery: takes published VTEP addresses to be the first addresses of their blocks, as `AllocateTenant` chooses them.
- Linearizable: covers calls on a tenant already set up; `AllocateTenant` and the deletion of a tenant's files do not take the tenant lock, and their overlap with CNI calls is not modelled.
- ListSubnets: works on CIDRs without host bits and with a prefix of at most 24; what the address library does with others is not part of this model.
- GetIPByID: models IPv4; that the parser of the Go library also reads IPv6 forms does not matter, since keys are only ever written by printing.
- The JSON encoding, file paths, directories and partial writes.
- The pod-to-tenant map, its handlers and the lookup of a pod's tenant, including its retries.
- Network namespaces, bridges, veth pairs, bridge names, the creation of VXLAN devices and of hardware addresses.
- Deletion of the whole Tenant object, and its re-creation, while its list is being edited.
- A restart of the operator, which rebuilds the pool from scratch; the model starts there.
- A worker that fails to read its node name, its lister or the API server, other than by a conflict or by giving up.
- The generated client, informer and deep-copy code, logging, event recording, leader and rate-limiting machinery.
- Firewall rules of other software and the policy of the FORWARD chain; a packet that no rule matches has no verdict.
