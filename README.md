# poutacluster reconciliation, modelled in Dafny

This project models the `Cluster` class of `python/poutacluster.py`.
The class is a small reconciliation state machine that brings up a cluster
of virtual machines in an OpenStack cloud. The cluster has one frontend
(`<name>-fe`) and nodes `<name>-node01` … `<name>-node99`. It adds a
security group for external access (`<name>-ext`), one for internal access
(`<name>-int`), an anti-affinity server group named after the cluster, and
per-VM data volumes named `<vm>/<volume>`. The model also covers the audit
log the class keeps of every resource it creates or deletes.

The cloud is modelled as plain state. `Provider.CloudState` (in
`provider.dfy`) is a value holding:
- the instances, volumes, security groups, access rules and server groups;
- the next fresh resource id;
- a trace of the calls made to the provider.

`Provider.Cloud` is a class with a `state` field. It has one method per
OpenStack call the source makes, and each method's effect is given as a
pure transition (`AfterCreateVm`, `AfterAttachVolume`, …).

## Layout

**Specification, as pure functions over values:**
`Effect` (in `config.dfy`) pairs a cloud state with the provisioning log.
- `naming.dfy`: the naming convention, including `%02d`.
- `discovery.dfy`: rebuilding the topology from the provider lists.
- `groups.dfy`: the security and server group ensures.
- `volumes.dfy`: the per-VM volume ensure and its device letters.
- `instances.dfy`: creating a VM and finishing it (wait, reload,
  addresses, volumes).
- `nodes.dfy` (module `Reconcile`): the node passes and the frontend ensure.
- `lifecycle.dfy`: `up`, `down` and `destroy_volumes`.
- `inventory.dfy`: the Ansible inventory.
- `sessions.dfy`: two invocations of the tool in a row. Each one starts
  from the provider's listings alone: `main` constructs the cluster and
  calls `load_provisioned_state` before any command. Between the two, the
  provider finishes the volume attaches the first one left in progress
  (`Provider.Settle`). This module follows a successful `up` into the next
  invocation's discovery and a second `up`.

**Implementation:** `cluster.dfy` holds class `Poutacluster.Cluster`.
- Its fields `frontend`, `nodes`, `volumes` and `provisioningLog` are
  updated step by step, with the source's loops.
- Every method is proved equal to its specification function, applied to
  the old state.
- Error returns model the exceptions the source lets propagate, one
  `Provider.Error` kind each:
  - `NotFound`: a failed `check_*_exists` lookup, or an instance gone from
    the provider when it is reloaded;
  - `Duplicate`: the `RuntimeError` discovery raises for a name listed
    twice;
  - `NoAddress`: the index error of `oaw.get_addresses(...)[0]` on a VM
    without an internal address (poutacluster.py:71, 381 and 390);
  - `DeviceLetterOverflow`: the error Python 2's `chr` raises when the
    device letter is advanced past 255 (poutacluster.py:106).

In five places the model follows what the source actually does:
- `down` clears `nodes` once, after all nodes are deleted.
- `destroy_volumes` leaves `self.volumes` as it was after deleting them.
- Discovery collects the volumes of `<name>-fe` and of every name
  `<name>-node01..99`, whether or not a VM of that name exists
  (`Discovery.DiscoverVolumes`).
- The final wait of `up` covers only the volumes the cluster held before
  `up` started. The volumes `up` creates are never added to `self.volumes`,
  so they are not waited for (`Lifecycle.Up`, `Lifecycle.WaitVolumesEffect`).
  For the same reason, `up` run twice in one process would create those
  volumes again (`Lifecycle.UpRerun`). Only the next invocation, which
  rediscovers them, leaves them alone (`Sessions.UpIdempotent`).
- Neither `main` nor `up` limits the node count to 99. With a count of 100
  or more, `up` creates `<name>-node100` and beyond, but discovery only
  scans indices 1..99 (`Discovery.DiscoverSkipsHighIndices`). Every later
  `up` therefore creates those nodes again. For this reason
  `Sessions.UpRediscovered` and `Sessions.UpIdempotent` are stated for
  counts up to 99 only.

## Model

| member | source | states |
|---|---|---|
| Poutacluster.Cluster.constructor | python/poutacluster.py:32-37 | a new cluster holds the given configuration and provider, no frontend, no nodes, no volumes and an empty log |
| Poutacluster.Cluster.ProvLog | python/poutacluster.py:39-42 | the log only grows: exactly one entry with the given action, resource type, id and info is appended |
| Poutacluster.Cluster.GetProvisioningLog | python/poutacluster.py:396-397 | returns the whole log as a value; later appends cannot change what was returned, and the method changes nothing |
| Provider.LookupIn | python/poutacluster.py:45-46 | a catalogue lookup succeeds exactly when the name is known, returning its id; otherwise it fails with NotFound for that kind and name |
| Instances.NetworkName | python/poutacluster.py:51-54 | the keyword `default` resolves to the tenant id; any other network is used as given |
| Instances.ResolveVm | python/poutacluster.py:45-54 | the VM parameters resolve exactly when image, flavor, (if named) server group and network all exist; the first missing one, in the source's order, is the error; when only the network is missing the error is NotFound for the resolved network name; on success the ids are the catalogue's ids |
| Instances.ProvisionVmEffect | python/poutacluster.py:44-67 | creating a VM fails exactly when resolution fails, with the same error; on success the new VM has a fresh id, the given name and status BUILD, it is appended to the instances, and one `create`/`vm` entry with that id and name is logged |
| Instances.ProvisionVmCreates | python/poutacluster.py:59-63 | a created VM has one internal address, no floating address and the requested security groups; one create call is recorded and nothing else in the cloud changes |
| Poutacluster.Cluster.ProvisionVm | python/poutacluster.py:44-67 | the method's new cloud state, log and returned VM are those of the creation function; on error nothing changes |
| Instances.VmAddresses | python/poutacluster.py:69-75 | `__provision_vm_addresses`: fails without an internal address, otherwise associates the configured public IP; stated by VmAddressesEffect and AddressesIdempotent |
| Instances.VmAddressesEffect | python/poutacluster.py:69-75 | address setup fails exactly when the VM has no internal address; without a public IP it changes nothing; with one it only adds that floating IP to the VM's record; it never logs |
| Instances.AddressesIdempotent | python/poutacluster.py:69-75 | when the VM already holds its public IP, setting up addresses again leaves the instances unchanged |
| Poutacluster.Cluster.ProvisionVmAddresses | python/poutacluster.py:69-75 | the method's cloud state and error are those of the address function |
| Volumes.DeviceLetter | python/poutacluster.py:79-106 | the k-th device letter is the character k places after `c` |
| Volumes.Device | python/poutacluster.py:83 | the device for the k-th spec is `/dev/vd` followed by the k-th device letter |
| Volumes.DeviceLetters | python/poutacluster.py:79-106 | the first three specs get `/dev/vdc`, `/dev/vdd` and `/dev/vde`, and distinct indices get distinct devices |
| Volumes.FindVolumeNamed | python/poutacluster.py:86-90 | the lookup finds a known volume with exactly that display name, and finds nothing only when no known volume has it |
| Volumes.FindVolumeNamedFirst | python/poutacluster.py:86-90 | the volume found is the first of that name in provider order: no earlier volume carries the name |
| Volumes.PlanVolumeFirst | python/poutacluster.py:86-104 | the decision rests on the first volume of that name alone: create exactly when there is none, attach it exactly when it is not attached to this VM, and leave it alone exactly when it is |
| Volumes.PlanVolume | python/poutacluster.py:86-104 | a volume is created only when no known volume has the name, attached only when it exists and is not attached to this VM, and left alone when it is already attached |
| Volumes.ApplyVolumeStep | python/poutacluster.py:91-104 | the request made for one volume entry (none, attach, or create-and-attach with a log entry); stated by ApplyStepEffect |
| Volumes.ApplyStepEffect | python/poutacluster.py:91-104 | one step touches only volumes, calls and the fresh id; an already attached volume makes no call; only a creation is logged, as `create`/`volume` with the new id and name |
| Volumes.ProvisionVolumes | python/poutacluster.py:78-106 | the volume ensure succeeds exactly when there are at most 156 specs; past that the device letter leaves chr()'s range and it fails |
| Volumes.EnsureVolumes | python/poutacluster.py:78-106 | the first n entries of `__provision_volumes`, each with device `/dev/vd` + letter; stated by EnsureVolumesCalls, EnsureVolumesLog, MissingVolumesExact and EnsureVolumesIdle |
| Volumes.EnsureVolumesCalls | python/poutacluster.py:80-106 | the provider calls made are exactly the steps' calls, in spec order, and only volumes change |
| Volumes.EnsureVolumesLog | python/poutacluster.py:100-104 | the log gains exactly one `create`/`volume` entry per missing volume, in spec order, with consecutive fresh ids |
| Volumes.MissingVolumesExact | python/poutacluster.py:86-104 | the volumes created are exactly the spec names that no known volume already has |
| Volumes.EnsureVolumesIdle | python/poutacluster.py:91-93 | when every volume is already attached, the ensure changes nothing at all |
| Volumes.ProvisionVolumesLogsOnlyVolumes | python/poutacluster.py:78-106 | the volume ensure only appends `create`/`volume` entries to the log |
| Poutacluster.Cluster.ProvisionVolumes | python/poutacluster.py:78-106 | the loop advancing the device letter produces exactly the volume ensure's new state, or its overflow error |
| Poutacluster.Cluster.ApplyEntry | python/poutacluster.py:80-104 | handling one spec gives exactly the planned step's effect |
| Poutacluster.Cluster.FindExisting | python/poutacluster.py:86-90 | the search loop over the known volumes returns what the name lookup specifies |
| Groups.AccessRulesEffect | python/poutacluster.py:141-143 | adding rules for the allowed groups appends one rule and one call per source, in order, and changes nothing else |
| Groups.EnsureSecGroups | python/poutacluster.py:108-143 | `__provision_sec_groups`: the `-ext` group, then the `-int` group with its access rules; stated by SecGroupsEstablished, SecGroupsIdempotent, SecGroupsAdds and SecGroupsKeepInstances |
| Groups.SecGroupsEstablished | python/poutacluster.py:108-143 | after the ensure, both the `-ext` and `-int` security groups exist |
| Groups.SecGroupsIdempotent | python/poutacluster.py:108-143 | running the security-group ensure a second time changes nothing |
| Groups.SecGroupsAdds | python/poutacluster.py:108-143 | each missing group is created and logged as `create`/`sec-group`; access rules are added only when `-int` is created; instances, volumes and server groups are unchanged |
| Groups.SecGroupsKeepInstances | python/poutacluster.py:108-143 | the security-group ensure leaves the instances unchanged and never reuses an id |
| Groups.EnsureServerGroup | python/poutacluster.py:145-153 | `__provision_server_group`: create and log the server group only when it is missing; stated by ServerGroupEnsured |
| Groups.ServerGroupEnsured | python/poutacluster.py:145-153 | afterwards the server group exists and a rerun changes nothing; it is created and logged only when it was missing; security groups and instances are unchanged |
| Poutacluster.Cluster.ProvisionSecGroups | python/poutacluster.py:108-143 | the method's new state is exactly the security-group ensure's |
| Poutacluster.Cluster.ProvisionServerGroup | python/poutacluster.py:145-153 | the method's new state is exactly the server-group ensure's |
| Instances.FinishVm | python/poutacluster.py:166-170 | the wait for ACTIVE, the reload, the addresses and the volumes of one VM; its result, frame and log are stated by FinishVmResult, FinishVmFrame, FinishVmLog, FinishVmInService and FinishVmTracks |
| Instances.FinishVmResult | python/poutacluster.py:166-170 | a finished VM keeps its id (and its name when the provider's record matches), is ACTIVE and has an internal address; finishing fails when the VM is gone or has more than 156 volume specs |
| Instances.FinishVmFrame | python/poutacluster.py:166-170 | finishing a VM changes only instance records, volumes, calls and the fresh id, and never adds or removes an instance |
| Instances.FinishVmLog | python/poutacluster.py:166-170 | finishing a VM only appends `create`/`volume` entries to the log |
| Instances.FinishVmInService | python/poutacluster.py:166-170 | afterwards the VM's record is ACTIVE and holds its public IP when one is configured |
| Instances.FinishVmTracks | python/poutacluster.py:196-202 | finishing a VM keeps every tracked VM record consistent with the provider |
| Reconcile.EnsureFrontend | python/poutacluster.py:155-170 | `__provision_frontend`: reuse the discovered frontend or create `<name>-fe`, then finish it; its result is stated by EnsureFrontendEnsures |
| Reconcile.EnsureFrontendEnsures | python/poutacluster.py:155-170 | an existing frontend is reused, keeping its id and name with no VM created; otherwise exactly one frontend VM named `<name>-fe` is created and logged; either way it ends ACTIVE with an address and the groups are kept |
| Poutacluster.Cluster.ProvisionFrontend | python/poutacluster.py:155-170 | the method's frontend, cloud state and log are exactly the frontend ensure's |
| Reconcile.LaunchNode | python/poutacluster.py:177-190 | one launch step keeps the existing nodes as a prefix and afterwards the node name is present |
| Reconcile.LaunchNodes | python/poutacluster.py:176-190 | the first pass never removes or reorders existing nodes |
| Reconcile.LaunchNodesAppends | python/poutacluster.py:176-190 | the first pass appends exactly the missing names `<name>-node01..NN`, in ascending order |
| Reconcile.LaunchNodeMissing | python/poutacluster.py:185-189 | a missing node is appended as one new VM with the next fresh id and one `create`/`vm` log entry |
| Reconcile.LaunchNodesLogsMissing | python/poutacluster.py:176-190 | the first pass logs exactly one `create`/`vm` per missing name, in order, with consecutive fresh ids |
| Reconcile.LaunchNodesCovers | python/poutacluster.py:176-190 | after the first pass every name `<name>-node01..NN` is among the nodes |
| Reconcile.LaunchNodesIdle | python/poutacluster.py:180-184 | when every name is already present, the first pass changes nothing |
| Reconcile.LaunchNodesRerun | python/poutacluster.py:176-190 | running the first pass again on its own result changes nothing |
| Reconcile.LaunchNodesTracks | python/poutacluster.py:185-189 | the new node records match the provider's instances, and fresh ids stay fresh |
| Reconcile.FinishNode | python/poutacluster.py:197-202 | one finish step keeps the number of nodes |
| Reconcile.FinishNodeKept | python/poutacluster.py:197-202 | one finish step replaces only entry i, with the same id and name, now ACTIVE with an address; it keeps the groups and only logs volumes |
| Reconcile.FinishNodesEnsures | python/poutacluster.py:196-202 | the second pass keeps length and order, replaces each entry from k on in place by index, keeps the groups and only logs volume creations |
| Reconcile.ProvisionNodes | python/poutacluster.py:172-204 | `__provision_nodes`: the launch pass then the finishing pass, stopping at the first error; its result is stated by ProvisionNodesEnsures and ProvisionNodesRerun |
| Reconcile.ProvisionNodesEnsures | python/poutacluster.py:172-204 | after provisioning n nodes, the names are the old names plus the missing ones; every `<name>-node01..NN` is present; old nodes keep their ids; every node is ACTIVE with an address; the only log entries are the `create`/`vm` of the missing names and volume creations |
| Reconcile.ProvisionNodesRerun | python/poutacluster.py:172-204 | when all n names are already present, no VM is created: the node count is unchanged and only volumes can be logged |
| Poutacluster.Cluster.LaunchNode | python/poutacluster.py:177-190 | one iteration of the first loop has exactly the launch step's effect |
| Poutacluster.Cluster.LaunchNodesPass | python/poutacluster.py:176-190 | the first loop has exactly the first pass's effect, stopping at its first error |
| Poutacluster.Cluster.FinishNodeAt | python/poutacluster.py:197-202 | one iteration of the second loop replaces `nodes[k]` exactly as the finish step says and keeps the number of nodes |
| Poutacluster.Cluster.FinishNodesPass | python/poutacluster.py:196-202 | the indexed second loop has exactly the second pass's effect |
| Poutacluster.Cluster.ProvisionNodes | python/poutacluster.py:172-204 | the method has exactly the effect of both passes in sequence |
| Naming.Pad2Length | python/poutacluster.py:177 | `%02d` gives exactly two digits for 1..99, and three or more from 100 |
| Naming.DecimalInjective | python/poutacluster.py:177 | distinct numbers have distinct decimal spellings |
| Naming.NodeNameInjective | python/poutacluster.py:245 | distinct indices give distinct node names |
| Naming.NodeNameLength | python/poutacluster.py:245 | node names for 1..99 are seven characters longer than the cluster name; from 100 they are longer still |
| Naming.NodeNameHasNoSlash | python/poutacluster.py:245 | a node name contains no `/` when the cluster name contains none |
| Naming.VolumeNameOwner | python/poutacluster.py:80 | a volume named `<vm>/<volume>` starts with its owner's prefix |
| Naming.OwnerPrefixUnique | python/poutacluster.py:207-211 | slash-free VM names cannot both be the owner prefix of one display name |
| Discovery.FilterVolumes | python/poutacluster.py:207-211 | a volume is kept exactly when its display name is non-empty and starts with `<vm>/`, and its status is `in-use` or `available` |
| Discovery.FilterVolumesAppend | python/poutacluster.py:207-211 | the filter keeps provider order: filtering a concatenation is concatenating the filtered parts |
| Poutacluster.Cluster.GetVolumesForNode | python/poutacluster.py:213-214 | returns exactly the held volumes that belong to the VM |
| Discovery.Matching | python/poutacluster.py:244 | the matches are exactly the VMs with that name |
| Discovery.Discover | python/poutacluster.py:216-258 | on success there is a frontend exactly when some VM is named `<name>-fe`, that VM is the frontend, and there is at most one such VM |
| Discovery.DiscoverFails | python/poutacluster.py:225-251 | discovery fails exactly when the frontend name or some node name 01..99 matches more than one VM; a duplicate frontend is reported first |
| Discovery.ScanNodes | python/poutacluster.py:242-251 | the node half of the scan over indices 1..99; stated by ScanNodesFails, ScanNodesIndexed, ScanNodesComplete and ScanNodesHas |
| Discovery.ScanNodesFails | python/poutacluster.py:242-251 | the node scan fails exactly when some index has duplicates, and it reports the first such index |
| Discovery.ScanNodesIndexed | python/poutacluster.py:242-249 | each scanned node is a provider VM named for its index, with strictly ascending indices |
| Discovery.ScanNodesComplete | python/poutacluster.py:242-249 | every index below the bound whose name is present contributes a node |
| Discovery.ScanNodesHas | python/poutacluster.py:242-249 | a present node name below the bound is among the scanned nodes |
| Discovery.DiscoverNodesOrdered | python/poutacluster.py:242-249 | the discovered nodes are named `<name>-node%02d` in strictly ascending index, and no name appears twice |
| Discovery.DiscoverNodesComplete | python/poutacluster.py:242-249 | every node name for 1..99 present at the provider is discovered |
| Discovery.DiscoverSkipsHighIndices | python/poutacluster.py:243 | no node with an index above 99 (such as `<name>-node100`) is discovered |
| Discovery.ScanVolumes | python/poutacluster.py:253-258 | the volume half of the scan over indices 1..99; stated by ScanVolumesMembers |
| Discovery.ScanVolumesMembers | python/poutacluster.py:253-258 | the scanned node volumes are exactly those belonging to some scanned index |
| Discovery.DiscoverVolumes | python/poutacluster.py:235-258 | the discovered volumes are exactly the provider volumes belonging to the frontend or to a node 01..99 |
| Discovery.VolumeOwnerUnique | python/poutacluster.py:207-211 | a volume belongs to at most one node, and never to both the frontend and a node |
| Poutacluster.Cluster.LoadProvisionedState | python/poutacluster.py:216-261 | the reset-and-scan loop leaves the fields equal to the discovery result, or returns its error |
| Lifecycle.WaitVolumesEffect | python/poutacluster.py:282-284 | waiting for the volumes touches only volume statuses and calls, and every waited volume ends `in-use` |
| Lifecycle.Up | python/poutacluster.py:263-285 | `up`: the security groups, the server group, the frontend, the two node passes and the final wait over the held volumes, in that order; what it establishes is stated by UpEstablishes, UpLog and UpRerun, and across invocations by Sessions.UpRediscovered and Sessions.UpIdempotent |
| Lifecycle.UpEstablishes | python/poutacluster.py:263-285 | after `up`: both security groups and the server group exist; the frontend is ACTIVE with an address, keeping its id when it existed and named `<name>-fe` otherwise; every `<name>-node01..NN` is present, the missing ones appended; all nodes are ACTIVE; volumes are unchanged; the log only gains `create` entries |
| Lifecycle.UpLog | python/poutacluster.py:263-285 | the stages of `up` together only append `create` entries |
| Lifecycle.UpRerun | python/poutacluster.py:263-285 | running `up` again in the same process, on its own result and the same held volume list, creates no VM: the frontend id and the node count are kept and only volume creations can be logged |
| Lifecycle.WaitVolumesKeepsTracked | python/poutacluster.py:282-284 | the final wait leaves the instances and the id counter alone, so tracked VMs stay tracked |
| Provider.Settle | python/poutacluster.py:282-284 | between invocations every volume still attaching becomes in-use; nothing else at the provider changes |
| Sessions.DiscoverTracked | python/poutacluster.py:216-258 | when the provider's ids are distinct, every node discovery returns, and its frontend, is the provider's only record of its id |
| Sessions.EnsureVolumesStores | python/poutacluster.py:78-106 | the volume ensure keeps every stored volume name stored, and afterwards each spec of the VM has a lasting volume of its name |
| Sessions.FinishVmStores | python/poutacluster.py:166-170 | finishing a VM leaves a lasting volume for each of its specs and keeps what was stored |
| Sessions.FinishNodesStores | python/poutacluster.py:196-202 | after the second pass every node from k on has a lasting volume for each node spec |
| Sessions.EnsureFrontendStores | python/poutacluster.py:155-170 | after the frontend ensure the frontend has a lasting volume for each frontend spec |
| Sessions.WaitVolumesStores | python/poutacluster.py:282-284 | the final wait keeps every stored volume name stored |
| Sessions.UpStores | python/poutacluster.py:263-285 | after `up` the frontend and every node have a lasting volume for each of their specs |
| Sessions.EnsureFrontendRoster | python/poutacluster.py:155-170 | the frontend ensure adds `<name>-fe` to the provider's listing when there was no frontend, and nothing otherwise |
| Sessions.LaunchNodesRoster | python/poutacluster.py:176-190 | the first pass adds to the provider's listing exactly the names it appends to the nodes |
| Sessions.FinishNodesRoster | python/poutacluster.py:196-202 | the second pass keeps the provider's ids, names and addresses, position by position |
| Sessions.UpRoster | python/poutacluster.py:263-285 | after `up` the provider lists the names it listed before, then `<name>-fe` when there was no frontend, then the missing node names in ascending order |
| Sessions.LaunchNodesKeepTracks | python/poutacluster.py:185-189 | creating nodes keeps a tracked VM tracked |
| Sessions.UpTracksFrontend | python/poutacluster.py:263-285 | after `up` the provider's only record of the frontend's id has the frontend's name and addresses |
| Sessions.MatchingCount | python/poutacluster.py:228 | discovery matches as many VMs as the listing holds of that name |
| Sessions.FrontendIsNotNode | python/poutacluster.py:227-244 | `<name>-fe` is never a node name |
| Sessions.MissingNodeNamesOnce | python/poutacluster.py:176-190 | no missing node name is created twice |
| Sessions.ExtendedListingFrontend | python/poutacluster.py:227-233 | after `up` on a discovered cluster exactly one VM is named `<name>-fe` |
| Sessions.ExtendedListingNode | python/poutacluster.py:243-251 | after `up` on a discovered cluster each node name 01..99 is held by at most one VM |
| Sessions.ExtendedListingDiscovers | python/poutacluster.py:227-251 | so the next discovery raises no duplicate-name error |
| Sessions.ExtendedListingNodes | python/poutacluster.py:243-249 | the next discovery finds exactly the node names `up` reported |
| Sessions.SettledKnown | python/poutacluster.py:235-258 | once the provider has settled, every volume stored for the frontend or for a node 01..99 is among the discovered volumes |
| Sessions.UpRediscovered | python/poutacluster.py:216-285 | for up to 99 nodes, the next invocation's discovery after `up` succeeds; it finds the frontend `up` reported, by id, and exactly the node names `up` reported, among them node01..NN |
| Sessions.NoneMissing | python/poutacluster.py:86-104 | when every spec's name is known, no volume is to be created |
| Sessions.FinishVmIdle | python/poutacluster.py:166-170 | finishing a tracked VM that has an address and whose volumes are all known succeeds and logs nothing |
| Sessions.FinishNodesIdle | python/poutacluster.py:196-202 | the second pass over such nodes succeeds and logs nothing |
| Sessions.UpIdle | python/poutacluster.py:263-285 | `up` succeeds and logs nothing when the groups exist, the frontend and node01..NN exist, are tracked and have addresses, and every volume spec has a known volume |
| Sessions.UpIdempotent | python/poutacluster.py:263-285 | for up to 99 nodes, after a successful `up` and the provider's settle step, `up` on the next invocation's discovery result succeeds and appends no log entry |
| Poutacluster.Cluster.Up | python/poutacluster.py:263-285 | the method's cloud, log, frontend and nodes are exactly `up`'s result, or its error |
| Lifecycle.DeleteVmsEffect | python/poutacluster.py:289-293 | deleting VMs removes exactly those ids, makes a shutdown and a delete call per VM in order, and logs one `delete`/`vm` each in order |
| Lifecycle.TeardownCalls | python/poutacluster.py:291-292 | teardown makes two provider calls per VM |
| Lifecycle.Reverse | python/poutacluster.py:289 | the reversed list has the same length, with entry i taken from position n-1-i |
| Lifecycle.Down | python/poutacluster.py:287-302 | `down`, whose effect DownEffect states: nodes deleted in reverse order, then the frontend, both cleared, volumes kept |
| Lifecycle.DownEffect | python/poutacluster.py:287-302 | `down` deletes the nodes in strict reverse order and then the frontend if present, with one `delete`/`vm` log entry each; afterwards there are no nodes and no frontend, and volumes are unchanged |
| Poutacluster.Cluster.Down | python/poutacluster.py:287-302 | the method's cloud, log and fields are exactly `down`'s result |
| Lifecycle.DeleteVolumesEffect | python/poutacluster.py:325-328 | deleting volumes removes exactly those ids, one call and one `delete`/`volume` log entry each, in order |
| Lifecycle.VolumeDeleteCalls | python/poutacluster.py:327 | one delete call per volume |
| Lifecycle.DestroyVolumes | python/poutacluster.py:304-328 | `destroy_volumes`, whose outcomes DestroyVolumesEffect states: refused while a VM is held, nothing to do without volumes, otherwise every held volume deleted in reverse order |
| Lifecycle.DestroyVolumesEffect | python/poutacluster.py:304-328 | refused, with no change, exactly when a frontend or a node is held; a no-op exactly when there are no volumes either; otherwise every held volume is deleted in reverse order, one `delete`/`volume` entry each |
| Poutacluster.Cluster.DestroyVolumes | python/poutacluster.py:304-328 | the method's outcome, cloud and log are exactly the destroy function's |
| Inventory.FirstUnaddressed | python/poutacluster.py:388-392 | finds the first node without an internal address, or none exactly when all have one |
| Inventory.FrontendSection | python/poutacluster.py:378-383 | three lines per frontend group |
| Inventory.FrontendSectionAt | python/poutacluster.py:378-383 | for each frontend group, the `[group]` header, the host line and a blank line, in group order |
| Inventory.NodeLines | python/poutacluster.py:388-392 | one host line per node |
| Inventory.NodeLinesAt | python/poutacluster.py:388-392 | host line m is node m's, in `nodes` order |
| Inventory.NodeSectionLength | python/poutacluster.py:385-392 | each node group takes one header plus one line per node |
| Inventory.NodeSectionAt | python/poutacluster.py:385-392 | node group j is its header followed by every node's host line, in `nodes` order |
| Inventory.GenerateInventory | python/poutacluster.py:370-394 | `generate_ansible_inventory`; its lines and its error are stated by InventoryOutcome, InventoryShape, InventoryFrontendGroup and InventoryNodeGroup |
| Inventory.InventoryOutcome | python/poutacluster.py:370-394 | the first line is always the warning, and with no frontend it is the only line; it fails exactly when a listed host has no internal address, naming the first such host |
| Inventory.InventoryShape | python/poutacluster.py:370-394 | with a frontend the output is the warning, three lines per frontend group and one header plus one line per node for each node group |
| Inventory.InventoryFrontendGroup | python/poutacluster.py:378-383 | frontend group k sits at lines 1+3k .. 3+3k as header, host line and blank |
| Inventory.InventoryNodeGroup | python/poutacluster.py:385-392 | node group j sits after the frontend block as its header followed by every node's host line in order |
| Poutacluster.Cluster.GenerateAnsibleInventory | python/poutacluster.py:370-394 | the appending loops produce exactly the inventory function's lines, or its error |
| Poutacluster.Cluster.FrontendBlock | python/poutacluster.py:378-383 | the frontend loop produces the frontend section, or fails for an unaddressed frontend |
| Poutacluster.Cluster.NodeBlock | python/poutacluster.py:385-392 | the node-group loop produces the node section, or fails naming the first unaddressed node |
| Poutacluster.Cluster.HostLines | python/poutacluster.py:388-392 | the inner loop produces one host line per node, or fails at the first unaddressed node |

## Left out

- OpenStack bindings (`oaw.*`, the server and volume list calls): there is no
  code for them here. They are `Provider.Cloud` methods whose effects are
  stated transitions.
- Status polling (`wait_for_state`) is an unbounded external wait. It is
  modelled as the status changing to the awaited value. The prints are left
  out. One consequence is that a wait the source would never finish ends in
  the model. `up`'s final wait also covers held volumes that this `up`
  neither creates nor attaches. For example, after `down` of a three-node
  cluster, `up 2` still holds the `available` volumes of `<name>-node03`;
  the source would poll on them forever, while `Provider.AfterWaitVolume`
  marks them `in-use` with no attachment and `Lifecycle.Up` returns Ok.
- The reload after create (`get_instance`) and after reaching ACTIVE is the
  provider's record for that id.
- The anti-affinity policy argument of `check_server_group_exists` is not
  modelled. Only the group's name is looked up.
- `os.environ['OS_TENANT_ID']`: the `default` network resolves to the
  catalogue's tenant id.
- The log entry's timestamp is not modelled. The resource id is a number
  rather than its string form.
- The destroy countdown and `time.sleep`: timing only.
- `reset_nodes` is only a reboot call and a sleep. `get_info` is display
  formatting over foreign flavor and image name lookups.
- Ansible, subprocess retries, argparse, YAML, file writes and all prints are
  outside the class. The model also does not include the `main` gate that
  refuses `up` when a frontend exists or no node count is given; `up` itself
  does not check either.
- The class-level list defaults in the source are shared between Python
  instances. The model instead gives each cluster fresh fields, set in the
  constructor.
- State after an error: an error result carries no state. The provider
  changes and log entries made before the exception (for example
  `ProvisionVolumes` past the 156th spec, or a failing node in the second
  pass) are not modelled.
- `LoadProvisionedState` is not modelled on error: the source leaves
  partially rebuilt fields on a duplicate-name error, and the model's
  contract says nothing about them.
- `down` and `destroy_volumes` do not model a provider call that fails.
- Provider ids: the model takes the provider's instance ids to be distinct
  and below its id counter (`Provider.IdsFresh`) at the start of an
  invocation. The OpenStack side is not modelled, so this is an assumption
  about it; every `Provider.Cloud` method keeps it.
- `Provider.Settle` is the only thing the provider does between two
  invocations. Attaches that fail, volumes that go into an error state and
  changes by other users are not modelled.
- Sessions.UpIdempotent is stated for `Cluster.up` itself. `main` would
  refuse a second `up` because the cluster now has a frontend; that gate is
  outside the class, as above.
- Aliasing between the Python instance objects in `nodes` and the
  provider's records is not modelled. Records are values, and the reloads
  are explicit.
