/**
  Creating one instance and bringing it into service. Creating resolves the
  image, the flavor, the server group (only when a name is given) and the
  network, in that order; the network name `default` stands for the tenant's
  own network. Only when all four resolve is the instance created and logged.
  Bringing an instance into service waits for it to become ACTIVE, reloads it,
  associates the role's public address, if any, and provisions its volumes.
*/
module Instances {
  import opened Wrappers
  import opened Provider
  import opened Naming
  import opened Audit
  import opened ClusterConfig
  import opened Groups
  import opened Volumes

  /** The provider ids a create request is made with. */
  datatype VmParams = VmParams(imageId: string, flavorId: string, serverGroup: Option<nat>, networkId: string)

  /** An instance together with the state reached when it was created or set up. */
  datatype Provisioned = Provisioned(effect: Effect, vm: Instance)

  /** The network actually looked up. */
  function NetworkName(cat: Catalogue, network: string): (r: string)
    ensures network != "default" ==> r == network
    ensures network == "default" ==> r == cat.tenantId
  {
    if network == "default" then cat.tenantId else network
  }

  /** The lookups of __provision_vm; the first one that fails decides the error. */
  function ResolveVm(s: CloudState, cat: Catalogue, role: RoleSpec, network: string, serverGroupName: string)
    : (r: Result<VmParams, Error>)
    ensures r.Ok? <==>
      && role.image in cat.images
      && role.flavor in cat.flavors
      && (serverGroupName != "" ==> HasServerGroup(s, serverGroupName))
      && NetworkName(cat, network) in cat.networks
    ensures role.image !in cat.images ==> r == Err(NotFound("image", role.image))
    ensures role.image in cat.images && role.flavor !in cat.flavors ==> r == Err(NotFound("flavor", role.flavor))
    ensures (role.image in cat.images && role.flavor in cat.flavors && serverGroupName != ""
             && !HasServerGroup(s, serverGroupName)) ==> r == Err(NotFound("server group", serverGroupName))
    ensures (role.image in cat.images && role.flavor in cat.flavors
             && (serverGroupName != "" ==> HasServerGroup(s, serverGroupName))
             && NetworkName(cat, network) !in cat.networks) ==> r == Err(NotFound("network", NetworkName(cat, network)))
    ensures r.Ok? ==> && r.value.imageId == cat.images[role.image]
                      && r.value.flavorId == cat.flavors[role.flavor]
                      && r.value.networkId == cat.networks[NetworkName(cat, network)]
                      && (r.value.serverGroup.Some? <==> serverGroupName != "")
                      && (r.value.serverGroup.Some? ==>
                            exists g :: g in s.serverGroups && g.name == serverGroupName && g.id == r.value.serverGroup.value)
  {
    var image := LookupIn(cat.images, "image", role.image);
    var flavor := LookupIn(cat.flavors, "flavor", role.flavor);
    var group := if serverGroupName == "" then Ok(None)
                 else match FindGroup(s.serverGroups, serverGroupName)
                      case None => Err(NotFound("server group", serverGroupName))
                      case Some(g) => Ok(Some(g.id));
    var net := LookupIn(cat.networks, "network", NetworkName(cat, network));
    if image.Err? then Err(image.error)
    else if flavor.Err? then Err(flavor.error)
    else if group.Err? then Err(group.error)
    else if net.Err? then Err(net.error)
    else Ok(VmParams(image.value, flavor.value, group.value, net.value))
  }

  /** __provision_vm: on success the new instance is the last one the provider
      lists, it has a fresh id and status BUILD, and it is logged once. */
  function ProvisionVmEffect(e: Effect, cat: Catalogue, name: string, secGroups: seq<string>,
                             role: RoleSpec, network: string, serverGroupName: string)
    : (r: Result<Provisioned, Error>)
    ensures r.Err? <==> ResolveVm(e.cloud, cat, role, network, serverGroupName).Err?
    ensures r.Err? ==> r.error == ResolveVm(e.cloud, cat, role, network, serverGroupName).error
    ensures r.Ok? ==>
      var vm := r.value.vm;
      && vm.id == e.cloud.nextId && vm.name == name && vm.status == "BUILD"
      && r.value.effect.cloud.instances == e.cloud.instances + [vm]
      && r.value.effect.cloud.nextId == e.cloud.nextId + 1
      && r.value.effect.log == e.log + [LogEntry(Create, VmResource, e.cloud.nextId, name)]
  {
    match ResolveVm(e.cloud, cat, role, network, serverGroupName)
    case Err(err) => Err(err)
    case Ok(p) =>
      var created := e.(cloud := AfterCreateVm(e.cloud, cat, name, p.imageId, p.flavorId, role.secKey,
                                               secGroups, p.networkId, p.serverGroup));
      Ok(Provisioned(Logged(created, Create, VmResource, e.cloud.nextId, name),
                     NewInstance(e.cloud, cat, name, secGroups, p.serverGroup)))
  }

  /** The created instance has one internal address, no public one and the
      given security groups; it is the only change besides the trace, which
      gains exactly one create request of that name. */
  lemma ProvisionVmCreates(e: Effect, cat: Catalogue, name: string, secGroups: seq<string>,
                           role: RoleSpec, network: string, serverGroupName: string)
    requires ProvisionVmEffect(e, cat, name, secGroups, role, network, serverGroupName).Ok?
    ensures var p := ProvisionVmEffect(e, cat, name, secGroups, role, network, serverGroupName).value;
      var c := p.effect.cloud;
      && |p.vm.fixedIps| == 1 && p.vm.floatingIps == [] && p.vm.secGroups == secGroups
      && c.(instances := e.cloud.instances, nextId := e.cloud.nextId, calls := e.cloud.calls) == e.cloud
      && |c.calls| == |e.cloud.calls| + 1 && c.calls[..|e.cloud.calls|] == e.cloud.calls
      && c.calls[|e.cloud.calls|].CreateVmCall? && c.calls[|e.cloud.calls|].name == name
  {
  }

  /** __provision_vm_addresses: reading the internal address fails when the
      instance has none; otherwise the role's public address, if any, is
      associated with every provider record of that id, and nothing else
      changes but the trace. */
  function VmAddresses(e: Effect, vm: Instance, role: RoleSpec): Result<Effect, Error>
  {
    if vm.fixedIps == [] then Err(NoAddress(vm.name))
    else if role.publicIp.Some? then Ok(e.(cloud := AfterAddFloatingIp(e.cloud, vm.id, role.publicIp.value)))
    else Ok(e)
  }

  /** The address step changes nothing but the trace and the public addresses
      of the records with the instance's id, each of which then carries the
      role's public address. */
  lemma VmAddressesEffect(e: Effect, vm: Instance, role: RoleSpec)
    ensures var r := VmAddresses(e, vm, role);
      && (r.Err? <==> vm.fixedIps == [])
      && (r.Err? ==> r.error == NoAddress(vm.name))
      && (r.Ok? && role.publicIp.None? ==> r.value == e)
      && r.Ok? ==>
        && r.value.log == e.log
        && r.value.cloud.(instances := e.cloud.instances, calls := e.cloud.calls) == e.cloud
        && |r.value.cloud.instances| == |e.cloud.instances|
        && forall i :: 0 <= i < |e.cloud.instances| ==>
             var (x, y) := (e.cloud.instances[i], r.value.cloud.instances[i]);
             if x.id == vm.id then y.(floatingIps := x.floatingIps) == x && (role.publicIp.Some? ==> role.publicIp.value in y.floatingIps)
             else y == x
  {
  }

  /** The provider lists an instance under `vm`'s id, and every record with
      that id carries `vm`'s name and internal addresses. */
  predicate Tracks(s: CloudState, vm: Instance)
  {
    FindInstance(s.instances, vm.id).Some? &&
    forall y :: y in s.instances && y.id == vm.id ==> y.name == vm.name && y.fixedIps == vm.fixedIps
  }

  /** Bringing an instance into service: wait for ACTIVE, reload, addresses,
      volumes (the second halves of __provision_frontend and of the node loop). */
  function FinishVm(e: Effect, vm: Instance, known: seq<Volume>, role: RoleSpec): Result<Provisioned, Error>
  {
    var waited := e.(cloud := AfterWaitInstance(e.cloud, vm.id, "ACTIVE"));
    match FindInstance(waited.cloud.instances, vm.id)
    case None => Err(NotFound("instance", vm.name))
    case Some(x) =>
      match VmAddresses(waited, x, role)
      case Err(err) => Err(err)
      case Ok(addressed) =>
        match ProvisionVolumes(addressed, known, x, role.volumes)
        case Err(err) => Err(err)
        case Ok(done) => Ok(Provisioned(done, x))
  }

  /** The record that comes out has the instance's id, is ACTIVE and has an
      internal address, and keeps the name of a tracked instance; the volume
      list fits the device letters; an instance the provider does not list
      is reported as not found. */
  lemma FinishVmResult(e: Effect, vm: Instance, known: seq<Volume>, role: RoleSpec)
    ensures var r := FinishVm(e, vm, known, role);
      && (r.Ok? ==> r.value.vm.id == vm.id && r.value.vm.status == "ACTIVE" && r.value.vm.fixedIps != [])
      && (r.Ok? ==> |role.volumes| <= MaxVolumes)
      && (Tracks(e.cloud, vm) && r.Ok? ==> r.value.vm.name == vm.name)
      && (FindInstance(e.cloud.instances, vm.id).None? ==> r == Err(NotFound("instance", vm.name)))
  {
    var waited := e.(cloud := AfterWaitInstance(e.cloud, vm.id, "ACTIVE"));
    match FindInstance(waited.cloud.instances, vm.id)
    case None =>
    case Some(x) =>
      ReloadedRecord(e.cloud, vm.id, x);
      VmAddressesEffect(waited, x, role);
  }

  /** A record reloaded after the wait is ACTIVE and comes from a record the
      provider listed under that id before. */
  lemma ReloadedRecord(s: CloudState, id: nat, x: Instance)
    requires x in AfterWaitInstance(s, id, "ACTIVE").instances && x.id == id
    ensures x.status == "ACTIVE"
    ensures exists y :: y in s.instances && y.id == id && x == y.(status := "ACTIVE")
  {
    var xs := AfterWaitInstance(s, id, "ACTIVE").instances;
    var i :| 0 <= i < |xs| && xs[i] == x;
    assert s.instances[i] in s.instances;
  }

  /** Re-running the address step for an instance whose record carries the
      public address already leaves every record as it was. */
  lemma AddressesIdempotent(e: Effect, vm: Instance, role: RoleSpec)
    requires vm.fixedIps != [] && role.publicIp.Some?
    requires forall x :: x in e.cloud.instances && x.id == vm.id ==> role.publicIp.value in x.floatingIps
    ensures VmAddresses(e, vm, role).Ok?
    ensures VmAddresses(e, vm, role).value.cloud.instances == e.cloud.instances
  {
    var r := VmAddresses(e, vm, role).value;
    VmAddressesEffect(e, vm, role);
    assert forall i :: 0 <= i < |e.cloud.instances| ==> e.cloud.instances[i] in e.cloud.instances;
  }

  /** Two instance lists with the same ids, names and internal addresses,
      position by position. */
  predicate SameRoster(a: seq<Instance>, b: seq<Instance>)
  {
    |a| == |b| &&
    forall i :: 0 <= i < |a| ==> a[i].id == b[i].id && a[i].name == b[i].name && a[i].fixedIps == b[i].fixedIps
  }

  /** Tracking an instance depends only on the roster of ids and names. */
  lemma TracksRoster(s: CloudState, t: CloudState, vm: Instance)
    requires SameRoster(s.instances, t.instances) && Tracks(s, vm)
    ensures Tracks(t, vm)
  {
    var y := FindInstance(s.instances, vm.id).value;
    var i :| 0 <= i < |s.instances| && s.instances[i] == y;
    assert t.instances[i] in t.instances;
    forall z | z in t.instances && z.id == vm.id
      ensures z.name == vm.name
    {
      var j :| 0 <= j < |t.instances| && t.instances[j] == z;
      assert s.instances[j] in s.instances;
    }
  }

  /** Bringing an instance into service changes instances only in status and
      public addresses, and leaves groups, rules and the id counter alone. */
  lemma FinishVmFrame(e: Effect, vm: Instance, known: seq<Volume>, role: RoleSpec)
    requires FinishVm(e, vm, known, role).Ok?
    ensures var c := FinishVm(e, vm, known, role).value.effect.cloud;
      && SameRoster(e.cloud.instances, c.instances)
      && c.(instances := e.cloud.instances, volumes := e.cloud.volumes, calls := e.cloud.calls, nextId := e.cloud.nextId) == e.cloud
      && c.nextId >= e.cloud.nextId
  {
    var waited := e.(cloud := AfterWaitInstance(e.cloud, vm.id, "ACTIVE"));
    var x := FindInstance(waited.cloud.instances, vm.id).value;
    var addressed := VmAddresses(waited, x, role).value;
    VmAddressesEffect(waited, x, role);
    EnsureVolumesCalls(addressed, known, x, role.volumes, |role.volumes|);
    EnsureVolumesLog(addressed, known, x, role.volumes, |role.volumes|);
  }

  /** Bringing an instance into service logs nothing but volume creations. */
  lemma FinishVmLog(e: Effect, vm: Instance, known: seq<Volume>, role: RoleSpec)
    requires FinishVm(e, vm, known, role).Ok?
    ensures LogsOnlyVolumes(e.log, FinishVm(e, vm, known, role).value.effect.log)
  {
    var waited := e.(cloud := AfterWaitInstance(e.cloud, vm.id, "ACTIVE"));
    var x := FindInstance(waited.cloud.instances, vm.id).value;
    var addressed := VmAddresses(waited, x, role).value;
    VmAddressesEffect(waited, x, role);
    ProvisionVolumesLogsOnlyVolumes(addressed, known, x, role.volumes);
  }

  /** After bringing an instance into service every provider record of its id
      is ACTIVE and carries the role's public address, if any. */
  lemma FinishVmInService(e: Effect, vm: Instance, known: seq<Volume>, role: RoleSpec)
    requires FinishVm(e, vm, known, role).Ok?
    ensures var c := FinishVm(e, vm, known, role).value.effect.cloud;
      forall y :: y in c.instances && y.id == vm.id ==>
        y.status == "ACTIVE" && (role.publicIp.Some? ==> role.publicIp.value in y.floatingIps)
  {
    var c := FinishVm(e, vm, known, role).value.effect.cloud;
    var waited := e.(cloud := AfterWaitInstance(e.cloud, vm.id, "ACTIVE"));
    var x := FindInstance(waited.cloud.instances, vm.id).value;
    var addressed := VmAddresses(waited, x, role).value;
    VmAddressesEffect(waited, x, role);
    EnsureVolumesCalls(addressed, known, x, role.volumes, |role.volumes|);
    forall y | y in c.instances && y.id == vm.id
      ensures y.status == "ACTIVE" && (role.publicIp.Some? ==> role.publicIp.value in y.floatingIps)
    {
      var i :| 0 <= i < |c.instances| && c.instances[i] == y;
      assert waited.cloud.instances[i].status == "ACTIVE";
    }
  }

  /** Every entry of the list is tracked by the provider. */
  predicate AllTracked(s: CloudState, vms: seq<Instance>)
  {
    forall i :: 0 <= i < |vms| ==> Tracks(s, vms[i])
  }

  /** Appending a record with the next id keeps the counter ahead and keeps
      every tracked entry, and the appended one, tracked. */
  lemma AppendTracked(s: CloudState, t: CloudState, vms: seq<Instance>, vm: Instance)
    requires IdsFresh(s) && AllTracked(s, vms)
    requires t.instances == s.instances + [vm] && vm.id == s.nextId && t.nextId == s.nextId + 1
    ensures IdsFresh(t) && AllTracked(t, vms + [vm])
  {
    AppendFresh(s, t, vm);
    forall i | 0 <= i < |vms|
      ensures Tracks(t, vms[i])
    {
      AppendKeepsTracks(s, t, vm, vms[i]);
    }
    assert forall i :: 0 <= i < |vms| ==> (vms + [vm])[i] == vms[i];
  }

  /** Appending a record with the next id keeps the ids fresh and tracks it. */
  lemma AppendFresh(s: CloudState, t: CloudState, vm: Instance)
    requires IdsFresh(s)
    requires t.instances == s.instances + [vm] && vm.id == s.nextId && t.nextId == s.nextId + 1
    ensures IdsFresh(t) && Tracks(t, vm)
  {
    assert vm in t.instances;
    forall i, j | 0 <= i < j < |t.instances|
      ensures t.instances[i].id != t.instances[j].id
    {
      assert t.instances[i] == s.instances[i];
      if j < |s.instances| {
        assert t.instances[j] == s.instances[j];
      } else {
        assert s.instances[i] in s.instances;
      }
    }
    forall y | y in t.instances && y.id == vm.id
      ensures y == vm
    {
      assert y in s.instances || y == vm;
    }
  }

  /** Appending a record with the next id keeps a tracked instance tracked. */
  lemma AppendKeepsTracks(s: CloudState, t: CloudState, vm: Instance, x: Instance)
    requires IdsFresh(s) && Tracks(s, x)
    requires t.instances == s.instances + [vm] && vm.id == s.nextId
    ensures Tracks(t, x)
  {
    var y := FindInstance(s.instances, x.id).value;
    assert y in t.instances;
    assert x.id < vm.id;
    forall z | z in t.instances && z.id == x.id
      ensures z in s.instances
    {
      assert z in s.instances || z == vm;
    }
  }

  /** Appending a record with the next id and then waiting for it keeps the
      counter ahead and keeps the list, with the new record, tracked. */
  lemma AppendThenWait(s: CloudState, t: CloudState, vms: seq<Instance>, vm: Instance, status: string)
    requires IdsFresh(s) && AllTracked(s, vms)
    requires t.instances == s.instances + [vm] && vm.id == s.nextId && t.nextId == s.nextId + 1
    ensures var w := AfterWaitInstance(t, vm.id, status);
      IdsFresh(w) && AllTracked(w, vms + [vm])
  {
    AppendTracked(s, t, vms, vm);
    WaitKeepsRoster(t, vm.id, status);
    IdsFreshRoster(t, AfterWaitInstance(t, vm.id, status));
    AllTrackedRoster(t, AfterWaitInstance(t, vm.id, status), vms + [vm]);
  }

  /** Tracking depends only on the roster of ids and names. */
  lemma AllTrackedRoster(s: CloudState, t: CloudState, vms: seq<Instance>)
    requires SameRoster(s.instances, t.instances) && AllTracked(s, vms)
    ensures AllTracked(t, vms)
  {
    forall i | 0 <= i < |vms|
      ensures Tracks(t, vms[i])
    {
      TracksRoster(s, t, vms[i]);
    }
  }

  /** A finished wait changes only statuses. */
  lemma WaitKeepsRoster(s: CloudState, id: nat, status: string)
    ensures SameRoster(s.instances, AfterWaitInstance(s, id, status).instances)
    ensures AfterWaitInstance(s, id, status).nextId == s.nextId
  {
  }

  /** A roster kept and an id counter not lowered keep every id below the counter. */
  lemma IdsFreshRoster(s: CloudState, t: CloudState)
    requires IdsFresh(s) && SameRoster(s.instances, t.instances) && t.nextId >= s.nextId
    ensures IdsFresh(t)
  {
    forall y | y in t.instances
      ensures y.id < t.nextId
    {
      var i :| 0 <= i < |t.instances| && t.instances[i] == y;
      assert s.instances[i] in s.instances;
    }
  }

  /** Bringing a tracked instance into service keeps the id counter ahead, keeps
      every tracked entry tracked, and tracks the reloaded record as well. */
  lemma FinishVmTracks(e: Effect, vm: Instance, known: seq<Volume>, role: RoleSpec, vms: seq<Instance>)
    ensures IdsFresh(e.cloud) && AllTracked(e.cloud, vms) && Tracks(e.cloud, vm) && FinishVm(e, vm, known, role).Ok? ==>
      var p := FinishVm(e, vm, known, role).value;
      IdsFresh(p.effect.cloud) && AllTracked(p.effect.cloud, vms) && Tracks(p.effect.cloud, p.vm)
  {
    if IdsFresh(e.cloud) && AllTracked(e.cloud, vms) && Tracks(e.cloud, vm) && FinishVm(e, vm, known, role).Ok? {
      var p := FinishVm(e, vm, known, role).value;
      FinishVmResult(e, vm, known, role);
      FinishVmFrame(e, vm, known, role);
      IdsFreshRoster(e.cloud, p.effect.cloud);
      AllTrackedRoster(e.cloud, p.effect.cloud, vms);
      TracksRoster(e.cloud, p.effect.cloud, vm);
    }
  }

  /** Creating an instance leaves the groups alone. */
  lemma ProvisionVmKeepsGroups(e: Effect, cat: Catalogue, name: string, secGroups: seq<string>, role: RoleSpec,
                               network: string, serverGroupName: string)
    ensures ProvisionVmEffect(e, cat, name, secGroups, role, network, serverGroupName).Ok? ==>
      GroupsKept(e.cloud, ProvisionVmEffect(e, cat, name, secGroups, role, network, serverGroupName).value.effect.cloud)
  {
    if ProvisionVmEffect(e, cat, name, secGroups, role, network, serverGroupName).Ok? {
      ProvisionVmCreates(e, cat, name, secGroups, role, network, serverGroupName);
    }
  }

  /** Bringing an instance into service leaves the groups alone. */
  lemma FinishVmKeepsGroups(e: Effect, vm: Instance, known: seq<Volume>, role: RoleSpec)
    ensures FinishVm(e, vm, known, role).Ok? ==> GroupsKept(e.cloud, FinishVm(e, vm, known, role).value.effect.cloud)
  {
    if FinishVm(e, vm, known, role).Ok? {
      FinishVmFrame(e, vm, known, role);
    }
  }

  /** Replacing a tracked entry by a tracked record keeps the list tracked. */
  lemma AllTrackedUpdate(s: CloudState, vms: seq<Instance>, i: nat, vm: Instance)
    requires i < |vms|
    ensures AllTracked(s, vms) && Tracks(s, vm) ==> AllTracked(s, vms[i := vm])
  {
  }
}
