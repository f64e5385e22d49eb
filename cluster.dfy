/**
  The cluster object of the command-line tool. It holds the configuration,
  the provider connection, the frontend, nodes and volumes it currently
  knows of, and the provisioning log of the session. Each method performs
  one step of the reconciliation against the provider in place and is
  proved to leave exactly the state that the matching transformation of
  the Groups, Volumes, Instances, Reconcile, Discovery, Lifecycle and
  Inventory modules describes; what those transformations guarantee is
  proved there.
*/
module Poutacluster {
  import opened Wrappers
  import opened Provider
  import opened Naming
  import opened Audit
  import opened ClusterConfig
  import opened Groups
  import opened Volumes
  import opened Instances
  import opened Discovery
  import opened Reconcile
  import opened Lifecycle
  import opened Inventory

  lemma AppendAssoc<T>(a: seq<T>, b: seq<T>, c: seq<T>)
    ensures (a + b) + c == a + (b + c)
  {
  }

  /** Taking one more element of a sequence. */
  lemma TakeOneMore<T>(s: seq<T>, k: nat)
    requires k < |s|
    ensures s[..k + 1][..k] == s[..k] && s[..k + 1] == s[..k] + [s[k]]
  {
  }

  /** Taking a whole sequence, or the part before an appended element. */
  lemma TakeAll<T>(s: seq<T>, tail: seq<T>)
    ensures s[..|s|] == s && (s + tail)[..|s|] == s && s + [] == s
  {
  }

  /** Dropping one more element of a sequence. */
  lemma DropOneMore<T>(s: seq<T>, j: nat)
    requires j < |s|
    ensures s[j..][1..] == s[j + 1..] && s[j..][0] == s[j]
  {
  }

  /** A method's outcome as a result: the error it reports, or else the
      value it leaves behind. */
  function AsResult<T>(err: Option<Error>, value: T): (r: Result<T, Error>)
    ensures r.Ok? <==> err.None?
    ensures r.Ok? ==> r.value == value
    ensures r.Err? ==> r.error == err.value
  {
    if err.None? then Ok(value) else Err(err.value)
  }

  class Cluster {
    const config: Config
    const cloud: Cloud
    /** The cluster name, taken from the configuration. */
    const name: string := config.name
    var frontend: Option<Instance>
    var nodes: seq<Instance>
    var volumes: seq<Volume>
    var provisioningLog: seq<LogEntry>

    /** A new cluster holds nothing and has logged nothing. */
    constructor (config: Config, cloud: Cloud)
      ensures this.config == config && this.cloud == cloud
      ensures frontend == None && nodes == [] && volumes == [] && provisioningLog == []
    {
      this.config := config;
      this.cloud := cloud;
      frontend := None;
      nodes := [];
      volumes := [];
      provisioningLog := [];
    }

    /** The provider's state together with the log. */
    function Current(): Effect
      reads this, cloud
    {
      Effect(cloud.state, provisioningLog)
    }

    /** What the cluster holds. */
    function Held(): Topology
      reads this
    {
      Topology(frontend, nodes, volumes)
    }

    /** The node list together with the state reached. */
    function NodeProgress(): NodesState
      reads this, cloud
    {
      NodesState(Current(), nodes)
    }

    /** __prov_log: appends one entry and changes nothing else. */
    method ProvLog(action: Action, resourceType: Resource, id: nat, info: string)
      modifies this`provisioningLog
      ensures provisioningLog == old(provisioningLog) + [LogEntry(action, resourceType, id, info)]
    {
      provisioningLog := provisioningLog + [LogEntry(action, resourceType, id, info)];
    }

    /** __provision_vm: the lookups in order, then the create request and its
        log entry. */
    method ProvisionVm(vmName: string, secGroups: seq<string>, role: RoleSpec, network: string,
                       serverGroupName: string)
      returns (r: Result<Instance, Error>)
      modifies this`provisioningLog, cloud
      ensures var p := ProvisionVmEffect(old(Current()), cloud.catalogue, vmName, secGroups, role,
                                         network, serverGroupName);
        && (r.Ok? <==> p.Ok?)
        && (r.Ok? ==> Current() == p.value.effect && r.value == p.value.vm)
        && (r.Err? ==> r.error == p.error && Current() == old(Current()))
    {
      var image := LookupIn(cloud.catalogue.images, "image", role.image);
      if image.Err? {
        return Err(image.error);
      }
      var flavor := LookupIn(cloud.catalogue.flavors, "flavor", role.flavor);
      if flavor.Err? {
        return Err(flavor.error);
      }
      var group: Option<nat> := None;
      if serverGroupName != "" {
        var g := FindGroup(cloud.state.serverGroups, serverGroupName);
        if g.None? {
          return Err(NotFound("server group", serverGroupName));
        }
        group := Some(g.value.id);
      }
      var net := LookupIn(cloud.catalogue.networks, "network", NetworkName(cloud.catalogue, network));
      if net.Err? {
        return Err(net.error);
      }
      var vm := cloud.CreateVm(vmName, image.value, flavor.value, role.secKey, secGroups, net.value, group);
      ProvLog(Create, VmResource, vm.id, vmName);
      r := Ok(vm);
    }

    /** __provision_vm_addresses: fails on an instance without an internal
        address, otherwise associates the role's public address, if any. */
    method ProvisionVmAddresses(vm: Instance, role: RoleSpec) returns (err: Option<Error>)
      modifies cloud
      ensures var p := VmAddresses(old(Current()), vm, role);
        && (err.None? <==> p.Ok?)
        && (err.None? ==> Current() == p.value)
        && (err.Some? ==> err.value == p.error && Current() == old(Current()))
    {
      if vm.fixedIps == [] {
        return Some(NoAddress(vm.name));
      }
      if role.publicIp.Some? {
        cloud.AddFloatingIp(vm.id, role.publicIp.value);
      }
      err := None;
    }

    /** __provision_volumes: one entry after the other on devices vdc, vdd, ...;
        the letter after chr(255) does not exist, so the entry on vdÿ is the
        last one processed. */
    method ProvisionVolumes(vm: Instance, specs: seq<VolumeSpec>) returns (err: Option<Error>)
      modifies this`provisioningLog, cloud
      ensures AsResult(err, Current()) == Volumes.ProvisionVolumes(old(Current()), volumes, vm, specs)
    {
      ghost var e0 := Current();
      var vd: char := 'c';
      var k := 0;
      while k < |specs|
        invariant k <= |specs| && k <= MaxVolumes
        invariant vd as int == 'c' as int + k
        invariant Current() == EnsureVolumes(e0, volumes, vm, specs, k)
      {
        var device := "/dev/vd" + [vd];
        assert device == Device(k);
        ApplyEntry(vm, specs[k], device);
        assert Current() == EnsureVolumes(e0, volumes, vm, specs, k + 1);
        if vd as int + 1 > 255 {
          return Some(DeviceLetterOverflow);
        }
        vd := (vd as int + 1) as char;
        k := k + 1;
      }
      err := None;
    }

    /** The body of the loop of __provision_volumes for one entry: attach the
        held volume of that name when it is not attached to the instance yet,
        or create and attach a new one and log it. */
    method ApplyEntry(vm: Instance, spec: VolumeSpec, device: string)
      modifies this`provisioningLog, cloud
      ensures Current() == ApplyVolumeStep(old(Current()), vm, PlanVolume(volumes, vm, spec), device)
    {
      var volName := VolumeName(vm.name, spec.name);
      var existing := FindExisting(volName);
      if existing.Some? {
        if !AttachedTo(existing.value, vm.id) {
          cloud.AttachVolume(existing.value.id, vm.id, device);
        }
      } else {
        var v := cloud.CreateAndAttachVolume(volName, spec.size, vm.id, device);
        ProvLog(Create, VolumeResource, v.id, volName);
      }
    }

    /** The lookup loop of __provision_volumes: the first held volume of that
        display name. */
    method FindExisting(volName: string) returns (existing: Option<Volume>)
      ensures existing == FindVolumeNamed(volumes, volName)
    {
      existing := None;
      var j := 0;
      while j < |volumes|
        invariant j <= |volumes|
        invariant FindVolumeNamed(volumes, volName) == FindVolumeNamed(volumes[j..], volName)
      {
        DropOneMore(volumes, j);
        if volumes[j].displayName == volName {
          existing := Some(volumes[j]);
          break;
        }
        j := j + 1;
      }
    }

    /** __provision_sec_groups: `<cluster>-ext` and `<cluster>-int`, each only
        when missing; the rules of the internal group only when it is made. */
    method ProvisionSecGroups()
      modifies this`provisioningLog, cloud
      ensures Current() == EnsureSecGroups(old(Current()), name, config.allowFrom)
    {
      var ext := ExtGroupName(name);
      if !HasSecGroup(cloud.state, ext) {
        var g := cloud.CreateSecGroup(ext, ExtDescription(name));
        ProvLog(Create, SecGroupResource, g.id, g.name);
      }
      var intg := IntGroupName(name);
      if !HasSecGroup(cloud.state, intg) {
        var g := cloud.CreateSecGroup(intg, IntDescription(name));
        ProvLog(Create, SecGroupResource, g.id, g.name);
        cloud.CreateLocalAccessRules(intg, intg);
        ghost var base := cloud.state;
        var sources := config.allowFrom;
        var i := 0;
        while i < |sources|
          invariant i <= |sources|
          invariant cloud.state == AfterAccessRules(base, intg, sources[..i])
          modifies cloud
        {
          cloud.CreateLocalAccessRules(intg, sources[i]);
          TakeOneMore(sources, i);
          i := i + 1;
        }
        TakeAll(sources, []);
      }
    }

    /** __provision_server_group: the group named after the cluster, only
        when missing. */
    method ProvisionServerGroup()
      modifies this`provisioningLog, cloud
      ensures Current() == EnsureServerGroup(old(Current()), name)
    {
      if !HasServerGroup(cloud.state, name) {
        var id := cloud.CreateServerGroup(name);
        ProvLog(Create, ServerGroupResource, id, name);
      }
    }

    /** __provision_frontend: create the frontend when none is held, wait for
        it, hold its reloaded record, then addresses and volumes. */
    method ProvisionFrontend() returns (err: Option<Error>)
      modifies this`frontend, this`provisioningLog, cloud
      ensures var p := EnsureFrontend(old(Current()), old(frontend), cloud.catalogue, config, volumes);
        && (err.None? <==> p.Ok?)
        && (err.None? ==> frontend == Some(p.value.vm) && Current() == p.value.effect)
        && (err.Some? ==> err.value == p.error)
    {
      if frontend.None? {
        var r := ProvisionVm(FrontendName(name), [ExtGroupName(name), IntGroupName(name)],
                             config.frontend, config.network, name);
        if r.Err? {
          return Some(r.error);
        }
        frontend := Some(r.value);
      }
      ghost var created := Current();
      var fe := frontend.value;
      cloud.WaitForInstance(fe.id, "ACTIVE");
      var reloaded := FindInstance(cloud.state.instances, fe.id);
      if reloaded.None? {
        return Some(NotFound("instance", fe.name));
      }
      frontend := reloaded;
      err := ProvisionVmAddresses(reloaded.value, config.frontend);
      if err.Some? {
        return;
      }
      err := ProvisionVolumes(reloaded.value, config.frontend.volumes);
      assert err.None? ==> FinishVm(created, fe, volumes, config.frontend) == Ok(Provisioned(Current(), reloaded.value));
    }

    /** __provision_nodes: the first pass over 1..n, then the second pass over
        the held nodes by position. */
    method ProvisionNodes(n: nat) returns (err: Option<Error>)
      modifies this`nodes, this`provisioningLog, cloud
      ensures AsResult(err, NodeProgress()) == Reconcile.ProvisionNodes(old(NodeProgress()), cloud.catalogue, config, volumes, n)
    {
      err := LaunchNodesPass(n);
      if err.Some? {
        return;
      }
      err := FinishNodesPass();
    }

    /** The asynchronous part of __provision_nodes. */
    method LaunchNodesPass(n: nat) returns (err: Option<Error>)
      modifies this`nodes, this`provisioningLog, cloud
      ensures AsResult(err, NodeProgress()) == LaunchNodes(old(NodeProgress()), cloud.catalogue, config, n)
    {
      ghost var st0 := NodeProgress();
      var i := 1;
      while i <= n
        invariant 1 <= i <= n + 1
        invariant LaunchNodes(st0, cloud.catalogue, config, i - 1) == Ok(NodeProgress())
      {
        ghost var mid := NodeProgress();
        err := LaunchNode(i);
        LaunchNodesNext(st0, cloud.catalogue, config, i, mid);
        if err.Some? {
          LaunchNodesStaysFailed(st0, cloud.catalogue, config, i, n);
          return;
        }
        i := i + 1;
      }
      err := None;
    }

    /** The synchronous part of __provision_nodes, by position. */
    method FinishNodesPass() returns (err: Option<Error>)
      modifies this`nodes, this`provisioningLog, cloud
      ensures AsResult(err, NodeProgress()) == FinishNodes(old(NodeProgress()), volumes, config.node, 0)
    {
      ghost var goal := FinishNodes(NodeProgress(), volumes, config.node, 0);
      var k := 0;
      while k < |nodes|
        invariant k <= |nodes|
        invariant goal == FinishNodes(NodeProgress(), volumes, config.node, k)
      {
        err := FinishNodeAt(k);
        if err.Some? {
          return;
        }
        k := k + 1;
      }
      err := None;
    }

    /** Index i of the first node pass: create `<cluster>-nodeNN` when no held
        node has that name, append it and wait for BUILD. */
    method LaunchNode(i: nat) returns (err: Option<Error>)
      modifies this`nodes, this`provisioningLog, cloud
      ensures AsResult(err, NodeProgress()) == Reconcile.LaunchNode(old(NodeProgress()), cloud.catalogue, config, i)
    {
      var nodeName := NodeName(name, i);
      var found := false;
      var j := 0;
      while j < |nodes|
        invariant j <= |nodes|
        invariant found <==> exists m :: 0 <= m < j && nodes[m].name == nodeName
      {
        if nodes[j].name == nodeName {
          found := true;
        }
        j := j + 1;
      }
      assert found <==> nodeName in Names(nodes) by {
        if nodeName in Names(nodes) {
          var m :| 0 <= m < |nodes| && Names(nodes)[m] == nodeName;
        }
      }
      if !found {
        var r := ProvisionVm(nodeName, [IntGroupName(name)], config.node, config.network, name);
        if r.Err? {
          return Some(r.error);
        }
        nodes := nodes + [r.value];
        cloud.WaitForInstance(r.value.id, "BUILD");
      }
      err := None;
    }

    /** Position k of the second node pass: wait for ACTIVE, hold the reloaded
        record at position k, then addresses and volumes. */
    method FinishNodeAt(k: nat) returns (err: Option<Error>)
      requires k < |nodes|
      modifies this`nodes, this`provisioningLog, cloud
      ensures AsResult(err, NodeProgress()) == FinishNode(old(NodeProgress()), volumes, config.node, k)
      ensures |nodes| == |old(nodes)|
    {
      var node := nodes[k];
      cloud.WaitForInstance(node.id, "ACTIVE");
      var reloaded := FindInstance(cloud.state.instances, node.id);
      if reloaded.None? {
        return Some(NotFound("instance", node.name));
      }
      nodes := nodes[k := reloaded.value];
      err := ProvisionVmAddresses(reloaded.value, config.node);
      if err.Some? {
        return;
      }
      err := ProvisionVolumes(reloaded.value, config.node.volumes);
    }

    /** get_volumes_for_node: the held volumes the volume filter assigns to
        the instance of that name. */
    function GetVolumesForNode(vmName: string): (r: seq<Volume>)
      reads this
      ensures forall v :: v in r <==> v in volumes && BelongsTo(v, vmName)
      ensures |r| <= |volumes|
    {
      FilterVolumes(volumes, vmName)
    }

    /** load_provisioned_state: forget what is held and rebuild it from the
        provider's listings. */
    method LoadProvisionedState() returns (err: Option<Error>)
      modifies this`frontend, this`nodes, this`volumes
      ensures AsResult(err, Held()) == Discover(cloud.state.instances, cloud.state.volumes, name)
    {
      hide Discover;
      frontend := None;
      nodes := [];
      volumes := [];
      var vms := cloud.state.instances;
      var allVols := cloud.state.volumes;
      var feName := FrontendName(name);
      var existing := Matching(vms, feName);
      if |existing| > 1 {
        DiscoverFrom(vms, allVols, name, MaxNodeIndex + 1);
        return Some(Duplicate(feName));
      }
      if |existing| == 1 {
        frontend := Some(existing[0]);
      }
      volumes := volumes + FilterVolumes(allVols, feName);
      var i := 1;
      while i < MaxNodeIndex + 1
        invariant 1 <= i <= MaxNodeIndex + 1
        invariant ScanNodes(vms, name, i) == Ok(nodes)
        invariant volumes == FilterVolumes(allVols, feName) + ScanVolumes(allVols, name, i)
        invariant frontend == (if |existing| == 1 then Some(existing[0]) else None)
      {
        var nodeName := NodeName(name, i);
        var matches := Matching(vms, nodeName);
        ScanNodesNext(vms, allVols, name, i, nodes);
        if |matches| == 1 {
          nodes := nodes + [matches[0]];
        } else if |matches| > 1 {
          ScanNodesStaysFailed(vms, name, i + 1, MaxNodeIndex + 1);
          DiscoverFrom(vms, allVols, name, MaxNodeIndex + 1);
          return Some(Duplicate(nodeName));
        }
        AppendAssoc(FilterVolumes(allVols, feName), ScanVolumes(allVols, name, i), FilterVolumes(allVols, nodeName));
        volumes := volumes + FilterVolumes(allVols, nodeName);
        i := i + 1;
      }
      DiscoverFrom(vms, allVols, name, i);
      err := None;
    }

    /** up: the group ensures, the frontend, the nodes, then a wait for every
        held volume to be in-use. */
    method Up(n: nat) returns (err: Option<Error>)
      modifies this`frontend, this`nodes, this`provisioningLog, cloud
      ensures AsResult(err, Session(Current(), Held())) == Lifecycle.Up(old(Current()), old(Held()), cloud.catalogue, config, n)
    {
      ProvisionSecGroups();
      ProvisionServerGroup();
      err := ProvisionFrontend();
      if err.Some? {
        return;
      }
      err := ProvisionNodes(n);
      if err.Some? {
        return;
      }
      ghost var before := cloud.state;
      var i := 0;
      while i < |volumes|
        invariant i <= |volumes|
        invariant cloud.state == WaitVolumes(before, volumes[..i])
        modifies cloud
      {
        cloud.WaitForVolume(volumes[i].id, "in-use");
        TakeOneMore(volumes, i);
        i := i + 1;
      }
      TakeAll(volumes, []);
    }

    /** down: the nodes from last to first, then the frontend; each is shut
        down, deleted and logged, and is no longer held. */
    method Down()
      modifies this`frontend, this`nodes, this`provisioningLog, cloud
      ensures Session(Current(), Held()) == Lifecycle.Down(old(Current()), old(Held()))
    {
      ghost var e0 := Current();
      var order := Reverse(nodes);
      var k := 0;
      while k < |order|
        invariant k <= |order|
        invariant Current() == DeleteVms(e0, order[..k])
        invariant frontend == old(frontend) && nodes == old(nodes)
      {
        var node := order[k];
        cloud.ShutdownVm(node.id);
        cloud.DeleteVm(node.id);
        ProvLog(Delete, VmResource, node.id, node.name);
        TakeOneMore(order, k);
        k := k + 1;
      }
      TakeAll(order, []);
      nodes := [];
      if frontend.Some? {
        var fe := frontend.value;
        cloud.ShutdownVm(fe.id);
        cloud.DeleteVm(fe.id);
        ProvLog(Delete, VmResource, fe.id, fe.name);
        frontend := None;
        TakeAll(order, [fe]);
      } else {
        TakeAll(order, []);
      }
    }

    /** destroy_volumes: refused while an instance is held, nothing to do
        without volumes, otherwise every held volume deleted and logged, last
        first. */
    method DestroyVolumes() returns (outcome: DestroyOutcome)
      modifies this`provisioningLog, cloud
      ensures (outcome, Current()) == Lifecycle.DestroyVolumes(old(Current()), old(Held()))
    {
      if frontend.Some? || |nodes| > 0 {
        return RefusedClusterUp;
      }
      if |volumes| == 0 {
        return NothingToDestroy;
      }
      ghost var e0 := Current();
      var order := Reverse(volumes);
      var k := 0;
      while k < |order|
        invariant k <= |order|
        invariant Current() == DeleteVolumes(e0, order[..k])
      {
        var vol := order[k];
        cloud.DeleteVolume(vol.id);
        ProvLog(Delete, VolumeResource, vol.id, vol.displayName);
        TakeOneMore(order, k);
        k := k + 1;
      }
      TakeAll(order, []);
      outcome := Destroyed;
    }

    /** generate_ansible_inventory: the warning line, then the frontend's
        block per frontend group, then per node group its header and one
        host line per held node; an instance without an internal address
        fails the listing. */
    method GenerateAnsibleInventory() returns (r: Result<seq<string>, Error>)
      ensures r == GenerateInventory(frontend, nodes, config)
    {
      if frontend.None? {
        return Ok([Warning]);
      }
      var front := FrontendBlock(frontend.value);
      if front.Err? {
        return Err(front.error);
      }
      var back := NodeBlock();
      if back.Err? {
        return Err(back.error);
      }
      r := Ok([Warning] + front.value + back.value);
    }

    /** The frontend groups of the listing, each with the frontend's host line. */
    method FrontendBlock(fe: Instance) returns (r: Result<seq<string>, Error>)
      ensures r == if config.frontend.groups != [] && fe.fixedIps == [] then Err(NoAddress(fe.name))
                   else Ok(FrontendSection(fe, config.frontend.groups, config.frontend.adminUser))
    {
      var fgs := config.frontend.groups;
      var adminUser := config.frontend.adminUser;
      var lines := [];
      var g := 0;
      while g < |fgs|
        invariant g <= |fgs|
        invariant g > 0 ==> fe.fixedIps != []
        invariant lines == FrontendSection(fe, fgs[..g], adminUser)
      {
        lines := lines + [Header(fgs[g])];
        if fe.fixedIps == [] {
          return Err(NoAddress(fe.name));
        }
        FrontendSectionNext(fe, fgs, adminUser, g);
        lines := lines + [HostLine(fe, adminUser), ""];
        g := g + 1;
      }
      TakeAll(fgs, []);
      r := Ok(lines);
    }

    /** The node groups of the listing, each with one host line per held node. */
    method NodeBlock() returns (r: Result<seq<string>, Error>)
      ensures r == if config.node.groups != [] && FirstUnaddressed(nodes).Some? then
                     Err(NoAddress(nodes[FirstUnaddressed(nodes).value].name))
                   else Ok(NodeSection(nodes, config.node.groups, config.node.adminUser))
    {
      var ngs := config.node.groups;
      var adminUser := config.node.adminUser;
      var lines := [];
      var h := 0;
      while h < |ngs|
        invariant h <= |ngs|
        invariant h > 0 ==> Addressed(nodes)
        invariant lines == NodeSection(nodes, ngs[..h], adminUser)
      {
        lines := lines + [Header(ngs[h])];
        var hosts := HostLines(adminUser);
        if hosts.Err? {
          return Err(hosts.error);
        }
        NodeSectionNext(nodes, ngs, adminUser, h);
        lines := lines + hosts.value;
        h := h + 1;
      }
      TakeAll(ngs, []);
      r := Ok(lines);
    }

    /** One host line per held node, in order; the first node without an
        internal address fails the listing. */
    method HostLines(adminUser: string) returns (r: Result<seq<string>, Error>)
      ensures r == if FirstUnaddressed(nodes).Some? then Err(NoAddress(nodes[FirstUnaddressed(nodes).value].name))
                   else Ok(NodeLines(nodes, adminUser))
    {
      var lines := [];
      var m := 0;
      while m < |nodes|
        invariant m <= |nodes|
        invariant forall q :: 0 <= q < m ==> nodes[q].fixedIps != []
        invariant Addressed(nodes[..m]) && lines == NodeLines(nodes[..m], adminUser)
      {
        if nodes[m].fixedIps == [] {
          FirstUnaddressedAt(nodes, m);
          return Err(NoAddress(nodes[m].name));
        }
        NodeLinesNext(nodes, adminUser, m);
        lines := lines + [HostLine(nodes[m], adminUser)];
        m := m + 1;
      }
      TakeAll(nodes, []);
      r := Ok(lines);
    }

    /** get_provisioning_log: a copy of the log; a sequence is a value, so the
        caller cannot change the cluster's log through it. */
    method GetProvisioningLog() returns (r: seq<LogEntry>)
      ensures r == provisioningLog
    {
      r := provisioningLog;
    }
  }
}
