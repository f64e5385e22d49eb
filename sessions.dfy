/**
  Two sessions of the tool. Each invocation starts from nothing but the
  provider's listings: it discovers the cluster, and `up` then works on what
  discovery found. Between two invocations the provider completes the
  volume attaches the first one left in progress (Provider.Settle). This
  module follows a successful `up` into the next session: discovery finds
  the frontend and the nodes `up` left, and a second `up` on that topology
  requests nothing that is logged.
*/
module Sessions {
  import opened Wrappers
  import opened Provider
  import opened Naming
  import opened Audit
  import opened ClusterConfig
  import opened Groups
  import opened Volumes
  import opened Instances
  import opened Discovery
  import opened Reconcile
  import opened Lifecycle

  // Discovery and tracking.

  /** A listed record is tracked when no other record shares its id. */
  lemma ListedTracked(s: CloudState, x: Instance)
    requires IdsDistinct(s.instances) && x in s.instances
    ensures Tracks(s, x)
  {
    var i :| 0 <= i < |s.instances| && s.instances[i] == x;
    forall y | y in s.instances && y.id == x.id
      ensures y == x
    {
      var j :| 0 <= j < |s.instances| && s.instances[j] == y;
      assert i == j;
    }
  }

  /** With distinct provider ids, everything discovery reports is tracked:
      the nodes are all tracked, and so is the frontend. This is what `up`
      relies on about the topology it is handed. */
  lemma DiscoverTracked(s: CloudState, cluster: string)
    requires IdsFresh(s)
    requires Discover(s.instances, s.volumes, cluster).Ok?
    ensures var t := Discover(s.instances, s.volumes, cluster).value;
      && AllTracked(s, t.nodes)
      && (t.frontend.Some? ==> Tracks(s, t.frontend.value))
  {
    var t := Discover(s.instances, s.volumes, cluster).value;
    var idx := DiscoverNodesOrdered(s.instances, s.volumes, cluster);
    forall j | 0 <= j < |t.nodes|
      ensures Tracks(s, t.nodes[j])
    {
      ListedTracked(s, t.nodes[j]);
    }
    if t.frontend.Some? {
      ListedTracked(s, t.frontend.value);
    }
  }

  // Volumes that outlast a session.

  /** A status a volume keeps until someone acts on it: in use, available,
      or an attach in progress. */
  predicate Lasting(status: string)
  {
    status == "in-use" || status == "available" || status == "attaching"
  }

  /** Some volume of `vols` with display name `name` has a lasting status. */
  predicate Stored(vols: seq<Volume>, name: string)
  {
    exists w :: w in vols && w.displayName == name && Lasting(w.status)
  }

  /** Every name stored in `a` is stored in `b`. */
  ghost predicate KeepsStored(a: seq<Volume>, b: seq<Volume>)
  {
    forall name :: Stored(a, name) ==> Stored(b, name)
  }

  /** Every volume of `known` has its name stored in `vols`. */
  predicate KnownStored(vols: seq<Volume>, known: seq<Volume>)
  {
    forall v :: v in known ==> Stored(vols, v.displayName)
  }

  /** The first n entries of `specs` are stored for the instance `vm`. */
  predicate StoredFor(vols: seq<Volume>, vm: string, specs: seq<VolumeSpec>, n: nat)
  {
    forall k :: 0 <= k < n && k < |specs| ==> Stored(vols, VolumeName(vm, specs[k].name))
  }

  lemma KeepsStoredTrans(a: seq<Volume>, b: seq<Volume>, c: seq<Volume>)
    requires KeepsStored(a, b) && KeepsStored(b, c)
    ensures KeepsStored(a, c)
  {
  }

  /** What is stored for an instance, or known, stays so. */
  lemma KeepsStoredFor(a: seq<Volume>, b: seq<Volume>, vm: string, specs: seq<VolumeSpec>, n: nat, known: seq<Volume>)
    requires KeepsStored(a, b)
    ensures StoredFor(a, vm, specs, n) ==> StoredFor(b, vm, specs, n)
    ensures KnownStored(a, known) ==> KnownStored(b, known)
  {
  }

  /** Changing volumes in place, keeping names and either keeping the status
      or making it in-use, keeps every stored name. */
  lemma InPlaceKeepsStored(a: seq<Volume>, b: seq<Volume>)
    requires |a| == |b|
    requires forall i :: 0 <= i < |a| ==>
      b[i].displayName == a[i].displayName && (b[i].status == a[i].status || b[i].status == "in-use")
    ensures KeepsStored(a, b)
  {
    forall name | Stored(a, name)
      ensures Stored(b, name)
    {
      var w :| w in a && w.displayName == name && Lasting(w.status);
      var i :| 0 <= i < |a| && a[i] == w;
      assert b[i] in b;
    }
  }

  /** Appending volumes keeps every stored name. */
  lemma AppendKeepsStored(a: seq<Volume>, b: seq<Volume>)
    requires a <= b
    ensures KeepsStored(a, b)
  {
    forall name | Stored(a, name)
      ensures Stored(b, name)
    {
      var w :| w in a && w.displayName == name && Lasting(w.status);
      var i :| 0 <= i < |a| && a[i] == w;
      assert b[i] in b;
    }
  }

  /** One volume decision keeps every stored name, and a created volume is
      stored under its name. */
  lemma ApplyStepStores(e: Effect, vm: Instance, step: VolumeStep, device: string)
    ensures var r := ApplyVolumeStep(e, vm, step, device);
      && KeepsStored(e.cloud.volumes, r.cloud.volumes)
      && (step.CreateNew? ==> Stored(r.cloud.volumes, step.name))
  {
    var r := ApplyVolumeStep(e, vm, step, device);
    match step
    case AlreadyAttached =>
    case AttachExisting(v) =>
      InPlaceKeepsStored(e.cloud.volumes, r.cloud.volumes);
    case CreateNew(name, size) =>
      AppendKeepsStored(e.cloud.volumes, r.cloud.volumes);
      assert r.cloud.volumes[|e.cloud.volumes|] in r.cloud.volumes;
  }

  /** Processing the first n entries keeps every stored name and leaves each
      of their names stored, provided the volumes checked against are. */
  lemma {:induction false} EnsureVolumesStores(e: Effect, known: seq<Volume>, vm: Instance,
                                              specs: seq<VolumeSpec>, n: nat)
    requires n <= |specs| && n <= MaxVolumes + 1
    requires KnownStored(e.cloud.volumes, known)
    ensures var r := EnsureVolumes(e, known, vm, specs, n);
      KeepsStored(e.cloud.volumes, r.cloud.volumes) && StoredFor(r.cloud.volumes, vm.name, specs, n)
    decreases n
  {
    hide ApplyVolumeStep, PlanVolume;
    if n > 0 {
      EnsureVolumesStores(e, known, vm, specs, n - 1);
      var mid := EnsureVolumes(e, known, vm, specs, n - 1);
      var step := PlanVolume(known, vm, specs[n - 1]);
      var r := EnsureVolumes(e, known, vm, specs, n);
      ApplyStepStores(mid, vm, step, Device(n - 1));
      KeepsStoredTrans(e.cloud.volumes, mid.cloud.volumes, r.cloud.volumes);
      KeepsStoredFor(mid.cloud.volumes, r.cloud.volumes, vm.name, specs, n - 1, known);
      var name := VolumeName(vm.name, specs[n - 1].name);
      if !step.CreateNew? {
        var v :| v in known && v.displayName == name;
        assert Stored(e.cloud.volumes, name);
      }
      assert Stored(r.cloud.volumes, name);
    }
  }

  /** Bringing an instance into service keeps every stored name and leaves
      the names of its role's volumes stored under the reloaded record's
      name; its role's list fits the device letters. */
  lemma FinishVmStores(e: Effect, vm: Instance, known: seq<Volume>, role: RoleSpec)
    requires KnownStored(e.cloud.volumes, known)
    requires FinishVm(e, vm, known, role).Ok?
    ensures var p := FinishVm(e, vm, known, role).value;
      && KeepsStored(e.cloud.volumes, p.effect.cloud.volumes)
      && StoredFor(p.effect.cloud.volumes, p.vm.name, role.volumes, |role.volumes|)
      && |role.volumes| <= MaxVolumes
  {
    var waited := e.(cloud := AfterWaitInstance(e.cloud, vm.id, "ACTIVE"));
    var x := FindInstance(waited.cloud.instances, vm.id).value;
    var addressed := VmAddresses(waited, x, role).value;
    VmAddressesEffect(waited, x, role);
    assert addressed.cloud.volumes == e.cloud.volumes;
    EnsureVolumesStores(addressed, known, x, role.volumes, |role.volumes|);
  }

  /** The second node pass from position k keeps every stored name and leaves
      the volume names of every entry it brought into service stored; when it
      brought any, the node role's list fits the device letters. */
  lemma {:induction false} FinishNodesStores(st: NodesState, known: seq<Volume>, role: RoleSpec, k: nat)
    requires k <= |st.nodes|
    requires KnownStored(st.effect.cloud.volumes, known)
    requires FinishNodes(st, known, role, k).Ok?
    ensures var r := FinishNodes(st, known, role, k).value;
      && KeepsStored(st.effect.cloud.volumes, r.effect.cloud.volumes)
      && (forall j :: k <= j < |r.nodes| ==>
            StoredFor(r.effect.cloud.volumes, r.nodes[j].name, role.volumes, |role.volumes|))
      && (k < |st.nodes| ==> |role.volumes| <= MaxVolumes)
    decreases |st.nodes| - k
  {
    hide FinishVm;
    if k < |st.nodes| {
      var p := FinishVm(st.effect, st.nodes[k], known, role).value;
      var next := FinishNode(st, known, role, k).value;
      assert next == NodesState(p.effect, st.nodes[k := p.vm]);
      FinishVmStores(st.effect, st.nodes[k], known, role);
      KeepsStoredFor(st.effect.cloud.volumes, next.effect.cloud.volumes, "", [], 0, known);
      FinishNodesStores(next, known, role, k + 1);
      FinishNodesEnsures(next, known, role, k + 1);
      var r := FinishNodes(next, known, role, k + 1).value;
      assert r.nodes[k] == next.nodes[k];
      KeepsStoredTrans(st.effect.cloud.volumes, next.effect.cloud.volumes, r.effect.cloud.volumes);
      KeepsStoredFor(next.effect.cloud.volumes, r.effect.cloud.volumes, p.vm.name, role.volumes, |role.volumes|, known);
    } else {
      assert FinishNodes(st, known, role, k) == Ok(st);
    }
  }

  /** The first node pass leaves the volumes alone. */
  lemma {:induction false} LaunchNodesKeepVolumes(st: NodesState, cat: Catalogue, cfg: Config, n: nat)
    requires LaunchNodes(st, cat, cfg, n).Ok?
    ensures LaunchNodes(st, cat, cfg, n).value.effect.cloud.volumes == st.effect.cloud.volumes
    decreases n
  {
    if n > 0 {
      LaunchNodesKeepVolumes(st, cat, cfg, n - 1);
      var mid := LaunchNodes(st, cat, cfg, n - 1).value;
      var name := NodeName(cfg.name, n);
      if name !in Names(mid.nodes) {
        ProvisionVmCreates(mid.effect, cat, name, [IntGroupName(cfg.name)], cfg.node, cfg.network, cfg.name);
      }
    }
  }

  /** The closing wait keeps every stored name. */
  lemma {:induction false} WaitVolumesStores(s: CloudState, vols: seq<Volume>)
    ensures KeepsStored(s.volumes, WaitVolumes(s, vols).volumes)
    decreases |vols|
  {
    if vols != [] {
      var mid := WaitVolumes(s, vols[..|vols| - 1]);
      WaitVolumesStores(s, vols[..|vols| - 1]);
      InPlaceKeepsStored(mid.volumes, AfterWaitVolume(mid, vols[|vols| - 1].id, "in-use").volumes);
      KeepsStoredTrans(s.volumes, mid.volumes, WaitVolumes(s, vols).volumes);
    }
  }

  /** The frontend ensure keeps every stored name and leaves the names of the
      frontend role's volumes stored under the frontend's name. */
  lemma EnsureFrontendStores(e: Effect, frontend: Option<Instance>, cat: Catalogue, cfg: Config, known: seq<Volume>)
    requires KnownStored(e.cloud.volumes, known)
    requires EnsureFrontend(e, frontend, cat, cfg, known).Ok?
    ensures var p := EnsureFrontend(e, frontend, cat, cfg, known).value;
      && KeepsStored(e.cloud.volumes, p.effect.cloud.volumes)
      && StoredFor(p.effect.cloud.volumes, p.vm.name, cfg.frontend.volumes, |cfg.frontend.volumes|)
      && |cfg.frontend.volumes| <= MaxVolumes
  {
    if frontend.Some? {
      FinishVmStores(e, frontend.value, known, cfg.frontend);
    } else {
      var groups := [ExtGroupName(cfg.name), IntGroupName(cfg.name)];
      var c := ProvisionVmEffect(e, cat, FrontendName(cfg.name), groups, cfg.frontend, cfg.network, cfg.name).value;
      ProvisionVmCreates(e, cat, FrontendName(cfg.name), groups, cfg.frontend, cfg.network, cfg.name);
      assert c.effect.cloud.volumes == e.cloud.volumes;
      FinishVmStores(c.effect, c.vm, known, cfg.frontend);
    }
  }

  /** After a successful `up` the volumes of the frontend role are stored
      under the frontend's name and those of the node role under every
      node's name, provided the held volumes were stored to begin with; the
      lists up processed fit the device letters. */
  lemma UpStores(e: Effect, t: Topology, cat: Catalogue, cfg: Config, n: nat)
    requires KnownStored(e.cloud.volumes, t.volumes)
    requires Up(e, t, cat, cfg, n).Ok?
    ensures var r := Up(e, t, cat, cfg, n).value;
      var vols := r.effect.cloud.volumes;
      && r.topology.frontend.Some?
      && StoredFor(vols, r.topology.frontend.value.name, cfg.frontend.volumes, |cfg.frontend.volumes|)
      && (forall j :: 0 <= j < |r.topology.nodes| ==>
            StoredFor(vols, r.topology.nodes[j].name, cfg.node.volumes, |cfg.node.volumes|))
      && |cfg.frontend.volumes| <= MaxVolumes
      && (r.topology.nodes != [] ==> |cfg.node.volumes| <= MaxVolumes)
  {
    var grouped, fe, st := UpParts(e, t, cat, cfg, n);
    SecGroupsAdds(e, cfg.name, cfg.allowFrom);
    assert grouped.cloud.volumes == e.cloud.volumes;
    EnsureFrontendStores(grouped, t.frontend, cat, cfg, t.volumes);
    var st0 := NodesState(fe.effect, t.nodes);
    var launched := LaunchNodes(st0, cat, cfg, n).value;
    assert ProvisionNodes(st0, cat, cfg, t.volumes, n) == FinishNodes(launched, t.volumes, cfg.node, 0);
    LaunchNodesKeepVolumes(st0, cat, cfg, n);
    KeepsStoredFor(grouped.cloud.volumes, fe.effect.cloud.volumes, "", [], 0, t.volumes);
    FinishNodesStores(launched, t.volumes, cfg.node, 0);
    var c := WaitVolumes(st.effect.cloud, t.volumes);
    WaitVolumesStores(st.effect.cloud, t.volumes);
    KeepsStoredTrans(launched.effect.cloud.volumes, st.effect.cloud.volumes, c.volumes);
    KeepsStoredFor(launched.effect.cloud.volumes, c.volumes, fe.vm.name, cfg.frontend.volumes,
                   |cfg.frontend.volumes|, t.volumes);
    forall j | 0 <= j < |st.nodes|
      ensures StoredFor(c.volumes, st.nodes[j].name, cfg.node.volumes, |cfg.node.volumes|)
    {
      KeepsStoredFor(st.effect.cloud.volumes, c.volumes, st.nodes[j].name, cfg.node.volumes,
                     |cfg.node.volumes|, t.volumes);
    }
  }

  // The instances a session leaves.

  lemma RosterNames(a: seq<Instance>, b: seq<Instance>)
    requires SameRoster(a, b)
    ensures Names(a) == Names(b)
  {
  }

  lemma SameRosterTrans(a: seq<Instance>, b: seq<Instance>, c: seq<Instance>)
    requires SameRoster(a, b) && SameRoster(b, c)
    ensures SameRoster(a, c)
  {
  }

  lemma NamesAppend(a: seq<Instance>, b: seq<Instance>)
    ensures Names(a + b) == Names(a) + Names(b)
  {
  }

  /** The second node pass keeps the provider's roster. */
  lemma {:induction false} FinishNodesRoster(st: NodesState, known: seq<Volume>, role: RoleSpec, k: nat)
    requires k <= |st.nodes|
    requires FinishNodes(st, known, role, k).Ok?
    ensures SameRoster(st.effect.cloud.instances, FinishNodes(st, known, role, k).value.effect.cloud.instances)
    decreases |st.nodes| - k
  {
    hide FinishVm;
    if k < |st.nodes| {
      var next := FinishNode(st, known, role, k).value;
      FinishVmFrame(st.effect, st.nodes[k], known, role);
      FinishNodesRoster(next, known, role, k + 1);
      SameRosterTrans(st.effect.cloud.instances, next.effect.cloud.instances,
                      FinishNodes(next, known, role, k + 1).value.effect.cloud.instances);
    } else {
      assert FinishNodes(st, known, role, k) == Ok(st);
    }
  }

  /** One index of the first pass: the provider's roster and the entries
      from position k on both gain the appended name, if any. */
  lemma LaunchNodeRoster(mid: NodesState, cat: Catalogue, cfg: Config, i: nat, k: nat)
    requires k <= |mid.nodes|
    requires LaunchNode(mid, cat, cfg, i).Ok?
    ensures var r := LaunchNode(mid, cat, cfg, i).value;
      var added := if NodeName(cfg.name, i) in Names(mid.nodes) then [] else [NodeName(cfg.name, i)];
      && Names(r.effect.cloud.instances) == Names(mid.effect.cloud.instances) + added
      && NamesFrom(r.nodes, k) == NamesFrom(mid.nodes, k) + added
  {
    var name := NodeName(cfg.name, i);
    if name !in Names(mid.nodes) {
      var p := ProvisionVmEffect(mid.effect, cat, name, [IntGroupName(cfg.name)], cfg.node, cfg.network, cfg.name).value;
      var r := LaunchNode(mid, cat, cfg, i).value;
      WaitKeepsRoster(p.effect.cloud, p.vm.id, "BUILD");
      RosterNames(p.effect.cloud.instances, r.effect.cloud.instances);
      NamesAppend(mid.effect.cloud.instances, [p.vm]);
      assert r.nodes[k..] == mid.nodes[k..] + [p.vm];
      NamesAppend(mid.nodes[k..], [p.vm]);
    }
  }

  /** The first pass adds to the provider's roster exactly the names it
      appends to the node list, in the same order. */
  lemma {:induction false} LaunchNodesRoster(st: NodesState, cat: Catalogue, cfg: Config, n: nat)
    requires LaunchNodes(st, cat, cfg, n).Ok?
    ensures var r := LaunchNodes(st, cat, cfg, n).value;
      Names(r.effect.cloud.instances) == Names(st.effect.cloud.instances) + NamesFrom(r.nodes, |st.nodes|)
    decreases n
  {
    hide ProvisionVmEffect;
    if n == 0 {
      assert st.nodes[|st.nodes|..] == [];
    } else {
      LaunchNodesRoster(st, cat, cfg, n - 1);
      var mid := LaunchNodes(st, cat, cfg, n - 1).value;
      LaunchNodeRoster(mid, cat, cfg, n, |st.nodes|);
    }
  }

  /** The frontend ensure adds `<cluster>-fe` to the provider's roster when
      there was no frontend, and nothing otherwise. */
  lemma EnsureFrontendRoster(e: Effect, frontend: Option<Instance>, cat: Catalogue, cfg: Config, known: seq<Volume>)
    requires EnsureFrontend(e, frontend, cat, cfg, known).Ok?
    ensures var p := EnsureFrontend(e, frontend, cat, cfg, known).value;
      Names(p.effect.cloud.instances)
        == Names(e.cloud.instances) + (if frontend.None? then [FrontendName(cfg.name)] else [])
  {
    var p := EnsureFrontend(e, frontend, cat, cfg, known).value;
    if frontend.Some? {
      FinishVmFrame(e, frontend.value, known, cfg.frontend);
      RosterNames(e.cloud.instances, p.effect.cloud.instances);
    } else {
      var groups := [ExtGroupName(cfg.name), IntGroupName(cfg.name)];
      var c := ProvisionVmEffect(e, cat, FrontendName(cfg.name), groups, cfg.frontend, cfg.network, cfg.name).value;
      NamesAppend(e.cloud.instances, [c.vm]);
      FinishVmFrame(c.effect, c.vm, known, cfg.frontend);
      RosterNames(c.effect.cloud.instances, p.effect.cloud.instances);
    }
  }

  /** The names the provider lists after a successful `up`: those listed
      before, then `<cluster>-fe` when there was no frontend, then the
      missing node names in ascending index order. */
  lemma UpRoster(e: Effect, t: Topology, cat: Catalogue, cfg: Config, n: nat)
    requires Up(e, t, cat, cfg, n).Ok?
    ensures var r := Up(e, t, cat, cfg, n).value;
      Names(r.effect.cloud.instances)
        == Names(e.cloud.instances) + (if t.frontend.None? then [FrontendName(cfg.name)] else [])
           + MissingNodeNames(Names(t.nodes), cfg.name, n)
  {
    hide FinishVm, ProvisionVmEffect, WaitVolumes, FinishNodes, EnsureFrontend;
    var grouped, fe, st := UpParts(e, t, cat, cfg, n);
    UpGroups(e, cfg, t.nodes);
    EnsureFrontendRoster(grouped, t.frontend, cat, cfg, t.volumes);
    var st0 := NodesState(fe.effect, t.nodes);
    var launched := LaunchNodes(st0, cat, cfg, n).value;
    assert ProvisionNodes(st0, cat, cfg, t.volumes, n) == FinishNodes(launched, t.volumes, cfg.node, 0);
    LaunchNodesRoster(st0, cat, cfg, n);
    LaunchNodesAppends(st0, cat, cfg, n);
    assert NamesFrom(launched.nodes, |t.nodes|) == Names(launched.nodes)[|t.nodes|..];
    FinishNodesRoster(launched, t.volumes, cfg.node, 0);
    RosterNames(launched.effect.cloud.instances, st.effect.cloud.instances);
    WaitVolumesKeepsTracked(st.effect.cloud, t.volumes, []);
  }

  /** The first pass keeps a tracked instance tracked. */
  lemma {:induction false} LaunchNodesKeepTracks(st: NodesState, cat: Catalogue, cfg: Config, n: nat, x: Instance)
    requires IdsFresh(st.effect.cloud) && AllTracked(st.effect.cloud, st.nodes) && Tracks(st.effect.cloud, x)
    requires LaunchNodes(st, cat, cfg, n).Ok?
    ensures Tracks(LaunchNodes(st, cat, cfg, n).value.effect.cloud, x)
    decreases n
  {
    if n > 0 {
      LaunchNodesKeepTracks(st, cat, cfg, n - 1, x);
      LaunchNodesTracks(st, cat, cfg, n - 1);
      var mid := LaunchNodes(st, cat, cfg, n - 1).value;
      var name := NodeName(cfg.name, n);
      if name !in Names(mid.nodes) {
        var p := ProvisionVmEffect(mid.effect, cat, name, [IntGroupName(cfg.name)], cfg.node, cfg.network, cfg.name).value;
        AppendKeepsTracks(mid.effect.cloud, p.effect.cloud, p.vm, x);
        WaitKeepsRoster(p.effect.cloud, p.vm.id, "BUILD");
        TracksRoster(p.effect.cloud, AfterWaitInstance(p.effect.cloud, p.vm.id, "BUILD"), x);
      }
    }
  }

  /** After a successful `up` the provider tracks the frontend `up` reports. */
  lemma UpTracksFrontend(e: Effect, t: Topology, cat: Catalogue, cfg: Config, n: nat)
    requires IdsFresh(e.cloud) && AllTracked(e.cloud, t.nodes)
    requires t.frontend.Some? ==> Tracks(e.cloud, t.frontend.value)
    requires Up(e, t, cat, cfg, n).Ok?
    ensures var r := Up(e, t, cat, cfg, n).value;
      r.topology.frontend.Some? && Tracks(r.effect.cloud, r.topology.frontend.value)
  {
    var grouped, fe, st := UpParts(e, t, cat, cfg, n);
    UpGroups(e, cfg, t.nodes);
    assert t.frontend.Some? ==> Tracks(grouped.cloud, t.frontend.value);
    EnsureFrontendEnsures(grouped, t.frontend, cat, cfg, t.volumes, t.nodes);
    var st0 := NodesState(fe.effect, t.nodes);
    var launched := LaunchNodes(st0, cat, cfg, n).value;
    assert ProvisionNodes(st0, cat, cfg, t.volumes, n) == FinishNodes(launched, t.volumes, cfg.node, 0);
    LaunchNodesKeepTracks(st0, cat, cfg, n, fe.vm);
    FinishNodesRoster(launched, t.volumes, cfg.node, 0);
    TracksRoster(launched.effect.cloud, st.effect.cloud, fe.vm);
    WaitVolumesKeepsTracked(st.effect.cloud, t.volumes, [fe.vm]);
    assert Tracks(WaitVolumes(st.effect.cloud, t.volumes), [fe.vm][0]);
  }

  // The listing after `up`, name by name.

  /** A name is among the names of a list exactly when some entry carries it. */
  lemma NamesMember(vms: seq<Instance>, nm: string)
    ensures nm in Names(vms) <==> exists x :: x in vms && x.name == nm
  {
    if nm in Names(vms) {
      var j :| 0 <= j < |vms| && Names(vms)[j] == nm;
      assert vms[j] in vms;
    }
    if exists x :: x in vms && x.name == nm {
      var x :| x in vms && x.name == nm;
      var j :| 0 <= j < |vms| && vms[j] == x;
      assert Names(vms)[j] == nm;
    }
  }

  /** The instances discovery matches for a name are as many as the listing
      has entries of that name. */
  lemma {:induction false} MatchingCount(vms: seq<Instance>, nm: string)
    ensures |Matching(vms, nm)| == multiset(Names(vms))[nm]
  {
    if vms != [] {
      MatchingCount(vms[1..], nm);
      assert Names(vms) == [vms[0].name] + Names(vms[1..]);
    }
  }

  /** The frontend's name is never a node's: they part at `-f` and `-n`. */
  lemma FrontendIsNotNode(cluster: string, i: nat)
    ensures FrontendName(cluster) != NodeName(cluster, i)
  {
    assert FrontendName(cluster)[|cluster| + 1] == 'f';
    assert NodeName(cluster, i)[|cluster| + 1] == 'n';
  }

  /** The missing node names are distinct. */
  lemma {:induction false} MissingNodeNamesOnce(names: seq<string>, cluster: string, n: nat, nm: string)
    ensures multiset(MissingNodeNames(names, cluster, n))[nm] <= 1
    decreases n
  {
    hide NodeName, MissingNodeNames;
    if n > 0 {
      var prev := MissingNodeNames(names, cluster, n - 1);
      var x := NodeName(cluster, n);
      var last := if x in names then [] else [x];
      MissingNodeNamesStep(names, cluster, n);
      MissingNodeNamesOnce(names, cluster, n - 1, nm);
      MissingBelow(names, cluster, n);
      AppendNewOnce(prev, x, last, nm);
    } else {
      MissingNodeNamesNone(names, cluster);
    }
  }

  /** Appending at most one name not yet present keeps every count at most one. */
  lemma AppendNewOnce(prev: seq<string>, x: string, last: seq<string>, nm: string)
    requires multiset(prev)[nm] <= 1 && x !in prev
    requires last == [] || last == [x]
    ensures multiset(prev + last)[nm] <= 1
  {
    assert multiset(prev + last)[nm] == multiset(prev)[nm] + multiset(last)[nm];
    if nm == x {
      assert multiset(prev)[nm] == 0;
    } else {
      assert multiset(last)[nm] == 0;
    }
  }

  /** What the missing names can be: node names of 1..n the list lacks. */
  lemma MissingNodeNamesAre(names: seq<string>, cluster: string, n: nat, nm: string)
    ensures nm in MissingNodeNames(names, cluster, n) ==>
      nm !in names && exists j :: 1 <= j <= n && nm == NodeName(cluster, j)
  {
    if nm in MissingNodeNames(names, cluster, n) {
      MissingNodeNamesIndexed(names, cluster, n, nm);
    }
  }

  /** A listing whose names are a discovered listing's, then the frontend's
      name when discovery found no frontend, then the node names discovery
      did not find, holds the frontend name exactly once. */
  lemma ExtendedListingFrontend(vms: seq<Instance>, vols: seq<Volume>, cluster: string, t: Topology,
                                after: seq<Instance>, n: nat)
    requires Discover(vms, vols, cluster) == Ok(t)
    requires Names(after) == Names(vms) + (if t.frontend.None? then [FrontendName(cluster)] else [])
                             + MissingNodeNames(Names(t.nodes), cluster, n)
    ensures |Matching(after, FrontendName(cluster))| == 1
  {
    var fe := FrontendName(cluster);
    var added := if t.frontend.None? then [fe] else [];
    var missing := MissingNodeNames(Names(t.nodes), cluster, n);
    MatchingCount(after, fe);
    MatchingCount(vms, fe);
    assert multiset(Names(after))[fe] == multiset(Names(vms))[fe] + multiset(added)[fe] + multiset(missing)[fe];
    var mf := Matching(vms, fe);
    if t.frontend.Some? {
      assert mf[0] in mf;
    }
    MissingNodeNamesAre(Names(t.nodes), cluster, n, fe);
  }

  /** The same listing holds each node name 01 .. 99 at most once. */
  lemma ExtendedListingNode(vms: seq<Instance>, vols: seq<Volume>, cluster: string, t: Topology,
                            after: seq<Instance>, n: nat, i: nat)
    requires Discover(vms, vols, cluster) == Ok(t)
    requires Names(after) == Names(vms) + (if t.frontend.None? then [FrontendName(cluster)] else [])
                             + MissingNodeNames(Names(t.nodes), cluster, n)
    requires 1 <= i <= MaxNodeIndex
    ensures |Matching(after, NodeName(cluster, i))| <= 1
  {
    hide Discover, MissingNodeNames, NodeName, FrontendName;
    var nd := NodeName(cluster, i);
    var added := if t.frontend.None? then [FrontendName(cluster)] else [];
    var missing := MissingNodeNames(Names(t.nodes), cluster, n);
    MatchingCount(after, nd);
    MatchingCount(vms, nd);
    assert multiset(Names(after))[nd] == multiset(Names(vms))[nd] + multiset(added)[nd] + multiset(missing)[nd];
    DiscoverFails(vms, vols, cluster);
    assert !DuplicateBelow(vms, cluster, MaxNodeIndex + 1);
    assert |Matching(vms, nd)| <= 1;
    FrontendIsNotNode(cluster, i);
    assert multiset(added)[nd] == 0;
    MissingNodeNamesOnce(Names(t.nodes), cluster, n, nd);
    MissingNodeNamesAre(Names(t.nodes), cluster, n, nd);
    var mn := Matching(vms, nd);
    if |mn| > 0 {
      assert mn[0] in mn;
      DiscoverNodesComplete(vms, vols, cluster, i);
      NamesMember(t.nodes, nd);
      assert multiset(missing)[nd] == 0;
    }
  }

  /** Discovery succeeds on such a listing, whatever volumes it shows. */
  lemma ExtendedListingDiscovers(vms: seq<Instance>, vols: seq<Volume>, cluster: string, t: Topology,
                                 after: seq<Instance>, vols2: seq<Volume>, n: nat)
    requires Discover(vms, vols, cluster) == Ok(t)
    requires Names(after) == Names(vms) + (if t.frontend.None? then [FrontendName(cluster)] else [])
                             + MissingNodeNames(Names(t.nodes), cluster, n)
    ensures Discover(after, vols2, cluster).Ok?
  {
    ExtendedListingFrontend(vms, vols, cluster, t, after, n);
    forall i | 1 <= i < MaxNodeIndex + 1
      ensures |Matching(after, NodeName(cluster, i))| <= 1
    {
      ExtendedListingNode(vms, vols, cluster, t, after, n, i);
    }
    DiscoverFails(after, vols2, cluster);
  }

  /** A node name discovery finds on such a listing is one of `nodes`'. */
  lemma ExtendedListingNodeFrom(vms: seq<Instance>, vols: seq<Volume>, cluster: string, t: Topology,
                                after: seq<Instance>, vols2: seq<Volume>, n: nat, nodes: seq<Instance>,
                                nm: string)
    requires Discover(vms, vols, cluster) == Ok(t)
    requires Names(after) == Names(vms) + (if t.frontend.None? then [FrontendName(cluster)] else [])
                             + MissingNodeNames(Names(t.nodes), cluster, n)
    requires Names(nodes) == Names(t.nodes) + MissingNodeNames(Names(t.nodes), cluster, n)
    requires Discover(after, vols2, cluster).Ok?
    requires nm in Names(Discover(after, vols2, cluster).value.nodes)
    ensures nm in Names(nodes)
  {
    hide Discover, MissingNodeNames, NodeName, FrontendName;
    var d := Discover(after, vols2, cluster).value;
    var added := if t.frontend.None? then [FrontendName(cluster)] else [];
    var missing := MissingNodeNames(Names(t.nodes), cluster, n);
    var idxD := DiscoverNodesOrdered(after, vols2, cluster);
    var j :| 0 <= j < |d.nodes| && Names(d.nodes)[j] == nm;
    assert d.nodes[j] in after;
    NamesMember(after, nm);
    assert nm in Names(vms) || nm in added || nm in missing;
    FrontendIsNotNode(cluster, idxD[j]);
    if nm in Names(vms) {
      NamesMember(vms, nm);
      DiscoverNodesComplete(vms, vols, cluster, idxD[j]);
      NamesMember(t.nodes, nm);
    }
  }

  /** Each name of `nodes` is among the node names discovery finds on such
      a listing. */
  lemma ExtendedListingNodeTo(vms: seq<Instance>, vols: seq<Volume>, cluster: string, t: Topology,
                              after: seq<Instance>, vols2: seq<Volume>, n: nat, nodes: seq<Instance>,
                              nm: string)
    requires Discover(vms, vols, cluster) == Ok(t)
    requires n <= MaxNodeIndex
    requires Names(after) == Names(vms) + (if t.frontend.None? then [FrontendName(cluster)] else [])
                             + MissingNodeNames(Names(t.nodes), cluster, n)
    requires Names(nodes) == Names(t.nodes) + MissingNodeNames(Names(t.nodes), cluster, n)
    requires Discover(after, vols2, cluster).Ok?
    requires nm in Names(nodes)
    ensures nm in Names(Discover(after, vols2, cluster).value.nodes)
  {
    hide Discover, MissingNodeNames, NodeName, FrontendName;
    var d := Discover(after, vols2, cluster).value;
    var missing := MissingNodeNames(Names(t.nodes), cluster, n);
    var idxT := DiscoverNodesOrdered(vms, vols, cluster);
    var i: nat;
    if nm in Names(t.nodes) {
      var j :| 0 <= j < |t.nodes| && Names(t.nodes)[j] == nm;
      i := idxT[j];
      assert t.nodes[j] in vms;
      NamesMember(vms, nm);
      assert nm in Names(after);
    } else {
      assert nm in missing;
      MissingNodeNamesAre(Names(t.nodes), cluster, n, nm);
      i :| 1 <= i <= n && nm == NodeName(cluster, i);
      assert nm in Names(after);
    }
    NamesMember(after, nm);
    DiscoverNodesComplete(after, vols2, cluster, i);
    NamesMember(d.nodes, nm);
  }

  /** On such a listing discovery finds exactly the node names of `nodes`,
      when those are the discovered nodes' names then the missing ones. */
  lemma ExtendedListingNodes(vms: seq<Instance>, vols: seq<Volume>, cluster: string, t: Topology,
                             after: seq<Instance>, vols2: seq<Volume>, n: nat, nodes: seq<Instance>)
    requires Discover(vms, vols, cluster) == Ok(t)
    requires n <= MaxNodeIndex
    requires Names(after) == Names(vms) + (if t.frontend.None? then [FrontendName(cluster)] else [])
                             + MissingNodeNames(Names(t.nodes), cluster, n)
    requires Names(nodes) == Names(t.nodes) + MissingNodeNames(Names(t.nodes), cluster, n)
    requires Discover(after, vols2, cluster).Ok?
    ensures forall nm :: nm in Names(Discover(after, vols2, cluster).value.nodes) <==> nm in Names(nodes)
  {
    forall nm
      ensures nm in Names(Discover(after, vols2, cluster).value.nodes) <==> nm in Names(nodes)
    {
      if nm in Names(Discover(after, vols2, cluster).value.nodes) {
        ExtendedListingNodeFrom(vms, vols, cluster, t, after, vols2, n, nodes, nm);
      }
      if nm in Names(nodes) {
        ExtendedListingNodeTo(vms, vols, cluster, t, after, vols2, n, nodes, nm);
      }
    }
  }

  // The next session.

  /** What the next session sees of a successful `up`, in the terms the
      listing lemmas above take. */
  lemma UpLeaves(e: Effect, t: Topology, cat: Catalogue, cfg: Config, n: nat)
    requires IdsFresh(e.cloud) && AllTracked(e.cloud, t.nodes)
    requires t.frontend.Some? ==> Tracks(e.cloud, t.frontend.value)
    requires Up(e, t, cat, cfg, n).Ok?
    ensures var r := Up(e, t, cat, cfg, n).value;
      var missing := MissingNodeNames(Names(t.nodes), cfg.name, n);
      && r.topology.frontend.Some? && Tracks(r.effect.cloud, r.topology.frontend.value)
      && r.topology.frontend.value.name == (if t.frontend.None? then FrontendName(cfg.name) else t.frontend.value.name)
      && Names(r.effect.cloud.instances)
           == Names(e.cloud.instances) + (if t.frontend.None? then [FrontendName(cfg.name)] else []) + missing
      && Names(r.topology.nodes) == Names(t.nodes) + missing
      && (forall i :: 1 <= i <= n ==> NodeName(cfg.name, i) in Names(r.topology.nodes))
  {
    UpEstablishes(e, t, cat, cfg, n);
    UpRoster(e, t, cat, cfg, n);
    UpTracksFrontend(e, t, cat, cfg, n);
  }

  /** In a listing that holds a name at most once, a listed instance of that
      name is the record of a tracked instance of that name. */
  lemma TrackedUnique(c: CloudState, g: Instance, x: Instance)
    requires |Matching(c.instances, g.name)| <= 1
    requires Tracks(c, g) && x in c.instances && x.name == g.name
    ensures x.id == g.id && x.fixedIps == g.fixedIps
  {
    hide FindInstance, Matching;
    var y := FindInstance(c.instances, g.id).value;
    var m := Matching(c.instances, g.name);
    assert y in m && x in m;
    assert y == m[0] && x == m[0];
  }

  /** After a successful `up` on the discovered cluster, and once the provider
      has settled, the next session's discovery succeeds: it finds the
      frontend `up` reported, by id, and exactly the node names `up`
      reported, among them every name of 1..n. */
  lemma UpRediscovered(e: Effect, cat: Catalogue, cfg: Config, n: nat)
    requires n <= MaxNodeIndex
    requires IdsFresh(e.cloud)
    requires Discover(e.cloud.instances, e.cloud.volumes, cfg.name).Ok?
    requires Up(e, Discover(e.cloud.instances, e.cloud.volumes, cfg.name).value, cat, cfg, n).Ok?
    ensures var r := Up(e, Discover(e.cloud.instances, e.cloud.volumes, cfg.name).value, cat, cfg, n).value;
      var c := Settle(r.effect.cloud);
      var d := Discover(c.instances, c.volumes, cfg.name);
      && d.Ok? && d.value.frontend.Some?
      && d.value.frontend.value.id == r.topology.frontend.value.id
      && (forall nm :: nm in Names(d.value.nodes) <==> nm in Names(r.topology.nodes))
      && (forall i :: 1 <= i <= n ==> NodeName(cfg.name, i) in Names(d.value.nodes))
  {
    hide Up, Discover, Matching, Names, FindInstance;
    var t := Discover(e.cloud.instances, e.cloud.volumes, cfg.name).value;
    var r := Up(e, t, cat, cfg, n).value;
    var c := Settle(r.effect.cloud);
    DiscoverTracked(e.cloud, cfg.name);
    UpLeaves(e, t, cat, cfg, n);
    assert c.instances == r.effect.cloud.instances;
    assert Tracks(c, r.topology.frontend.value);
    ExtendedListingDiscovers(e.cloud.instances, e.cloud.volumes, cfg.name, t, c.instances, c.volumes, n);
    ExtendedListingFrontend(e.cloud.instances, e.cloud.volumes, cfg.name, t, c.instances, n);
    ExtendedListingNodes(e.cloud.instances, e.cloud.volumes, cfg.name, t, c.instances, c.volumes, n, r.topology.nodes);
    var d := Discover(c.instances, c.volumes, cfg.name).value;
    TrackedUnique(c, r.topology.frontend.value, d.frontend.value);
  }

  // A second `up` on the rediscovered cluster.

  /** Some volume of `known` carries the display name. */
  predicate NameKnown(known: seq<Volume>, name: string)
  {
    exists v :: v in known && v.displayName == name
  }

  /** Every volume entry of the role has a volume of its name in `known`. */
  predicate AllKnown(known: seq<Volume>, vm: string, specs: seq<VolumeSpec>)
  {
    forall k :: 0 <= k < |specs| ==> NameKnown(known, VolumeName(vm, specs[k].name))
  }

  /** With every entry's name known, no volume is missing. */
  lemma {:induction false} NoneMissing(known: seq<Volume>, vm: Instance, specs: seq<VolumeSpec>, n: nat)
    requires n <= |specs| && AllKnown(known, vm.name, specs)
    ensures MissingVolumes(known, vm, specs, n) == []
    decreases n
  {
    if n > 0 {
      NoneMissing(known, vm, specs, n - 1);
      var v :| v in known && v.displayName == VolumeName(vm.name, specs[n - 1].name);
    }
  }

  /** Bringing into service a tracked instance that has an internal address
      and whose volumes are all known succeeds and logs nothing: no volume is
      missing. */
  lemma FinishVmIdle(e: Effect, vm: Instance, known: seq<Volume>, role: RoleSpec)
    requires Tracks(e.cloud, vm) && vm.fixedIps != []
    requires |role.volumes| <= MaxVolumes && AllKnown(known, vm.name, role.volumes)
    ensures FinishVm(e, vm, known, role).Ok?
    ensures FinishVm(e, vm, known, role).value.effect.log == e.log
  {
    var waited := e.(cloud := AfterWaitInstance(e.cloud, vm.id, "ACTIVE"));
    WaitKeepsRoster(e.cloud, vm.id, "ACTIVE");
    TracksRoster(e.cloud, waited.cloud, vm);
    var x := FindInstance(waited.cloud.instances, vm.id).value;
    assert x.name == vm.name && x.fixedIps == vm.fixedIps;
    VmAddressesEffect(waited, x, role);
    var addressed := VmAddresses(waited, x, role).value;
    EnsureVolumesLog(addressed, known, x, role.volumes, |role.volumes|);
    NoneMissing(known, x, role.volumes, |role.volumes|);
  }

  /** The second pass over tracked entries that have internal addresses and
      known volumes succeeds and logs nothing. */
  lemma {:induction false} FinishNodesIdle(st: NodesState, known: seq<Volume>, role: RoleSpec, k: nat)
    requires k <= |st.nodes|
    requires IdsFresh(st.effect.cloud) && AllTracked(st.effect.cloud, st.nodes)
    requires forall j :: k <= j < |st.nodes| ==>
      st.nodes[j].fixedIps != [] && AllKnown(known, st.nodes[j].name, role.volumes)
    requires k < |st.nodes| ==> |role.volumes| <= MaxVolumes
    ensures FinishNodes(st, known, role, k).Ok?
    ensures FinishNodes(st, known, role, k).value.effect.log == st.effect.log
    decreases |st.nodes| - k
  {
    hide FinishVm;
    if k < |st.nodes| {
      FinishVmIdle(st.effect, st.nodes[k], known, role);
      var next := FinishNode(st, known, role, k).value;
      FinishNodeKept(st, known, role, k);
      FinishNodesIdle(next, known, role, k + 1);
    }
  }

  /** `up` on a cluster whose groups exist, whose frontend and nodes 1..n are
      tracked and addressed, and whose every volume entry has a known volume
      of its name, succeeds and logs nothing. */
  lemma UpIdle(e: Effect, t: Topology, cat: Catalogue, cfg: Config, n: nat)
    requires HasSecGroup(e.cloud, ExtGroupName(cfg.name)) && HasSecGroup(e.cloud, IntGroupName(cfg.name))
    requires HasServerGroup(e.cloud, cfg.name)
    requires IdsFresh(e.cloud) && AllTracked(e.cloud, t.nodes)
    requires t.frontend.Some? && Tracks(e.cloud, t.frontend.value) && t.frontend.value.fixedIps != []
    requires |cfg.frontend.volumes| <= MaxVolumes && AllKnown(t.volumes, t.frontend.value.name, cfg.frontend.volumes)
    requires forall j :: 0 <= j < |t.nodes| ==>
      t.nodes[j].fixedIps != [] && AllKnown(t.volumes, t.nodes[j].name, cfg.node.volumes)
    requires t.nodes != [] ==> |cfg.node.volumes| <= MaxVolumes
    requires forall i :: 1 <= i <= n ==> NodeName(cfg.name, i) in Names(t.nodes)
    ensures Up(e, t, cat, cfg, n).Ok?
    ensures Up(e, t, cat, cfg, n).value.effect.log == e.log
  {
    var e1 := EnsureSecGroups(e, cfg.name, cfg.allowFrom);
    var grouped := EnsureServerGroup(e1, cfg.name);
    SecGroupsAdds(e, cfg.name, cfg.allowFrom);
    ServerGroupEnsured(e1, cfg.name);
    UpGroups(e, cfg, t.nodes);
    assert grouped.log == e.log;
    var f := t.frontend.value;
    assert Tracks(grouped.cloud, f);
    FinishVmIdle(grouped, f, t.volumes, cfg.frontend);
    FinishVmTracks(grouped, f, t.volumes, cfg.frontend, t.nodes);
    var fe := EnsureFrontend(grouped, t.frontend, cat, cfg, t.volumes).value;
    var st0 := NodesState(fe.effect, t.nodes);
    LaunchNodesIdle(st0, cat, cfg, n);
    assert ProvisionNodes(st0, cat, cfg, t.volumes, n) == FinishNodes(st0, t.volumes, cfg.node, 0);
    FinishNodesIdle(st0, t.volumes, cfg.node, 0);
  }

  /** Discovered volumes are stored. */
  lemma DiscoveredStored(s: CloudState, cluster: string)
    requires Discover(s.instances, s.volumes, cluster).Ok?
    ensures KnownStored(s.volumes, Discover(s.instances, s.volumes, cluster).value.volumes)
  {
    DiscoverVolumes(s.instances, s.volumes, cluster);
  }

  /** Once the provider has settled, a stored name is carried by a volume
      that is in use or available. */
  lemma SettleStored(s: CloudState, name: string)
    requires Stored(s.volumes, name)
    ensures exists w :: w in Settle(s).volumes && w.displayName == name && (w.status == "in-use" || w.status == "available")
  {
    var w :| w in s.volumes && w.displayName == name && Lasting(w.status);
    var i :| 0 <= i < |s.volumes| && s.volumes[i] == w;
    assert Settle(s).volumes[i] in Settle(s).volumes;
  }

  /** Once the provider has settled, the volumes stored for the frontend or
      for a node 01 .. 99 are known to discovery. */
  lemma SettledKnown(s: CloudState, cluster: string, owner: string, specs: seq<VolumeSpec>)
    requires StoredFor(s.volumes, owner, specs, |specs|)
    requires owner == FrontendName(cluster) || exists i :: 1 <= i <= MaxNodeIndex && owner == NodeName(cluster, i)
    requires Discover(Settle(s).instances, Settle(s).volumes, cluster).Ok?
    ensures AllKnown(Discover(Settle(s).instances, Settle(s).volumes, cluster).value.volumes, owner, specs)
  {
    var c := Settle(s);
    var known := Discover(c.instances, c.volumes, cluster).value.volumes;
    DiscoverVolumes(c.instances, c.volumes, cluster);
    forall k | 0 <= k < |specs|
      ensures NameKnown(known, VolumeName(owner, specs[k].name))
    {
      var name := VolumeName(owner, specs[k].name);
      SettleStored(s, name);
      var w :| w in c.volumes && w.displayName == name && (w.status == "in-use" || w.status == "available");
      VolumeNameOwner(owner, specs[k].name);
      assert BelongsTo(w, owner);
    }
  }

  /** Each node the next session discovers is addressed and has its volumes
      known, when it carries the name of a tracked, addressed entry whose
      volumes are stored. */
  lemma RediscoveredNode(s: CloudState, cluster: string, d: Topology, nodes: seq<Instance>,
                         specs: seq<VolumeSpec>, j: nat)
    requires Discover(Settle(s).instances, Settle(s).volumes, cluster) == Ok(d)
    requires AllTracked(s, nodes)
    requires forall k :: 0 <= k < |nodes| ==>
      nodes[k].fixedIps != [] && StoredFor(s.volumes, nodes[k].name, specs, |specs|)
    requires forall nm :: nm in Names(d.nodes) ==> nm in Names(nodes)
    requires forall i :: 1 <= i <= MaxNodeIndex ==> |Matching(s.instances, NodeName(cluster, i))| <= 1
    requires j < |d.nodes|
    ensures d.nodes[j].fixedIps != [] && AllKnown(d.volumes, d.nodes[j].name, specs)
  {
    hide Discover, Matching, Settle, Tracks, StoredFor;
    var c := Settle(s);
    var idx := DiscoverNodesOrdered(c.instances, c.volumes, cluster);
    var x := d.nodes[j];
    assert Names(d.nodes)[j] == x.name;
    assert x.name in Names(d.nodes);
    assert x.name in Names(nodes);
    var k :| 0 <= k < |nodes| && Names(nodes)[k] == x.name;
    var g := nodes[k];
    assert Tracks(s, g);
    assert |Matching(s.instances, NodeName(cluster, idx[j]))| <= 1;
    TrackedUnique(s, g, x);
    SettledKnown(s, cluster, x.name, specs);
  }

  /** After a successful `up` on the discovered cluster, and once the provider
      has settled, the next session's `up` on what it discovers succeeds and
      logs nothing: every group, instance and volume it checks for exists. */
  lemma UpIdempotent(e: Effect, cat: Catalogue, cfg: Config, n: nat)
    requires n <= MaxNodeIndex
    requires IdsFresh(e.cloud)
    requires Discover(e.cloud.instances, e.cloud.volumes, cfg.name).Ok?
    requires Up(e, Discover(e.cloud.instances, e.cloud.volumes, cfg.name).value, cat, cfg, n).Ok?
    ensures var r := Up(e, Discover(e.cloud.instances, e.cloud.volumes, cfg.name).value, cat, cfg, n).value;
      var c := Settle(r.effect.cloud);
      && Discover(c.instances, c.volumes, cfg.name).Ok?
      && var d := Discover(c.instances, c.volumes, cfg.name).value;
         && Up(r.effect.(cloud := c), d, cat, cfg, n).Ok?
         && Up(r.effect.(cloud := c), d, cat, cfg, n).value.effect.log == r.effect.log
  {
    hide Up, Discover, Matching, Names, FindInstance, Tracks, StoredFor, AllKnown;
    var t := Discover(e.cloud.instances, e.cloud.volumes, cfg.name).value;
    var r := Up(e, t, cat, cfg, n).value;
    var s := r.effect.cloud;
    var c := Settle(s);
    UpRediscovered(e, cat, cfg, n);
    var d := Discover(c.instances, c.volumes, cfg.name).value;
    DiscoverTracked(e.cloud, cfg.name);
    DiscoveredStored(e.cloud, cfg.name);
    UpEstablishes(e, t, cat, cfg, n);
    UpLeaves(e, t, cat, cfg, n);
    UpStores(e, t, cat, cfg, n);
    UpRoster(e, t, cat, cfg, n);
    var f := r.topology.frontend.value;
    // The next session's starting point.
    assert IdsFresh(c);
    assert HasSecGroup(c, ExtGroupName(cfg.name)) && HasSecGroup(c, IntGroupName(cfg.name));
    assert HasServerGroup(c, cfg.name);
    DiscoverTracked(c, cfg.name);
    // The frontend.
    ExtendedListingFrontend(e.cloud.instances, e.cloud.volumes, cfg.name, t, s.instances, n);
    TrackedUnique(s, f, d.frontend.value);
    SettledKnown(s, cfg.name, FrontendName(cfg.name), cfg.frontend.volumes);
    // The nodes.
    forall i | 1 <= i <= MaxNodeIndex
      ensures |Matching(s.instances, NodeName(cfg.name, i))| <= 1
    {
      ExtendedListingNode(e.cloud.instances, e.cloud.volumes, cfg.name, t, s.instances, n, i);
    }
    forall j | 0 <= j < |d.nodes|
      ensures d.nodes[j].fixedIps != [] && AllKnown(d.volumes, d.nodes[j].name, cfg.node.volumes)
    {
      RediscoveredNode(s, cfg.name, d, r.topology.nodes, cfg.node.volumes, j);
    }
    if d.nodes != [] {
      assert Names(d.nodes)[0] in Names(d.nodes);
    }
    UpIdle(r.effect.(cloud := c), d, cat, cfg, n);
  }
}
