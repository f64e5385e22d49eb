/**
  The three cluster commands that change the provider: `up` (groups, then
  the frontend, then the nodes, then a wait for every discovered volume to
  become in-use), `down` (nodes in reverse order, then the frontend) and
  `destroy_volumes` (refused while any instance of the cluster is held,
  otherwise every held volume in reverse order).
*/
module Lifecycle {
  import opened Wrappers
  import opened Provider
  import opened Naming
  import opened Audit
  import opened ClusterConfig
  import opened Groups
  import opened Volumes
  import opened Instances
  import opened Discovery
  import opened Reconcile

  /** What a command leaves behind: provider state with the session log, and
      the topology the cluster then holds. */
  datatype Session = Session(effect: Effect, topology: Topology)

  /** `s` in reverse order. */
  function Reverse<T>(s: seq<T>): (r: seq<T>)
    ensures |r| == |s| && forall i :: 0 <= i < |s| ==> r[i] == s[|s| - 1 - i]
  {
    seq(|s|, i requires 0 <= i < |s| => s[|s| - 1 - i])
  }

  // up

  /** The closing loop of `up`: a finished wait for in-use on each listed
      volume, in order. */
  function WaitVolumes(s: CloudState, vols: seq<Volume>): CloudState
    decreases |vols|
  {
    if vols == [] then s
    else AfterWaitVolume(WaitVolumes(s, vols[..|vols| - 1]), vols[|vols| - 1].id, "in-use")
  }

  /** `up`: both group ensures, the frontend, the nodes, then the wait. The
      volumes the frontend and the nodes are checked against are the ones the
      cluster holds, which `up` itself never extends. */
  function Up(e: Effect, t: Topology, cat: Catalogue, cfg: Config, n: nat): Result<Session, Error>
  {
    var grouped := EnsureServerGroup(EnsureSecGroups(e, cfg.name, cfg.allowFrom), cfg.name);
    match EnsureFrontend(grouped, t.frontend, cat, cfg, t.volumes)
    case Err(err) => Err(err)
    case Ok(fe) =>
      match ProvisionNodes(NodesState(fe.effect, t.nodes), cat, cfg, t.volumes, n)
      case Err(err) => Err(err)
      case Ok(st) =>
        Ok(Session(st.effect.(cloud := WaitVolumes(st.effect.cloud, t.volumes)),
                   Topology(Some(fe.vm), st.nodes, t.volumes)))
  }

  /** The wait touches the volumes' statuses and the trace only; afterwards
      every volume record of a waited-for id is in-use. */
  lemma {:induction false} WaitVolumesEffect(s: CloudState, vols: seq<Volume>)
    ensures var r := WaitVolumes(s, vols);
      && r.(volumes := s.volumes, calls := s.calls) == s
      && |r.volumes| == |s.volumes|
      && forall i :: 0 <= i < |s.volumes| ==>
           r.volumes[i].(status := s.volumes[i].status) == s.volumes[i]
           && (s.volumes[i].id in Ids(vols) ==> r.volumes[i].status == "in-use")
    decreases |vols|
  {
    if vols != [] {
      var init := vols[..|vols| - 1];
      WaitVolumesEffect(s, init);
      assert Ids(vols) == Ids(init) + [vols[|vols| - 1].id];
    }
  }

  /** The wait keeps the id counter ahead and every tracked entry tracked. */
  lemma WaitVolumesKeepsTracked(s: CloudState, vols: seq<Volume>, vms: seq<Instance>)
    ensures var r := WaitVolumes(s, vols);
      && r.instances == s.instances && r.nextId == s.nextId
      && (IdsFresh(s) ==> IdsFresh(r))
      && (AllTracked(s, vms) ==> AllTracked(r, vms))
  {
    WaitVolumesEffect(s, vols);
  }

  /** The ids of a list of volumes, in order. */
  function Ids(vols: seq<Volume>): (r: seq<nat>)
    ensures |r| == |vols| && forall i :: 0 <= i < |vols| ==> r[i] == vols[i].id
  {
    seq(|vols|, i requires 0 <= i < |vols| => vols[i].id)
  }

  /** `after` extends `before` by `create` entries only. */
  predicate LogsOnlyCreates(before: seq<LogEntry>, after: seq<LogEntry>)
  {
    && before <= after
    && forall k :: |before| <= k < |after| ==> after[k].action == Create
  }

  lemma CreatesTrans(a: seq<LogEntry>, b: seq<LogEntry>, c: seq<LogEntry>)
    requires LogsOnlyCreates(a, b) && LogsOnlyCreates(b, c)
    ensures LogsOnlyCreates(a, c)
  {
  }

  /** Volume creations are creations. */
  lemma VolumesAreCreates(a: seq<LogEntry>, b: seq<LogEntry>)
    requires LogsOnlyVolumes(a, b)
    ensures LogsOnlyCreates(a, b)
  {
  }

  /** Appending `create` entries. */
  lemma AppendCreates(a: seq<LogEntry>, xs: seq<LogEntry>)
    requires forall k :: 0 <= k < |xs| ==> xs[k].action == Create
    ensures LogsOnlyCreates(a, a + xs)
  {
  }

  /** A successful `up` leaves both security groups and the server group in
      place, a frontend and all nodes ACTIVE with an internal address, every
      node name of 1..n held, the old nodes followed by the missing names in
      index order, the held volumes unchanged, and a log extended by `create`
      entries only. When the cluster held no frontend, as `main` demands before
      calling `up`, the frontend is a new instance named `<cluster>-fe`; when it
      held one, the frontend keeps its id. The nodes stay tracked. */
  lemma UpEstablishes(e: Effect, t: Topology, cat: Catalogue, cfg: Config, n: nat)
    requires IdsFresh(e.cloud) && AllTracked(e.cloud, t.nodes)
    requires t.frontend.Some? ==> Tracks(e.cloud, t.frontend.value)
    requires Up(e, t, cat, cfg, n).Ok?
    ensures var r := Up(e, t, cat, cfg, n).value;
      var c := r.effect.cloud;
      var fe := r.topology.frontend;
      && HasSecGroup(c, ExtGroupName(cfg.name)) && HasSecGroup(c, IntGroupName(cfg.name))
      && HasServerGroup(c, cfg.name)
      && fe.Some? && fe.value.status == "ACTIVE" && fe.value.fixedIps != []
      && (t.frontend.None? ==> fe.value.name == FrontendName(cfg.name))
      && (t.frontend.Some? ==> fe.value.id == t.frontend.value.id && fe.value.name == t.frontend.value.name)
      && (forall i :: 1 <= i <= n ==> NodeName(cfg.name, i) in Names(r.topology.nodes))
      && Names(r.topology.nodes) == Names(t.nodes) + MissingNodeNames(Names(t.nodes), cfg.name, n)
      && (forall j :: 0 <= j < |r.topology.nodes| ==>
            r.topology.nodes[j].status == "ACTIVE" && r.topology.nodes[j].fixedIps != [])
      && r.topology.volumes == t.volumes
      && LogsOnlyCreates(e.log, r.effect.log)
      && IdsFresh(c) && AllTracked(c, r.topology.nodes)
  {
    var grouped, fe, st := UpParts(e, t, cat, cfg, n);
    UpGroups(e, cfg, t.nodes);
    assert t.frontend.Some? ==> Tracks(grouped.cloud, t.frontend.value);
    EnsureFrontendEnsures(grouped, t.frontend, cat, cfg, t.volumes, t.nodes);
    var st0 := NodesState(fe.effect, t.nodes);
    ProvisionNodesEnsures(st0, cat, cfg, t.volumes, n);
    WaitVolumesKeepsTracked(st.effect.cloud, t.volumes, st.nodes);
    UpCombine(e, t, cfg, n, grouped, fe, st);
  }

  /** UpEstablishes on plain values: the facts of the stages put together. */
  lemma UpCombine(e: Effect, t: Topology, cfg: Config, n: nat, grouped: Effect, fe: Provisioned, st: NodesState)
    requires HasSecGroup(grouped.cloud, ExtGroupName(cfg.name)) && HasSecGroup(grouped.cloud, IntGroupName(cfg.name))
    requires HasServerGroup(grouped.cloud, cfg.name)
    requires LogsOnlyCreates(e.log, grouped.log)
    requires fe.vm.status == "ACTIVE" && fe.vm.fixedIps != []
    requires t.frontend.Some? ==> fe.vm.id == t.frontend.value.id && fe.vm.name == t.frontend.value.name
                                  && LogsOnlyVolumes(grouped.log, fe.effect.log)
    requires t.frontend.None? ==>
      fe.vm.name == FrontendName(cfg.name)
      && LogsOnlyVolumes(grouped.log + [LogEntry(Create, VmResource, grouped.cloud.nextId, FrontendName(cfg.name))],
                         fe.effect.log)
    requires GroupsKept(grouped.cloud, fe.effect.cloud)
    requires var missing := MissingNodeNames(Names(t.nodes), cfg.name, n);
      && Names(st.nodes) == Names(t.nodes) + missing
      && (forall i :: 1 <= i <= n ==> NodeName(cfg.name, i) in Names(st.nodes))
      && (forall j :: 0 <= j < |st.nodes| ==> st.nodes[j].status == "ACTIVE" && st.nodes[j].fixedIps != [])
      && LogsOnlyVolumes(fe.effect.log + CreatedVmEntries(fe.effect.cloud.nextId, missing), st.effect.log)
      && GroupsKept(fe.effect.cloud, st.effect.cloud)
    ensures var c := WaitVolumes(st.effect.cloud, t.volumes);
      && HasSecGroup(c, ExtGroupName(cfg.name)) && HasSecGroup(c, IntGroupName(cfg.name))
      && HasServerGroup(c, cfg.name)
      && LogsOnlyCreates(e.log, st.effect.log)
  {
    WaitVolumesEffect(st.effect.cloud, t.volumes);
    var created := CreatedVmEntries(fe.effect.cloud.nextId, MissingNodeNames(Names(t.nodes), cfg.name, n));
    var feEntry := if t.frontend.None? then [LogEntry(Create, VmResource, grouped.cloud.nextId, FrontendName(cfg.name))] else [];
    assert grouped.log + feEntry == if t.frontend.None? then grouped.log + feEntry else grouped.log;
    UpLog(e.log, grouped.log, fe.effect.log, created, st.effect.log, feEntry);
  }

  /** The stages of a successful `up`, named. */
  lemma UpParts(e: Effect, t: Topology, cat: Catalogue, cfg: Config, n: nat)
    returns (grouped: Effect, fe: Provisioned, st: NodesState)
    requires Up(e, t, cat, cfg, n).Ok?
    ensures grouped == EnsureServerGroup(EnsureSecGroups(e, cfg.name, cfg.allowFrom), cfg.name)
    ensures EnsureFrontend(grouped, t.frontend, cat, cfg, t.volumes) == Ok(fe)
    ensures ProvisionNodes(NodesState(fe.effect, t.nodes), cat, cfg, t.volumes, n) == Ok(st)
    ensures Up(e, t, cat, cfg, n).value
         == Session(st.effect.(cloud := WaitVolumes(st.effect.cloud, t.volumes)), Topology(Some(fe.vm), st.nodes, t.volumes))
  {
    grouped := EnsureServerGroup(EnsureSecGroups(e, cfg.name, cfg.allowFrom), cfg.name);
    fe := EnsureFrontend(grouped, t.frontend, cat, cfg, t.volumes).value;
    st := ProvisionNodes(NodesState(fe.effect, t.nodes), cat, cfg, t.volumes, n).value;
  }

  /** After both group ensures all three groups exist, the log has gained
      `create` entries only, and tracked entries stay tracked. */
  lemma UpGroups(e: Effect, cfg: Config, vms: seq<Instance>)
    ensures var g := EnsureServerGroup(EnsureSecGroups(e, cfg.name, cfg.allowFrom), cfg.name);
      && HasSecGroup(g.cloud, ExtGroupName(cfg.name)) && HasSecGroup(g.cloud, IntGroupName(cfg.name))
      && HasServerGroup(g.cloud, cfg.name)
      && LogsOnlyCreates(e.log, g.log)
      && (IdsFresh(e.cloud) && AllTracked(e.cloud, vms) ==> IdsFresh(g.cloud) && AllTracked(g.cloud, vms))
      && g.cloud.instances == e.cloud.instances
  {
    var e1 := EnsureSecGroups(e, cfg.name, cfg.allowFrom);
    SecGroupsEstablished(e, cfg.name, cfg.allowFrom);
    SecGroupsLogCreates(e, cfg.name, cfg.allowFrom);
    SecGroupsKeepInstances(e, cfg.name, cfg.allowFrom);
    ServerGroupEnsured(e1, cfg.name);
    CreatesTrans(e.log, e1.log, EnsureServerGroup(e1, cfg.name).log);
  }

  /** The security-group ensure logs creations only. */
  lemma SecGroupsLogCreates(e: Effect, cluster: string, allowFrom: seq<string>)
    ensures LogsOnlyCreates(e.log, EnsureSecGroups(e, cluster, allowFrom).log)
  {
    SecGroupsAdds(e, cluster, allowFrom);
  }

  /** The log of `up`, link by link: group creations, the frontend's creation
      if any, node creations, volume creations. */
  lemma UpLog(l0: seq<LogEntry>, l2: seq<LogEntry>, l3: seq<LogEntry>,
              created: seq<LogEntry>, l4: seq<LogEntry>, fe: seq<LogEntry>)
    requires LogsOnlyCreates(l0, l2)
    requires forall k :: 0 <= k < |fe| ==> fe[k].action == Create
    requires LogsOnlyVolumes(l2 + fe, l3)
    requires forall k :: 0 <= k < |created| ==> created[k].action == Create
    requires LogsOnlyVolumes(l3 + created, l4)
    ensures LogsOnlyCreates(l0, l4)
  {
    AppendCreates(l2, fe);
    VolumesAreCreates(l2 + fe, l3);
    AppendCreates(l3, created);
    VolumesAreCreates(l3 + created, l4);
    CreatesTrans(l0, l2, l2 + fe);
    CreatesTrans(l0, l2 + fe, l3);
    CreatesTrans(l0, l3, l3 + created);
    CreatesTrans(l0, l3 + created, l4);
  }

  /** Running `up` again on what a successful `up` left behind creates no
      group and no instance: the second run logs volume creations only, and
      keeps the frontend's id and the number of nodes. The second run checks
      against the same held volumes, so only a volume the first run created
      can be created again. */
  lemma UpRerun(e: Effect, t: Topology, cat: Catalogue, cfg: Config, n: nat)
    requires IdsFresh(e.cloud) && AllTracked(e.cloud, t.nodes)
    requires t.frontend.Some? ==> Tracks(e.cloud, t.frontend.value)
    requires Up(e, t, cat, cfg, n).Ok?
    requires var r := Up(e, t, cat, cfg, n).value;
      Up(r.effect, r.topology, cat, cfg, n).Ok?
    ensures var r := Up(e, t, cat, cfg, n).value;
      var r2 := Up(r.effect, r.topology, cat, cfg, n).value;
      && LogsOnlyVolumes(r.effect.log, r2.effect.log)
      && r2.topology.frontend.Some? && r2.topology.frontend.value.id == r.topology.frontend.value.id
      && |r2.topology.nodes| == |r.topology.nodes|
  {
    var r := Up(e, t, cat, cfg, n).value;
    UpEstablishes(e, t, cat, cfg, n);
    var grouped, fe, st := UpParts(r.effect, r.topology, cat, cfg, n);
    var e1 := EnsureSecGroups(r.effect, cfg.name, cfg.allowFrom);
    SecGroupsAdds(r.effect, cfg.name, cfg.allowFrom);
    SecGroupsEstablished(r.effect, cfg.name, cfg.allowFrom);
    ServerGroupEnsured(e1, cfg.name);
    assert grouped.log == r.effect.log;
    FinishVmResult(grouped, r.topology.frontend.value, r.topology.volumes, cfg.frontend);
    FinishVmLog(grouped, r.topology.frontend.value, r.topology.volumes, cfg.frontend);
    ProvisionNodesRerun(NodesState(fe.effect, r.topology.nodes), cat, cfg, r.topology.volumes, n);
    LogsOnlyVolumesTrans(r.effect.log, fe.effect.log, st.effect.log);
  }

  // down

  /** Shutting one instance down, deleting it, and logging the deletion. */
  function DeleteVm(e: Effect, vm: Instance): Effect
  {
    Logged(e.(cloud := AfterDeleteVm(AfterShutdownVm(e.cloud, vm.id), vm.id)), Delete, VmResource, vm.id, vm.name)
  }

  /** Deleting the listed instances in the order listed. */
  function DeleteVms(e: Effect, vms: seq<Instance>): Effect
    decreases |vms|
  {
    if vms == [] then e else DeleteVm(DeleteVms(e, vms[..|vms| - 1]), vms[|vms| - 1])
  }

  /** The order `down` takes instances down in: the nodes from last to first,
      then the frontend. */
  function TeardownOrder(t: Topology): seq<Instance>
  {
    Reverse(t.nodes) + (if t.frontend.Some? then [t.frontend.value] else [])
  }

  /** `down`: afterwards the cluster holds no frontend and no nodes, and still
      holds its volumes. */
  function Down(e: Effect, t: Topology): Session
  {
    Session(DeleteVms(e, TeardownOrder(t)), Topology(None, [], t.volumes))
  }

  /** The `delete`/`vm` entries of a list of instances, in order. */
  function DeletedVmEntries(vms: seq<Instance>): (r: seq<LogEntry>)
    ensures |r| == |vms|
  {
    seq(|vms|, i requires 0 <= i < |vms| => LogEntry(Delete, VmResource, vms[i].id, vms[i].name))
  }

  /** The ids of a list of instances, in order. */
  function InstanceIds(vms: seq<Instance>): (r: seq<nat>)
    ensures |r| == |vms| && forall i :: 0 <= i < |vms| ==> r[i] == vms[i].id
  {
    seq(|vms|, i requires 0 <= i < |vms| => vms[i].id)
  }

  /** The requests of the deletion of a list: shutdown then delete, one
      instance after the other. */
  function TeardownCalls(vms: seq<Instance>): (r: seq<Call>)
    ensures |r| == 2 * |vms|
    decreases |vms|
  {
    if vms == [] then []
    else TeardownCalls(vms[..|vms| - 1]) + [ShutdownVmCall(vms[|vms| - 1].id), DeleteVmCall(vms[|vms| - 1].id)]
  }

  /** One deletion removes exactly the records of that id and logs it. */
  lemma DeleteVmEffect(e: Effect, vm: Instance)
    ensures var r := DeleteVm(e, vm);
      && (forall x :: x in r.cloud.instances <==> x in e.cloud.instances && x.id != vm.id)
      && r.cloud.(instances := e.cloud.instances, calls := e.cloud.calls) == e.cloud
      && r.cloud.calls == e.cloud.calls + [ShutdownVmCall(vm.id), DeleteVmCall(vm.id)]
      && r.log == e.log + [LogEntry(Delete, VmResource, vm.id, vm.name)]
  {
    var shut := AfterShutdownVm(e.cloud, vm.id);
    forall x | x in e.cloud.instances && x.id != vm.id
      ensures x in shut.instances
    {
      var i :| 0 <= i < |e.cloud.instances| && e.cloud.instances[i] == x;
      assert shut.instances[i] == x;
    }
    forall x | x in shut.instances
      ensures x.id != vm.id ==> x in e.cloud.instances
    {
      var i :| 0 <= i < |shut.instances| && shut.instances[i] == x;
      assert e.cloud.instances[i].id == x.id;
    }
  }

  /** Deleting a list removes exactly the records of the listed ids, sends a
      shutdown and a delete per instance in list order, logs one `delete`/`vm`
      entry per instance in list order, and changes nothing else. */
  lemma {:induction false} DeleteVmsEffect(e: Effect, vms: seq<Instance>)
    ensures var r := DeleteVms(e, vms);
      && (forall x :: x in r.cloud.instances <==> x in e.cloud.instances && x.id !in InstanceIds(vms))
      && r.cloud.(instances := e.cloud.instances, calls := e.cloud.calls) == e.cloud
      && r.cloud.calls == e.cloud.calls + TeardownCalls(vms)
      && r.log == e.log + DeletedVmEntries(vms)
    decreases |vms|
  {
    if vms != [] {
      var init, last := vms[..|vms| - 1], vms[|vms| - 1];
      DeleteVmsEffect(e, init);
      DeleteVmEffect(DeleteVms(e, init), last);
      assert vms == init + [last];
      DeleteVmsStep(e, DeleteVms(e, init), DeleteVms(e, vms), init, last);
    }
  }

  /** The inductive step of DeleteVmsEffect, on plain values. */
  lemma DeleteVmsStep(e: Effect, mid: Effect, r: Effect, init: seq<Instance>, last: Instance)
    requires forall x :: x in mid.cloud.instances <==> x in e.cloud.instances && x.id !in InstanceIds(init)
    requires mid.cloud.(instances := e.cloud.instances, calls := e.cloud.calls) == e.cloud
    requires mid.cloud.calls == e.cloud.calls + TeardownCalls(init)
    requires mid.log == e.log + DeletedVmEntries(init)
    requires forall x :: x in r.cloud.instances <==> x in mid.cloud.instances && x.id != last.id
    requires r.cloud.(instances := mid.cloud.instances, calls := mid.cloud.calls) == mid.cloud
    requires r.cloud.calls == mid.cloud.calls + [ShutdownVmCall(last.id), DeleteVmCall(last.id)]
    requires r.log == mid.log + [LogEntry(Delete, VmResource, last.id, last.name)]
    ensures var vms := init + [last];
      && (forall x :: x in r.cloud.instances <==> x in e.cloud.instances && x.id !in InstanceIds(vms))
      && r.cloud.(instances := e.cloud.instances, calls := e.cloud.calls) == e.cloud
      && r.cloud.calls == e.cloud.calls + TeardownCalls(vms)
      && r.log == e.log + DeletedVmEntries(vms)
  {
    var vms := init + [last];
    assert vms[..|vms| - 1] == init;
    assert InstanceIds(vms) == InstanceIds(init) + [last.id];
    assert DeletedVmEntries(vms) == DeletedVmEntries(init) + [LogEntry(Delete, VmResource, last.id, last.name)];
  }

  /** `down` takes the nodes down in strict reverse of their order, one
      shutdown, one delete and one `delete`/`vm` entry each, then the frontend
      if there is one; afterwards the provider lists no record of any of their
      ids and every other record as it was, and the volumes, the groups and the
      held volumes are untouched. */
  lemma DownEffect(e: Effect, t: Topology)
    ensures var r := Down(e, t);
      var order := TeardownOrder(t);
      && |order| == |t.nodes| + (if t.frontend.Some? then 1 else 0)
      && (forall k :: 0 <= k < |t.nodes| ==> order[k] == t.nodes[|t.nodes| - 1 - k])
      && (t.frontend.Some? ==> order[|t.nodes|] == t.frontend.value)
      && r.effect.log == e.log + DeletedVmEntries(order)
      && r.effect.cloud.calls == e.cloud.calls + TeardownCalls(order)
      && (forall x :: x in r.effect.cloud.instances <==> x in e.cloud.instances && x.id !in InstanceIds(order))
      && r.effect.cloud.(instances := e.cloud.instances, calls := e.cloud.calls) == e.cloud
      && r.topology == Topology(None, [], t.volumes)
  {
    DeleteVmsEffect(e, TeardownOrder(t));
  }

  // destroy_volumes

  /** How `destroy_volumes` ends: refused because instances are held, nothing
      to destroy, or every held volume deleted. */
  datatype DestroyOutcome = RefusedClusterUp | NothingToDestroy | Destroyed

  /** Deleting one volume and logging the deletion. */
  function DeleteVolume(e: Effect, v: Volume): Effect
  {
    Logged(e.(cloud := AfterDeleteVolume(e.cloud, v.id)), Delete, VolumeResource, v.id, v.displayName)
  }

  /** Deleting the listed volumes in the order listed. */
  function DeleteVolumes(e: Effect, vols: seq<Volume>): Effect
    decreases |vols|
  {
    if vols == [] then e else DeleteVolume(DeleteVolumes(e, vols[..|vols| - 1]), vols[|vols| - 1])
  }

  /** `destroy_volumes`: the outcome and the provider state with the log. The
      held volumes are not forgotten afterwards. */
  function DestroyVolumes(e: Effect, t: Topology): (DestroyOutcome, Effect)
  {
    if t.frontend.Some? || |t.nodes| > 0 then (RefusedClusterUp, e)
    else if |t.volumes| == 0 then (NothingToDestroy, e)
    else (Destroyed, DeleteVolumes(e, Reverse(t.volumes)))
  }

  /** The `delete`/`volume` entries of a list of volumes, in order. */
  function DeletedVolumeEntries(vols: seq<Volume>): (r: seq<LogEntry>)
    ensures |r| == |vols|
  {
    seq(|vols|, i requires 0 <= i < |vols| => LogEntry(Delete, VolumeResource, vols[i].id, vols[i].displayName))
  }

  /** Deleting a list of volumes removes exactly the volumes of the listed
      ids, sends one delete per volume in list order, logs one
      `delete`/`volume` entry per volume in list order, and changes nothing
      else. */
  lemma {:induction false} DeleteVolumesEffect(e: Effect, vols: seq<Volume>)
    ensures var r := DeleteVolumes(e, vols);
      && (forall w :: w in r.cloud.volumes <==> w in e.cloud.volumes && w.id !in Ids(vols))
      && r.cloud.(volumes := e.cloud.volumes, calls := e.cloud.calls) == e.cloud
      && r.cloud.calls == e.cloud.calls + VolumeDeleteCalls(vols)
      && r.log == e.log + DeletedVolumeEntries(vols)
    decreases |vols|
  {
    if vols != [] {
      var init, last := vols[..|vols| - 1], vols[|vols| - 1];
      DeleteVolumesEffect(e, init);
      assert vols == init + [last];
      DeleteVolumesStep(e, DeleteVolumes(e, init), init, last);
    }
  }

  /** The inductive step of DeleteVolumesEffect, on plain values. */
  lemma DeleteVolumesStep(e: Effect, mid: Effect, init: seq<Volume>, last: Volume)
    requires forall w :: w in mid.cloud.volumes <==> w in e.cloud.volumes && w.id !in Ids(init)
    requires mid.cloud.(volumes := e.cloud.volumes, calls := e.cloud.calls) == e.cloud
    requires mid.cloud.calls == e.cloud.calls + VolumeDeleteCalls(init)
    requires mid.log == e.log + DeletedVolumeEntries(init)
    ensures var vols, r := init + [last], DeleteVolume(mid, last);
      && (forall w :: w in r.cloud.volumes <==> w in e.cloud.volumes && w.id !in Ids(vols))
      && r.cloud.(volumes := e.cloud.volumes, calls := e.cloud.calls) == e.cloud
      && r.cloud.calls == e.cloud.calls + VolumeDeleteCalls(vols)
      && r.log == e.log + DeletedVolumeEntries(vols)
  {
    var vols := init + [last];
    assert Ids(vols) == Ids(init) + [last.id];
    assert DeletedVolumeEntries(vols) == DeletedVolumeEntries(init) + [LogEntry(Delete, VolumeResource, last.id, last.displayName)];
    assert VolumeDeleteCalls(vols) == VolumeDeleteCalls(init) + [DeleteVolumeCall(last.id)];
  }

  /** One delete request per volume, in order. */
  function VolumeDeleteCalls(vols: seq<Volume>): (r: seq<Call>)
    ensures |r| == |vols|
  {
    seq(|vols|, i requires 0 <= i < |vols| => DeleteVolumeCall(vols[i].id))
  }

  /** `destroy_volumes` deletes exactly when the cluster holds no frontend, no
      node and some volume; otherwise it changes nothing and logs nothing.
      When it deletes, it takes the held volumes in reverse order, one request
      and one `delete`/`volume` entry each, and the provider then lists none of
      their ids and every other volume as it was. */
  lemma DestroyVolumesEffect(e: Effect, t: Topology)
    ensures var (outcome, r) := DestroyVolumes(e, t);
      && (outcome == RefusedClusterUp <==> t.frontend.Some? || |t.nodes| > 0)
      && (outcome == NothingToDestroy <==> t.frontend.None? && t.nodes == [] && t.volumes == [])
      && (outcome != Destroyed ==> r == e)
      && (outcome == Destroyed ==>
            var order := Reverse(t.volumes);
            && r.log == e.log + DeletedVolumeEntries(order)
            && (forall w :: w in r.cloud.volumes <==> w in e.cloud.volumes && w.id !in Ids(order))
            && r.cloud.(volumes := e.cloud.volumes, calls := e.cloud.calls) == e.cloud)
  {
    DeleteVolumesEffect(e, Reverse(t.volumes));
  }
}
