/**
  The node ensure and the frontend ensure. The first node pass goes over the
  indices 1..n and creates `<cluster>-node%02d` only when no entry of `nodes`
  has that name, appending the new instance. The second pass goes over
  `nodes` by index and replaces each entry with its reloaded record once it
  is in service. The frontend is created only when the cluster has none, and
  is then brought into service like a node.
*/
module Reconcile {
  import opened Wrappers
  import opened Provider
  import opened Naming
  import opened Audit
  import opened ClusterConfig
  import opened Volumes
  import opened Groups
  import opened Instances

  /** The node list together with the state the node loops have reached. */
  datatype NodesState = NodesState(effect: Effect, nodes: seq<Instance>)

  /** The names of a list of instances, in order. */
  function Names(vms: seq<Instance>): (r: seq<string>)
    ensures |r| == |vms| && forall i :: 0 <= i < |vms| ==> r[i] == vms[i].name
  {
    seq(|vms|, i requires 0 <= i < |vms| => vms[i].name)
  }

  /** Index i of the first node pass. */
  function LaunchNode(st: NodesState, cat: Catalogue, cfg: Config, i: nat): (r: Result<NodesState, Error>)
    ensures r.Ok? ==> st.nodes <= r.value.nodes && NodeName(cfg.name, i) in Names(r.value.nodes)
  {
    var name := NodeName(cfg.name, i);
    if name in Names(st.nodes) then Ok(st)
    else match ProvisionVmEffect(st.effect, cat, name, [IntGroupName(cfg.name)], cfg.node, cfg.network, cfg.name)
         case Err(err) => Err(err)
         case Ok(p) =>
           assert Names(st.nodes + [p.vm])[|st.nodes|] == name;
           Ok(NodesState(p.effect.(cloud := AfterWaitInstance(p.effect.cloud, p.vm.id, "BUILD")), st.nodes + [p.vm]))
  }

  /** The first node pass over the indices 1..n. */
  function LaunchNodes(st: NodesState, cat: Catalogue, cfg: Config, n: nat): (r: Result<NodesState, Error>)
    ensures r.Ok? ==> st.nodes <= r.value.nodes
    decreases n
  {
    if n == 0 then Ok(st)
    else match LaunchNodes(st, cat, cfg, n - 1)
         case Err(err) => Err(err)
         case Ok(mid) => LaunchNode(mid, cat, cfg, n)
  }

  /** The names among 1..n that `names` lacks, in ascending index order. */
  function MissingNodeNames(names: seq<string>, cluster: string, n: nat): seq<string>
    decreases n
  {
    if n == 0 then []
    else MissingNodeNames(names, cluster, n - 1)
         + (if NodeName(cluster, n) in names then [] else [NodeName(cluster, n)])
  }

  /** The log entries of instances created with consecutive ids from `base`. */
  function CreatedVmEntries(base: nat, names: seq<string>): (r: seq<LogEntry>)
    ensures |r| == |names|
  {
    seq(|names|, j requires 0 <= j < |names| => LogEntry(Create, VmResource, base + j, names[j]))
  }

  /** One appended entry adds its log entry with the next id (the inductive
      step of LaunchNodesLog, stated on plain values). */
  lemma CreatedVmEntriesStep(before: seq<LogEntry>, midLog: seq<LogEntry>, after: seq<LogEntry>,
                             base: nat, midId: nat, k: nat, midNodes: seq<Instance>, nodes: seq<Instance>)
    requires k <= |midNodes| && |nodes| == |midNodes| + 1 && nodes[..|midNodes|] == midNodes
    requires midLog == before + CreatedVmEntries(base, NamesFrom(midNodes, k))
    requires midId == base + (|midNodes| - k)
    requires after == midLog + [LogEntry(Create, VmResource, midId, nodes[|midNodes|].name)]
    ensures after == before + CreatedVmEntries(base, NamesFrom(nodes, k))
  {
    var prev := NamesFrom(midNodes, k);
    assert nodes[k..] == midNodes[k..] + [nodes[|midNodes|]];
    assert NamesFrom(nodes, k) == prev + [nodes[|midNodes|].name];
    assert CreatedVmEntries(base, prev + [nodes[|midNodes|].name])
        == CreatedVmEntries(base, prev) + [LogEntry(Create, VmResource, base + |prev|, nodes[|midNodes|].name)];
  }

  /** The names of the entries of `nodes` from position k on. */
  function NamesFrom(nodes: seq<Instance>, k: nat): seq<string>
    requires k <= |nodes|
  {
    Names(nodes[k..])
  }

  /** The entries are tracked and the provider hands out ids above all it lists. */
  predicate Tracked(st: NodesState)
  {
    IdsFresh(st.effect.cloud) && AllTracked(st.effect.cloud, st.nodes)
  }

  /** Position i of the second node pass. */
  function FinishNode(st: NodesState, known: seq<Volume>, role: RoleSpec, i: nat): (r: Result<NodesState, Error>)
    requires i < |st.nodes|
    ensures r.Ok? ==> |r.value.nodes| == |st.nodes|
  {
    match FinishVm(st.effect, st.nodes[i], known, role)
    case Err(err) => Err(err)
    case Ok(p) => Ok(NodesState(p.effect, st.nodes[i := p.vm]))
  }

  /** `after` is `before` with entry i, and only it, brought into service;
      the groups are as before, only volume creations were logged, and
      tracked entries stay tracked and keep their names. */
  predicate StepKept(before: NodesState, after: NodesState, i: nat)
  {
    && i < |before.nodes| == |after.nodes|
    && InService(before.nodes, after.nodes, i)
    && (forall j :: 0 <= j < |before.nodes| && j != i ==> after.nodes[j] == before.nodes[j])
    && GroupsKept(before.effect.cloud, after.effect.cloud)
    && LogsOnlyVolumes(before.effect.log, after.effect.log)
    && (Tracked(before) ==> Tracked(after) && Names(after.nodes) == Names(before.nodes))
  }

  /** Position i of the second pass replaces entry i, and only it, by its
      reloaded record, which has entry i's id, is ACTIVE and has an internal
      address; the groups stay, only volume creations are logged, and
      tracked entries stay tracked and keep their names. */
  lemma FinishNodeKept(st: NodesState, known: seq<Volume>, role: RoleSpec, i: nat)
    requires i < |st.nodes|
    ensures FinishNode(st, known, role, i).Ok? ==> StepKept(st, FinishNode(st, known, role, i).value, i)
  {
    var vm := st.nodes[i];
    if FinishNode(st, known, role, i).Ok? {
      var p := FinishVm(st.effect, vm, known, role).value;
      FinishVmResult(st.effect, vm, known, role);
      FinishVmLog(st.effect, vm, known, role);
      FinishVmKeepsGroups(st.effect, vm, known, role);
      if Tracked(st) {
        FinishVmTracks(st.effect, vm, known, role, st.nodes);
        AllTrackedUpdate(p.effect.cloud, st.nodes, i, p.vm);
        ReplaceKeepsNames(st.nodes, i, p.vm);
      }
    }
  }

  /** Replacing an entry by one of the same name keeps the names. */
  lemma ReplaceKeepsNames(vms: seq<Instance>, i: nat, vm: Instance)
    requires i < |vms| && vm.name == vms[i].name
    ensures Names(vms[i := vm]) == Names(vms)
  {
  }

  /** The second node pass over positions k, k+1, ... of the list, by index. */
  function FinishNodes(st: NodesState, known: seq<Volume>, role: RoleSpec, k: nat): (r: Result<NodesState, Error>)
    requires k <= |st.nodes|
    ensures r.Ok? ==> |r.value.nodes| == |st.nodes|
    decreases |st.nodes| - k
  {
    if k == |st.nodes| then Ok(st)
    else match FinishNode(st, known, role, k)
         case Err(err) => Err(err)
         case Ok(next) => FinishNodes(next, known, role, k + 1)
  }

  /** `after` holds the entries of `before` from k on brought into service
      in place, by index, and the others unchanged; the groups are as before,
      only volume creations were logged, and tracked entries stay tracked
      and keep their names. */
  predicate PassKept(before: NodesState, after: NodesState, k: nat)
  {
    && InPlaceFrom(before.nodes, after.nodes, k)
    && GroupsKept(before.effect.cloud, after.effect.cloud)
    && LogsOnlyVolumes(before.effect.log, after.effect.log)
    && (Tracked(before) ==> Tracked(after) && Names(after.nodes) == Names(before.nodes))
  }

  /** The second pass from position k keeps PassKept. */
  lemma {:induction false} FinishNodesEnsures(st: NodesState, known: seq<Volume>, role: RoleSpec, k: nat)
    requires k <= |st.nodes|
    ensures FinishNodes(st, known, role, k).Ok? ==> PassKept(st, FinishNodes(st, known, role, k).value, k)
    decreases |st.nodes| - k
  {
    hide FinishVm;
    if k < |st.nodes| && FinishNode(st, known, role, k).Ok? {
      var next := FinishNode(st, known, role, k).value;
      FinishNodeKept(st, known, role, k);
      FinishNodesEnsures(next, known, role, k + 1);
      if FinishNodes(next, known, role, k + 1).Ok? {
        PassKeptStep(st, next, FinishNodes(next, known, role, k + 1).value, k);
      }
    }
  }

  /** Position k followed by the pass from k+1 keeps PassKept from k. */
  lemma PassKeptStep(st: NodesState, next: NodesState, r: NodesState, k: nat)
    requires StepKept(st, next, k) && PassKept(next, r, k + 1)
    ensures PassKept(st, r, k)
  {
    InPlaceStep(st.nodes, next.nodes, r.nodes, k);
    LogsOnlyVolumesTrans(st.effect.log, next.effect.log, r.effect.log);
  }

  /** __provision_nodes: both passes. */
  function ProvisionNodes(st: NodesState, cat: Catalogue, cfg: Config, known: seq<Volume>, n: nat)
    : Result<NodesState, Error>
  {
    match LaunchNodes(st, cat, cfg, n)
    case Err(err) => Err(err)
    case Ok(launched) => FinishNodes(launched, known, cfg.node, 0)
  }

  /** __provision_frontend: create the frontend only when there is none, then
      bring it into service. */
  function EnsureFrontend(e: Effect, frontend: Option<Instance>, cat: Catalogue, cfg: Config, known: seq<Volume>)
    : Result<Provisioned, Error>
  {
    var created :=
      match frontend
      case Some(fe) => Ok(Provisioned(e, fe))
      case None => ProvisionVmEffect(e, cat, FrontendName(cfg.name), [ExtGroupName(cfg.name), IntGroupName(cfg.name)],
                                     cfg.frontend, cfg.network, cfg.name);
    match created
    case Err(err) => Err(err)
    case Ok(p) => FinishVm(p.effect, p.vm, known, cfg.frontend)
  }

  // The first pass.

  /** A missing name is a node name with an index in 1..n. */
  lemma {:induction false} MissingNodeNamesIndexed(names: seq<string>, cluster: string, n: nat, x: string)
    requires x in MissingNodeNames(names, cluster, n)
    ensures exists j :: 1 <= j <= n && x == NodeName(cluster, j) && x !in names
    decreases n
  {
    if x !in MissingNodeNames(names, cluster, n - 1) {
      assert x == NodeName(cluster, n);
    } else {
      MissingNodeNamesIndexed(names, cluster, n - 1, x);
    }
  }

  /** One more index appends its name exactly when `names` lacks it. */
  lemma MissingNodeNamesStep(names: seq<string>, cluster: string, n: nat)
    requires n >= 1
    ensures var x := NodeName(cluster, n);
      MissingNodeNames(names, cluster, n)
        == MissingNodeNames(names, cluster, n - 1) + (if x in names then [] else [x])
  {
  }

  /** The first pass over no index changes nothing. */
  lemma LaunchNodesNone(st: NodesState, cat: Catalogue, cfg: Config)
    ensures LaunchNodes(st, cat, cfg, 0) == Ok(st)
  {
  }

  /** No index misses no name. */
  lemma MissingNodeNamesNone(names: seq<string>, cluster: string)
    ensures MissingNodeNames(names, cluster, 0) == []
  {
  }

  /** One more index of the first pass is one more `LaunchNode`. */
  lemma LaunchNodesStep(st: NodesState, cat: Catalogue, cfg: Config, n: nat)
    requires n >= 1 && LaunchNodes(st, cat, cfg, n).Ok?
    ensures LaunchNodes(st, cat, cfg, n - 1).Ok?
    ensures LaunchNodes(st, cat, cfg, n) == LaunchNode(LaunchNodes(st, cat, cfg, n - 1).value, cat, cfg, n)
  {
  }

  /** The name of index n is not among the names missing below n. */
  lemma MissingBelow(names: seq<string>, cluster: string, n: nat)
    requires n >= 1
    ensures NodeName(cluster, n) !in MissingNodeNames(names, cluster, n - 1)
  {
    if NodeName(cluster, n) in MissingNodeNames(names, cluster, n - 1) {
      MissingNodeNamesIndexed(names, cluster, n - 1, NodeName(cluster, n));
      var j :| 1 <= j <= n - 1 && NodeName(cluster, n) == NodeName(cluster, j);
      NodeNameInjective(cluster, n, j);
      assert false;
    }
  }

  /** The first pass appends exactly the missing names, in ascending index
      order. */
  lemma {:induction false} LaunchNodesAppends(st: NodesState, cat: Catalogue, cfg: Config, n: nat)
    requires LaunchNodes(st, cat, cfg, n).Ok?
    ensures Names(LaunchNodes(st, cat, cfg, n).value.nodes)
         == Names(st.nodes) + MissingNodeNames(Names(st.nodes), cfg.name, n)
    decreases n
  {
    hide ProvisionVmEffect, LaunchNode, LaunchNodes, MissingNodeNames, NodeName;
    if n > 0 {
      LaunchNodesStep(st, cat, cfg, n);
      LaunchNodesAppends(st, cat, cfg, n - 1);
      var mid := LaunchNodes(st, cat, cfg, n - 1).value;
      var name := NodeName(cfg.name, n);
      MissingNodeNamesStep(Names(st.nodes), cfg.name, n);
      MissingBelow(Names(st.nodes), cfg.name, n);
      assert name in Names(mid.nodes) <==> name in Names(st.nodes);
      if name in Names(mid.nodes) {
        LaunchNodePresent(mid, cat, cfg, n);
      } else {
        LaunchNodeMissing(mid, cat, cfg, n);
        var r := LaunchNodes(st, cat, cfg, n).value;
        assert r.nodes == mid.nodes + [r.nodes[|mid.nodes|]];
        assert Names(r.nodes) == Names(mid.nodes) + [name];
      }
    } else {
      LaunchNodesNone(st, cat, cfg);
      MissingNodeNamesNone(Names(st.nodes), cfg.name);
    }
  }

  /** One index of the first pass for a name already present changes nothing. */
  lemma LaunchNodePresent(mid: NodesState, cat: Catalogue, cfg: Config, i: nat)
    requires NodeName(cfg.name, i) in Names(mid.nodes)
    ensures LaunchNode(mid, cat, cfg, i) == Ok(mid)
  {
  }

  /** One index of the first pass for a missing name: the name is appended
      once, costing one fresh id and one `create`/`vm` log entry. */
  lemma LaunchNodeMissing(mid: NodesState, cat: Catalogue, cfg: Config, i: nat)
    requires LaunchNode(mid, cat, cfg, i).Ok?
    requires NodeName(cfg.name, i) !in Names(mid.nodes)
    ensures var r := LaunchNode(mid, cat, cfg, i).value;
      && |r.nodes| == |mid.nodes| + 1
      && r.nodes[..|mid.nodes|] == mid.nodes
      && r.nodes[|mid.nodes|].name == NodeName(cfg.name, i)
      && r.effect.cloud.nextId == mid.effect.cloud.nextId + 1
      && r.effect.log == mid.effect.log + [LogEntry(Create, VmResource, mid.effect.cloud.nextId, NodeName(cfg.name, i))]
  {
  }

  /** One index of the first pass extends the log account of the entries
      appended since position k: one fresh id and one `create`/`vm` entry
      per appended entry. */
  lemma LaunchNodeLogStep(mid: NodesState, cat: Catalogue, cfg: Config, i: nat,
                          before: seq<LogEntry>, base: nat, k: nat)
    requires LaunchNode(mid, cat, cfg, i).Ok?
    requires k <= |mid.nodes|
    requires mid.effect.cloud.nextId == base + (|mid.nodes| - k)
    requires mid.effect.log == before + CreatedVmEntries(base, NamesFrom(mid.nodes, k))
    ensures var r := LaunchNode(mid, cat, cfg, i).value;
      && r.effect.cloud.nextId == base + (|r.nodes| - k)
      && r.effect.log == before + CreatedVmEntries(base, NamesFrom(r.nodes, k))
  {
    if NodeName(cfg.name, i) !in Names(mid.nodes) {
      LaunchNodeMissing(mid, cat, cfg, i);
      var r := LaunchNode(mid, cat, cfg, i).value;
      CreatedVmEntriesStep(before, mid.effect.log, r.effect.log, base,
                           mid.effect.cloud.nextId, k, mid.nodes, r.nodes);
    }
  }

  /** The first pass takes one fresh id per appended entry and logs one
      `create`/`vm` entry per appended entry, in order, with consecutive ids. */
  lemma {:induction false} LaunchNodesLog(st: NodesState, cat: Catalogue, cfg: Config, n: nat)
    requires LaunchNodes(st, cat, cfg, n).Ok?
    ensures var r := LaunchNodes(st, cat, cfg, n).value;
      && r.effect.cloud.nextId == st.effect.cloud.nextId + (|r.nodes| - |st.nodes|)
      && r.effect.log == st.effect.log + CreatedVmEntries(st.effect.cloud.nextId, NamesFrom(r.nodes, |st.nodes|))
    decreases n
  {
    if n == 0 {
      assert st.nodes[|st.nodes|..] == [];
    } else {
      LaunchNodesLog(st, cat, cfg, n - 1);
      var mid := LaunchNodes(st, cat, cfg, n - 1).value;
      assert LaunchNodes(st, cat, cfg, n) == LaunchNode(mid, cat, cfg, n);
      LaunchNodeLogStep(mid, cat, cfg, n, st.effect.log, st.effect.cloud.nextId, |st.nodes|);
    }
  }

  /** The first pass logs one `create`/`vm` entry per missing name, in
      ascending index order, with consecutive ids. */
  lemma LaunchNodesLogsMissing(st: NodesState, cat: Catalogue, cfg: Config, n: nat)
    requires LaunchNodes(st, cat, cfg, n).Ok?
    ensures var r := LaunchNodes(st, cat, cfg, n).value;
      var missing := MissingNodeNames(Names(st.nodes), cfg.name, n);
      && r.effect.cloud.nextId == st.effect.cloud.nextId + |missing|
      && r.effect.log == st.effect.log + CreatedVmEntries(st.effect.cloud.nextId, missing)
  {
    var r := LaunchNodes(st, cat, cfg, n).value;
    LaunchNodesLog(st, cat, cfg, n);
    LaunchNodesAppends(st, cat, cfg, n);
    var k := |st.nodes|;
    assert Names(r.nodes)[k..] == NamesFrom(r.nodes, k);
  }

  /** After the first pass every name of the indices 1..n is in the list. */
  lemma {:induction false} LaunchNodesCovers(st: NodesState, cat: Catalogue, cfg: Config, n: nat)
    requires LaunchNodes(st, cat, cfg, n).Ok?
    ensures forall i :: 1 <= i <= n ==> NodeName(cfg.name, i) in Names(LaunchNodes(st, cat, cfg, n).value.nodes)
    decreases n
  {
    hide ProvisionVmEffect, LaunchNode;
    if n > 0 {
      LaunchNodesCovers(st, cat, cfg, n - 1);
      var mid := LaunchNodes(st, cat, cfg, n - 1).value;
      var r := LaunchNodes(st, cat, cfg, n).value;
      assert LaunchNodes(st, cat, cfg, n) == LaunchNode(mid, cat, cfg, n);
      forall i | 1 <= i < n
        ensures NodeName(cfg.name, i) in Names(r.nodes)
      {
        var j :| 0 <= j < |mid.nodes| && Names(mid.nodes)[j] == NodeName(cfg.name, i);
        assert Names(r.nodes)[j] == NodeName(cfg.name, i);
      }
    }
  }

  /** When every name of 1..n is present the first pass changes nothing: no
      request, no log entry, no new entry. */
  lemma {:induction false} LaunchNodesIdle(st: NodesState, cat: Catalogue, cfg: Config, n: nat)
    requires forall i :: 1 <= i <= n ==> NodeName(cfg.name, i) in Names(st.nodes)
    ensures LaunchNodes(st, cat, cfg, n) == Ok(st)
    decreases n
  {
    if n > 0 {
      LaunchNodesIdle(st, cat, cfg, n - 1);
    }
  }

  /** Re-running the first pass on its own result creates nothing new. */
  lemma LaunchNodesRerun(st: NodesState, cat: Catalogue, cfg: Config, n: nat)
    requires LaunchNodes(st, cat, cfg, n).Ok?
    ensures var r := LaunchNodes(st, cat, cfg, n).value;
      LaunchNodes(r, cat, cfg, n) == Ok(r)
  {
    LaunchNodesCovers(st, cat, cfg, n);
    LaunchNodesIdle(LaunchNodes(st, cat, cfg, n).value, cat, cfg, n);
  }

  /** One index of the first pass keeps the id counter ahead and every entry tracked. */
  lemma LaunchNodeTracks(mid: NodesState, cat: Catalogue, cfg: Config, i: nat)
    requires IdsFresh(mid.effect.cloud) && AllTracked(mid.effect.cloud, mid.nodes)
    requires LaunchNode(mid, cat, cfg, i).Ok?
    ensures var r := LaunchNode(mid, cat, cfg, i).value;
      IdsFresh(r.effect.cloud) && AllTracked(r.effect.cloud, r.nodes)
  {
    var name := NodeName(cfg.name, i);
    if name !in Names(mid.nodes) {
      var p := ProvisionVmEffect(mid.effect, cat, name, [IntGroupName(cfg.name)], cfg.node, cfg.network, cfg.name).value;
      AppendThenWait(mid.effect.cloud, p.effect.cloud, mid.nodes, p.vm, "BUILD");
    }
  }

  /** The first pass keeps the id counter ahead and keeps every entry tracked. */
  lemma {:induction false} LaunchNodesTracks(st: NodesState, cat: Catalogue, cfg: Config, n: nat)
    requires IdsFresh(st.effect.cloud) && AllTracked(st.effect.cloud, st.nodes)
    requires LaunchNodes(st, cat, cfg, n).Ok?
    ensures var r := LaunchNodes(st, cat, cfg, n).value;
      IdsFresh(r.effect.cloud) && AllTracked(r.effect.cloud, r.nodes)
    decreases n
  {
    if n > 0 {
      LaunchNodesTracks(st, cat, cfg, n - 1);
      LaunchNodeTracks(LaunchNodes(st, cat, cfg, n - 1).value, cat, cfg, n);
    }
  }

  // The second pass.

  /** Entry i of `after` is a record of entry i's id that is ACTIVE and has an
      internal address. */
  predicate InService(before: seq<Instance>, after: seq<Instance>, i: nat)
    requires i < |before| && i < |after|
  {
    after[i].id == before[i].id && after[i].status == "ACTIVE" && after[i].fixedIps != []
  }

  /** `after` is `before` with the entries from k on, and only those,
      brought into service. */
  predicate InPlaceFrom(before: seq<Instance>, after: seq<Instance>, k: nat)
  {
    && |after| == |before| && k <= |before|
    && (forall j :: 0 <= j < k ==> after[j] == before[j])
    && (forall j :: k <= j < |before| ==> InService(before, after, j))
  }

  /** Bringing entry k into service and then the entries after it gives
      InPlaceFrom from k. */
  lemma InPlaceStep(before: seq<Instance>, mid: seq<Instance>, after: seq<Instance>, k: nat)
    requires k < |before| == |mid| && InService(before, mid, k)
    requires forall j :: 0 <= j < |mid| && j != k ==> mid[j] == before[j]
    requires InPlaceFrom(mid, after, k + 1)
    ensures InPlaceFrom(before, after, k)
  {
    forall j | k <= j < |before|
      ensures InService(before, after, j)
    {
      if j == k {
        assert after[k] == mid[k];
      } else {
        assert InService(mid, after, j);
      }
    }
  }

  /** The first pass leaves the groups alone. */
  lemma {:induction false} LaunchNodesKeepGroups(st: NodesState, cat: Catalogue, cfg: Config, n: nat)
    requires LaunchNodes(st, cat, cfg, n).Ok?
    ensures GroupsKept(st.effect.cloud, LaunchNodes(st, cat, cfg, n).value.effect.cloud)
    decreases n
  {
    if n > 0 {
      LaunchNodesKeepGroups(st, cat, cfg, n - 1);
      var mid := LaunchNodes(st, cat, cfg, n - 1).value;
      ProvisionVmKeepsGroups(mid.effect, cat, NodeName(cfg.name, n), [IntGroupName(cfg.name)], cfg.node,
                             cfg.network, cfg.name);
    }
  }

  /** One more index of the first pass after a successful prefix. */
  lemma LaunchNodesNext(st: NodesState, cat: Catalogue, cfg: Config, i: nat, mid: NodesState)
    requires i >= 1 && LaunchNodes(st, cat, cfg, i - 1) == Ok(mid)
    ensures LaunchNodes(st, cat, cfg, i) == LaunchNode(mid, cat, cfg, i)
  {
  }

  /** Once the first pass has failed at some index, the later indices are
      never reached and the error stays. */
  lemma {:induction false} LaunchNodesStaysFailed(st: NodesState, cat: Catalogue, cfg: Config, i: nat, n: nat)
    requires i <= n && LaunchNodes(st, cat, cfg, i).Err?
    ensures LaunchNodes(st, cat, cfg, n) == LaunchNodes(st, cat, cfg, i)
    decreases n - i
  {
    if i < n {
      LaunchNodesStaysFailed(st, cat, cfg, i, n - 1);
    }
  }

  /** __provision_nodes: afterwards every name of 1..n is in the list; the
      entries from before keep their positions and ids and are followed by
      the missing names in ascending index order; every entry is ACTIVE with
      an internal address; and the log gains one `create`/`vm` entry per
      missing name, then volume creations only. */
  lemma ProvisionNodesEnsures(st: NodesState, cat: Catalogue, cfg: Config, known: seq<Volume>, n: nat)
    requires IdsFresh(st.effect.cloud) && AllTracked(st.effect.cloud, st.nodes)
    requires ProvisionNodes(st, cat, cfg, known, n).Ok?
    ensures var r := ProvisionNodes(st, cat, cfg, known, n).value;
      var missing := MissingNodeNames(Names(st.nodes), cfg.name, n);
      && Names(r.nodes) == Names(st.nodes) + missing
      && (forall i :: 1 <= i <= n ==> NodeName(cfg.name, i) in Names(r.nodes))
      && (forall j :: 0 <= j < |st.nodes| ==> r.nodes[j].id == st.nodes[j].id)
      && (forall j :: 0 <= j < |r.nodes| ==> r.nodes[j].status == "ACTIVE" && r.nodes[j].fixedIps != [])
      && LogsOnlyVolumes(st.effect.log + CreatedVmEntries(st.effect.cloud.nextId, missing), r.effect.log)
      && IdsFresh(r.effect.cloud) && AllTracked(r.effect.cloud, r.nodes)
      && GroupsKept(st.effect.cloud, r.effect.cloud)
  {
    var launched := LaunchNodes(st, cat, cfg, n).value;
    var r := FinishNodes(launched, known, cfg.node, 0);
    assert ProvisionNodes(st, cat, cfg, known, n) == r;
    FinishNodesEnsures(launched, known, cfg.node, 0);
    LaunchNodesAppends(st, cat, cfg, n);
    LaunchNodesCovers(st, cat, cfg, n);
    LaunchNodesLogsMissing(st, cat, cfg, n);
    LaunchNodesTracks(st, cat, cfg, n);
    LaunchNodesKeepGroups(st, cat, cfg, n);
    BothPasses(st, launched, r.value, MissingNodeNames(Names(st.nodes), cfg.name, n),
               CreatedVmEntries(st.effect.cloud.nextId, MissingNodeNames(Names(st.nodes), cfg.name, n)));
  }

  /** The two passes combined, on plain values. */
  lemma BothPasses(st: NodesState, launched: NodesState, r: NodesState, missing: seq<string>, created: seq<LogEntry>)
    requires st.nodes <= launched.nodes && Names(launched.nodes) == Names(st.nodes) + missing
    requires LogsOnlyVolumes(st.effect.log + created, launched.effect.log)
    requires GroupsKept(st.effect.cloud, launched.effect.cloud)
    requires InPlaceFrom(launched.nodes, r.nodes, 0)
    requires GroupsKept(launched.effect.cloud, r.effect.cloud) && LogsOnlyVolumes(launched.effect.log, r.effect.log)
    requires Names(r.nodes) == Names(launched.nodes)
    ensures Names(r.nodes) == Names(st.nodes) + missing
    ensures forall j :: 0 <= j < |st.nodes| ==> r.nodes[j].id == st.nodes[j].id
    ensures forall j :: 0 <= j < |r.nodes| ==> r.nodes[j].status == "ACTIVE" && r.nodes[j].fixedIps != []
    ensures LogsOnlyVolumes(st.effect.log + created, r.effect.log)
    ensures GroupsKept(st.effect.cloud, r.effect.cloud)
  {
    forall j | 0 <= j < |r.nodes|
      ensures r.nodes[j].status == "ACTIVE" && r.nodes[j].fixedIps != []
    {
      assert InService(launched.nodes, r.nodes, j);
    }
    forall j | 0 <= j < |st.nodes|
      ensures r.nodes[j].id == st.nodes[j].id
    {
      assert InService(launched.nodes, r.nodes, j);
      assert launched.nodes[j] == st.nodes[j];
    }
    LogsOnlyVolumesTrans(st.effect.log + created, launched.effect.log, r.effect.log);
  }

  /** With every name of 1..n already held, __provision_nodes creates no
      instance: it keeps the list's length and logs volume creations only. */
  lemma ProvisionNodesRerun(st: NodesState, cat: Catalogue, cfg: Config, known: seq<Volume>, n: nat)
    requires forall i :: 1 <= i <= n ==> NodeName(cfg.name, i) in Names(st.nodes)
    requires ProvisionNodes(st, cat, cfg, known, n).Ok?
    ensures var r := ProvisionNodes(st, cat, cfg, known, n).value;
      |r.nodes| == |st.nodes| && LogsOnlyVolumes(st.effect.log, r.effect.log)
  {
    LaunchNodesIdle(st, cat, cfg, n);
    assert ProvisionNodes(st, cat, cfg, known, n) == FinishNodes(st, known, cfg.node, 0);
    FinishNodesEnsures(st, known, cfg.node, 0);
  }

  // The frontend.

  /** __provision_frontend: the frontend that comes out is ACTIVE with an
      internal address. Without a frontend one is created under
      `<cluster>-fe` with the next id and logged once; with one, no instance
      is created and only volume creations are logged. Tracked entries stay
      tracked and the groups are left alone. */
  lemma EnsureFrontendEnsures(e: Effect, frontend: Option<Instance>, cat: Catalogue, cfg: Config,
                              known: seq<Volume>, vms: seq<Instance>)
    requires IdsFresh(e.cloud) && AllTracked(e.cloud, vms)
    requires frontend.Some? ==> Tracks(e.cloud, frontend.value)
    requires EnsureFrontend(e, frontend, cat, cfg, known).Ok?
    ensures var p := EnsureFrontend(e, frontend, cat, cfg, known).value;
      && p.vm.status == "ACTIVE" && p.vm.fixedIps != []
      && (frontend.Some? ==> p.vm.id == frontend.value.id && p.vm.name == frontend.value.name
                             && LogsOnlyVolumes(e.log, p.effect.log))
      && (frontend.None? ==>
            p.vm.id == e.cloud.nextId && p.vm.name == FrontendName(cfg.name)
            && LogsOnlyVolumes(e.log + [LogEntry(Create, VmResource, e.cloud.nextId, FrontendName(cfg.name))],
                               p.effect.log))
      && IdsFresh(p.effect.cloud) && AllTracked(p.effect.cloud, vms) && Tracks(p.effect.cloud, p.vm)
      && GroupsKept(e.cloud, p.effect.cloud)
  {
    var fe := FrontendName(cfg.name);
    var groups := [ExtGroupName(cfg.name), IntGroupName(cfg.name)];
    if frontend.Some? {
      FinishVmResult(e, frontend.value, known, cfg.frontend);
      FinishVmTracks(e, frontend.value, known, cfg.frontend, vms);
      FinishVmLog(e, frontend.value, known, cfg.frontend);
      FinishVmKeepsGroups(e, frontend.value, known, cfg.frontend);
    } else {
      var c := ProvisionVmEffect(e, cat, fe, groups, cfg.frontend, cfg.network, cfg.name).value;
      AppendTracked(e.cloud, c.effect.cloud, vms, c.vm);
      assert Tracks(c.effect.cloud, (vms + [c.vm])[|vms|]);
      assert AllTracked(c.effect.cloud, vms) by {
        assert forall i :: 0 <= i < |vms| ==> (vms + [c.vm])[i] == vms[i];
      }
      FinishVmResult(c.effect, c.vm, known, cfg.frontend);
      FinishVmTracks(c.effect, c.vm, known, cfg.frontend, vms);
      FinishVmLog(c.effect, c.vm, known, cfg.frontend);
      ProvisionVmKeepsGroups(e, cat, fe, groups, cfg.frontend, cfg.network, cfg.name);
      FinishVmKeepsGroups(c.effect, c.vm, known, cfg.frontend);
    }
  }
}
