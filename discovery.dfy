/**
  Discovery: rebuilding the cluster's topology from the provider's instance
  and volume listings by the naming convention alone. The frontend is the
  instance named `<cluster>-fe`; the nodes are the instances named
  `<cluster>-nodeNN` for NN = 01 .. 99, in ascending NN; the volumes are those
  whose display name starts with `<instance>/` for one of those names and whose
  status is `in-use` or `available`. An expected name held by two instances
  is an error.
*/
module Discovery {
  import opened Wrappers
  import opened Provider
  import opened Naming

  /** The highest node index the scan looks at (indices 1 .. 99). */
  const MaxNodeIndex: nat := 99

  /** The observed cluster: frontend, nodes in index order, their volumes. */
  datatype Topology = Topology(frontend: Option<Instance>, nodes: seq<Instance>, volumes: seq<Volume>)

  /** The volume filter's test: a non-empty display name that starts with
      `<vm>/`, and a status of `in-use` or `available`. */
  predicate BelongsTo(v: Volume, vm: string)
  {
    && |v.displayName| > 0
    && OwnerPrefix(vm) <= v.displayName
    && (v.status == "in-use" || v.status == "available")
  }

  /** The volumes of `vols` that belong to `vm`, in the provider's order. */
  function FilterVolumes(vols: seq<Volume>, vm: string): (r: seq<Volume>)
    ensures forall v :: v in r <==> v in vols && BelongsTo(v, vm)
    ensures |r| <= |vols|
  {
    if vols == [] then []
    else (if BelongsTo(vols[0], vm) then [vols[0]] else []) + FilterVolumes(vols[1..], vm)
  }

  /** The instances of `vms` named exactly `name`, in the provider's order. */
  function Matching(vms: seq<Instance>, name: string): (r: seq<Instance>)
    ensures forall x :: x in r <==> x in vms && x.name == name
    ensures |r| <= |vms|
  {
    if vms == [] then []
    else (if vms[0].name == name then [vms[0]] else []) + Matching(vms[1..], name)
  }

  /** Scanning node indices 1 .. n-1: the nodes found in index order, or the
      error for the first index that more than one instance answers to. */
  function ScanNodes(vms: seq<Instance>, cluster: string, n: nat): Result<seq<Instance>, Error>
    decreases n
  {
    if n <= 1 then Ok([])
    else
      match ScanNodes(vms, cluster, n - 1)
      case Err(e) => Err(e)
      case Ok(ns) =>
        var m := Matching(vms, NodeName(cluster, n - 1));
        if |m| == 1 then Ok(ns + [m[0]])
        else if |m| > 1 then Err(Duplicate(NodeName(cluster, n - 1)))
        else Ok(ns)
  }

  /** The volumes of nodes 1 .. n-1, node by node. */
  function ScanVolumes(vols: seq<Volume>, cluster: string, n: nat): seq<Volume>
    decreases n
  {
    if n <= 1 then []
    else ScanVolumes(vols, cluster, n - 1) + FilterVolumes(vols, NodeName(cluster, n - 1))
  }

  /** The topology the provider's listings show for `cluster`. */
  function Discover(vms: seq<Instance>, vols: seq<Volume>, cluster: string): (r: Result<Topology, Error>)
    ensures r.Ok? ==>
      (r.value.frontend.Some? <==> exists x :: x in vms && x.name == FrontendName(cluster))
    ensures r.Ok? && r.value.frontend.Some? ==>
      r.value.frontend.value in vms && r.value.frontend.value.name == FrontendName(cluster)
    ensures r.Ok? ==> |Matching(vms, FrontendName(cluster))| <= 1
  {
    var fe := Matching(vms, FrontendName(cluster));
    if |fe| > 1 then Err(Duplicate(FrontendName(cluster)))
    else
      match ScanNodes(vms, cluster, MaxNodeIndex + 1)
      case Err(e) => Err(e)
      case Ok(ns) =>
        assert |fe| == 1 ==> fe[0] in fe;
        Ok(Topology(if |fe| == 1 then Some(fe[0]) else None,
                    ns,
                    FilterVolumes(vols, FrontendName(cluster)) + ScanVolumes(vols, cluster, MaxNodeIndex + 1)))
  }

  /** Some node index below n is held by more than one instance. */
  predicate DuplicateBelow(vms: seq<Instance>, cluster: string, n: nat)
  {
    exists i :: 1 <= i < n && |Matching(vms, NodeName(cluster, i))| > 1
  }

  /** Index n-1 is held twice, or some index below it. */
  lemma DuplicateBelowStep(vms: seq<Instance>, cluster: string, n: nat)
    requires n > 1
    ensures DuplicateBelow(vms, cluster, n) <==>
      DuplicateBelow(vms, cluster, n - 1) || |Matching(vms, NodeName(cluster, n - 1))| > 1
  {
    if DuplicateBelow(vms, cluster, n) && !DuplicateBelow(vms, cluster, n - 1) {
      var i :| 1 <= i < n && |Matching(vms, NodeName(cluster, i))| > 1;
      assert i == n - 1;
    }
  }

  /** The scan up to n fails where the scan up to n-1 failed, or else at n-1
      when that index is held twice. */
  lemma ScanNodesErrStep(vms: seq<Instance>, cluster: string, n: nat)
    requires n > 1
    ensures ScanNodes(vms, cluster, n - 1).Err? ==> ScanNodes(vms, cluster, n) == ScanNodes(vms, cluster, n - 1)
    ensures ScanNodes(vms, cluster, n - 1).Ok? ==>
      (ScanNodes(vms, cluster, n).Err? <==> |Matching(vms, NodeName(cluster, n - 1))| > 1)
    ensures ScanNodes(vms, cluster, n - 1).Ok? && ScanNodes(vms, cluster, n).Err? ==>
      ScanNodes(vms, cluster, n).error == Duplicate(NodeName(cluster, n - 1))
  {
  }

  /** Scanning one more index after a successful scan. */
  lemma ScanNodesNext(vms: seq<Instance>, vols: seq<Volume>, cluster: string, i: nat, ns: seq<Instance>)
    requires i >= 1 && ScanNodes(vms, cluster, i) == Ok(ns)
    ensures var m := Matching(vms, NodeName(cluster, i));
      ScanNodes(vms, cluster, i + 1)
        == if |m| == 1 then Ok(ns + [m[0]]) else if |m| > 1 then Err(Duplicate(NodeName(cluster, i))) else Ok(ns)
    ensures ScanVolumes(vols, cluster, i + 1) == ScanVolumes(vols, cluster, i) + FilterVolumes(vols, NodeName(cluster, i))
  {
  }

  /** Discovery once the frontend name and the node scan are settled. */
  lemma DiscoverFrom(vms: seq<Instance>, vols: seq<Volume>, cluster: string, n: nat)
    requires n == MaxNodeIndex + 1
    ensures var fe := Matching(vms, FrontendName(cluster));
      Discover(vms, vols, cluster)
        == if |fe| > 1 then Err(Duplicate(FrontendName(cluster)))
           else match ScanNodes(vms, cluster, n)
                case Err(e) => Err(e)
                case Ok(ns) => Ok(Topology(if |fe| == 1 then Some(fe[0]) else None, ns,
                                           FilterVolumes(vols, FrontendName(cluster)) + ScanVolumes(vols, cluster, n)))
  {
  }

  /** Once the scan has failed, scanning further indices keeps that error. */
  lemma {:induction false} ScanNodesStaysFailed(vms: seq<Instance>, cluster: string, i: nat, n: nat)
    requires 1 <= i <= n && ScanNodes(vms, cluster, i).Err?
    ensures ScanNodes(vms, cluster, n) == ScanNodes(vms, cluster, i)
    decreases n - i
  {
    if i < n {
      ScanNodesStaysFailed(vms, cluster, i, n - 1);
    }
  }

  /** The node scan fails exactly when some scanned index is held twice, and it
      names the smallest such index. */
  lemma {:induction false} ScanNodesFails(vms: seq<Instance>, cluster: string, n: nat)
    ensures ScanNodes(vms, cluster, n).Err? <==> DuplicateBelow(vms, cluster, n)
    ensures ScanNodes(vms, cluster, n).Err? ==>
      exists i :: 1 <= i < n && ScanNodes(vms, cluster, n).error == Duplicate(NodeName(cluster, i))
                && |Matching(vms, NodeName(cluster, i))| > 1
                && !DuplicateBelow(vms, cluster, i)
    decreases n
  {
    if n > 1 {
      ScanNodesFails(vms, cluster, n - 1);
      ScanNodesErrStep(vms, cluster, n);
      DuplicateBelowStep(vms, cluster, n);
    }
  }

  /** Discovery fails exactly when the frontend name or some node name 01 .. 99
      is held by more than one instance; the frontend is checked first. */
  lemma DiscoverFails(vms: seq<Instance>, vols: seq<Volume>, cluster: string)
    ensures Discover(vms, vols, cluster).Err? <==>
      |Matching(vms, FrontendName(cluster))| > 1 || DuplicateBelow(vms, cluster, MaxNodeIndex + 1)
    ensures |Matching(vms, FrontendName(cluster))| > 1 ==>
      Discover(vms, vols, cluster) == Err(Duplicate(FrontendName(cluster)))
  {
    ScanNodesFails(vms, cluster, MaxNodeIndex + 1);
  }

  /** Node j of `ns` is an instance of the listing named for index idx[j] < n. */
  ghost predicate NamedByIndex(vms: seq<Instance>, cluster: string, ns: seq<Instance>, idx: seq<nat>, n: nat)
  {
    && |idx| == |ns|
    && forall j :: 0 <= j < |ns| ==> 1 <= idx[j] < n && ns[j] in vms && ns[j].name == NodeName(cluster, idx[j])
  }

  ghost predicate StrictlyAscending(idx: seq<nat>)
  {
    forall j, k :: 0 <= j < k < |idx| ==> idx[j] < idx[k]
  }

  /** Every index below n that exactly one instance answers to is in `ns`. */
  ghost predicate FoundAll(vms: seq<Instance>, cluster: string, ns: seq<Instance>, n: nat)
  {
    forall i :: 1 <= i < n && |Matching(vms, NodeName(cluster, i))| == 1 ==>
      Matching(vms, NodeName(cluster, i))[0] in ns
  }

  /** A successful scan of indices 1 .. n-1 reports instances of the listing,
      each named for an index in 1 .. n-1, in strictly ascending index (`idx`). */
  lemma {:induction false} ScanNodesIndexed(vms: seq<Instance>, cluster: string, n: nat)
    returns (idx: seq<nat>)
    requires ScanNodes(vms, cluster, n).Ok?
    ensures NamedByIndex(vms, cluster, ScanNodes(vms, cluster, n).value, idx, n)
    ensures StrictlyAscending(idx)
    decreases n
  {
    if n <= 1 {
      idx := [];
    } else {
      var prev := ScanNodesIndexed(vms, cluster, n - 1);
      var ns := ScanNodes(vms, cluster, n - 1).value;
      var m := Matching(vms, NodeName(cluster, n - 1));
      if |m| == 1 {
        assert m[0] in m;
        assert ScanNodes(vms, cluster, n).value == ns + [m[0]];
        IndexedAppend(vms, cluster, ns, prev, n, m[0]);
        idx := prev + [n - 1];
      } else {
        assert ScanNodes(vms, cluster, n).value == ns;
        idx := prev;
      }
    }
  }

  /** Index n-1 found after a scan of 1 .. n-2 extends its account. */
  lemma IndexedAppend(vms: seq<Instance>, cluster: string, ns: seq<Instance>, idx: seq<nat>, n: nat, x: Instance)
    requires n > 1
    requires NamedByIndex(vms, cluster, ns, idx, n - 1) && StrictlyAscending(idx)
    requires x in vms && x.name == NodeName(cluster, n - 1)
    ensures NamedByIndex(vms, cluster, ns + [x], idx + [n - 1], n)
    ensures StrictlyAscending(idx + [n - 1])
  {
    var ns', idx' := ns + [x], idx + [n - 1];
    forall j | 0 <= j < |ns'|
      ensures 1 <= idx'[j] < n && ns'[j] in vms && ns'[j].name == NodeName(cluster, idx'[j])
    {
      if j < |ns| {
        assert ns'[j] == ns[j] && idx'[j] == idx[j];
      }
    }
  }

  /** What index i adds to a scan that gets past it: its one instance, or nothing. */
  function ScanExtra(vms: seq<Instance>, cluster: string, i: nat): seq<Instance>
  {
    var m := Matching(vms, NodeName(cluster, i));
    if |m| == 1 then [m[0]] else []
  }

  /** A scan that succeeds up to n got past n-1 and added what index n-1 adds. */
  lemma ScanNodesStep(vms: seq<Instance>, cluster: string, n: nat)
    requires n > 1 && ScanNodes(vms, cluster, n).Ok?
    ensures ScanNodes(vms, cluster, n - 1).Ok?
    ensures ScanNodes(vms, cluster, n).value == ScanNodes(vms, cluster, n - 1).value + ScanExtra(vms, cluster, n - 1)
  {
  }

  /** A successful scan of indices 1 .. n-1 reports every index that exactly
      one instance answers to. */
  lemma {:induction false} ScanNodesComplete(vms: seq<Instance>, cluster: string, n: nat)
    requires ScanNodes(vms, cluster, n).Ok?
    ensures FoundAll(vms, cluster, ScanNodes(vms, cluster, n).value, n)
    decreases n
  {
    if n > 1 {
      ScanNodesStep(vms, cluster, n);
      ScanNodesComplete(vms, cluster, n - 1);
      FoundAllStep(vms, cluster, ScanNodes(vms, cluster, n - 1).value, n);
    }
  }

  /** Extending a complete scan of 1 .. n-2 by what index n-1 yields. */
  lemma FoundAllStep(vms: seq<Instance>, cluster: string, ns: seq<Instance>, n: nat)
    requires n > 1
    requires FoundAll(vms, cluster, ns, n - 1)
    ensures FoundAll(vms, cluster, ns + ScanExtra(vms, cluster, n - 1), n)
  {
  }

  /** A successful scan of 1 .. n-1 reports a node for every scanned index
      that some listed instance, and no other, answers to. */
  lemma ScanNodesHas(vms: seq<Instance>, cluster: string, n: nat, i: nat)
    requires ScanNodes(vms, cluster, n).Ok?
    requires 1 <= i < n
    requires exists x :: x in vms && x.name == NodeName(cluster, i)
    ensures var ns := ScanNodes(vms, cluster, n).value;
      exists j :: 0 <= j < |ns| && ns[j].name == NodeName(cluster, i)
  {
    ScanNodesFails(vms, cluster, n);
    ScanNodesComplete(vms, cluster, n);
    var ns := ScanNodes(vms, cluster, n).value;
    var x :| x in vms && x.name == NodeName(cluster, i);
    var m := Matching(vms, NodeName(cluster, i));
    assert x in m;
    assert |m| == 1;
    assert m[0] in m;
    var j :| 0 <= j < |ns| && ns[j] == m[0];
  }

  /** Discovery's nodes are instances of the listing named
      `<cluster>-node01` .. `<cluster>-node99`, in strictly ascending index
      (`idx`), and no name is reported twice. */
  lemma DiscoverNodesOrdered(vms: seq<Instance>, vols: seq<Volume>, cluster: string) returns (idx: seq<nat>)
    requires Discover(vms, vols, cluster).Ok?
    ensures NamedByIndex(vms, cluster, Discover(vms, vols, cluster).value.nodes, idx, MaxNodeIndex + 1)
    ensures StrictlyAscending(idx)
    ensures var ns := Discover(vms, vols, cluster).value.nodes;
      forall j, k :: 0 <= j < k < |ns| ==> ns[j].name != ns[k].name
  {
    idx := ScanNodesIndexed(vms, cluster, MaxNodeIndex + 1);
    var ns := Discover(vms, vols, cluster).value.nodes;
    assert ns == ScanNodes(vms, cluster, MaxNodeIndex + 1).value;
    forall j, k | 0 <= j < k < |ns| ensures ns[j].name != ns[k].name {
      if ns[j].name == ns[k].name {
        NodeNameInjective(cluster, idx[j], idx[k]);
      }
    }
  }

  /** Every node name 01 .. 99 that some listed instance carries is among
      discovery's nodes. */
  lemma DiscoverNodesComplete(vms: seq<Instance>, vols: seq<Volume>, cluster: string, i: nat)
    requires Discover(vms, vols, cluster).Ok?
    requires 1 <= i <= MaxNodeIndex
    requires exists x :: x in vms && x.name == NodeName(cluster, i)
    ensures var ns := Discover(vms, vols, cluster).value.nodes;
      exists j :: 0 <= j < |ns| && ns[j].name == NodeName(cluster, i)
  {
    assert Discover(vms, vols, cluster).value.nodes == ScanNodes(vms, cluster, MaxNodeIndex + 1).value;
    ScanNodesHas(vms, cluster, MaxNodeIndex + 1, i);
  }

  /** A name for an index of 100 or more, such as `<cluster>-node100`, is never
      among discovery's nodes. */
  lemma DiscoverSkipsHighIndices(vms: seq<Instance>, vols: seq<Volume>, cluster: string, i: nat)
    requires Discover(vms, vols, cluster).Ok?
    requires i > MaxNodeIndex
    ensures forall x :: x in Discover(vms, vols, cluster).value.nodes ==> x.name != NodeName(cluster, i)
  {
    var idx := ScanNodesIndexed(vms, cluster, MaxNodeIndex + 1);
    var ns := Discover(vms, vols, cluster).value.nodes;
    assert ns == ScanNodes(vms, cluster, MaxNodeIndex + 1).value;
    forall x | x in ns ensures x.name != NodeName(cluster, i) {
      var j :| 0 <= j < |ns| && ns[j] == x;
      NodeNameLength(cluster, idx[j]);
      NodeNameLength(cluster, i);
    }
  }

  /** Filtering distributes over concatenation, so it keeps the provider's order. */
  lemma {:induction false} FilterVolumesAppend(a: seq<Volume>, b: seq<Volume>, vm: string)
    ensures FilterVolumes(a + b, vm) == FilterVolumes(a, vm) + FilterVolumes(b, vm)
  {
    if a == [] {
      assert a + b == b;
    } else {
      assert (a + b)[1..] == a[1..] + b;
      FilterVolumesAppend(a[1..], b, vm);
    }
  }

  /** The node volumes of a scan are those of the listing that belong to some
      scanned node name. */
  lemma {:induction false} ScanVolumesMembers(vols: seq<Volume>, cluster: string, n: nat)
    ensures forall v :: v in ScanVolumes(vols, cluster, n) <==>
      v in vols && exists i :: 1 <= i < n && BelongsTo(v, NodeName(cluster, i))
    decreases n
  {
    if n > 1 {
      ScanVolumesMembers(vols, cluster, n - 1);
    }
  }

  /** The discovered volumes are exactly the listed volumes that belong to the
      frontend name or to one of the node names 01 .. 99. */
  lemma DiscoverVolumes(vms: seq<Instance>, vols: seq<Volume>, cluster: string)
    requires Discover(vms, vols, cluster).Ok?
    ensures forall v :: v in Discover(vms, vols, cluster).value.volumes <==>
      v in vols && (BelongsTo(v, FrontendName(cluster)) ||
                    exists i :: 1 <= i <= MaxNodeIndex && BelongsTo(v, NodeName(cluster, i)))
  {
    ScanVolumesMembers(vols, cluster, MaxNodeIndex + 1);
  }

  /** With a slash-free cluster name, no volume belongs to two of the names
      discovery scans: the frontend and the nodes 01 .. 99 own disjoint sets. */
  lemma VolumeOwnerUnique(v: Volume, cluster: string, i: nat, j: nat)
    requires '/' !in cluster
    requires 1 <= i <= MaxNodeIndex && 1 <= j <= MaxNodeIndex
    ensures BelongsTo(v, NodeName(cluster, i)) && BelongsTo(v, NodeName(cluster, j)) ==> i == j
    ensures !(BelongsTo(v, FrontendName(cluster)) && BelongsTo(v, NodeName(cluster, i)))
  {
    NodeNameHasNoSlash(cluster, i);
    NodeNameHasNoSlash(cluster, j);
    if BelongsTo(v, NodeName(cluster, i)) && BelongsTo(v, NodeName(cluster, j)) {
      OwnerPrefixUnique(NodeName(cluster, i), NodeName(cluster, j), v.displayName);
      NodeNameInjective(cluster, i, j);
    }
    if BelongsTo(v, FrontendName(cluster)) && BelongsTo(v, NodeName(cluster, i)) {
      assert '/' !in FrontendName(cluster);
      OwnerPrefixUnique(FrontendName(cluster), NodeName(cluster, i), v.displayName);
      NodeNameLength(cluster, i);
      assert false;
    }
  }
}
