/**
  The Ansible inventory the cluster describes itself by. The first line is a
  warning comment; without a frontend it is the only line. Otherwise each
  group of the frontend role gets a `[group]` header, the frontend's host line
  and a blank line, and then each group of the node role gets a header and one
  host line per node, in the order the nodes are held. A host line names the
  instance, its first internal address and the role's admin user; an instance
  without an internal address makes the generation fail at its first host
  line.
*/
module Inventory {
  import opened Wrappers
  import opened Provider
  import opened ClusterConfig

  const Warning: string := "# WARNING: this file will be overwritten whenever cluster provisioning is run"

  function Header(group: string): string
  {
    "[" + group + "]"
  }

  function HostLine(vm: Instance, adminUser: string): string
    requires vm.fixedIps != []
  {
    vm.name + " ansible_ssh_host=" + vm.fixedIps[0] + " ansible_ssh_user=" + adminUser
  }

  /** Every instance of the list has an internal address. */
  predicate Addressed(vms: seq<Instance>)
  {
    forall i :: 0 <= i < |vms| ==> vms[i].fixedIps != []
  }

  /** The position of the first instance without an internal address. */
  function FirstUnaddressed(vms: seq<Instance>): (r: Option<nat>)
    ensures r.None? <==> Addressed(vms)
    ensures r.Some? ==> r.value < |vms| && vms[r.value].fixedIps == []
                        && forall k :: 0 <= k < r.value ==> vms[k].fixedIps != []
    decreases |vms|
  {
    if vms == [] then None
    else if vms[0].fixedIps == [] then Some(0)
    else match FirstUnaddressed(vms[1..])
         case None => None
         case Some(k) => Some(k + 1)
  }

  /** An instance without an address after addressed ones is the first. */
  lemma FirstUnaddressedAt(vms: seq<Instance>, m: nat)
    requires m < |vms| && vms[m].fixedIps == []
    requires forall k :: 0 <= k < m ==> vms[k].fixedIps != []
    ensures FirstUnaddressed(vms) == Some(m)
  {
  }

  /** The frontend's lines: per group, header, host line, blank line. */
  function FrontendSection(fe: Instance, groups: seq<string>, adminUser: string): (r: seq<string>)
    requires groups == [] || fe.fixedIps != []
    ensures |r| == 3 * |groups|
    decreases |groups|
  {
    if groups == [] then []
    else FrontendSection(fe, groups[..|groups| - 1], adminUser)
         + [Header(groups[|groups| - 1]), HostLine(fe, adminUser), ""]
  }

  /** One host line per node, in order. */
  function NodeLines(nodes: seq<Instance>, adminUser: string): (r: seq<string>)
    requires Addressed(nodes)
    ensures |r| == |nodes|
    decreases |nodes|
  {
    if nodes == [] then []
    else NodeLines(nodes[..|nodes| - 1], adminUser) + [HostLine(nodes[|nodes| - 1], adminUser)]
  }

  /** The nodes' lines: per group, header, then the host lines. */
  function NodeSection(nodes: seq<Instance>, groups: seq<string>, adminUser: string): (r: seq<string>)
    requires groups == [] || Addressed(nodes)
    decreases |groups|
  {
    if groups == [] then []
    else NodeSection(nodes, groups[..|groups| - 1], adminUser)
         + [Header(groups[|groups| - 1])] + NodeLines(nodes, adminUser)
  }

  /** generate_ansible_inventory over the held frontend and nodes. */
  function GenerateInventory(frontend: Option<Instance>, nodes: seq<Instance>, cfg: Config): Result<seq<string>, Error>
  {
    match frontend
    case None => Ok([Warning])
    case Some(fe) =>
      if cfg.frontend.groups != [] && fe.fixedIps == [] then Err(NoAddress(fe.name))
      else if cfg.node.groups != [] && FirstUnaddressed(nodes).Some? then
        Err(NoAddress(nodes[FirstUnaddressed(nodes).value].name))
      else
        Ok([Warning]
           + FrontendSection(fe, cfg.frontend.groups, cfg.frontend.adminUser)
           + NodeSection(nodes, cfg.node.groups, cfg.node.adminUser))
  }

  /** One more frontend group adds its block. */
  lemma FrontendSectionNext(fe: Instance, groups: seq<string>, adminUser: string, g: nat)
    requires g < |groups| && fe.fixedIps != []
    ensures FrontendSection(fe, groups[..g + 1], adminUser)
         == FrontendSection(fe, groups[..g], adminUser) + [Header(groups[g]), HostLine(fe, adminUser), ""]
  {
    assert groups[..g + 1][..g] == groups[..g];
  }

  /** One more node adds its host line. */
  lemma NodeLinesNext(nodes: seq<Instance>, adminUser: string, m: nat)
    requires m < |nodes| && forall q :: 0 <= q <= m ==> nodes[q].fixedIps != []
    ensures Addressed(nodes[..m]) && Addressed(nodes[..m + 1])
    ensures NodeLines(nodes[..m + 1], adminUser) == NodeLines(nodes[..m], adminUser) + [HostLine(nodes[m], adminUser)]
  {
    assert nodes[..m + 1][..m] == nodes[..m];
  }

  /** One more node group adds its header and the host lines. */
  lemma NodeSectionNext(nodes: seq<Instance>, groups: seq<string>, adminUser: string, h: nat)
    requires h < |groups| && Addressed(nodes)
    ensures NodeSection(nodes, groups[..h + 1], adminUser)
         == NodeSection(nodes, groups[..h], adminUser) + [Header(groups[h])] + NodeLines(nodes, adminUser)
  {
    assert groups[..h + 1][..h] == groups[..h];
  }

  /** Line k of the host lines is node k's. */
  lemma {:induction false} NodeLinesAt(nodes: seq<Instance>, adminUser: string)
    requires Addressed(nodes)
    ensures forall m :: 0 <= m < |nodes| ==> NodeLines(nodes, adminUser)[m] == HostLine(nodes[m], adminUser)
    decreases |nodes|
  {
    if nodes != [] {
      var init := nodes[..|nodes| - 1];
      NodeLinesAt(init, adminUser);
      forall m | 0 <= m < |nodes|
        ensures NodeLines(nodes, adminUser)[m] == HostLine(nodes[m], adminUser)
      {
        if m < |init| {
          assert init[m] == nodes[m];
        }
      }
    }
  }

  /** The frontend's block for group k sits at lines 3k, 3k+1, 3k+2. */
  lemma {:induction false} FrontendSectionAt(fe: Instance, groups: seq<string>, adminUser: string, k: nat)
    requires fe.fixedIps != [] && k < |groups|
    ensures var s := FrontendSection(fe, groups, adminUser);
      s[3 * k] == Header(groups[k]) && s[3 * k + 1] == HostLine(fe, adminUser) && s[3 * k + 2] == ""
    decreases |groups|
  {
    var init := groups[..|groups| - 1];
    if k < |init| {
      FrontendSectionAt(fe, init, adminUser, k);
      assert init[k] == groups[k];
    }
  }

  /** Each node group takes a header and one line per node. */
  lemma {:induction false} NodeSectionLength(nodes: seq<Instance>, groups: seq<string>, adminUser: string)
    requires groups == [] || Addressed(nodes)
    ensures |NodeSection(nodes, groups, adminUser)| == |groups| * (1 + |nodes|)
    decreases |groups|
  {
    if groups != [] {
      NodeSectionLength(nodes, groups[..|groups| - 1], adminUser);
      Distribute(|groups| - 1, 1 + |nodes|);
    }
  }

  lemma Distribute(a: nat, w: nat)
    ensures (a + 1) * w == a * w + w
  {
  }

  /** Node group j's block starts at line j * (1 + |nodes|) with its header,
      followed by node m's host line at offset 1 + m. */
  lemma {:induction false} NodeSectionAt(nodes: seq<Instance>, groups: seq<string>, adminUser: string, j: nat)
    requires Addressed(nodes) && j < |groups|
    ensures var s, w := NodeSection(nodes, groups, adminUser), 1 + |nodes|;
      && |s| == |groups| * w
      && j * w + w <= |s|
      && s[j * w] == Header(groups[j])
      && forall m :: 0 <= m < |nodes| ==> s[j * w + 1 + m] == HostLine(nodes[m], adminUser)
    decreases |groups|
  {
    var w := 1 + |nodes|;
    var init := groups[..|groups| - 1];
    NodeSectionLength(nodes, groups, adminUser);
    NodeSectionLength(nodes, init, adminUser);
    NodeLinesAt(nodes, adminUser);
    Distribute(|init|, w);
    if j < |init| {
      NodeSectionAt(nodes, init, adminUser, j);
      assert init[j] == groups[j];
    } else {
      assert j * w == |init| * w;
    }
  }

  /** The first line is always the warning, and it is the only line without a
      frontend. Generation fails exactly when a host line is due for an
      instance without an internal address: the frontend when the frontend
      role has groups, a node when the node role has groups; the frontend is
      reported before any node, and otherwise the first such node. */
  lemma InventoryOutcome(frontend: Option<Instance>, nodes: seq<Instance>, cfg: Config)
    ensures var r := GenerateInventory(frontend, nodes, cfg);
      && (frontend.None? ==> r == Ok([Warning]))
      && (r.Ok? ==> |r.value| >= 1 && r.value[0] == Warning)
      && (r.Err? <==>
            && frontend.Some?
            && ((cfg.frontend.groups != [] && frontend.value.fixedIps == []) ||
                (cfg.node.groups != [] && exists m :: 0 <= m < |nodes| && nodes[m].fixedIps == [])))
      && (r.Err? && cfg.frontend.groups != [] && frontend.value.fixedIps == [] ==>
            r.error == NoAddress(frontend.value.name))
      && (r.Err? && (cfg.frontend.groups == [] || frontend.value.fixedIps != []) ==>
            exists m :: 0 <= m < |nodes| && nodes[m].fixedIps == [] && r.error == NoAddress(nodes[m].name)
                        && forall k :: 0 <= k < m ==> nodes[k].fixedIps != [])
  {
  }

  /** With a frontend, the lines are the warning, then three lines per frontend
      group (header, the frontend's host line, a blank line), then per node
      group a header followed by the nodes' host lines in the order held. */
  lemma InventoryShape(frontend: Option<Instance>, nodes: seq<Instance>, cfg: Config)
    requires frontend.Some? && GenerateInventory(frontend, nodes, cfg).Ok?
    ensures var lines, fe := GenerateInventory(frontend, nodes, cfg).value, frontend.value;
      var fgs, ngs := cfg.frontend.groups, cfg.node.groups;
      && |lines| == 1 + 3 * |fgs| + |ngs| * (1 + |nodes|)
      && (fgs != [] ==> fe.fixedIps != [])
      && (ngs != [] ==> Addressed(nodes))
  {
    var fe := frontend.value;
    if cfg.node.groups != [] {
      assert FirstUnaddressed(nodes).None?;
    }
    NodeSectionLength(nodes, cfg.node.groups, cfg.node.adminUser);
  }

  /** Frontend group k's block: lines 1 + 3k .. 3 + 3k. */
  lemma InventoryFrontendGroup(frontend: Option<Instance>, nodes: seq<Instance>, cfg: Config, k: nat)
    requires frontend.Some? && GenerateInventory(frontend, nodes, cfg).Ok? && k < |cfg.frontend.groups|
    ensures var lines, fe := GenerateInventory(frontend, nodes, cfg).value, frontend.value;
      && fe.fixedIps != []
      && 3 + 3 * k < |lines|
      && lines[1 + 3 * k] == Header(cfg.frontend.groups[k])
      && lines[2 + 3 * k] == HostLine(fe, cfg.frontend.adminUser)
      && lines[3 + 3 * k] == ""
  {
    InventoryShape(frontend, nodes, cfg);
    FrontendSectionAt(frontend.value, cfg.frontend.groups, cfg.frontend.adminUser, k);
  }

  /** Node group j's block: its header at line 1 + 3|frontend groups| +
      j(1 + |nodes|), then node m's host line m + 1 lines below. */
  lemma InventoryNodeGroup(frontend: Option<Instance>, nodes: seq<Instance>, cfg: Config, j: nat)
    requires frontend.Some? && GenerateInventory(frontend, nodes, cfg).Ok? && j < |cfg.node.groups|
    ensures var lines := GenerateInventory(frontend, nodes, cfg).value;
      var base := 1 + 3 * |cfg.frontend.groups| + j * (1 + |nodes|);
      && Addressed(nodes)
      && base + |nodes| < |lines|
      && lines[base] == Header(cfg.node.groups[j])
      && forall m :: 0 <= m < |nodes| ==> lines[base + 1 + m] == HostLine(nodes[m], cfg.node.adminUser)
  {
    InventoryShape(frontend, nodes, cfg);
    NodeSectionAt(nodes, cfg.node.groups, cfg.node.adminUser, j);
  }
}
