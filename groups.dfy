/**
  The idempotent group ensures: the security groups `<cluster>-ext` and
  `<cluster>-int`, and the anti-affinity server group named after the cluster.
  Each is created, and logged, only when the provider has no group of that
  name; the access rules of `<cluster>-int` are added only when it is created.
*/
module Groups {
  import opened Wrappers
  import opened Provider
  import opened Naming
  import opened Audit

  function ExtDescription(cluster: string): string
  {
    "Security group for " + cluster + " external access"
  }

  function IntDescription(cluster: string): string
  {
    "Security group for " + cluster + " internal access"
  }

  /** check_secgroup_exists succeeds: the provider has a security group of this name. */
  predicate HasSecGroup(s: CloudState, name: string)
  {
    FindGroup(s.secGroups, name).Some?
  }

  /** check_server_group_exists succeeds: the provider has a server group of this name. */
  predicate HasServerGroup(s: CloudState, name: string)
  {
    FindGroup(s.serverGroups, name).Some?
  }

  /** One create_local_access_rules call per source, in order. */
  function AfterAccessRules(s: CloudState, group: string, sources: seq<string>): CloudState
    decreases |sources|
  {
    if sources == [] then s
    else AfterCreateAccessRules(AfterAccessRules(s, group, sources[..|sources| - 1]), group, sources[|sources| - 1])
  }

  /** The first half of the security-group ensure. */
  function EnsureExtGroup(e: Effect, cluster: string): Effect
  {
    var ext := ExtGroupName(cluster);
    if HasSecGroup(e.cloud, ext) then e
    else Logged(e.(cloud := AfterCreateSecGroup(e.cloud, ext, ExtDescription(cluster))),
                Create, SecGroupResource, e.cloud.nextId, ext)
  }

  /** The second half: on creation, a self-access rule, then one rule per allowed group. */
  function EnsureIntGroup(e: Effect, cluster: string, allowFrom: seq<string>): Effect
  {
    var intg := IntGroupName(cluster);
    if HasSecGroup(e.cloud, intg) then e
    else
      var created := Logged(e.(cloud := AfterCreateSecGroup(e.cloud, intg, IntDescription(cluster))),
                            Create, SecGroupResource, e.cloud.nextId, intg);
      created.(cloud := AfterAccessRules(AfterCreateAccessRules(created.cloud, intg, intg), intg, allowFrom))
  }

  /** __provision_sec_groups as a transformation of provider state and log. */
  function EnsureSecGroups(e: Effect, cluster: string, allowFrom: seq<string>): Effect
  {
    EnsureIntGroup(EnsureExtGroup(e, cluster), cluster, allowFrom)
  }

  /** __provision_server_group as a transformation of provider state and log. */
  function EnsureServerGroup(e: Effect, cluster: string): Effect
  {
    if HasServerGroup(e.cloud, cluster) then e
    else Logged(e.(cloud := AfterCreateServerGroup(e.cloud, cluster)),
                Create, ServerGroupResource, e.cloud.nextId, cluster)
  }

  /** The rules `group` gets from `sources`, in order. */
  function RulesFrom(group: string, sources: seq<string>): seq<Rule>
  {
    seq(|sources|, i requires 0 <= i < |sources| => Rule(group, sources[i]))
  }

  /** The rule calls for `sources`, in order. */
  function RuleCalls(group: string, sources: seq<string>): seq<Call>
  {
    seq(|sources|, i requires 0 <= i < |sources| => CreateAccessRulesCall(group, sources[i]))
  }

  /** Adding rules appends one rule and one call per source and changes nothing else. */
  lemma {:induction false} AccessRulesEffect(s: CloudState, group: string, sources: seq<string>)
    ensures AfterAccessRules(s, group, sources)
         == s.(rules := s.rules + RulesFrom(group, sources), calls := s.calls + RuleCalls(group, sources))
    decreases |sources|
  {
    if sources != [] {
      var init := sources[..|sources| - 1];
      AccessRulesEffect(s, group, init);
      assert RulesFrom(group, sources) == RulesFrom(group, init) + [Rule(group, sources[|sources| - 1])];
      assert RuleCalls(group, sources) == RuleCalls(group, init) + [CreateAccessRulesCall(group, sources[|sources| - 1])];
    }
  }

  lemma ExtIsNotInt(cluster: string)
    ensures ExtGroupName(cluster) != IntGroupName(cluster)
  {
    assert ExtGroupName(cluster)[|cluster| + 1] == 'e';
    assert IntGroupName(cluster)[|cluster| + 1] == 'i';
  }

  /** A group appended under a name makes the by-name lookup succeed. */
  lemma FindAppended(gs: seq<Group>, g: Group)
    ensures FindGroup(gs + [g], g.name).Some?
  {
    assert g in gs + [g];
  }

  /** A lookup is unaffected by appending a group of another name. */
  lemma FindOther(gs: seq<Group>, g: Group, name: string)
    requires g.name != name
    ensures FindGroup(gs + [g], name).Some? <==> FindGroup(gs, name).Some?
  {
    if FindGroup(gs, name).Some? {
      assert FindGroup(gs, name).value in gs + [g];
    }
  }

  /** After the security-group ensure both groups exist, and -ext exists
      already after its half. */
  lemma SecGroupsEstablished(e: Effect, cluster: string, allowFrom: seq<string>)
    ensures HasSecGroup(EnsureExtGroup(e, cluster).cloud, ExtGroupName(cluster))
    ensures HasSecGroup(EnsureSecGroups(e, cluster, allowFrom).cloud, ExtGroupName(cluster))
    ensures HasSecGroup(EnsureSecGroups(e, cluster, allowFrom).cloud, IntGroupName(cluster))
  {
    var ext, intg := ExtGroupName(cluster), IntGroupName(cluster);
    ExtIsNotInt(cluster);
    var e1 := EnsureExtGroup(e, cluster);
    if !HasSecGroup(e.cloud, ext) {
      FindAppended(e.cloud.secGroups, Group(e.cloud.nextId, ext));
    }
    if !HasSecGroup(e1.cloud, intg) {
      var c := AfterCreateSecGroup(e1.cloud, intg, IntDescription(cluster));
      FindAppended(e1.cloud.secGroups, Group(e1.cloud.nextId, intg));
      FindOther(e1.cloud.secGroups, Group(e1.cloud.nextId, intg), ext);
      AccessRulesEffect(AfterCreateAccessRules(c, intg, intg), intg, allowFrom);
    }
  }

  /** Re-running the security-group ensure changes nothing: no group, rule,
      call or log entry is added the second time. */
  lemma SecGroupsIdempotent(e: Effect, cluster: string, allowFrom: seq<string>)
    ensures var once := EnsureSecGroups(e, cluster, allowFrom);
      EnsureSecGroups(once, cluster, allowFrom) == once
  {
    SecGroupsEstablished(e, cluster, allowFrom);
  }

  /** What the security-group ensure adds: a group and a `create`/`sec-group`
      log entry for each of -ext and -int that was missing, and the -int access
      rules (its own, then each allowed group's) only when -int was missing. */
  lemma SecGroupsAdds(e: Effect, cluster: string, allowFrom: seq<string>)
    ensures var r := EnsureSecGroups(e, cluster, allowFrom);
      var ext, intg := ExtGroupName(cluster), IntGroupName(cluster);
      && r.cloud.instances == e.cloud.instances
      && r.cloud.volumes == e.cloud.volumes
      && r.cloud.serverGroups == e.cloud.serverGroups
      && r.cloud.rules == e.cloud.rules +
           (if HasSecGroup(e.cloud, intg) then [] else [Rule(intg, intg)] + RulesFrom(intg, allowFrom))
      && r.log == e.log
           + (if HasSecGroup(e.cloud, ext) then [] else [LogEntry(Create, SecGroupResource, e.cloud.nextId, ext)])
           + (if HasSecGroup(e.cloud, intg) then []
              else [LogEntry(Create, SecGroupResource, e.cloud.nextId + (if HasSecGroup(e.cloud, ext) then 0 else 1), intg)])
  {
    var ext, intg := ExtGroupName(cluster), IntGroupName(cluster);
    ExtIsNotInt(cluster);
    var e1 := EnsureExtGroup(e, cluster);
    if !HasSecGroup(e.cloud, ext) {
      FindOther(e.cloud.secGroups, Group(e.cloud.nextId, ext), intg);
    }
    assert HasSecGroup(e1.cloud, intg) == HasSecGroup(e.cloud, intg);
    if !HasSecGroup(e1.cloud, intg) {
      var c := AfterCreateSecGroup(e1.cloud, intg, IntDescription(cluster));
      AccessRulesEffect(AfterCreateAccessRules(c, intg, intg), intg, allowFrom);
    }
  }

  /** After the server-group ensure the group exists; it was created and logged
      only if missing, and re-running it changes nothing. */
  lemma ServerGroupEnsured(e: Effect, cluster: string)
    ensures var r := EnsureServerGroup(e, cluster);
      && HasServerGroup(r.cloud, cluster)
      && EnsureServerGroup(r, cluster) == r
      && r.cloud.secGroups == e.cloud.secGroups
      && r.cloud.instances == e.cloud.instances
      && r.log == e.log + (if HasServerGroup(e.cloud, cluster) then []
                           else [LogEntry(Create, ServerGroupResource, e.cloud.nextId, cluster)])
  {
    if !HasServerGroup(e.cloud, cluster) {
      FindAppended(e.cloud.serverGroups, Group(e.cloud.nextId, cluster));
    }
  }

  /** The security-group ensure leaves the instances alone and never lowers
      the id counter. */
  lemma SecGroupsKeepInstances(e: Effect, cluster: string, allowFrom: seq<string>)
    ensures var r := EnsureSecGroups(e, cluster, allowFrom);
      r.cloud.instances == e.cloud.instances && r.cloud.nextId >= e.cloud.nextId
  {
    var intg := IntGroupName(cluster);
    var e1 := EnsureExtGroup(e, cluster);
    if !HasSecGroup(e1.cloud, intg) {
      var c := AfterCreateSecGroup(e1.cloud, intg, IntDescription(cluster));
      AccessRulesEffect(AfterCreateAccessRules(c, intg, intg), intg, allowFrom);
    }
  }

  /** The later provisioning steps leave every group and rule as it was. */
  predicate GroupsKept(c: CloudState, d: CloudState)
  {
    d.secGroups == c.secGroups && d.rules == c.rules && d.serverGroups == c.serverGroups
  }
}
