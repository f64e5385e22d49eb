/**
  The cloud provider the cluster tool drives: compute instances, block volumes,
  security groups with their access rules, and anti-affinity server groups.

  The provider's bindings are foreign code. Here its whole observable state is
  one value, `CloudState`, and every binding the tool calls is a transition on
  that value. Each transition also appends a `Call` record to `calls`, the trace
  of mutating requests the provider has received, so that the order and the
  absence of requests can be stated.
*/
module Provider {
  import opened Wrappers

  /** One attachment of a volume: the id of the server and the device path. */
  datatype Attachment = Attachment(serverId: nat, device: string)

  /** A compute instance as the provider lists it. `fixedIps` are the internal
      addresses, `floatingIps` the public ones associated with it. */
  datatype Instance = Instance(
    id: nat,
    name: string,
    status: string,
    fixedIps: seq<string>,
    floatingIps: seq<string>,
    secGroups: seq<string>,
    serverGroup: Option<nat>)

  /** A block volume. A volume without a display name has `displayName == ""`. */
  datatype Volume = Volume(
    id: nat,
    displayName: string,
    size: nat,
    status: string,
    attachments: seq<Attachment>)

  /** A security group or a server group: the provider's id and its name. */
  datatype Group = Group(id: nat, name: string)

  /** An ingress rule of security group `group` admitting traffic from `source`. */
  datatype Rule = Rule(group: string, source: string)

  /** The mutating requests the provider receives, in the order received. */
  datatype Call =
    | CreateSecGroupCall(name: string, description: string)
    | CreateAccessRulesCall(group: string, source: string)
    | CreateServerGroupCall(name: string)
    | CreateVmCall(name: string, imageId: string, flavorId: string, key: string,
                   secGroups: seq<string>, networkId: string, serverGroup: Option<nat>)
    | WaitInstanceCall(id: nat, status: string)
    | AddFloatingIpCall(id: nat, ip: string)
    | AttachVolumeCall(volumeId: nat, serverId: nat, device: string)
    | CreateVolumeCall(name: string, size: nat, serverId: nat, device: string)
    | WaitVolumeCall(id: nat, status: string)
    | ShutdownVmCall(id: nat)
    | DeleteVmCall(id: nat)
    | DeleteVolumeCall(id: nat)

  /** Everything the provider holds that the tool reads or changes.
      `nextId` is the id the provider hands out next. */
  datatype CloudState = CloudState(
    instances: seq<Instance>,
    volumes: seq<Volume>,
    secGroups: seq<Group>,
    rules: seq<Rule>,
    serverGroups: seq<Group>,
    nextId: nat,
    calls: seq<Call>)

  /** What the provider resolves by name but the tool never changes: images,
      flavors and networks (name to id), the tenant id that the network name
      `default` stands for, and the internal address the provider gives the
      instance with a given id. */
  datatype Catalogue = Catalogue(
    images: map<string, string>,
    flavors: map<string, string>,
    networks: map<string, string>,
    tenantId: string,
    addressOf: nat -> string)

  /** The errors the core raises. */
  datatype Error =
    | NotFound(kind: string, name: string)   // a check_*_exists lookup failed
    | Duplicate(name: string)                // discovery found a name twice
    | NoAddress(name: string)                // an instance without an internal address
    | DeviceLetterOverflow                   // chr() past 255 in the device-letter loop

  /** The first group of `gs` named `name`, as the by-name lookups return it. */
  function FindGroup(gs: seq<Group>, name: string): (r: Option<Group>)
    ensures r.Some? ==> r.value in gs && r.value.name == name
    ensures r.None? <==> forall g :: g in gs ==> g.name != name
  {
    if gs == [] then None
    else if gs[0].name == name then Some(gs[0])
    else FindGroup(gs[1..], name)
  }

  /** The first instance with id `id`: a reload by id. */
  function FindInstance(xs: seq<Instance>, id: nat): (r: Option<Instance>)
    ensures r.Some? ==> r.value in xs && r.value.id == id
    ensures r.None? <==> forall x :: x in xs ==> x.id != id
  {
    if xs == [] then None
    else if xs[0].id == id then Some(xs[0])
    else FindInstance(xs[1..], id)
  }

  /** `xs` with every instance whose id is `id` replaced by `f` of it. */
  function UpdateInstances(xs: seq<Instance>, id: nat, f: Instance -> Instance): (r: seq<Instance>)
    ensures |r| == |xs|
    ensures forall i :: 0 <= i < |xs| ==> r[i] == if xs[i].id == id then f(xs[i]) else xs[i]
  {
    seq(|xs|, i requires 0 <= i < |xs| => if xs[i].id == id then f(xs[i]) else xs[i])
  }

  /** `vs` with every volume whose id is `id` replaced by `f` of it. */
  function UpdateVolumes(vs: seq<Volume>, id: nat, f: Volume -> Volume): (r: seq<Volume>)
    ensures |r| == |vs|
    ensures forall i :: 0 <= i < |vs| ==> r[i] == if vs[i].id == id then f(vs[i]) else vs[i]
  {
    seq(|vs|, i requires 0 <= i < |vs| => if vs[i].id == id then f(vs[i]) else vs[i])
  }

  /** `xs` without the instances whose id is `id`, the rest in their order. */
  function RemoveInstances(xs: seq<Instance>, id: nat): (r: seq<Instance>)
    ensures forall x :: x in r <==> x in xs && x.id != id
    ensures |r| <= |xs|
  {
    if xs == [] then []
    else (if xs[0].id == id then [] else [xs[0]]) + RemoveInstances(xs[1..], id)
  }

  /** `vs` without the volumes whose id is `id`, the rest in their order. */
  function RemoveVolumes(vs: seq<Volume>, id: nat): (r: seq<Volume>)
    ensures forall v :: v in r <==> v in vs && v.id != id
    ensures |r| <= |vs|
  {
    if vs == [] then []
    else (if vs[0].id == id then [] else [vs[0]]) + RemoveVolumes(vs[1..], id)
  }

  /** No two instances of the list share an id. */
  predicate IdsDistinct(xs: seq<Instance>)
  {
    forall i, j :: 0 <= i < j < |xs| ==> xs[i].id != xs[j].id
  }

  /** Every id the provider lists is below the id it hands out next, and no
      two listed instances share an id. */
  predicate IdsFresh(s: CloudState)
  {
    (forall y :: y in s.instances ==> y.id < s.nextId) && IdsDistinct(s.instances)
  }

  /** Dropping the instances of one id keeps the others' ids distinct. */
  lemma {:induction false} RemoveKeepsIdsDistinct(xs: seq<Instance>, id: nat)
    requires IdsDistinct(xs)
    ensures IdsDistinct(RemoveInstances(xs, id))
  {
    if xs != [] {
      assert IdsDistinct(xs[1..]) by {
        forall i, j | 0 <= i < j < |xs[1..]|
          ensures xs[1..][i].id != xs[1..][j].id
        {
          assert xs[1..][i] == xs[i + 1] && xs[1..][j] == xs[j + 1];
        }
      }
      RemoveKeepsIdsDistinct(xs[1..], id);
      var tail := RemoveInstances(xs[1..], id);
      var r := RemoveInstances(xs, id);
      if xs[0].id != id {
        assert r == [xs[0]] + tail;
        forall j | 0 <= j < |tail|
          ensures tail[j].id != xs[0].id
        {
          assert tail[j] in tail;
          var k :| 0 <= k < |xs[1..]| && xs[1..][k] == tail[j];
          assert xs[k + 1] == tail[j];
        }
        forall i, j | 0 <= i < j < |r|
          ensures r[i].id != r[j].id
        {
          assert r[j] == tail[j - 1];
          if i > 0 {
            assert r[i] == tail[i - 1];
          } else {
            assert r[i] == xs[0];
          }
        }
      } else {
        assert r == tail;
      }
    }
  }

  // The provider's transitions, one per binding the tool calls.

  function AfterCreateSecGroup(s: CloudState, name: string, description: string): CloudState
  {
    s.(secGroups := s.secGroups + [Group(s.nextId, name)],
       nextId := s.nextId + 1,
       calls := s.calls + [CreateSecGroupCall(name, description)])
  }

  function AfterCreateAccessRules(s: CloudState, group: string, source: string): CloudState
  {
    s.(rules := s.rules + [Rule(group, source)],
       calls := s.calls + [CreateAccessRulesCall(group, source)])
  }

  function AfterCreateServerGroup(s: CloudState, name: string): CloudState
  {
    s.(serverGroups := s.serverGroups + [Group(s.nextId, name)],
       nextId := s.nextId + 1,
       calls := s.calls + [CreateServerGroupCall(name)])
  }

  /** The instance a create request makes: fresh id, status BUILD, the internal
      address the provider allocates for that id, no public address yet. */
  function NewInstance(s: CloudState, cat: Catalogue, name: string, secGroups: seq<string>,
                       serverGroup: Option<nat>): Instance
  {
    Instance(s.nextId, name, "BUILD", [cat.addressOf(s.nextId)], [], secGroups, serverGroup)
  }

  function AfterCreateVm(s: CloudState, cat: Catalogue, name: string, imageId: string, flavorId: string,
                         key: string, secGroups: seq<string>, networkId: string,
                         serverGroup: Option<nat>): CloudState
  {
    s.(instances := s.instances + [NewInstance(s, cat, name, secGroups, serverGroup)],
       nextId := s.nextId + 1,
       calls := s.calls + [CreateVmCall(name, imageId, flavorId, key, secGroups, networkId, serverGroup)])
  }

  /** A finished wait: the polled instance has reached `status`. */
  function AfterWaitInstance(s: CloudState, id: nat, status: string): CloudState
  {
    s.(instances := UpdateInstances(s.instances, id, (x: Instance) => x.(status := status)),
       calls := s.calls + [WaitInstanceCall(id, status)])
  }

  /** Associating a floating address; associating it twice leaves it once. */
  function AfterAddFloatingIp(s: CloudState, id: nat, ip: string): CloudState
  {
    s.(instances := UpdateInstances(s.instances, id,
                      (x: Instance) => if ip in x.floatingIps then x else x.(floatingIps := x.floatingIps + [ip])),
       calls := s.calls + [AddFloatingIpCall(id, ip)])
  }

  function AfterAttachVolume(s: CloudState, volumeId: nat, serverId: nat, device: string): CloudState
  {
    s.(volumes := UpdateVolumes(s.volumes, volumeId,
                    (v: Volume) => v.(attachments := v.attachments + [Attachment(serverId, device)])),
       calls := s.calls + [AttachVolumeCall(volumeId, serverId, device)])
  }

  /** The volume a create-and-attach request makes, asynchronously attached. */
  function NewVolume(s: CloudState, name: string, size: nat, serverId: nat, device: string): Volume
  {
    Volume(s.nextId, name, size, "attaching", [Attachment(serverId, device)])
  }

  function AfterCreateVolume(s: CloudState, name: string, size: nat, serverId: nat, device: string): CloudState
  {
    s.(volumes := s.volumes + [NewVolume(s, name, size, serverId, device)],
       nextId := s.nextId + 1,
       calls := s.calls + [CreateVolumeCall(name, size, serverId, device)])
  }

  function AfterWaitVolume(s: CloudState, id: nat, status: string): CloudState
  {
    s.(volumes := UpdateVolumes(s.volumes, id, (v: Volume) => v.(status := status)),
       calls := s.calls + [WaitVolumeCall(id, status)])
  }

  function AfterShutdownVm(s: CloudState, id: nat): CloudState
  {
    s.(instances := UpdateInstances(s.instances, id, (x: Instance) => x.(status := "SHUTOFF")),
       calls := s.calls + [ShutdownVmCall(id)])
  }

  function AfterDeleteVm(s: CloudState, id: nat): CloudState
  {
    s.(instances := RemoveInstances(s.instances, id),
       calls := s.calls + [DeleteVmCall(id)])
  }

  /** Between two sessions the provider completes every attach still in
      progress: a volume `attaching` becomes `in-use`. Nothing else changes. */
  function Settle(s: CloudState): (r: CloudState)
    ensures r.(volumes := s.volumes) == s && |r.volumes| == |s.volumes|
    ensures forall i :: 0 <= i < |s.volumes| ==>
      r.volumes[i] == if s.volumes[i].status == "attaching" then s.volumes[i].(status := "in-use") else s.volumes[i]
  {
    s.(volumes := seq(|s.volumes|, i requires 0 <= i < |s.volumes| =>
                        if s.volumes[i].status == "attaching" then s.volumes[i].(status := "in-use") else s.volumes[i]))
  }

  function AfterDeleteVolume(s: CloudState, id: nat): CloudState
  {
    s.(volumes := RemoveVolumes(s.volumes, id),
       calls := s.calls + [DeleteVolumeCall(id)])
  }

  /** The lookups that raise when nothing matches (check_image_exists and the others). */
  function LookupIn(m: map<string, string>, kind: string, name: string): (r: Result<string, Error>)
    ensures r.Ok? <==> name in m
    ensures r.Ok? ==> r.value == m[name]
    ensures r.Err? ==> r.error == NotFound(kind, name)
  {
    if name in m then Ok(m[name]) else Err(NotFound(kind, name))
  }

  /** The provider: a mutable `state` and a fixed `catalogue`. Each method is one
      binding and changes `state` by exactly the matching transition. */
  class Cloud {
    const catalogue: Catalogue
    var state: CloudState

    constructor (catalogue: Catalogue, initial: CloudState)
      ensures this.catalogue == catalogue && state == initial
    {
      this.catalogue := catalogue;
      state := initial;
    }

    method CreateSecGroup(name: string, description: string) returns (g: Group)
      modifies this
      ensures state == AfterCreateSecGroup(old(state), name, description)
      ensures IdsFresh(old(state)) ==> IdsFresh(state)
      ensures g == Group(old(state).nextId, name)
    {
      g := Group(state.nextId, name);
      state := AfterCreateSecGroup(state, name, description);
    }

    method CreateLocalAccessRules(group: string, source: string)
      modifies this
      ensures state == AfterCreateAccessRules(old(state), group, source)
      ensures IdsFresh(old(state)) ==> IdsFresh(state)
    {
      state := AfterCreateAccessRules(state, group, source);
    }

    method CreateServerGroup(name: string) returns (id: nat)
      modifies this
      ensures state == AfterCreateServerGroup(old(state), name)
      ensures IdsFresh(old(state)) ==> IdsFresh(state)
      ensures id == old(state).nextId
    {
      id := state.nextId;
      state := AfterCreateServerGroup(state, name);
    }

    method CreateVm(name: string, imageId: string, flavorId: string, key: string,
                    secGroups: seq<string>, networkId: string, serverGroup: Option<nat>)
      returns (vm: Instance)
      modifies this
      ensures state == AfterCreateVm(old(state), catalogue, name, imageId, flavorId, key,
                                     secGroups, networkId, serverGroup)
      ensures IdsFresh(old(state)) ==> IdsFresh(state)
      ensures vm == NewInstance(old(state), catalogue, name, secGroups, serverGroup)
    {
      vm := NewInstance(state, catalogue, name, secGroups, serverGroup);
      state := AfterCreateVm(state, catalogue, name, imageId, flavorId, key, secGroups, networkId, serverGroup);
    }

    method WaitForInstance(id: nat, status: string)
      modifies this
      ensures state == AfterWaitInstance(old(state), id, status)
      ensures IdsFresh(old(state)) ==> IdsFresh(state)
    {
      state := AfterWaitInstance(state, id, status);
    }

    method AddFloatingIp(id: nat, ip: string)
      modifies this
      ensures state == AfterAddFloatingIp(old(state), id, ip)
      ensures IdsFresh(old(state)) ==> IdsFresh(state)
    {
      state := AfterAddFloatingIp(state, id, ip);
    }

    method AttachVolume(volumeId: nat, serverId: nat, device: string)
      modifies this
      ensures state == AfterAttachVolume(old(state), volumeId, serverId, device)
      ensures IdsFresh(old(state)) ==> IdsFresh(state)
    {
      state := AfterAttachVolume(state, volumeId, serverId, device);
    }

    method CreateAndAttachVolume(name: string, size: nat, serverId: nat, device: string)
      returns (v: Volume)
      modifies this
      ensures state == AfterCreateVolume(old(state), name, size, serverId, device)
      ensures IdsFresh(old(state)) ==> IdsFresh(state)
      ensures v == NewVolume(old(state), name, size, serverId, device)
    {
      v := NewVolume(state, name, size, serverId, device);
      state := AfterCreateVolume(state, name, size, serverId, device);
    }

    method WaitForVolume(id: nat, status: string)
      modifies this
      ensures state == AfterWaitVolume(old(state), id, status)
      ensures IdsFresh(old(state)) ==> IdsFresh(state)
    {
      state := AfterWaitVolume(state, id, status);
    }

    method ShutdownVm(id: nat)
      modifies this
      ensures state == AfterShutdownVm(old(state), id)
      ensures IdsFresh(old(state)) ==> IdsFresh(state)
    {
      state := AfterShutdownVm(state, id);
    }

    method DeleteVm(id: nat)
      modifies this
      ensures state == AfterDeleteVm(old(state), id)
      ensures IdsFresh(old(state)) ==> IdsFresh(state)
    {
      if IdsFresh(state) {
        RemoveKeepsIdsDistinct(state.instances, id);
      }
      state := AfterDeleteVm(state, id);
    }

    method DeleteVolume(id: nat)
      modifies this
      ensures state == AfterDeleteVolume(old(state), id)
      ensures IdsFresh(old(state)) ==> IdsFresh(state)
    {
      state := AfterDeleteVolume(state, id);
    }
  }
}
