/**
  Volume provisioning for one instance. The k-th entry (from 0) of a role's
  volume list is device `/dev/vd` followed by the letter `c` + k. Each entry
  is looked up by display name `<instance>/<volume>` among the volumes the
  cluster discovered. A volume already attached to the instance needs no
  request, an existing unattached one is attached, and only a missing one is
  created, which is also logged.

  The device letter is advanced with Python 2's `chr`, which only accepts
  0..255. The letter of entry 156 is `chr(255)`, and advancing past it
  raises. So lists of up to 156 entries are processed completely, and a
  longer list fails after entry 156 has been processed.
*/
module Volumes {
  import opened Wrappers
  import opened Provider
  import opened Naming
  import opened Audit
  import opened ClusterConfig

  /** Entries 0..MaxVolumes-1 complete; entry MaxVolumes is the last one processed. */
  const MaxVolumes: nat := 156

  /** The device letter of entry k: `c`, `d`, `e`, ... */
  function DeviceLetter(k: nat): (c: char)
    requires k <= MaxVolumes
    ensures c as int == 'c' as int + k
  {
    (('c' as int) + k) as char
  }

  /** The device path of entry k. */
  function Device(k: nat): (d: string)
    requires k <= MaxVolumes
    ensures |d| == 8 && d[..7] == "/dev/vd" && d[7] == DeviceLetter(k)
  {
    "/dev/vd" + [DeviceLetter(k)]
  }

  /** The first volume of `known` with display name `name`, as the lookup
      loop's `break` picks it. */
  function FindVolumeNamed(known: seq<Volume>, name: string): (r: Option<Volume>)
    ensures r.Some? ==> r.value in known && r.value.displayName == name
    ensures r.None? <==> forall v :: v in known ==> v.displayName != name
  {
    if known == [] then None
    else if known[0].displayName == name then Some(known[0])
    else FindVolumeNamed(known[1..], name)
  }

  /** The volume found is the first of that name: it sits at a position
      before which no volume carries the name. */
  lemma {:induction false} FindVolumeNamedFirst(known: seq<Volume>, name: string)
    ensures var r := FindVolumeNamed(known, name);
      r.Some? ==> exists i :: 0 <= i < |known| && known[i] == r.value &&
                              forall j :: 0 <= j < i ==> known[j].displayName != name
  {
    if known != [] && known[0].displayName != name {
      FindVolumeNamedFirst(known[1..], name);
      if FindVolumeNamed(known, name).Some? {
        var i :| 0 <= i < |known[1..]| && known[1..][i] == FindVolumeNamed(known, name).value &&
                 forall j :: 0 <= j < i ==> known[1..][j].displayName != name;
        assert known[i + 1] == known[1..][i];
        forall j | 0 <= j < i + 1
          ensures known[j].displayName != name
        {
          if j > 0 {
            assert known[j] == known[1..][j - 1];
          }
        }
      }
    }
  }

  /** The server id appears among the volume's attachments. */
  predicate AttachedTo(v: Volume, serverId: nat)
  {
    exists a :: a in v.attachments && a.serverId == serverId
  }

  /** What one volume entry calls for. */
  datatype VolumeStep =
    | AlreadyAttached
    | AttachExisting(volume: Volume)
    | CreateNew(name: string, size: nat)

  /** The decision for one entry, made against the discovered volumes `known`. */
  function PlanVolume(known: seq<Volume>, vm: Instance, spec: VolumeSpec): (r: VolumeStep)
    ensures var name := VolumeName(vm.name, spec.name);
      && (r.CreateNew? <==> forall v :: v in known ==> v.displayName != name)
      && (r.CreateNew? ==> r == CreateNew(name, spec.size))
      && (r.AttachExisting? ==> r.volume in known && r.volume.displayName == name && !AttachedTo(r.volume, vm.id))
      && (r.AlreadyAttached? ==> exists v :: v in known && v.displayName == name && AttachedTo(v, vm.id))
  {
    var name := VolumeName(vm.name, spec.name);
    match FindVolumeNamed(known, name)
    case None => CreateNew(name, spec.size)
    case Some(v) => if AttachedTo(v, vm.id) then AlreadyAttached else AttachExisting(v)
  }

  /** The decision is made on the first volume of that name alone: it is
      attached to when it is not attached to the instance, and left alone
      when it is, whatever later volumes of the same name hold. */
  lemma PlanVolumeFirst(known: seq<Volume>, vm: Instance, spec: VolumeSpec)
    ensures var found := FindVolumeNamed(known, VolumeName(vm.name, spec.name));
      var r := PlanVolume(known, vm, spec);
      && (r.CreateNew? <==> found.None?)
      && (r.AttachExisting? <==> found.Some? && !AttachedTo(found.value, vm.id))
      && (r.AttachExisting? ==> r.volume == found.value)
      && (r.AlreadyAttached? <==> found.Some? && AttachedTo(found.value, vm.id))
  {
  }

  /** Carrying out one decision on device `device`. */
  function ApplyVolumeStep(e: Effect, vm: Instance, step: VolumeStep, device: string): Effect
  {
    match step
    case AlreadyAttached => e
    case AttachExisting(v) => e.(cloud := AfterAttachVolume(e.cloud, v.id, vm.id, device))
    case CreateNew(name, size) =>
      Logged(e.(cloud := AfterCreateVolume(e.cloud, name, size, vm.id, device)),
             Create, VolumeResource, e.cloud.nextId, name)
  }

  /** The first n entries of `specs` processed in order. */
  function EnsureVolumes(e: Effect, known: seq<Volume>, vm: Instance, specs: seq<VolumeSpec>, n: nat): Effect
    requires n <= |specs| && n <= MaxVolumes + 1
    decreases n
  {
    if n == 0 then e
    else ApplyVolumeStep(EnsureVolumes(e, known, vm, specs, n - 1), vm, PlanVolume(known, vm, specs[n - 1]), Device(n - 1))
  }

  /** __provision_volumes: the whole list, or the device-letter failure once
      entry MaxVolumes has been processed. */
  function ProvisionVolumes(e: Effect, known: seq<Volume>, vm: Instance, specs: seq<VolumeSpec>): (r: Result<Effect, Error>)
    ensures r.Ok? <==> |specs| <= MaxVolumes
    ensures r.Err? ==> r.error == DeviceLetterOverflow
  {
    if |specs| <= MaxVolumes then Ok(EnsureVolumes(e, known, vm, specs, |specs|))
    else Err(DeviceLetterOverflow)
  }

  // An independent per-entry account of what the loop requests.

  /** The requests one entry causes, on its own device. */
  function StepCalls(vm: Instance, step: VolumeStep, device: string): seq<Call>
  {
    match step
    case AlreadyAttached => []
    case AttachExisting(v) => [AttachVolumeCall(v.id, vm.id, device)]
    case CreateNew(name, size) => [CreateVolumeCall(name, size, vm.id, device)]
  }

  /** The requests the first n entries cause, entry by entry. */
  function VolumeCalls(known: seq<Volume>, vm: Instance, specs: seq<VolumeSpec>, n: nat): seq<Call>
    requires n <= |specs| && n <= MaxVolumes + 1
    decreases n
  {
    if n == 0 then []
    else VolumeCalls(known, vm, specs, n - 1) + StepCalls(vm, PlanVolume(known, vm, specs[n - 1]), Device(n - 1))
  }

  /** The display names of the entries among the first n that are missing. */
  function MissingVolumes(known: seq<Volume>, vm: Instance, specs: seq<VolumeSpec>, n: nat): seq<string>
    requires n <= |specs|
    decreases n
  {
    if n == 0 then []
    else
      var name := VolumeName(vm.name, specs[n - 1].name);
      MissingVolumes(known, vm, specs, n - 1) + (if FindVolumeNamed(known, name).None? then [name] else [])
  }

  /** The log entries of volumes created with consecutive ids from `base`. */
  function CreatedVolumeEntries(base: nat, names: seq<string>): (r: seq<LogEntry>)
    ensures |r| == |names|
  {
    seq(|names|, j requires 0 <= j < |names| => LogEntry(Create, VolumeResource, base + j, names[j]))
  }

  /** Every entry of the volume list is asked for on the device of its own
      position, whatever the other entries are. */
  lemma DeviceLetters(k: nat, j: nat)
    requires k <= MaxVolumes && j <= MaxVolumes
    ensures Device(0) == "/dev/vdc" && Device(1) == "/dev/vdd" && Device(2) == "/dev/vde"
    ensures Device(k) == Device(j) ==> k == j
  {
    if Device(k) == Device(j) {
      assert DeviceLetter(k) == Device(k)[7] == Device(j)[7] == DeviceLetter(j);
    }
  }

  /** One decision touches only volumes, the trace, the id counter and the log. */
  lemma ApplyStepEffect(e: Effect, vm: Instance, step: VolumeStep, device: string)
    ensures var r := ApplyVolumeStep(e, vm, step, device);
      && VolumesFrame(e.cloud, r.cloud)
      && r.cloud.nextId == e.cloud.nextId + (if step.CreateNew? then 1 else 0)
      && r.cloud.calls == e.cloud.calls + StepCalls(vm, step, device)
      && r.log == e.log + (if step.CreateNew? then [LogEntry(Create, VolumeResource, e.cloud.nextId, step.name)] else [])
  {
  }

  /** Provider state `r` differs from `c` at most in volumes, the id counter
      and the trace. */
  predicate VolumesFrame(c: CloudState, r: CloudState)
  {
    r.(volumes := c.volumes, nextId := c.nextId, calls := c.calls) == c
  }

  lemma VolumesFrameTrans(c0: CloudState, c1: CloudState, c2: CloudState)
    requires VolumesFrame(c0, c1) && VolumesFrame(c1, c2)
    ensures VolumesFrame(c0, c2)
  {
  }

  /** Entry n-1 adds its name to the missing ones exactly when it is created. */
  lemma MissingVolumesStep(known: seq<Volume>, vm: Instance, specs: seq<VolumeSpec>, n: nat)
    requires 1 <= n <= |specs|
    ensures var step := PlanVolume(known, vm, specs[n - 1]);
      MissingVolumes(known, vm, specs, n)
        == MissingVolumes(known, vm, specs, n - 1) + (if step.CreateNew? then [step.name] else [])
  {
  }

  /** Processing the list touches only volumes, the trace, the id counter and
      the log, and its requests are the per-entry requests in order. */
  lemma {:induction false} EnsureVolumesCalls(e: Effect, known: seq<Volume>, vm: Instance, specs: seq<VolumeSpec>, n: nat)
    requires n <= |specs| && n <= MaxVolumes + 1
    ensures var r := EnsureVolumes(e, known, vm, specs, n);
      && VolumesFrame(e.cloud, r.cloud)
      && r.cloud.calls == e.cloud.calls + VolumeCalls(known, vm, specs, n)
    decreases n
  {
    if n > 0 {
      EnsureVolumesCalls(e, known, vm, specs, n - 1);
      var mid := EnsureVolumes(e, known, vm, specs, n - 1);
      ApplyStepEffect(mid, vm, PlanVolume(known, vm, specs[n - 1]), Device(n - 1));
      VolumesFrameTrans(e.cloud, mid.cloud, EnsureVolumes(e, known, vm, specs, n).cloud);
    }
  }

  /** One decision extends the account of the volumes created so far: one
      fresh id and one `create`/`volume` entry when it creates. */
  lemma ApplyStepLog(mid: Effect, vm: Instance, step: VolumeStep, device: string,
                     before: seq<LogEntry>, base: nat, created: seq<string>)
    requires mid.cloud.nextId == base + |created|
    requires mid.log == before + CreatedVolumeEntries(base, created)
    ensures var r := ApplyVolumeStep(mid, vm, step, device);
      var now := created + (if step.CreateNew? then [step.name] else []);
      && r.cloud.nextId == base + |now|
      && r.log == before + CreatedVolumeEntries(base, now)
  {
    ApplyStepEffect(mid, vm, step, device);
    if step.CreateNew? {
      CreatedVolumeEntriesStep(base, created, step.name);
    } else {
      assert created + [] == created;
    }
  }

  /** Processing the list takes one fresh id per missing volume and logs one
      `create`/`volume` entry per missing volume, in order, with the ids the
      provider handed out. */
  lemma {:induction false} EnsureVolumesLog(e: Effect, known: seq<Volume>, vm: Instance, specs: seq<VolumeSpec>, n: nat)
    requires n <= |specs| && n <= MaxVolumes + 1
    ensures var r := EnsureVolumes(e, known, vm, specs, n);
      var missing := MissingVolumes(known, vm, specs, n);
      && r.cloud.nextId == e.cloud.nextId + |missing|
      && r.log == e.log + CreatedVolumeEntries(e.cloud.nextId, missing)
    decreases n
  {
    if n > 0 {
      EnsureVolumesLog(e, known, vm, specs, n - 1);
      var mid := EnsureVolumes(e, known, vm, specs, n - 1);
      ApplyStepLog(mid, vm, PlanVolume(known, vm, specs[n - 1]), Device(n - 1),
                   e.log, e.cloud.nextId, MissingVolumes(known, vm, specs, n - 1));
      MissingVolumesStep(known, vm, specs, n);
    }
  }

  /** `after` extends `before` by `create`/`volume` entries only. */
  predicate LogsOnlyVolumes(before: seq<LogEntry>, after: seq<LogEntry>)
  {
    && before <= after
    && forall k :: |before| <= k < |after| ==> after[k].action == Create && after[k].resourceType == VolumeResource
  }

  lemma LogsOnlyVolumesTrans(a: seq<LogEntry>, b: seq<LogEntry>, c: seq<LogEntry>)
    requires LogsOnlyVolumes(a, b) && LogsOnlyVolumes(b, c)
    ensures LogsOnlyVolumes(a, c)
  {
  }

  /** Provisioning a volume list logs nothing but volume creations. */
  lemma ProvisionVolumesLogsOnlyVolumes(e: Effect, known: seq<Volume>, vm: Instance, specs: seq<VolumeSpec>)
    requires ProvisionVolumes(e, known, vm, specs).Ok?
    ensures LogsOnlyVolumes(e.log, ProvisionVolumes(e, known, vm, specs).value.log)
  {
    EnsureVolumesLog(e, known, vm, specs, |specs|);
  }

  /** One more created volume is one more log entry, with the next id. */
  lemma CreatedVolumeEntriesStep(base: nat, prev: seq<string>, name: string)
    ensures CreatedVolumeEntries(base, prev + [name])
         == CreatedVolumeEntries(base, prev) + [LogEntry(Create, VolumeResource, base + |prev|, name)]
  {
    assert CreatedVolumeEntries(base, prev + [name])[..|prev|] == CreatedVolumeEntries(base, prev);
  }

  /** When every entry is already attached to the instance, processing the list
      sends no request and logs nothing. */
  lemma {:induction false} EnsureVolumesIdle(e: Effect, known: seq<Volume>, vm: Instance, specs: seq<VolumeSpec>, n: nat)
    requires n <= |specs| && n <= MaxVolumes + 1
    requires forall k :: 0 <= k < n ==> PlanVolume(known, vm, specs[k]).AlreadyAttached?
    ensures EnsureVolumes(e, known, vm, specs, n) == e
    decreases n
  {
    if n > 0 {
      EnsureVolumesIdle(e, known, vm, specs, n - 1);
    }
  }

  /** A volume is created for an entry exactly when its name is unknown; the
      created names are the missing ones. */
  lemma {:induction false} MissingVolumesExact(known: seq<Volume>, vm: Instance, specs: seq<VolumeSpec>, n: nat)
    requires n <= |specs|
    ensures forall name :: name in MissingVolumes(known, vm, specs, n) <==>
      (exists k :: 0 <= k < n && name == VolumeName(vm.name, specs[k].name)) &&
      (forall v :: v in known ==> v.displayName != name)
    decreases n
  {
    if n > 0 {
      MissingVolumesExact(known, vm, specs, n - 1);
      forall name
        ensures name in MissingVolumes(known, vm, specs, n) <==>
          (exists k :: 0 <= k < n && name == VolumeName(vm.name, specs[k].name)) &&
          (forall v :: v in known ==> v.displayName != name)
      {
        if (exists k :: 0 <= k < n && name == VolumeName(vm.name, specs[k].name)) &&
           (forall v :: v in known ==> v.displayName != name) {
          var k :| 0 <= k < n && name == VolumeName(vm.name, specs[k].name);
          if k < n - 1 {
            assert name in MissingVolumes(known, vm, specs, n - 1);
          }
        }
      }
    }
  }
}
