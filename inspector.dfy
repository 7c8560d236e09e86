/**
 * Reading EC2 descriptions: the Name tag of an instance (`get_instanceName`)
 * and the EBS volumes that would outlive its termination (`get_volume_id`).
 * Each reader is a specification function over the description plus the
 * method that walks it the way the handler's loops do.
 */
module ResourceInspector {
  import opened PyStr
  import opened Cloud

  /** The key of the tag that names an instance. */
  const NameKey := "Name"

  /** `tags` holds no Name tag after position `i`. */
  ghost predicate LastNameAt(tags: seq<Tag>, i: int) {
    0 <= i < |tags| && tags[i].key == NameKey && forall j :: i < j < |tags| ==> tags[j].key != NameKey
  }

  /** The instance name: the value of the last Name tag, or "" when there is none. */
  function NameTag(tags: seq<Tag>): string
    decreases |tags|
  {
    if tags == [] then ""
    else if tags[|tags| - 1].key == NameKey then tags[|tags| - 1].value
    else NameTag(tags[..|tags| - 1])
  }

  /** `tags` holds a Name tag. */
  ghost predicate HasNameTag(tags: seq<Tag>) {
    exists i :: 0 <= i < |tags| && tags[i].key == NameKey
  }

  /** The name is the value of the last Name tag. */
  lemma {:induction false} NameTagIsLastName(tags: seq<Tag>, i: int)
    requires LastNameAt(tags, i)
    ensures NameTag(tags) == tags[i].value
    decreases |tags|
  {
    var n := |tags| - 1;
    if i < n {
      assert tags[n].key != NameKey;
      var init := tags[..n];
      assert init[i] == tags[i];
      assert LastNameAt(init, i) by {
        forall j | i < j < |init| ensures init[j].key != NameKey {
          assert init[j] == tags[j];
        }
      }
      NameTagIsLastName(init, i);
    }
  }

  /** Without a Name tag the name is empty. */
  lemma {:induction false} NameTagWithoutName(tags: seq<Tag>)
    requires !HasNameTag(tags)
    ensures NameTag(tags) == ""
    decreases |tags|
  {
    if tags != [] {
      var n := |tags| - 1;
      assert tags[n].key != NameKey;
      HasNameTagInit(tags);
      NameTagWithoutName(tags[..n]);
    }
  }

  /** A later Name tag overrides every earlier one. */
  lemma {:induction false} NameTagAppend(tags: seq<Tag>, more: seq<Tag>)
    ensures NameTag(tags + more) == if HasNameTag(more) then NameTag(more) else NameTag(tags)
    decreases |more|
  {
    if more == [] {
      assert tags + more == tags;
    } else {
      var n := |more| - 1;
      assert (tags + more)[..|tags + more| - 1] == tags + more[..n];
      assert (tags + more)[|tags + more| - 1] == more[n];
      if more[n].key != NameKey {
        NameTagAppend(tags, more[..n]);
        HasNameTagInit(more);
      } else {
        assert HasNameTag(more) by {
          assert more[n].key == NameKey;
        }
      }
    }
  }

  /** A last tag that is not a Name tag adds no Name tag. */
  lemma HasNameTagInit(tags: seq<Tag>)
    requires tags != [] && tags[|tags| - 1].key != NameKey
    ensures HasNameTag(tags) <==> HasNameTag(tags[..|tags| - 1])
  {
    var init := tags[..|tags| - 1];
    if HasNameTag(tags) {
      var j :| 0 <= j < |tags| && tags[j].key == NameKey;
      assert init[j] == tags[j];
    }
    if HasNameTag(init) {
      var j :| 0 <= j < |init| && init[j].key == NameKey;
      assert tags[j] == init[j];
    }
  }

  /** One more tag: a Name tag replaces the name, any other tag keeps it. */
  lemma NameTagStep(tags: seq<Tag>, i: nat)
    requires i < |tags|
    ensures NameTag(tags[..i + 1]) == if tags[i].key == NameKey then tags[i].value else NameTag(tags[..i])
  {
    var prefix := tags[..i + 1];
    assert prefix[|prefix| - 1] == tags[i];
    assert prefix[..|prefix| - 1] == tags[..i];
  }

  /** `get_instanceName`'s loop: every Name tag met overwrites the name found so far. */
  method InstanceName(tags: seq<Tag>) returns (name: string)
    ensures name == NameTag(tags)
  {
    name := "";
    var i := 0;
    while i < |tags|
      invariant 0 <= i <= |tags|
      invariant name == NameTag(tags[..i])
    {
      NameTagStep(tags, i);
      if tags[i].key == NameKey {
        name := tags[i].value;
      }
      i := i + 1;
    }
    assert tags[..i] == tags;
  }

  /**
   * `get_instanceName(instance_id)`, issued as call number `start`: it reads
   * the instance's tags (which raises, among other cases, for an instance
   * without tags) and returns the instance name.
   */
  method GetInstanceName(svc: Services, start: nat, instanceId: string) returns (r: Issued, name: string)
    ensures r == RunAll(svc, start, [DescribeInstanceTags(instanceId)])
    ensures r.status.Completed? ==> name == NameTag(svc.tags(instanceId))
  {
    var call := DescribeInstanceTags(instanceId);
    match svc.raises(start, call)
    case Some(e) =>
      r, name := Issued(Failed(e), [call]), "";
    case None =>
      name := InstanceName(svc.tags(instanceId));
      r := Issued(Completed, [call]);
  }

  /** The volumes among `devices` that survive termination (DeleteOnTermination false), in order. */
  function KeptVolumes(devices: seq<BlockDevice>): (vols: seq<string>)
    ensures |vols| <= |devices|
    decreases |devices|
  {
    if devices == [] then []
    else
      var last := devices[|devices| - 1];
      KeptVolumes(devices[..|devices| - 1]) + (if last.deleteOnTermination then [] else [last.volumeId])
  }

  /** Keeping volumes distributes over concatenation, so the kept volumes stay in device order. */
  lemma {:induction false} KeptVolumesAppend(a: seq<BlockDevice>, b: seq<BlockDevice>)
    ensures KeptVolumes(a + b) == KeptVolumes(a) + KeptVolumes(b)
    decreases |b|
  {
    if b == [] {
      assert a + b == a;
    } else {
      var n := |b| - 1;
      assert (a + b)[..|a + b| - 1] == a + b[..n];
      assert (a + b)[|a + b| - 1] == b[n];
      KeptVolumesAppend(a, b[..n]);
    }
  }

  /** Device `i` of `devices` maps volume `v` and survives termination. */
  ghost predicate KeepsAt(devices: seq<BlockDevice>, i: int, v: string) {
    0 <= i < |devices| && devices[i].volumeId == v && !devices[i].deleteOnTermination
  }

  /** A volume is kept exactly when some device maps it with DeleteOnTermination false. */
  lemma {:induction false} KeptVolumesMembers(devices: seq<BlockDevice>, v: string)
    ensures v in KeptVolumes(devices) <==> exists i :: KeepsAt(devices, i, v)
    decreases |devices|
  {
    if devices != [] {
      var n := |devices| - 1;
      var init := devices[..n];
      KeptVolumesMembers(init, v);
      var last := if devices[n].deleteOnTermination then [] else [devices[n].volumeId];
      assert KeptVolumes(devices) == KeptVolumes(init) + last;
      if v in KeptVolumes(devices) {
        if v in KeptVolumes(init) {
          var i :| KeepsAt(init, i, v);
          assert KeepsAt(devices, i, v);
        } else {
          assert KeepsAt(devices, n, v);
        }
      }
      if exists i :: KeepsAt(devices, i, v) {
        var i :| KeepsAt(devices, i, v);
        if i < n {
          assert KeepsAt(init, i, v);
        } else {
          assert v in last;
        }
      }
    }
  }

  /** The block-device mappings of `instances`, instance after instance. */
  function InstanceDevices(instances: seq<Instance>): (devices: seq<BlockDevice>)
    decreases |instances|
  {
    if instances == [] then []
    else InstanceDevices(instances[..|instances| - 1]) + instances[|instances| - 1].blockDevices
  }

  /** The block-device mappings of `reservations`, reservation after reservation. */
  function AllDevices(reservations: seq<Reservation>): (devices: seq<BlockDevice>)
    decreases |reservations|
  {
    if reservations == [] then []
    else AllDevices(reservations[..|reservations| - 1]) + InstanceDevices(reservations[|reservations| - 1].instances)
  }

  /** The volumes `get_volume_id` collects from a `describe_instances` answer. */
  function PreservedVolumes(reservations: seq<Reservation>): (vols: seq<string>)
    ensures |vols| <= |AllDevices(reservations)|
  {
    KeptVolumes(AllDevices(reservations))
  }

  /**
   * `get_volume_id`'s triple loop: over reservations, their instances and
   * their block-device mappings, it appends the volume of every mapping whose
   * DeleteOnTermination is false.
   */
  method CollectPreserved(reservations: seq<Reservation>) returns (vols: seq<string>)
    ensures vols == PreservedVolumes(reservations)
  {
    vols := [];
    var r := 0;
    while r < |reservations|
      invariant 0 <= r <= |reservations|
      invariant vols == KeptVolumes(AllDevices(reservations[..r]))
    {
      vols := AppendInstances(vols, reservations[r].instances);
      KeptVolumesAppend(AllDevices(reservations[..r]), InstanceDevices(reservations[r].instances));
      AllDevicesStep(reservations, r);
      r := r + 1;
    }
    assert reservations[..r] == reservations;
  }

  /** The middle loop of `get_volume_id`: the instances of one reservation, in order. */
  method AppendInstances(vols: seq<string>, instances: seq<Instance>) returns (out: seq<string>)
    ensures out == vols + KeptVolumes(InstanceDevices(instances))
  {
    out := vols;
    var i := 0;
    while i < |instances|
      invariant 0 <= i <= |instances|
      invariant out == vols + KeptVolumes(InstanceDevices(instances[..i]))
    {
      ghost var before := InstanceDevices(instances[..i]);
      out := AppendKept(out, instances[i].blockDevices);
      KeptVolumesAppend(before, instances[i].blockDevices);
      InstanceDevicesStep(instances, i);
      assert InstanceDevices(instances[..i + 1]) == before + instances[i].blockDevices;
      i := i + 1;
    }
    assert instances[..i] == instances;
  }

  /** The innermost loop of `get_volume_id`: append the volume of every mapping that survives termination. */
  method AppendKept(vols: seq<string>, devices: seq<BlockDevice>) returns (out: seq<string>)
    ensures out == vols + KeptVolumes(devices)
  {
    out := vols;
    var d := 0;
    while d < |devices|
      invariant 0 <= d <= |devices|
      invariant out == vols + KeptVolumes(devices[..d])
    {
      KeptVolumesStep(devices[..d], devices[d]);
      assert devices[..d + 1] == devices[..d] + [devices[d]];
      if !devices[d].deleteOnTermination {
        out := out + [devices[d].volumeId];
      }
      d := d + 1;
    }
    assert devices[..d] == devices;
  }

  /** One more mapping: its volume is kept when it survives termination. */
  lemma KeptVolumesStep(devices: seq<BlockDevice>, d: BlockDevice)
    ensures KeptVolumes(devices + [d]) == KeptVolumes(devices) + (if d.deleteOnTermination then [] else [d.volumeId])
  {
    assert (devices + [d])[..|devices|] == devices;
  }

  /** One more instance: its mappings follow those of the instances before it. */
  lemma InstanceDevicesStep(instances: seq<Instance>, i: nat)
    requires i < |instances|
    ensures InstanceDevices(instances[..i + 1]) == InstanceDevices(instances[..i]) + instances[i].blockDevices
  {
    assert instances[..i + 1][..i] == instances[..i];
  }

  /** One more reservation: its mappings follow those of the reservations before it. */
  lemma AllDevicesStep(reservations: seq<Reservation>, r: nat)
    requires r < |reservations|
    ensures AllDevices(reservations[..r + 1]) == AllDevices(reservations[..r]) + InstanceDevices(reservations[r].instances)
  {
    assert reservations[..r + 1][..r] == reservations[..r];
  }

  /**
   * `get_volume_id(instance_id)`, issued as call number `start`: it describes
   * the instance and collects its preserved volumes.
   */
  method GetVolumeId(svc: Services, start: nat, instanceId: string) returns (r: Issued, vols: seq<string>)
    ensures r == RunAll(svc, start, [DescribeInstances(instanceId)])
    ensures r.status.Completed? ==> vols == PreservedVolumes(svc.reservations(instanceId))
  {
    var call := DescribeInstances(instanceId);
    match svc.raises(start, call)
    case Some(e) =>
      r, vols := Issued(Failed(e), [call]), [];
    case None =>
      vols := CollectPreserved(svc.reservations(instanceId));
      r := Issued(Completed, [call]);
  }

  /**
   * `instance_details['Reservations'][0]['Instances'][0]['PrivateIpAddress']`:
   * None when there is no first reservation, no first instance in it, or no
   * private address on that instance.
   */
  function PrivateIp(reservations: seq<Reservation>): (ip: Option<string>)
    ensures ip.Some? ==> |reservations| > 0 && |reservations[0].instances| > 0
                         && reservations[0].instances[0].privateIp == ip
    ensures |reservations| > 0 && |reservations[0].instances| > 0 ==> ip == reservations[0].instances[0].privateIp
  {
    if reservations == [] || reservations[0].instances == [] then None
    else reservations[0].instances[0].privateIp
  }
}
