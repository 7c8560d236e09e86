/**
 * The rewrite of a recovery point's restore metadata before an EC2 restore
 * is started: five keys are pinned to fixed values (placement, subnet and
 * security group of the test environment) and every other key is passed
 * through untouched.
 */
module RestoreMetadata {

  const CpuOptionsKey := "CpuOptions"
  const NetworkInterfacesKey := "NetworkInterfaces"
  const PlacementKey := "Placement"
  const SubnetIdKey := "SubnetId"
  const SecurityGroupIdsKey := "SecurityGroupIds"

  const CpuOptionsValue := "{}"
  const NetworkInterfacesValue := "[]"
  const PlacementValue := "{\"AvailabilityZone\":\"us-east-1b\",\"GroupName\":\"\",\"Tenancy\":\"default\"}"
  const SubnetIdValue := "subnet-0d402b67fa2b22396"
  const SecurityGroupIdsValue := "[\"sg-0a3403ld9b0341f31\"]"

  /** The value the rewrite pins for each of its five keys. */
  const Pinned: map<string, string> := map[
    CpuOptionsKey := CpuOptionsValue,
    NetworkInterfacesKey := NetworkInterfacesValue,
    PlacementKey := PlacementValue,
    SubnetIdKey := SubnetIdValue,
    SecurityGroupIdsKey := SecurityGroupIdsValue]

  /**
   * The metadata submitted with the restore job: `metadata` with the five
   * pinned keys set, whether or not they were present before.
   */
  function Overridden(metadata: map<string, string>): (r: map<string, string>)
    ensures r.Keys == metadata.Keys + Pinned.Keys
    ensures forall k :: k in Pinned ==> r[k] == Pinned[k]
    ensures forall k :: k in metadata && k !in Pinned ==> r[k] == metadata[k]
  {
    metadata + Pinned
  }

  /** The pinned keys are exactly the five the rewrite names. */
  lemma PinnedKeys()
    ensures Pinned.Keys == {"CpuOptions", "NetworkInterfaces", "Placement", "SubnetId", "SecurityGroupIds"}
  {
  }

  /** Rewriting metadata that was already rewritten changes nothing. */
  lemma OverriddenIdempotent(metadata: map<string, string>)
    ensures Overridden(Overridden(metadata)) == Overridden(metadata)
  {
  }

  /** Two metadata maps that agree outside the pinned keys are rewritten alike. */
  lemma OverriddenForgetsPinned(m1: map<string, string>, m2: map<string, string>)
    requires m1.Keys + Pinned.Keys == m2.Keys + Pinned.Keys
    requires forall k :: k in m1 && k !in Pinned ==> k in m2 && m1[k] == m2[k]
    ensures Overridden(m1) == Overridden(m2)
  {
    var r1, r2 := Overridden(m1), Overridden(m2);
    forall k | k in r1.Keys
      ensures r1[k] == r2[k]
    {
      if k !in Pinned {
        assert k in m1;
      }
    }
  }

  /** The block that sets the five keys of `metadata['RestoreMetadata']` one after another. */
  method OverrideRestoreMetadata(metadata: map<string, string>) returns (r: map<string, string>)
    ensures r == Overridden(metadata)
  {
    r := metadata;
    r := r[CpuOptionsKey := CpuOptionsValue];
    r := r[NetworkInterfacesKey := NetworkInterfacesValue];
    r := r[PlacementKey := PlacementValue];
    r := r[SubnetIdKey := SubnetIdValue];
    r := r[SecurityGroupIdsKey := SecurityGroupIdsValue];
  }
}
