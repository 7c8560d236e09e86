/**
 * The cloud services the handler talks to (AWS Backup, EC2, SNS and the
 * socket layer), seen only through the calls it makes. Each call is an
 * `Action`; what a call answers, and whether it raises, comes from a
 * `Services` oracle fixed for one invocation.
 */
module Cloud {
  import opened PyStr

  /** An EC2 tag. */
  datatype Tag = Tag(key: string, value: string)

  /** One block-device mapping of an instance: its EBS volume and that volume's DeleteOnTermination flag. */
  datatype BlockDevice = BlockDevice(volumeId: string, deleteOnTermination: bool)

  /** An instance record of `describe_instances`; `privateIp` is None when the record has no PrivateIpAddress. */
  datatype Instance = Instance(privateIp: Option<string>, blockDevices: seq<BlockDevice>)

  /** A reservation record of `describe_instances`. */
  datatype Reservation = Reservation(instances: seq<Instance>)

  /** The fields of `describe_backup_job` the handler reads. */
  datatype BackupJob = BackupJob(recoveryPointArn: string, iamRoleArn: string, backupVaultName: string, resourceType: string)

  /** The fields of `describe_restore_job` the handler reads. */
  datatype RestoreJob = RestoreJob(createdResourceArn: string, recoveryPointArn: string)

  /** Every call the handler makes on a collaborator, with the arguments it passes. */
  datatype Action =
    | DescribeInstanceTags(instanceId: string)            // boto3 `Instance(id).tags`
    | DescribeBackupJob(backupJobId: string)
    | GetRecoveryPointRestoreMetadata(backupVaultName: string, recoveryPointArn: string)
    | StartRestoreJob(recoveryPointArn: string, iamRoleArn: string, metadata: map<string, string>)
    | DescribeRestoreJob(restoreJobId: string)
    | CreateTags(instanceId: string, key: string, value: string)
    | DescribeInstances(instanceId: string)
    | ConnectTcp(address: string, port: int)              // socket `connect_ex`
    | DetachVolume(instanceId: string, volumeId: string, force: bool)
    | WaitVolumesAvailable(volumeIds: seq<string>)        // the `volume_available` waiter
    | DeleteVolume(volumeId: string)
    | ClearTerminationProtection(instanceId: string)      // `modify_attribute(DisableApiTermination=False)`
    | Terminate(instanceId: string)
    | Publish(topicArn: string, subject: string, message: string)

  /**
   * The world as one invocation sees it. `raises(n, a)` is the message of
   * the exception call `a` raises when it is call number `n` (from 0) of the
   * invocation, or None when it returns; the other fields are what the read
   * calls answer when they return. Since the handler is deterministic, the
   * number of a call fixes every call issued before it, so a failure may
   * depend on all that happened earlier.
   */
  datatype Services = Services(
    raises: (nat, Action) -> Option<string>,
    tags: string -> seq<Tag>,
    reservations: string -> seq<Reservation>,
    backupJob: string -> BackupJob,
    restoreMetadata: (string, string) -> map<string, string>,
    restoreJob: string -> RestoreJob,
    connectCode: string -> int)

  /** How a sequence of calls ended: normally, or with the message of the exception that stopped it. */
  datatype Status = Completed | Failed(error: string)

  /** The calls a step issued, in order, and how it ended. */
  datatype Issued = Issued(status: Status, calls: seq<Action>)

  /** Every call of `calls`, numbered from `start`, returns without raising. */
  ghost predicate NoneRaise(svc: Services, start: nat, calls: seq<Action>) {
    forall k :: 0 <= k < |calls| ==> svc.raises(start + k, calls[k]).None?
  }

  /**
   * Issue the calls of `plan` one after another, numbered from `start`, as
   * straight-line Python code does: the first call that raises is the last
   * one issued, and its exception ends the sequence.
   */
  function RunAll(svc: Services, start: nat, plan: seq<Action>): (r: Issued)
    ensures r.calls <= plan
    ensures r.status.Completed? ==> r.calls == plan
    ensures r.status.Failed? ==>
      && |r.calls| > 0
      && svc.raises(start + |r.calls| - 1, r.calls[|r.calls| - 1]) == Some(r.status.error)
    decreases |plan|
  {
    if plan == [] then Issued(Completed, [])
    else match svc.raises(start, plan[0])
      case Some(e) => Issued(Failed(e), [plan[0]])
      case None =>
        var rest := RunAll(svc, start + 1, plan[1..]);
        var calls := [plan[0]] + rest.calls;
        assert calls[1..] == rest.calls;
        Issued(rest.status, calls)
  }

  /** A plan completes exactly when none of its calls raises. */
  lemma {:induction false} RunAllCompletes(svc: Services, start: nat, plan: seq<Action>)
    ensures RunAll(svc, start, plan).status.Completed? <==> NoneRaise(svc, start, plan)
    decreases |plan|
  {
    if plan != [] && svc.raises(start, plan[0]).None? {
      RunAllCompletes(svc, start + 1, plan[1..]);
      NoneRaiseCons(svc, start, plan);
    } else if plan != [] {
      assert svc.raises(start + 0, plan[0]).Some?;
    }
  }

  /** No call of a plan raises exactly when its first call returns and no call of the rest raises. */
  lemma NoneRaiseCons(svc: Services, start: nat, plan: seq<Action>)
    requires plan != [] && svc.raises(start, plan[0]).None?
    ensures NoneRaise(svc, start, plan) <==> NoneRaise(svc, start + 1, plan[1..])
  {
    if NoneRaise(svc, start + 1, plan[1..]) {
      forall k | 0 <= k < |plan| ensures svc.raises(start + k, plan[k]).None? {
        if k > 0 {
          assert plan[k] == plan[1..][k - 1];
        }
      }
    }
    if NoneRaise(svc, start, plan) {
      forall k | 0 <= k < |plan| - 1 ensures svc.raises(start + 1 + k, plan[1..][k]).None? {
        assert plan[1..][k] == plan[k + 1];
      }
    }
  }

  /** A plan stops at the first call that raises, with that call's exception, after the calls before it. */
  lemma {:induction false} RunAllStopsAt(svc: Services, start: nat, plan: seq<Action>, i: nat)
    requires i < |plan| && NoneRaise(svc, start, plan[..i]) && svc.raises(start + i, plan[i]).Some?
    ensures RunAll(svc, start, plan) == Issued(Failed(svc.raises(start + i, plan[i]).value), plan[..i + 1])
    decreases i
  {
    if i == 0 {
      assert plan[..1] == [plan[0]];
    } else {
      var before, tail := plan[..i], plan[1..];
      assert svc.raises(start + 0, before[0]).None?;
      var rest := tail[..i - 1];
      assert NoneRaise(svc, start + 1, rest) by {
        forall k | 0 <= k < i - 1 ensures svc.raises(start + 1 + k, rest[k]).None? {
          assert rest[k] == before[k + 1];
        }
      }
      assert tail[i - 1] == plan[i];
      RunAllStopsAt(svc, start + 1, tail, i - 1);
      assert [plan[0]] + tail[..i] == plan[..i + 1];
    }
  }

  /**
   * The call at position `i` of a plan whose earlier calls all returned:
   * either it returns too, or the plan stops right after it, with its
   * exception.
   */
  lemma RunAllStep(svc: Services, start: nat, plan: seq<Action>, i: nat)
    requires i < |plan| && NoneRaise(svc, start, plan[..i])
    ensures svc.raises(start + i, plan[i]).None? ==> NoneRaise(svc, start, plan[..i + 1])
    ensures svc.raises(start + i, plan[i]).Some? ==>
      RunAll(svc, start, plan) == Issued(Failed(svc.raises(start + i, plan[i]).value), plan[..i + 1])
  {
    if svc.raises(start + i, plan[i]).Some? {
      RunAllStopsAt(svc, start, plan, i);
    } else {
      assert forall k :: 0 <= k < i ==> plan[..i + 1][k] == plan[..i][k];
    }
  }

  /** Every call issued is a call of the plan. */
  lemma RunAllIssuesFromPlan(svc: Services, start: nat, plan: seq<Action>)
    ensures forall a :: a in RunAll(svc, start, plan).calls ==> a in plan
  {
    var calls := RunAll(svc, start, plan).calls;
    forall a | a in calls ensures a in plan {
      var k :| 0 <= k < |calls| && calls[k] == a;
      assert plan[k] == a;
    }
  }

  /** A single call is issued, and fails with its exception when it raises. */
  lemma RunAllSingle(svc: Services, start: nat, call: Action)
    ensures RunAll(svc, start, [call]).calls == [call]
    ensures RunAll(svc, start, [call]).status ==
      match svc.raises(start, call) case Some(e) => Failed(e) case None => Completed
  {
    assert [call][1..] == [];
  }

  /** A plan none of whose calls raises is issued in full. */
  lemma RunAllNoneRaise(svc: Services, start: nat, plan: seq<Action>)
    requires NoneRaise(svc, start, plan)
    ensures RunAll(svc, start, plan) == Issued(Completed, plan)
  {
    RunAllCompletes(svc, start, plan);
  }
}
