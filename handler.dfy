/**
 * `lambda_handler`: one notification in, the calls it makes on the cloud
 * services and the value it returns out. It ignores the notifications it
 * published itself, answers a failed job with the job id, starts a restore
 * of a freshly backed-up EC2 instance, and tests a freshly restored
 * instance (connect to its SSH port, clean it up, publish a verdict).
 */
module LambdaHandler {
  import opened PyStr
  import opened Cloud
  import opened NotificationParser
  import opened RestoreMetadata
  import opened ResourceInspector
  import opened CleanupExecutor
  import opened RestoreReport

  /** The decoded SNS notification; a field is None when the key is missing. */
  datatype Event = Event(subject: Option<string>, message: Option<string>, topicArn: Option<string>)

  /** How the handler ended: it returned a value, or an exception escaped it. */
  datatype Outcome = Returned(value: Option<string>) | Propagated

  /** What one invocation did: how it ended and every call it made, in order. */
  datatype Run = Run(outcome: Outcome, calls: seq<Action>)

  /** The conclusion of the connection test and the calls the test made. */
  datatype Probe = Probe(verdict: Verdict, calls: seq<Action>)

  /** The port the connection test probes. */
  const SshPort := 22

  /** The Name tag the restored instance receives. */
  const RestoredInstanceName := "RestoreTestInstance"

  /** The answer to a failed job: "Job ID:" and the job id, or None when the id does not parse. */
  function FailureReply(message: string): (reply: Option<string>)
    ensures reply.Some? <==> JobId(message).Some?
    ensures reply.Some? ==> reply.value == "Job ID:" + JobId(message).value
  {
    match JobId(message)
    case None => None
    case Some(id) => Some("Job ID:" + id)
  }

  /**
   * A failed job's notification, in the form AWS Backup writes it, is
   * answered with "Job ID:" and the job id it names.
   */
  lemma FailedJobReply(lead: string, region: string, account: string, instanceId: string, jobType: string, jobId: string)
    requires '.' !in region && ':' !in region && '.' !in account && ':' !in account
    requires '.' !in instanceId && ':' !in instanceId && '/' !in instanceId && Trimmed(instanceId)
    requires '.' !in jobType && ':' !in jobType && ' ' !in jobType
    requires '.' !in jobId && ':' !in jobId && Trimmed(jobId)
    ensures FailureReply(JobNotification(lead, InstanceArn(region, account, instanceId), jobType, jobId)) == Some("Job ID:" + jobId)
  {
    ParseJobNotification(lead, region, account, instanceId, jobType, jobId);
  }

  // ---------------------------------------------------------------------
  // Backup completed: restore the recovery point of an EC2 instance.
  // ---------------------------------------------------------------------

  /**
   * The calls of the backup path once the job id and the original instance
   * id parsed: read the instance name, describe the backup job, read the
   * recovery point's restore metadata, and for an EC2 resource start a
   * restore job with the rewritten metadata.
   */
  function BackupPlan(svc: Services, jobId: string, originalId: string): seq<Action> {
    var job := svc.backupJob(jobId);
    var metadata := svc.restoreMetadata(job.backupVaultName, job.recoveryPointArn);
    [DescribeInstanceTags(originalId), DescribeBackupJob(jobId), GetRecoveryPointRestoreMetadata(job.backupVaultName, job.recoveryPointArn)]
      + (if job.resourceType == "EC2" then [StartRestoreJob(job.recoveryPointArn, job.iamRoleArn, Overridden(metadata))] else [])
  }

  /** The calls of the backup path; a parse failure or an exception ends it quietly. */
  function BackupCalls(svc: Services, message: string): seq<Action> {
    match (JobId(message), OriginalInstanceId(message))
    case (Some(jobId), Some(originalId)) => RunAll(svc, 0, BackupPlan(svc, jobId, originalId)).calls
    case _ => []
  }

  // ---------------------------------------------------------------------
  // Restore completed: test the restored instance and report.
  // ---------------------------------------------------------------------

  /**
   * The connection test, its calls numbered from `start`: connect to the
   * SSH port; whatever the answer, clean the instance up; the verdict is
   * the connection's answer, or ERROR when the connection or the cleanup
   * raised.
   */
  function ConnectionTest(svc: Services, start: nat, ip: string, instanceId: string): Probe {
    var connect := ConnectTcp(ip, SshPort);
    match svc.raises(start, connect)
    case Some(e) => Probe(TestError(e), [connect])
    case None =>
      var cleanup := CleanupRun(svc, start + 1, instanceId);
      if cleanup.status.Failed? then Probe(TestError(cleanup.status.error), [connect] + cleanup.calls)
      else if svc.connectCode(ip) == 0 then Probe(Reachable, [connect] + cleanup.calls)
      else Probe(Unreachable, [connect] + cleanup.calls)
  }

  /**
   * The calls of the restore path from call number 2 on, once the restored
   * resource's ARN parsed: tag it, and when it is an EC2 instance with a
   * private address, test it and publish the verdict to `topic`.
   */
  function RestoredResourceCalls(svc: Services, topic: string, originalId: string, job: RestoreJob, service: string, instanceId: string): seq<Action> {
    var arn := job.createdResourceArn;
    var tagging := RunAll(svc, 2, [CreateTags(instanceId, NameKey, RestoredInstanceName)]);
    if tagging.status.Failed? || service != "ec2" || ArnResourceType(arn) != Some("instance") then tagging.calls
    else
      var describe := RunAll(svc, 3, [DescribeInstances(instanceId)]);
      var ip := PrivateIp(svc.reservations(instanceId));
      if describe.status.Failed? || ip.None? then tagging.calls + describe.calls
      else
        var probe := ConnectionTest(svc, 4, ip.value, instanceId);
        var report := ReportFor(probe.verdict, NameTag(svc.tags(originalId)), originalId, job.recoveryPointArn, instanceId, arn);
        tagging.calls + describe.calls + probe.calls + [Publish(topic, report.subject, report.message)]
  }

  /** The calls of the restore path once the job id, the topic and the original instance id are known. */
  function RestoreJobCalls(svc: Services, topic: string, jobId: string, originalId: string): seq<Action> {
    var lookups := RunAll(svc, 0, [DescribeInstanceTags(originalId), DescribeRestoreJob(jobId)]);
    if lookups.status.Failed? then lookups.calls
    else
      var job := svc.restoreJob(jobId);
      match (ArnService(job.createdResourceArn), ArnResourceId(job.createdResourceArn))
      case (Some(service), Some(instanceId)) => lookups.calls + RestoredResourceCalls(svc, topic, originalId, job, service, instanceId)
      case _ => lookups.calls
  }

  /** The calls of the restore path; a parse failure, a missing topic or an exception ends it quietly. */
  function RestoreCalls(svc: Services, topicArn: Option<string>, message: string): seq<Action> {
    match (JobId(message), topicArn, OriginalInstanceId(message))
    case (Some(jobId), Some(topic), Some(originalId)) => RestoreJobCalls(svc, topic, jobId, originalId)
    case _ => []
  }

  /** A notification the handler drops at once: it has no subject, or one of the handler's own subjects. */
  predicate Ignored(ev: Event) {
    ev.subject.None? || IsRestoreTestSubject(ev.subject.value)
  }

  /**
   * One invocation of the handler. A missing subject and the handler's own
   * subjects end it at once; the rest depends on the message alone.
   */
  function Handle(ev: Event, svc: Services): Run {
    if Ignored(ev) then Run(Returned(None), []) else Dispatch(svc, ev.message, ev.topicArn)
  }

  /**
   * The handler after the subject check: a missing message or a message
   * without a job type raises, outside every try; a failed job is answered
   * with its id; otherwise the job type selects the backup or the restore
   * path, whose exceptions are all caught.
   */
  function Dispatch(svc: Services, message: Option<string>, topicArn: Option<string>): Run {
    match message
    case None => Run(Propagated, [])
    case Some(message) =>
      match JobType(message)
      case None => Run(Propagated, [])
      case Some(jobType) =>
        if ReportsFailure(message) then Run(Returned(FailureReply(message)), [])
        else if jobType == "Backup" then Run(Returned(None), BackupCalls(svc, message))
        else if jobType == "Restore" then Run(Returned(None), RestoreCalls(svc, topicArn, message))
        else Run(Returned(None), [])
  }

  // ---------------------------------------------------------------------
  // The handler, call by call.
  // ---------------------------------------------------------------------

  /** `lambda_handler(event, context)`. */
  method HandleEvent(ev: Event, svc: Services) returns (run: Run)
    ensures run == Handle(ev, svc)
  {
    if Ignored(ev) {
      return Run(Returned(None), []);
    }
    if ev.message.None? {
      return Run(Propagated, []);
    }
    var message := ev.message.value;
    var jobType := JobType(message);
    if jobType.None? {
      return Run(Propagated, []);
    }
    if ReportsFailure(message) {
      return Run(Returned(FailureReply(message)), []);
    }
    var calls: seq<Action> := [];
    if jobType.value == "Backup" {
      calls := OnBackupCompleted(svc, message);
    } else if jobType.value == "Restore" {
      calls := OnRestoreCompleted(svc, ev.topicArn, message);
    }
    run := Run(Returned(None), calls);
  }

  /** The backup branch of `lambda_handler`. */
  method OnBackupCompleted(svc: Services, message: string) returns (calls: seq<Action>)
    ensures calls == BackupCalls(svc, message)
  {
    calls := [];
    var jobId := JobId(message);
    var originalId := OriginalInstanceId(message);
    if jobId.None? || originalId.None? {
      return;
    }
    calls := RequestRestore(svc, jobId.value, originalId.value);
  }

  /**
   * The backup branch once the job id and the original instance id are
   * known: read the instance's name, the backup job and the recovery
   * point's restore metadata, then, for an EC2 resource, start the restore.
   */
  method RequestRestore(svc: Services, jobId: string, originalId: string) returns (calls: seq<Action>)
    ensures calls == RunAll(svc, 0, BackupPlan(svc, jobId, originalId)).calls
  {
    ghost var plan := BackupPlan(svc, jobId, originalId);
    var named, name := GetInstanceName(svc, 0, originalId);
    RunAllSingle(svc, 0, DescribeInstanceTags(originalId));
    RunAllStep(svc, 0, plan, 0);
    calls := named.calls;
    assert calls == plan[..1];
    if named.status.Failed? {
      return;
    }
    var describe := DescribeBackupJob(jobId);
    calls := calls + [describe];
    RunAllStep(svc, 0, plan, 1);
    assert calls == plan[..2] by { assert plan[..2] == plan[..1] + [plan[1]]; }
    if svc.raises(1, describe).Some? {
      return;
    }
    var job := svc.backupJob(jobId);
    var read := GetRecoveryPointRestoreMetadata(job.backupVaultName, job.recoveryPointArn);
    calls := calls + [read];
    RunAllStep(svc, 0, plan, 2);
    assert calls == plan[..3] by { assert plan[..3] == plan[..2] + [plan[2]]; }
    if svc.raises(2, read).Some? {
      return;
    }
    if job.resourceType == "EC2" {
      var metadata := OverrideRestoreMetadata(svc.restoreMetadata(job.backupVaultName, job.recoveryPointArn));
      calls := calls + [StartRestoreJob(job.recoveryPointArn, job.iamRoleArn, metadata)];
      RunAllStep(svc, 0, plan, 3);
      assert calls == plan by { assert plan == plan[..3] + [plan[3]]; }
    } else {
      assert plan[..3] == plan;
    }
    if NoneRaise(svc, 0, plan) {
      RunAllNoneRaise(svc, 0, plan);
    }
  }

  /** The restore branch of `lambda_handler`: parse the notification, then look the job up. */
  method OnRestoreCompleted(svc: Services, topicArn: Option<string>, message: string) returns (calls: seq<Action>)
    ensures calls == RestoreCalls(svc, topicArn, message)
  {
    calls := [];
    var restoreJobId := JobId(message);
    if restoreJobId.None? || topicArn.None? {
      return;
    }
    var originalId := OriginalInstanceId(message);
    if originalId.None? {
      return;
    }
    calls := OnRestoreJob(svc, topicArn.value, restoreJobId.value, originalId.value);
  }

  /** The restore branch of `lambda_handler` once its ids are parsed, up to the restored resource's ARN. */
  method OnRestoreJob(svc: Services, topic: string, jobId: string, originalId: string) returns (calls: seq<Action>)
    ensures calls == RestoreJobCalls(svc, topic, jobId, originalId)
  {
    ghost var plan := [DescribeInstanceTags(originalId), DescribeRestoreJob(jobId)];
    var named, name := GetInstanceName(svc, 0, originalId);
    RunAllStep(svc, 0, plan, 0);
    calls := named.calls;
    if named.status.Failed? {
      return;
    }
    var describe := DescribeRestoreJob(jobId);
    calls := calls + [describe];
    RunAllStep(svc, 0, plan, 1);
    if svc.raises(1, describe).Some? {
      return;
    }
    assert plan[..2] == plan;
    RunAllNoneRaise(svc, 0, plan);
    var job := svc.restoreJob(jobId);
    var service := ArnService(job.createdResourceArn);
    var instanceId := ArnResourceId(job.createdResourceArn);
    if service.None? || instanceId.None? {
      return;
    }
    var more := OnRestoredResource(svc, topic, originalId, name, job, service.value, instanceId.value);
    calls := calls + more;
  }

  /** The restore branch of `lambda_handler`, from the tagging of the restored resource on. */
  method OnRestoredResource(svc: Services, topic: string, originalId: string, name: string, job: RestoreJob, service: string, instanceId: string)
    returns (calls: seq<Action>)
    requires name == NameTag(svc.tags(originalId))
    ensures calls == RestoredResourceCalls(svc, topic, originalId, job, service, instanceId)
  {
    var tag := CreateTags(instanceId, NameKey, RestoredInstanceName);
    calls := [tag];
    if svc.raises(2, tag).Some? || service != "ec2" {
      return;
    }
    if ArnResourceType(job.createdResourceArn) != Some("instance") {
      // the subject is never bound: the publish raises NameError, which the outer try swallows
      return;
    }
    var describe := DescribeInstances(instanceId);
    calls := calls + [describe];
    if svc.raises(3, describe).Some? {
      return;
    }
    var ip := PrivateIp(svc.reservations(instanceId));
    if ip.None? {
      return;
    }
    var probe := TestRestoredInstance(svc, 4, ip.value, instanceId);
    var report := ReportFor(probe.verdict, name, originalId, job.recoveryPointArn, instanceId, job.createdResourceArn);
    calls := calls + probe.calls + [Publish(topic, report.subject, report.message)];
  }

  /** The inner try of the restore branch: probe the SSH port, clean up, and settle the verdict. */
  method TestRestoredInstance(svc: Services, start: nat, ip: string, instanceId: string) returns (probe: Probe)
    ensures probe == ConnectionTest(svc, start, ip, instanceId)
  {
    var connect := ConnectTcp(ip, SshPort);
    match svc.raises(start, connect)
    case Some(e) =>
      probe := Probe(TestError(e), [connect]);
    case None =>
      var result := svc.connectCode(ip);
      var cleanup := CleanUp(svc, start + 1, instanceId);
      if cleanup.status.Failed? {
        probe := Probe(TestError(cleanup.status.error), [connect] + cleanup.calls);
      } else if result == 0 {
        probe := Probe(Reachable, [connect] + cleanup.calls);
      } else {
        probe := Probe(Unreachable, [connect] + cleanup.calls);
      }
  }
}
