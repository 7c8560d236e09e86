/**
 * What one invocation of the handler does, stated over every notification
 * and every behaviour of the cloud services: which notifications it
 * ignores, when it raises, when it restores, and, for a restored instance,
 * that it tests, cleans up and reports in that order.
 */
module HandlerProperties {
  import opened PyStr
  import opened Cloud
  import opened NotificationParser
  import opened RestoreMetadata
  import opened ResourceInspector
  import opened CleanupExecutor
  import opened RestoreReport
  import opened LambdaHandler

  // ---------------------------------------------------------------------
  // Dispatch.
  // ---------------------------------------------------------------------

  /** A notification without a subject, or with one of the handler's own subjects, is dropped without a call. */
  lemma IgnoredNotification(ev: Event, svc: Services)
    requires Ignored(ev)
    ensures Handle(ev, svc) == Run(Returned(None), [])
  {
  }

  /**
   * The handler raises exactly when the notification has a subject that is
   * not its own and a message that is missing or has no second word in its
   * last sentence: the job type is read outside every try.
   */
  lemma PropagatesIffJobTypeUnreadable(ev: Event, svc: Services)
    ensures Handle(ev, svc).outcome == Propagated <==>
      && !Ignored(ev)
      && (ev.message.None? || JobType(ev.message.value).None?)
    ensures Handle(ev, svc).outcome == Propagated ==> Handle(ev, svc).calls == []
  {
  }

  /**
   * A message that mentions "failed" wins over the job type: the handler
   * makes no call and answers "Job ID:" followed by the job id, or nothing
   * when the id does not parse.
   */
  lemma FailedJobAnswered(ev: Event, svc: Services)
    requires !Ignored(ev)
    requires ev.message.Some? && JobType(ev.message.value).Some? && ReportsFailure(ev.message.value)
    ensures Handle(ev, svc).calls == []
    ensures JobId(ev.message.value).Some? ==> Handle(ev, svc).outcome == Returned(Some("Job ID:" + JobId(ev.message.value).value))
    ensures JobId(ev.message.value).None? ==> Handle(ev, svc).outcome == Returned(None)
  {
  }

  /** Every notification that does not raise returns None, except the answer to a failed job. */
  lemma ReturnsNoneUnlessFailed(ev: Event, svc: Services)
    requires Handle(ev, svc).outcome.Returned? && Handle(ev, svc).outcome.value.Some?
    ensures ev.message.Some? && ReportsFailure(ev.message.value) && Handle(ev, svc).calls == []
  {
  }

  // ---------------------------------------------------------------------
  // The backup path.
  // ---------------------------------------------------------------------

  /**
   * A restore job is started only by a backup notification about an EC2
   * resource, as the last call, after the three reads, and with the
   * recovery point's metadata rewritten.
   */
  lemma RestoreStartedOnlyForEc2Backup(ev: Event, svc: Services, i: nat)
    requires i < |Handle(ev, svc).calls| && Handle(ev, svc).calls[i].StartRestoreJob?
    ensures ev.message.Some? && JobType(ev.message.value) == Some("Backup") && !ReportsFailure(ev.message.value)
    ensures JobId(ev.message.value).Some?
    ensures i == 3 && |Handle(ev, svc).calls| == 4
    ensures var job := svc.backupJob(JobId(ev.message.value).value);
      && job.resourceType == "EC2"
      && Handle(ev, svc).calls[i]
           == StartRestoreJob(job.recoveryPointArn, job.iamRoleArn, Overridden(svc.restoreMetadata(job.backupVaultName, job.recoveryPointArn)))
  {
    var m := ev.message.value;
    assert !Ignored(ev) && ev.message.Some? && JobType(m).Some? && !ReportsFailure(m);
    RestorePathNeverStartsRestore(svc, ev.topicArn, m);
    assert Handle(ev, svc).calls == BackupCalls(svc, m);
    BackupStartsRestoreLast(svc, m, i);
  }

  /** In the backup path, a restore job is started only for an EC2 resource, as the fourth and last call. */
  lemma BackupStartsRestoreLast(svc: Services, message: string, i: nat)
    requires i < |BackupCalls(svc, message)| && BackupCalls(svc, message)[i].StartRestoreJob?
    ensures JobId(message).Some?
    ensures i == 3 && |BackupCalls(svc, message)| == 4
    ensures var job := svc.backupJob(JobId(message).value);
      && job.resourceType == "EC2"
      && BackupCalls(svc, message)[i]
           == StartRestoreJob(job.recoveryPointArn, job.iamRoleArn, Overridden(svc.restoreMetadata(job.backupVaultName, job.recoveryPointArn)))
  {
    BackupPlanStartsLast(svc, JobId(message).value, OriginalInstanceId(message).value, i);
  }

  /** The backup plan starts a restore job only for an EC2 resource, as its fourth and last call. */
  lemma BackupPlanStartsLast(svc: Services, jobId: string, originalId: string, i: nat)
    requires var calls := RunAll(svc, 0, BackupPlan(svc, jobId, originalId)).calls;
      i < |calls| && calls[i].StartRestoreJob?
    ensures var calls := RunAll(svc, 0, BackupPlan(svc, jobId, originalId)).calls;
      var job := svc.backupJob(jobId);
      && i == 3 && |calls| == 4
      && job.resourceType == "EC2"
      && calls[i] == StartRestoreJob(job.recoveryPointArn, job.iamRoleArn, Overridden(svc.restoreMetadata(job.backupVaultName, job.recoveryPointArn)))
  {
    var plan := BackupPlan(svc, jobId, originalId);
    var calls := RunAll(svc, 0, plan).calls;
    var job := svc.backupJob(jobId);
    var lookups := [DescribeInstanceTags(originalId), DescribeBackupJob(jobId), GetRecoveryPointRestoreMetadata(job.backupVaultName, job.recoveryPointArn)];
    var start := StartRestoreJob(job.recoveryPointArn, job.iamRoleArn, Overridden(svc.restoreMetadata(job.backupVaultName, job.recoveryPointArn)));
    assert calls[i] == plan[i];
    assert plan == lookups + (if job.resourceType == "EC2" then [start] else []);
    assert i >= 3 by {
      assert plan[..3] == lookups;
    }
  }

  /** The restore path starts no restore job. */
  lemma RestorePathNeverStartsRestore(svc: Services, topicArn: Option<string>, message: string)
    ensures forall a :: a in RestoreCalls(svc, topicArn, message) ==> !a.StartRestoreJob?
  {
    match (JobId(message), topicArn, OriginalInstanceId(message))
    case (Some(jobId), Some(topic), Some(originalId)) =>
      RestoreJobNoStart(svc, topic, jobId, originalId);
    case _ =>
  }

  /** The restore path, once its fields parsed, starts no restore job. */
  lemma RestoreJobNoStart(svc: Services, topic: string, jobId: string, originalId: string)
    ensures forall a :: a in RestoreJobCalls(svc, topic, jobId, originalId) ==> !a.StartRestoreJob?
  {
    RunAllIssuesFromPlan(svc, 0, [DescribeInstanceTags(originalId), DescribeRestoreJob(jobId)]);
    var job := svc.restoreJob(jobId);
    match (ArnService(job.createdResourceArn), ArnResourceId(job.createdResourceArn))
    case (Some(service), Some(instanceId)) =>
      RestoredResourceNoStart(svc, topic, originalId, job, service, instanceId);
    case _ =>
  }

  /** Testing a restored resource starts no restore job. */
  lemma RestoredResourceNoStart(svc: Services, topic: string, originalId: string, job: RestoreJob, service: string, instanceId: string)
    ensures forall a :: a in RestoredResourceCalls(svc, topic, originalId, job, service, instanceId) ==> !a.StartRestoreJob?
  {
    var ip := PrivateIp(svc.reservations(instanceId));
    if && svc.raises(2, CreateTags(instanceId, NameKey, RestoredInstanceName)).None?
       && service == "ec2" && ArnResourceType(job.createdResourceArn) == Some("instance")
       && svc.raises(3, DescribeInstances(instanceId)).None? && ip.Some? {
      var probe := ConnectionTest(svc, 4, ip.value, instanceId);
      var report := PublishedReport(svc, originalId, job, instanceId, probe);
      RestoredResourceTested(svc, topic, originalId, job, instanceId, ip.value);
      ProbeCalls(svc, 4, ip.value, instanceId);
      TestedNoStart(RestoredResourceCalls(svc, topic, originalId, job, service, instanceId),
        [CreateTags(instanceId, NameKey, RestoredInstanceName), DescribeInstances(instanceId)],
        probe.calls, Publish(topic, report.subject, report.message));
    } else {
      RestoredResourceUntested(svc, topic, originalId, job, service, instanceId);
    }
  }

  /** Tagging and describing, cleanup calls, then a report: no restore job among them. */
  lemma TestedNoStart(calls: seq<Action>, lookups: seq<Action>, probe: seq<Action>, report: Action)
    requires calls == lookups + (probe + [report])
    requires forall a :: a in lookups ==> a.CreateTags? || a.DescribeInstances?
    requires forall a :: a in probe ==> a.ConnectTcp? || IsCleanupAction(a)
    requires report.Publish?
    ensures forall a :: a in calls ==> !a.StartRestoreJob?
  {
  }

  /**
   * A backup notification about an EC2 resource whose three reads return
   * starts exactly one restore job, last, with the metadata rewritten.
   */
  lemma Ec2BackupStartsRestore(ev: Event, svc: Services, jobId: string, originalId: string)
    requires !Ignored(ev)
    requires ev.message.Some? && JobType(ev.message.value) == Some("Backup") && !ReportsFailure(ev.message.value)
    requires JobId(ev.message.value) == Some(jobId) && OriginalInstanceId(ev.message.value) == Some(originalId)
    requires var job := svc.backupJob(jobId);
      && job.resourceType == "EC2"
      && NoneRaise(svc, 0, [DescribeInstanceTags(originalId), DescribeBackupJob(jobId),
                            GetRecoveryPointRestoreMetadata(job.backupVaultName, job.recoveryPointArn)])
    ensures var job := svc.backupJob(jobId);
      Handle(ev, svc) == Run(Returned(None),
        [DescribeInstanceTags(originalId), DescribeBackupJob(jobId),
         GetRecoveryPointRestoreMetadata(job.backupVaultName, job.recoveryPointArn),
         StartRestoreJob(job.recoveryPointArn, job.iamRoleArn, Overridden(svc.restoreMetadata(job.backupVaultName, job.recoveryPointArn)))])
  {
    HandleBackup(ev, svc);
    Ec2BackupPlanIssued(svc, jobId, originalId);
  }

  /** A backup notification that does not report a failure takes the backup path. */
  lemma HandleBackup(ev: Event, svc: Services)
    requires !Ignored(ev)
    requires ev.message.Some? && JobType(ev.message.value) == Some("Backup") && !ReportsFailure(ev.message.value)
    ensures Handle(ev, svc) == Run(Returned(None), BackupCalls(svc, ev.message.value))
  {
  }

  /** For an EC2 resource whose three reads return, the whole backup plan is issued, the restore start last. */
  lemma Ec2BackupPlanIssued(svc: Services, jobId: string, originalId: string)
    requires var job := svc.backupJob(jobId);
      && job.resourceType == "EC2"
      && NoneRaise(svc, 0, [DescribeInstanceTags(originalId), DescribeBackupJob(jobId),
                            GetRecoveryPointRestoreMetadata(job.backupVaultName, job.recoveryPointArn)])
    ensures var job := svc.backupJob(jobId);
      RunAll(svc, 0, BackupPlan(svc, jobId, originalId)).calls ==
        [DescribeInstanceTags(originalId), DescribeBackupJob(jobId),
         GetRecoveryPointRestoreMetadata(job.backupVaultName, job.recoveryPointArn),
         StartRestoreJob(job.recoveryPointArn, job.iamRoleArn, Overridden(svc.restoreMetadata(job.backupVaultName, job.recoveryPointArn)))]
  {
    var plan := BackupPlan(svc, jobId, originalId);
    assert plan[..3] == [plan[0], plan[1], plan[2]];
    RunAllStep(svc, 0, plan, 3);
    assert plan[..4] == plan;
    if NoneRaise(svc, 0, plan) {
      RunAllNoneRaise(svc, 0, plan);
    }
  }

  // ---------------------------------------------------------------------
  // The connection test.
  // ---------------------------------------------------------------------

  /** The calls that belong to testing a restored instance: the probe, the cleanup apart from its lookup, the report. */
  predicate IsTestAction(a: Action) {
    a.ConnectTcp? || a.Publish? || (IsCleanupAction(a) && !a.DescribeInstances?)
  }

  /**
   * The test connects to the SSH port first, then makes only cleanup
   * calls, and terminates the instance only right after lifting its
   * protection.
   */
  lemma ProbeCalls(svc: Services, start: nat, ip: string, instanceId: string)
    ensures var calls := ConnectionTest(svc, start, ip, instanceId).calls;
      && |calls| >= 1 && calls[0] == ConnectTcp(ip, SshPort)
      && (forall a :: a in calls ==> a.ConnectTcp? || IsCleanupAction(a))
      && TerminateGuarded(calls)
  {
    var connect := ConnectTcp(ip, SshPort);
    if svc.raises(start, connect).None? {
      var cleanup := CleanupRun(svc, start + 1, instanceId);
      CleanupActionsOnly(svc, start + 1, instanceId);
      CleanupTerminateGuarded(svc, start + 1, instanceId);
      CleanupShape(svc, start + 1, instanceId);
      TerminateGuardedAppend([connect], cleanup.calls);
    }
  }

  /** An ERROR verdict comes with no Terminate: the exception struck before the termination was attempted. */
  lemma ErrorVerdictTerminatesNothing(svc: Services, start: nat, ip: string, instanceId: string)
    requires ConnectionTest(svc, start, ip, instanceId).verdict.TestError?
    ensures forall a :: a in ConnectionTest(svc, start, ip, instanceId).calls ==> !a.Terminate?
  {
    var connect := ConnectTcp(ip, SshPort);
    if svc.raises(start, connect).None? {
      var cleanup := CleanupRun(svc, start + 1, instanceId);
      ProbeCalls(svc, start, ip, instanceId);
      CleanupShape(svc, start + 1, instanceId);
      assert Terminate(instanceId) !in cleanup.calls;
      CleanupTerminateTarget(svc, start + 1, instanceId);
    }
  }

  /** The cleanup of an instance terminates no other instance. */
  lemma CleanupTerminateTarget(svc: Services, start: nat, instanceId: string)
    ensures forall a :: a in CleanupRun(svc, start, instanceId).calls && a.Terminate? ==> a == Terminate(instanceId)
  {
    var lookup := RunAll(svc, start, [DescribeInstances(instanceId)]);
    RunAllSingle(svc, start, DescribeInstances(instanceId));
    if lookup.status.Completed? {
      var vols := PreservedVolumes(svc.reservations(instanceId));
      var deletion := RunAll(svc, start + 1, DeletePlan(vols, instanceId));
      DeletePlanCalls(vols, instanceId, deletion.calls);
      if deletion.status.Completed? {
        var termination := RunAll(svc, start + 1 + |deletion.calls|, TerminatePlan(instanceId));
        RunAllIssuesFromPlan(svc, start + 1 + |deletion.calls|, TerminatePlan(instanceId));
        TerminateTargetIn(CleanupRun(svc, start, instanceId).calls, lookup.calls, deletion.calls, termination.calls, instanceId);
      } else {
        TerminateTargetIn(CleanupRun(svc, start, instanceId).calls, lookup.calls, deletion.calls, [], instanceId);
      }
    }
  }

  /** The lookup, the deletion and the termination of one instance name no other instance to terminate. */
  lemma TerminateTargetIn(calls: seq<Action>, lookup: seq<Action>, deletion: seq<Action>, termination: seq<Action>, instanceId: string)
    requires calls == lookup + deletion + termination
    requires lookup == [DescribeInstances(instanceId)]
    requires forall a :: a in deletion ==> !a.Terminate?
    requires forall a :: a in termination ==> a in TerminatePlan(instanceId)
    ensures forall a :: a in calls && a.Terminate? ==> a == Terminate(instanceId)
  {
  }

  /**
   * A SUCCEEDED or FAILED verdict comes after the whole cleanup: the probe
   * is followed by the lookup of the instance's volumes, every call of
   * `delete_volumes` for exactly its preserved volumes, and the attempt to
   * lift protection and terminate.
   */
  lemma ConnectionVerdictAfterCleanup(svc: Services, start: nat, ip: string, instanceId: string)
    ensures var probe := ConnectionTest(svc, start, ip, instanceId);
      var plan := DeletePlan(PreservedVolumes(svc.reservations(instanceId)), instanceId);
      !probe.verdict.TestError? ==>
        && (probe.verdict.Reachable? <==> svc.connectCode(ip) == 0)
        && 2 + |plan| < |probe.calls|
        && probe.calls[..2 + |plan|] == [ConnectTcp(ip, SshPort), DescribeInstances(instanceId)] + plan
        && probe.calls[2 + |plan|] == ClearTerminationProtection(instanceId)
  {
    if !ConnectionTest(svc, start, ip, instanceId).verdict.TestError? {
      ConnectionVerdict(svc, start, ip, instanceId);
      CompletedCleanup(svc, start + 1, instanceId);
      ConnectedCleanupLayout(ConnectionTest(svc, start, ip, instanceId).calls, ConnectTcp(ip, SshPort),
        CleanupRun(svc, start + 1, instanceId).calls, DescribeInstances(instanceId),
        DeletePlan(PreservedVolumes(svc.reservations(instanceId)), instanceId), ClearTerminationProtection(instanceId));
    }
  }

  /** A connection attempt followed by a cleanup that looks up, runs its plan and lifts protection. */
  lemma ConnectedCleanupLayout(calls: seq<Action>, connect: Action, cleanup: seq<Action>, describe: Action, plan: seq<Action>, clear: Action)
    requires calls == [connect] + cleanup
    requires 1 + |plan| < |cleanup| && cleanup[..1 + |plan|] == [describe] + plan && cleanup[1 + |plan|] == clear
    ensures 2 + |plan| < |calls| && calls[..2 + |plan|] == [connect, describe] + plan && calls[2 + |plan|] == clear
  {
    ConsSlice(connect, cleanup, 1 + |plan|);
    assert [connect] + ([describe] + plan) == [connect, describe] + plan;
  }

  /** The first calls of a run that starts with `x`, and the call after them. */
  lemma ConsSlice(x: Action, s: seq<Action>, k: nat)
    requires k < |s|
    ensures ([x] + s)[..k + 1] == [x] + s[..k] && ([x] + s)[k + 1] == s[k]
  {
  }

  /**
   * A verdict other than ERROR means the connection returned and the whole
   * cleanup completed; it is SUCCEEDED exactly when the connection's answer
   * was 0.
   */
  lemma ConnectionVerdict(svc: Services, start: nat, ip: string, instanceId: string)
    requires !ConnectionTest(svc, start, ip, instanceId).verdict.TestError?
    ensures svc.raises(start, ConnectTcp(ip, SshPort)).None?
    ensures CleanupRun(svc, start + 1, instanceId).status.Completed?
    ensures ConnectionTest(svc, start, ip, instanceId)
         == Probe(if svc.connectCode(ip) == 0 then Reachable else Unreachable,
                  [ConnectTcp(ip, SshPort)] + CleanupRun(svc, start + 1, instanceId).calls)
  {
  }

  // ---------------------------------------------------------------------
  // The restore path.
  // ---------------------------------------------------------------------

  /** The report the handler publishes for the connection test of `instanceId`. */
  function PublishedReport(svc: Services, originalId: string, job: RestoreJob, instanceId: string, probe: Probe): (report: Report)
    ensures IsRestoreTestSubject(report.subject)
    ensures SubjectVerdictWord(report.subject) == Some(VerdictWord(probe.verdict))
  {
    SubjectNamesVerdict(probe.verdict, NameTag(svc.tags(originalId)), originalId);
    ReportFor(probe.verdict, NameTag(svc.tags(originalId)), originalId, job.recoveryPointArn, instanceId, job.createdResourceArn)
  }

  /**
   * The calls from the tagging of the restored resource on, when the tag
   * and the instance lookup return, the resource is an EC2 instance and it
   * has a private address: tag, lookup, the test, the report.
   */
  lemma RestoredResourceTested(svc: Services, topic: string, originalId: string, job: RestoreJob, instanceId: string, ip: string)
    requires svc.raises(2, CreateTags(instanceId, NameKey, RestoredInstanceName)).None?
    requires ArnResourceType(job.createdResourceArn) == Some("instance")
    requires svc.raises(3, DescribeInstances(instanceId)).None?
    requires PrivateIp(svc.reservations(instanceId)) == Some(ip)
    ensures var probe := ConnectionTest(svc, 4, ip, instanceId);
      var report := PublishedReport(svc, originalId, job, instanceId, probe);
      RestoredResourceCalls(svc, topic, originalId, job, "ec2", instanceId)
        == [CreateTags(instanceId, NameKey, RestoredInstanceName), DescribeInstances(instanceId)]
           + (probe.calls + [Publish(topic, report.subject, report.message)])
  {
    RunAllSingle(svc, 2, CreateTags(instanceId, NameKey, RestoredInstanceName));
    RunAllSingle(svc, 3, DescribeInstances(instanceId));
  }

  /**
   * When the tag or the instance lookup raises, the resource is not an EC2
   * instance or it has no private address, nothing is tested or reported.
   */
  lemma RestoredResourceUntested(svc: Services, topic: string, originalId: string, job: RestoreJob, service: string, instanceId: string)
    requires !(&& svc.raises(2, CreateTags(instanceId, NameKey, RestoredInstanceName)).None?
               && service == "ec2" && ArnResourceType(job.createdResourceArn) == Some("instance")
               && svc.raises(3, DescribeInstances(instanceId)).None?
               && PrivateIp(svc.reservations(instanceId)).Some?)
    ensures var calls := RestoredResourceCalls(svc, topic, originalId, job, service, instanceId);
      calls == [CreateTags(instanceId, NameKey, RestoredInstanceName)]
      || calls == [CreateTags(instanceId, NameKey, RestoredInstanceName), DescribeInstances(instanceId)]
  {
    RunAllSingle(svc, 2, CreateTags(instanceId, NameKey, RestoredInstanceName));
    RunAllSingle(svc, 3, DescribeInstances(instanceId));
  }

  /** Where the restore path reaches the connection test: what it parsed and what it read on the way. */
  datatype TestSite = TestSite(topic: string, jobId: string, originalId: string, job: RestoreJob, instanceId: string, ip: string)

  /**
   * The restore path, once its fields parsed, reaches the connection test
   * exactly when the two lookups, the tagging and the instance description
   * all return, the restored resource is an EC2 instance, and the instance
   * has a private address.
   */
  function SiteOfJob(svc: Services, topic: string, jobId: string, originalId: string): Option<TestSite> {
    var job := svc.restoreJob(jobId);
    var arn := job.createdResourceArn;
    if svc.raises(0, DescribeInstanceTags(originalId)).Some? || svc.raises(1, DescribeRestoreJob(jobId)).Some? then None
    else if ArnService(arn) != Some("ec2") || ArnResourceType(arn) != Some("instance") || ArnResourceId(arn).None? then None
    else
      var instanceId := ArnResourceId(arn).value;
      if svc.raises(2, CreateTags(instanceId, NameKey, RestoredInstanceName)).Some? then None
      else if svc.raises(3, DescribeInstances(instanceId)).Some? then None
      else match PrivateIp(svc.reservations(instanceId))
        case None => None
        case Some(ip) => Some(TestSite(topic, jobId, originalId, job, instanceId, ip))
  }

  /**
   * An invocation reaches the connection test exactly when the notification
   * is a restore notification that is neither ignored nor failed, its job
   * id, topic and original instance id are present, and the restore path
   * gets that far.
   */
  function TestSiteOf(ev: Event, svc: Services): Option<TestSite> {
    if Ignored(ev) || ev.message.None? || ev.topicArn.None? then None
    else
      var m := ev.message.value;
      if JobType(m) != Some("Restore") || ReportsFailure(m) || JobId(m).None? || OriginalInstanceId(m).None? then None
      else SiteOfJob(svc, ev.topicArn.value, JobId(m).value, OriginalInstanceId(m).value)
  }

  /** The calls the restore path makes before the test: two lookups, the tag, the instance description. */
  function PreTestCalls(t: TestSite): seq<Action> {
    [DescribeInstanceTags(t.originalId), DescribeRestoreJob(t.jobId),
     CreateTags(t.instanceId, NameKey, RestoredInstanceName), DescribeInstances(t.instanceId)]
  }

  /** The whole run of an invocation that reaches the test: the calls before it, the test, the report. */
  function TestedCalls(svc: Services, t: TestSite): seq<Action> {
    var probe := ConnectionTest(svc, 4, t.ip, t.instanceId);
    var report := PublishedReport(svc, t.originalId, t.job, t.instanceId, probe);
    PreTestCalls(t) + probe.calls + [Publish(t.topic, report.subject, report.message)]
  }

  /** Two calls in a row both return exactly when the pair completes, and then both are issued. */
  lemma RunAllPair(svc: Services, start: nat, a: Action, b: Action)
    ensures RunAll(svc, start, [a, b]).status.Completed? <==> svc.raises(start, a).None? && svc.raises(start + 1, b).None?
    ensures RunAll(svc, start, [a, b]).status.Completed? ==> RunAll(svc, start, [a, b]).calls == [a, b]
  {
    assert [a, b][1..] == [b];
    RunAllSingle(svc, start + 1, b);
  }

  /** What a site records: every condition the restore path checks on the way to the test held. */
  lemma SiteFacts(svc: Services, topic: string, jobId: string, originalId: string, t: TestSite)
    requires SiteOfJob(svc, topic, jobId, originalId) == Some(t)
    ensures t.topic == topic && t.jobId == jobId && t.originalId == originalId && t.job == svc.restoreJob(jobId)
    ensures RunAll(svc, 0, [DescribeInstanceTags(originalId), DescribeRestoreJob(jobId)]).status.Completed?
    ensures ArnService(t.job.createdResourceArn) == Some("ec2") && ArnResourceId(t.job.createdResourceArn) == Some(t.instanceId)
    ensures ArnResourceType(t.job.createdResourceArn) == Some("instance")
    ensures svc.raises(2, CreateTags(t.instanceId, NameKey, RestoredInstanceName)).None?
    ensures svc.raises(3, DescribeInstances(t.instanceId)).None?
    ensures PrivateIp(svc.reservations(t.instanceId)) == Some(t.ip)
  {
    RunAllPair(svc, 0, DescribeInstanceTags(originalId), DescribeRestoreJob(jobId));
  }

  /** Once its lookups return and the created resource's ARN names a service and an id, the restore path goes on to the resource. */
  lemma RestoreJobReachesResource(svc: Services, topic: string, jobId: string, originalId: string, service: string, instanceId: string)
    requires RunAll(svc, 0, [DescribeInstanceTags(originalId), DescribeRestoreJob(jobId)]).status.Completed?
    requires ArnService(svc.restoreJob(jobId).createdResourceArn) == Some(service)
    requires ArnResourceId(svc.restoreJob(jobId).createdResourceArn) == Some(instanceId)
    ensures RestoreJobCalls(svc, topic, jobId, originalId) ==
      [DescribeInstanceTags(originalId), DescribeRestoreJob(jobId)] + RestoredResourceCalls(svc, topic, originalId, svc.restoreJob(jobId), service, instanceId)
  {
    RunAllPair(svc, 0, DescribeInstanceTags(originalId), DescribeRestoreJob(jobId));
  }

  /** Once its fields parsed, the restore path is the tested run at its site when it has one. */
  lemma RestoreJobTested(svc: Services, topic: string, jobId: string, originalId: string, t: TestSite)
    requires SiteOfJob(svc, topic, jobId, originalId) == Some(t)
    ensures RestoreJobCalls(svc, topic, jobId, originalId) == TestedCalls(svc, t)
  {
    SiteFacts(svc, topic, jobId, originalId, t);
    var pair := [DescribeInstanceTags(originalId), DescribeRestoreJob(jobId)];
    RestoreJobReachesResource(svc, topic, jobId, originalId, "ec2", t.instanceId);
    SiteResourceTested(svc, topic, jobId, originalId, t);
    var probe := ConnectionTest(svc, 4, t.ip, t.instanceId);
    var report := PublishedReport(svc, t.originalId, t.job, t.instanceId, probe);
    var two := [CreateTags(t.instanceId, NameKey, RestoredInstanceName), DescribeInstances(t.instanceId)];
    var tail := probe.calls + [Publish(topic, report.subject, report.message)];
    var calls := RestoreJobCalls(svc, topic, jobId, originalId);
    assert calls == pair + RestoredResourceCalls(svc, topic, originalId, t.job, "ec2", t.instanceId);
    assert calls == pair + (two + tail);
    assert pair + (two + tail) == (pair + two) + tail;
    assert PreTestCalls(t) == pair + two;
    assert TestedCalls(svc, t) == PreTestCalls(t) + tail;
  }

  /** At a site, the calls from the tagging on are the tag, the instance lookup, the test and the report. */
  lemma SiteResourceTested(svc: Services, topic: string, jobId: string, originalId: string, t: TestSite)
    requires SiteOfJob(svc, topic, jobId, originalId) == Some(t)
    ensures var probe := ConnectionTest(svc, 4, t.ip, t.instanceId);
      var report := PublishedReport(svc, t.originalId, t.job, t.instanceId, probe);
      RestoredResourceCalls(svc, topic, originalId, t.job, "ec2", t.instanceId)
        == [CreateTags(t.instanceId, NameKey, RestoredInstanceName), DescribeInstances(t.instanceId)]
           + (probe.calls + [Publish(topic, report.subject, report.message)])
  {
    SiteFacts(svc, topic, jobId, originalId, t);
    RestoredResourceTested(svc, topic, originalId, t.job, t.instanceId, t.ip);
  }

  /** Once its fields parsed, the restore path without a site makes no call of the test. */
  lemma RestoreJobUntested(svc: Services, topic: string, jobId: string, originalId: string)
    requires SiteOfJob(svc, topic, jobId, originalId).None?
    ensures forall a :: a in RestoreJobCalls(svc, topic, jobId, originalId) ==> !IsTestAction(a)
  {
    var pair := [DescribeInstanceTags(originalId), DescribeRestoreJob(jobId)];
    RunAllPair(svc, 0, pair[0], pair[1]);
    RunAllIssuesFromPlan(svc, 0, pair);
    if RunAll(svc, 0, pair).status.Completed? {
      var job := svc.restoreJob(jobId);
      match (ArnService(job.createdResourceArn), ArnResourceId(job.createdResourceArn))
      case (Some(service), Some(instanceId)) =>
        RestoredResourceUntested(svc, topic, originalId, job, service, instanceId);
        assert RestoreJobCalls(svc, topic, jobId, originalId) == pair + RestoredResourceCalls(svc, topic, originalId, job, service, instanceId);
        UntestedNoTest(RestoreJobCalls(svc, topic, jobId, originalId), pair,
          RestoredResourceCalls(svc, topic, originalId, job, service, instanceId), instanceId);
      case _ =>
    }
  }

  /** The two lookups and the tagging, possibly with the instance description, include no call of the test. */
  lemma UntestedNoTest(calls: seq<Action>, lookups: seq<Action>, rest: seq<Action>, instanceId: string)
    requires calls == lookups + rest
    requires forall a :: a in lookups ==> a.DescribeInstanceTags? || a.DescribeRestoreJob?
    requires rest == [CreateTags(instanceId, NameKey, RestoredInstanceName)]
          || rest == [CreateTags(instanceId, NameKey, RestoredInstanceName), DescribeInstances(instanceId)]
    ensures forall a :: a in calls ==> !IsTestAction(a)
  {
  }

  /** A restore notification that is neither ignored nor failed takes the restore path. */
  lemma HandleRestore(ev: Event, svc: Services)
    requires !Ignored(ev)
    requires ev.message.Some? && JobType(ev.message.value) == Some("Restore") && !ReportsFailure(ev.message.value)
    ensures Handle(ev, svc) == Run(Returned(None), RestoreCalls(svc, ev.topicArn, ev.message.value))
  {
  }

  /** No call of the backup plan belongs to the test. */
  lemma BackupPlanNeverTests(svc: Services, jobId: string, originalId: string)
    ensures forall a :: a in BackupPlan(svc, jobId, originalId) ==> !IsTestAction(a)
  {
    var plan := BackupPlan(svc, jobId, originalId);
    forall a | a in plan ensures !IsTestAction(a) {
      var k :| 0 <= k < |plan| && plan[k] == a;
      assert a.DescribeInstanceTags? || a.DescribeBackupJob? || a.GetRecoveryPointRestoreMetadata? || a.StartRestoreJob?;
    }
  }

  /** The backup path makes no call of the test. */
  lemma BackupPathNeverTests(svc: Services, message: string)
    ensures forall a :: a in BackupCalls(svc, message) ==> !IsTestAction(a)
  {
    match (JobId(message), OriginalInstanceId(message))
    case (Some(jobId), Some(originalId)) =>
      RunAllIssuesFromPlan(svc, 0, BackupPlan(svc, jobId, originalId));
      BackupPlanNeverTests(svc, jobId, originalId);
    case _ =>
  }

  /**
   * Every invocation either reaches the connection test, and then its run
   * is the calls before the test, the test and one report, or it makes no
   * call of the test at all.
   */
  lemma HandleShape(ev: Event, svc: Services)
    ensures TestSiteOf(ev, svc).Some? ==> Handle(ev, svc) == Run(Returned(None), TestedCalls(svc, TestSiteOf(ev, svc).value))
    ensures TestSiteOf(ev, svc).None? ==> forall a :: a in Handle(ev, svc).calls ==> !IsTestAction(a)
  {
    if !Ignored(ev) && ev.message.Some? && JobType(ev.message.value).Some? && !ReportsFailure(ev.message.value) {
      var m := ev.message.value;
      if JobType(m) == Some("Restore") {
        HandleRestore(ev, svc);
        if ev.topicArn.Some? && JobId(m).Some? && OriginalInstanceId(m).Some? {
          var topic, jobId, originalId := ev.topicArn.value, JobId(m).value, OriginalInstanceId(m).value;
          if SiteOfJob(svc, topic, jobId, originalId).Some? {
            RestoreJobTested(svc, topic, jobId, originalId, SiteOfJob(svc, topic, jobId, originalId).value);
          } else {
            RestoreJobUntested(svc, topic, jobId, originalId);
          }
        }
      } else if JobType(m) == Some("Backup") {
        HandleBackup(ev, svc);
        BackupPathNeverTests(svc, m);
      }
    }
  }
  // ---------------------------------------------------------------------
  // What an invocation does, end to end.
  // ---------------------------------------------------------------------

  /** A publication appended to calls that publish nothing is the only publication, and the last call. */
  lemma PublishOnlyLast(calls: seq<Action>, publish: Action)
    requires publish.Publish?
    requires forall a :: a in calls ==> !a.Publish?
    ensures var run := calls + [publish];
      run[|run| - 1] == publish && forall i :: 0 <= i < |run| - 1 ==> !run[i].Publish?
  {
    var run := calls + [publish];
    forall i | 0 <= i < |run| - 1 ensures !run[i].Publish? {
      assert run[i] == calls[i];
      assert calls[i] in calls;
    }
  }

  /**
   * A tested run makes its four calls before the test, connects to the
   * SSH port, and publishes its report as its last call and only there.
   */
  lemma TestedPublishesLast(svc: Services, t: TestSite)
    ensures var calls := TestedCalls(svc, t);
      var probe := ConnectionTest(svc, 4, t.ip, t.instanceId);
      var report := PublishedReport(svc, t.originalId, t.job, t.instanceId, probe);
      && 6 <= |calls|
      && calls[..4] == PreTestCalls(t)
      && calls[4] == ConnectTcp(t.ip, SshPort)
      && calls[|calls| - 1] == Publish(t.topic, report.subject, report.message)
      && (forall i :: 0 <= i < |calls| - 1 ==> !calls[i].Publish?)
  {
    var probe := ConnectionTest(svc, 4, t.ip, t.instanceId);
    var report := PublishedReport(svc, t.originalId, t.job, t.instanceId, probe);
    var publish := Publish(t.topic, report.subject, report.message);
    var before := PreTestCalls(t) + probe.calls;
    assert TestedCalls(svc, t) == before + [publish];
    ProbeStartsTest(svc, t);
    PublishOnlyLast(before, publish);
  }

  /** Before its report, a tested run makes its four calls, connects to the SSH port, and publishes nothing. */
  lemma ProbeStartsTest(svc: Services, t: TestSite)
    ensures var before := PreTestCalls(t) + ConnectionTest(svc, 4, t.ip, t.instanceId).calls;
      && 5 <= |before| && before[..4] == PreTestCalls(t) && before[4] == ConnectTcp(t.ip, SshPort)
      && forall a :: a in before ==> !a.Publish?
  {
    var probe := ConnectionTest(svc, 4, t.ip, t.instanceId);
    var before := PreTestCalls(t) + probe.calls;
    ProbeCalls(svc, 4, t.ip, t.instanceId);
    assert before[..4] == PreTestCalls(t);
    assert before[4] == probe.calls[0];
    forall a | a in before ensures !a.Publish? {
      if a !in PreTestCalls(t) {
        assert a in probe.calls;
      }
    }
  }

  /** In a tested run every termination comes right after lifting the protection of the same instance. */
  lemma TestedTerminateGuarded(svc: Services, t: TestSite)
    ensures TerminateGuarded(TestedCalls(svc, t))
  {
    var probe := ConnectionTest(svc, 4, t.ip, t.instanceId);
    var report := PublishedReport(svc, t.originalId, t.job, t.instanceId, probe);
    var publish := [Publish(t.topic, report.subject, report.message)];
    ProbeCalls(svc, 4, t.ip, t.instanceId);
    NoTerminateGuarded(PreTestCalls(t));
    NoTerminateGuarded(publish);
    TerminateGuardedAppend(PreTestCalls(t), probe.calls);
    TerminateGuardedAppend(PreTestCalls(t) + probe.calls, publish);
  }

  /**
   * Whatever the notification and whatever the services answer, the
   * handler terminates an instance only right after lifting that
   * instance's termination protection.
   */
  lemma TerminateAlwaysGuarded(ev: Event, svc: Services)
    ensures TerminateGuarded(Handle(ev, svc).calls)
  {
    HandleShape(ev, svc);
    match TestSiteOf(ev, svc)
    case Some(t) => TestedTerminateGuarded(svc, t);
    case None => NoTerminateGuarded(Handle(ev, svc).calls);
  }

  /**
   * The handler publishes a report exactly when it reaches the connection
   * test; the report is then its last call and its only publication, it
   * goes to the notification's topic, and its subject carries the marker.
   */
  lemma ReportPublishedIffTested(ev: Event, svc: Services)
    ensures var calls := Handle(ev, svc).calls;
      (exists i :: 0 <= i < |calls| && calls[i].Publish?) <==> TestSiteOf(ev, svc).Some?
    ensures var calls := Handle(ev, svc).calls;
      TestSiteOf(ev, svc).Some? ==>
        && 0 < |calls| && calls[|calls| - 1].Publish?
        && ev.topicArn == Some(calls[|calls| - 1].topicArn)
        && IsRestoreTestSubject(calls[|calls| - 1].subject)
        && (forall i :: 0 <= i < |calls| - 1 ==> !calls[i].Publish?)
  {
    var calls := Handle(ev, svc).calls;
    HandleShape(ev, svc);
    match TestSiteOf(ev, svc)
    case Some(t) =>
      TestedPublishesLast(svc, t);
      assert calls[|calls| - 1].Publish?;
    case None =>
      forall i | 0 <= i < |calls| ensures !calls[i].Publish? {
        assert calls[i] in calls;
      }
  }

  /** A restore job whose created resource is not in the ec2 service is neither tested, cleaned up nor reported. */
  lemma NonEc2PublishesNothing(ev: Event, svc: Services)
    requires ev.message.Some? && JobId(ev.message.value).Some?
    requires ArnService(svc.restoreJob(JobId(ev.message.value).value).createdResourceArn) != Some("ec2")
    ensures forall a :: a in Handle(ev, svc).calls ==> !a.Publish? && !a.ConnectTcp? && !a.Terminate? && !a.DeleteVolume?
  {
    HandleShape(ev, svc);
  }

  /** The report of a tested run names the test's verdict, and the run terminates only what its test terminates. */
  lemma TestedReportNamesVerdict(svc: Services, t: TestSite)
    ensures var calls := TestedCalls(svc, t);
      var probe := ConnectionTest(svc, 4, t.ip, t.instanceId);
      && 0 < |calls| && calls[|calls| - 1].Publish?
      && SubjectVerdictWord(calls[|calls| - 1].subject) == Some(VerdictWord(probe.verdict))
      && forall a :: a in calls && a.Terminate? ==> a in probe.calls
  {
    TestedPublishesLast(svc, t);
  }

  /**
   * When the published report is an ERROR report, that is when the
   * connection or the cleanup raised, the handler terminated nothing.
   */
  lemma ErrorReportTerminatesNothing(ev: Event, svc: Services)
    requires var calls := Handle(ev, svc).calls;
      0 < |calls| && calls[|calls| - 1].Publish? && SubjectVerdictWord(calls[|calls| - 1].subject) == Some("ERROR")
    ensures forall a :: a in Handle(ev, svc).calls ==> !a.Terminate?
  {
    ReportPublishedIffTested(ev, svc);
    HandleShape(ev, svc);
    var t := TestSiteOf(ev, svc).value;
    TestedReportNamesVerdict(svc, t);
    ErrorVerdictTerminatesNothing(svc, 4, t.ip, t.instanceId);
  }

  /**
   * When the test reaches a verdict, the run holds the connection to the
   * SSH port, then the instance lookup, the volume deletion and the
   * protection lift of the cleanup, all before the report; the report
   * says SUCCEEDED exactly when the connection answered 0.
   */
  lemma VerdictReportAfterCleanup(ev: Event, svc: Services)
    requires TestSiteOf(ev, svc).Some?
    ensures var calls := Handle(ev, svc).calls;
      var t := TestSiteOf(ev, svc).value;
      var plan := DeletePlan(PreservedVolumes(svc.reservations(t.instanceId)), t.instanceId);
      && 0 < |calls| && calls[|calls| - 1].Publish?
      && (SubjectVerdictWord(calls[|calls| - 1].subject) != Some("ERROR") ==>
            && 7 + |plan| < |calls|
            && calls[4..6 + |plan|] == [ConnectTcp(t.ip, SshPort), DescribeInstances(t.instanceId)] + plan
            && calls[6 + |plan|] == ClearTerminationProtection(t.instanceId)
            && (SubjectVerdictWord(calls[|calls| - 1].subject) == Some("SUCCEEDED") <==> svc.connectCode(t.ip) == 0))
  {
    HandleShape(ev, svc);
    TestedVerdictReport(svc, TestSiteOf(ev, svc).value);
  }

  /** `VerdictReportAfterCleanup` for the tested run at a site. */
  lemma TestedVerdictReport(svc: Services, t: TestSite)
    ensures var calls := TestedCalls(svc, t);
      var plan := DeletePlan(PreservedVolumes(svc.reservations(t.instanceId)), t.instanceId);
      && 0 < |calls| && calls[|calls| - 1].Publish?
      && (SubjectVerdictWord(calls[|calls| - 1].subject) != Some("ERROR") ==>
            && 7 + |plan| < |calls|
            && calls[4..6 + |plan|] == [ConnectTcp(t.ip, SshPort), DescribeInstances(t.instanceId)] + plan
            && calls[6 + |plan|] == ClearTerminationProtection(t.instanceId)
            && (SubjectVerdictWord(calls[|calls| - 1].subject) == Some("SUCCEEDED") <==> svc.connectCode(t.ip) == 0))
  {
    var probe := ConnectionTest(svc, 4, t.ip, t.instanceId);
    var report := PublishedReport(svc, t.originalId, t.job, t.instanceId, probe);
    ConnectionVerdictAfterCleanup(svc, 4, t.ip, t.instanceId);
    RunVerdictLayout(TestedCalls(svc, t), t, probe, report,
      DeletePlan(PreservedVolumes(svc.reservations(t.instanceId)), t.instanceId), svc.connectCode(t.ip));
  }

  /**
   * A run made of the four calls before the test, the test and its report,
   * where the report names the test's verdict, and a test that reached a
   * verdict connected, looked up, ran `plan` and lifted protection: a
   * non-ERROR report comes after all of those, and says SUCCEEDED exactly
   * when the connection answered 0.
   */
  lemma RunVerdictLayout(run: seq<Action>, t: TestSite, probe: Probe, report: Report, plan: seq<Action>, code: int)
    requires run == PreTestCalls(t) + probe.calls + [Publish(t.topic, report.subject, report.message)]
    requires SubjectVerdictWord(report.subject) == Some(VerdictWord(probe.verdict))
    requires !probe.verdict.TestError? ==>
      && (probe.verdict.Reachable? <==> code == 0)
      && 2 + |plan| < |probe.calls|
      && probe.calls[..2 + |plan|] == [ConnectTcp(t.ip, SshPort), DescribeInstances(t.instanceId)] + plan
      && probe.calls[2 + |plan|] == ClearTerminationProtection(t.instanceId)
    ensures 0 < |run| && run[|run| - 1].Publish?
    ensures SubjectVerdictWord(run[|run| - 1].subject) != Some("ERROR") ==>
      && 7 + |plan| < |run|
      && run[4..6 + |plan|] == [ConnectTcp(t.ip, SshPort), DescribeInstances(t.instanceId)] + plan
      && run[6 + |plan|] == ClearTerminationProtection(t.instanceId)
      && (SubjectVerdictWord(run[|run| - 1].subject) == Some("SUCCEEDED") <==> code == 0)
  {
    assert run[|run| - 1] == Publish(t.topic, report.subject, report.message);
    if !probe.verdict.TestError? {
      var k := 2 + |plan|;
      forall j | 0 <= j <= k ensures run[4 + j] == probe.calls[j] { }
      assert run[4..4 + k] == probe.calls[..k];
    }
  }

  /**
   * Every report the handler publishes comes back as a notification the
   * handler ignores, whatever the services then answer: the handler does
   * not react to its own reports.
   */
  lemma OwnReportsComeBackIgnored(ev: Event, svc: Services, later: Services)
    ensures var calls := Handle(ev, svc).calls;
      forall i :: 0 <= i < |calls| && calls[i].Publish? ==>
        Handle(Event(Some(calls[i].subject), Some(calls[i].message), Some(calls[i].topicArn)), later) == Run(Returned(None), [])
  {
    var calls := Handle(ev, svc).calls;
    ReportPublishedIffTested(ev, svc);
    forall i | 0 <= i < |calls| && calls[i].Publish?
      ensures Handle(Event(Some(calls[i].subject), Some(calls[i].message), Some(calls[i].topicArn)), later) == Run(Returned(None), [])
    {
      assert i == |calls| - 1;
      IgnoredNotification(Event(Some(calls[i].subject), Some(calls[i].message), Some(calls[i].topicArn)), later);
    }
  }
}
