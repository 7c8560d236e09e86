# AWS Backup restore test, modelled in Dafny

This project models the decision core of the `AWSBackupRestoreTest` Lambda
function. The function listens to AWS Backup notifications delivered over
SNS and SQS, and behaves as follows:

- **Its own notifications.** It ignores the notifications it published
  itself, recognised by the marker "AWS Backup Restore Test" in the
  subject.
- **A failed job.** It answers with `"Job ID:"` and the job id.
- **A completed backup of an EC2 instance.** It reads the recovery point's
  restore metadata, pins five keys to the values of the test environment,
  and starts a restore job.
- **A completed restore.** It names the restored instance
  `RestoreTestInstance` and probes its SSH port. When the probe returns an
  answer, open or not, it then cleans the instance up:
  - it looks up the volumes that outlive termination;
  - it detaches them, waits for them and deletes them;
  - it lifts termination protection and terminates the instance.

  Finally it publishes a report to the topic the notification came from:
  - SUCCEEDED or FAILED after a completed cleanup;
  - ERROR when the probe itself raised, in which case nothing was cleaned
    up, or when a cleanup call raised, in which case the cleanup stopped
    there. Either way no instance was terminated.

Every boto3, socket and SNS call is an `Action`. What a call answers, and
whether it raises, comes from a `Services` oracle that is fixed for one
invocation. The oracle decides whether a call raises from its call number
and the call itself. Since the handler is deterministic, the call number
fixes everything that happened before it.

One invocation is a `Run`: how the handler ended (it returned a value, or
an exception escaped it) and the calls it made, in order. Each piece of the
handler is modelled twice:

- a specification function that gives the calls it makes;
- a method that makes them step by step, the way the Python code does, and
  is proved equal to that function.

The properties are lemmas about the specification functions.

Modules, one per file:

- `PyStr` (`pystr.dfy`): Python's `str.split` on one character, negative
  indexing, `in`, and `strip` with Python's whitespace set.
- `NotificationParser` (`parser.dfy`): the subject marker, the "failed"
  check, and reading the job type, the job id, the original instance id and
  the fields of an ARN. It also states what these read back from a
  well-formed notification.
- `RestoreMetadata` (`restore_metadata.dfy`): the rewrite of the restore
  metadata before an EC2 restore.
- `Cloud` (`cloud.dfy`): actions, the oracle, and `RunAll`, which issues
  straight-line calls until the first exception.
- `ResourceInspector` (`inspector.dfy`): `get_instanceName` and
  `get_volume_id`.
- `CleanupExecutor` (`cleanup.dfy`): `delete_volumes`, `terminate_instance`,
  and the cleanup sequence of the connection test.
- `RestoreReport` (`report.dfy`): the subject and message of the three
  reports.
- `LambdaHandler` (`handler.dfy`): `lambda_handler` as specification
  functions and as methods.
- `HandlerProperties` (`handler_properties.dfy`): what the handler promises,
  stated over whole invocations.

Four behaviours of the code are easy to misread:

- **The job type is read before the "failed" check** (line 109, outside any
  try). A message whose last sentence has fewer than two tokens therefore
  lets the exception escape, even when it reports a failure.
- **A failing cleanup call is not swallowed.** Only an exception from
  `terminate_instance` is swallowed. An exception from `get_volume_id` or
  `delete_volumes` reaches the inner `except` and produces the ERROR
  report.
- **Termination protection is always cleared.** The code lifts it
  before every termination, without first reading whether it is set.
- **An EC2 resource that is not an instance is not reported.** Its subject
  is never bound, so the publish raises, the outer `except` swallows the
  exception, and nothing is published.

## Model

| member | source | states |
|---|---|---|
| PyStr.Split | AWSBackupRestoreTest-LambdaFunction.py:109 | `str.split` on one character gives at least one field, and no field contains the separator |
| PyStr.JoinSplit | AWSBackupRestoreTest-LambdaFunction.py:109 | joining the fields of a split with the separator gives the string back |
| PyStr.SplitUnique | AWSBackupRestoreTest-LambdaFunction.py:109 | any separator-free fields that join to a string are exactly its split, so the split is determined by the string |
| PyStr.SplitAppend | AWSBackupRestoreTest-LambdaFunction.py:109 | splitting `a + sep + b` gives the fields of `a` followed by those of `b` |
| PyStr.SplitCons | AWSBackupRestoreTest-LambdaFunction.py:109 | a separator-free head becomes the first field, followed by the split of the rest |
| PyStr.SplitWithoutSep | AWSBackupRestoreTest-LambdaFunction.py:109 | a string without the separator splits into itself alone |
| PyStr.At | AWSBackupRestoreTest-LambdaFunction.py:109 | Python indexing yields a value exactly when the index lies in `-len .. len-1`, otherwise it is the IndexError path; a non-negative index gives the element at that position, a negative one the element that far from the end |
| PyStr.ContainsIffOccurs | AWSBackupRestoreTest-LambdaFunction.py:101 | the `in` test holds exactly when the substring occurs at some position |
| PyStr.ContainsInfix | AWSBackupRestoreTest-LambdaFunction.py:101 | a string built around a substring contains it |
| PyStr.LStrip | AWSBackupRestoreTest-LambdaFunction.py:114 | the result is a suffix, what it drops is whitespace, and it does not start with whitespace |
| PyStr.RStrip | AWSBackupRestoreTest-LambdaFunction.py:114 | the result is a prefix, what it drops is whitespace, and it does not end with whitespace |
| PyStr.Strip | AWSBackupRestoreTest-LambdaFunction.py:114 | the result is no longer than the input and neither starts nor ends with whitespace |
| PyStr.StripPadding | AWSBackupRestoreTest-LambdaFunction.py:114 | stripping whitespace padding off a trimmed string gives that string back |
| PyStr.LStripSpaces | AWSBackupRestoreTest-LambdaFunction.py:114 | leading whitespace before a string that starts with a non-space is removed exactly |
| PyStr.RStripSpaces | AWSBackupRestoreTest-LambdaFunction.py:114 | trailing whitespace after a string that ends with a non-space is removed exactly |
| PyStr.StripIdempotent | AWSBackupRestoreTest-LambdaFunction.py:114 | stripping twice is stripping once |
| NotificationParser.ParseJobNotification | AWSBackupRestoreTest-LambdaFunction.py:109-124 | from a well-formed job notification the parser reads back the job type, the job id and the original instance id it was built from |
| NotificationParser.NotificationSentences | AWSBackupRestoreTest-LambdaFunction.py:109 | the last '.'-sentence is the job sentence, and the second-to-last is the resource sentence |
| NotificationParser.JobTypeToken | AWSBackupRestoreTest-LambdaFunction.py:109 | the second ' '-token of the job sentence is the job type |
| NotificationParser.JobIdField | AWSBackupRestoreTest-LambdaFunction.py:121 | the second ':'-field of the job sentence is the job id with its leading blank |
| NotificationParser.JobIdPadding | AWSBackupRestoreTest-LambdaFunction.py:121 | stripping that field gives the job id |
| NotificationParser.StripTrimmed | AWSBackupRestoreTest-LambdaFunction.py:121 | stripping an already trimmed id leaves it unchanged |
| NotificationParser.ResourceSentenceFields | AWSBackupRestoreTest-LambdaFunction.py:124 | the seventh ':'-field of the resource sentence is `instance/<id>` |
| NotificationParser.InstanceArnFields | AWSBackupRestoreTest-LambdaFunction.py:186-210 | an instance ARN reads back as service "ec2", sub-type "instance" and the instance id |
| NotificationParser.InstanceArnSplit | AWSBackupRestoreTest-LambdaFunction.py:186-187 | an instance ARN splits at ':' into its six fields |
| NotificationParser.ArnFields | AWSBackupRestoreTest-LambdaFunction.py:124 | an instance ARN after a ':'-free prefix splits into the same six fields, the first glued to the prefix |
| NotificationParser.ResourceFields | AWSBackupRestoreTest-LambdaFunction.py:187 | `instance/<id>` splits at '/' into the sub-type and the id |
| NotificationParser.SentencesWithoutDot | AWSBackupRestoreTest-LambdaFunction.py:109-124 | the resource and job sentences built from dot-free parts contain no '.' |
| RestoreMetadata.Overridden | AWSBackupRestoreTest-LambdaFunction.py:150-156 | the rewritten map has the old keys plus the five pinned ones, each pinned key has its fixed value, and every other key keeps its value |
| RestoreMetadata.PinnedKeys | AWSBackupRestoreTest-LambdaFunction.py:150-156 | exactly CpuOptions, NetworkInterfaces, Placement, SubnetId and SecurityGroupIds are pinned |
| RestoreMetadata.OverriddenIdempotent | AWSBackupRestoreTest-LambdaFunction.py:150-156 | rewriting already rewritten metadata changes nothing |
| RestoreMetadata.OverriddenForgetsPinned | AWSBackupRestoreTest-LambdaFunction.py:150-156 | two maps that agree outside the pinned keys are rewritten to the same map |
| RestoreMetadata.OverrideRestoreMetadata | AWSBackupRestoreTest-LambdaFunction.py:150-156 | the five in-place assignments produce the rewritten map |
| Cloud.RunAll | AWSBackupRestoreTest-LambdaFunction.py:132-164 | the calls issued are a prefix of the plan; the whole plan is issued when the run completes; a failed run ends with the call that raised, carrying its message |
| Cloud.RunAllCompletes | AWSBackupRestoreTest-LambdaFunction.py:132-164 | a sequence of calls completes exactly when none of them raises |
| Cloud.RunAllStopsAt | AWSBackupRestoreTest-LambdaFunction.py:132-164 | the first call that raises is the last one issued, and its exception ends the sequence |
| Cloud.RunAllStep | AWSBackupRestoreTest-LambdaFunction.py:132-164 | after calls that all returned, the next call either returns too or ends the run with its exception |
| Cloud.NoneRaiseCons | AWSBackupRestoreTest-LambdaFunction.py:132-164 | no call raises exactly when the first returns and no later call raises |
| Cloud.RunAllNoneRaise | AWSBackupRestoreTest-LambdaFunction.py:132-164 | a plan none of whose calls raises is issued in full |
| Cloud.RunAllIssuesFromPlan | AWSBackupRestoreTest-LambdaFunction.py:132-164 | every call issued is a call of the plan |
| Cloud.RunAllSingle | AWSBackupRestoreTest-LambdaFunction.py:194-204 | a single call is issued, and fails exactly when it raises |
| ResourceInspector.NameTagIsLastName | AWSBackupRestoreTest-LambdaFunction.py:74-79 | the instance name is the value of the last Name tag |
| ResourceInspector.NameTagWithoutName | AWSBackupRestoreTest-LambdaFunction.py:74-79 | without a Name tag the instance name is empty |
| ResourceInspector.NameTagAppend | AWSBackupRestoreTest-LambdaFunction.py:75-77 | a later Name tag overrides every earlier one |
| ResourceInspector.HasNameTagInit | AWSBackupRestoreTest-LambdaFunction.py:75-77 | a last tag other than Name adds no Name tag |
| ResourceInspector.NameTagStep | AWSBackupRestoreTest-LambdaFunction.py:75-77 | one more tag replaces the name when it is a Name tag and keeps it otherwise |
| ResourceInspector.InstanceName | AWSBackupRestoreTest-LambdaFunction.py:74-79 | the loop over the tags returns the name of the last Name tag |
| ResourceInspector.GetInstanceName | AWSBackupRestoreTest-LambdaFunction.py:71-79 | reading the tags is one call that may raise; when it returns, the result is the instance name |
| ResourceInspector.KeptVolumes | AWSBackupRestoreTest-LambdaFunction.py:25-27 | no more volumes are kept than there are mappings |
| ResourceInspector.KeptVolumesMembers | AWSBackupRestoreTest-LambdaFunction.py:25-27 | a volume is kept exactly when some mapping holds it with DeleteOnTermination false |
| ResourceInspector.KeptVolumesAppend | AWSBackupRestoreTest-LambdaFunction.py:23-27 | keeping volumes distributes over concatenation, so the kept volumes stay in mapping order |
| ResourceInspector.KeptVolumesStep | AWSBackupRestoreTest-LambdaFunction.py:26-27 | one more mapping adds its volume exactly when it survives termination |
| ResourceInspector.InstanceDevicesStep | AWSBackupRestoreTest-LambdaFunction.py:24-25 | the mappings of one more instance follow those before it |
| ResourceInspector.AllDevicesStep | AWSBackupRestoreTest-LambdaFunction.py:23-24 | the mappings of one more reservation follow those before it |
| ResourceInspector.PreservedVolumes | AWSBackupRestoreTest-LambdaFunction.py:15-28 | `get_volume_id` returns at most one volume per mapping |
| ResourceInspector.CollectPreserved | AWSBackupRestoreTest-LambdaFunction.py:22-28 | the triple loop collects the preserved volumes in reservation, instance and mapping order |
| ResourceInspector.AppendInstances | AWSBackupRestoreTest-LambdaFunction.py:24-27 | the loop over one reservation's instances appends their kept volumes in order |
| ResourceInspector.AppendKept | AWSBackupRestoreTest-LambdaFunction.py:25-27 | the loop over one instance's mappings appends its kept volumes in order |
| ResourceInspector.GetVolumeId | AWSBackupRestoreTest-LambdaFunction.py:15-28 | describing the instance is one call that may raise; when it returns, the result is the preserved volumes |
| ResourceInspector.PrivateIp | AWSBackupRestoreTest-LambdaFunction.py:221 | the address read is exactly the private address of the first instance of the first reservation whenever both exist, and there is none otherwise |
| CleanupExecutor.Detaches | AWSBackupRestoreTest-LambdaFunction.py:34-39 | one detach per volume |
| CleanupExecutor.DetachesAt | AWSBackupRestoreTest-LambdaFunction.py:34-39 | the k-th detach is the forced detach of the k-th volume from the instance |
| CleanupExecutor.Deletes | AWSBackupRestoreTest-LambdaFunction.py:44-48 | one delete per volume |
| CleanupExecutor.DeletesAt | AWSBackupRestoreTest-LambdaFunction.py:44-48 | the k-th delete deletes the k-th volume |
| CleanupExecutor.DeletePlanLayout | AWSBackupRestoreTest-LambdaFunction.py:32-48 | for a non-empty list: one forced detach per volume, then one wait on the whole list, then one delete per volume, in list order |
| CleanupExecutor.DeletePlanLength | AWSBackupRestoreTest-LambdaFunction.py:32-48 | a non-empty list gives twice its length plus one calls |
| CleanupExecutor.DetachAt | AWSBackupRestoreTest-LambdaFunction.py:34-39 | call i of the plan detaches volume i |
| CleanupExecutor.WaitAt | AWSBackupRestoreTest-LambdaFunction.py:41-43 | the wait on the whole list follows the detaches |
| CleanupExecutor.DeleteAt | AWSBackupRestoreTest-LambdaFunction.py:44-48 | the deletes follow the wait, volume by volume |
| CleanupExecutor.DeletePlanOrder | AWSBackupRestoreTest-LambdaFunction.py:32-48 | no delete precedes any detach or the wait, and every deleted volume was detached from the instance before |
| CleanupExecutor.DeleteNothing | AWSBackupRestoreTest-LambdaFunction.py:33-51 | an empty list issues no call |
| CleanupExecutor.Issue | AWSBackupRestoreTest-LambdaFunction.py:35-48 | issuing the next call appends it to the calls made so far, which stay the plan's prefix; the call either returns or its exception ends the plan's run |
| CleanupExecutor.DeleteVolumes | AWSBackupRestoreTest-LambdaFunction.py:32-51 | `delete_volumes` issues the delete plan until the first exception |
| CleanupExecutor.DetachAll | AWSBackupRestoreTest-LambdaFunction.py:34-39 | the detach loop issues every detach, or ends the plan's run at the first that raises |
| CleanupExecutor.DeleteAll | AWSBackupRestoreTest-LambdaFunction.py:44-48 | after the detaches and the wait returned, the delete loop finishes the plan's run |
| CleanupExecutor.TerminateInstance | AWSBackupRestoreTest-LambdaFunction.py:55-67 | `terminate_instance` lifts protection and then terminates, stopping at an exception, which it swallows |
| CleanupExecutor.TerminateAfterProtectionLifted | AWSBackupRestoreTest-LambdaFunction.py:55-67 | protection is lifted first, and the instance is terminated exactly when lifting it returned |
| CleanupExecutor.CleanupShape | AWSBackupRestoreTest-LambdaFunction.py:241-243 | the cleanup describes the instance first; it completes exactly when the lookup and the deletion do; a completed cleanup begins with the lookup and the whole delete plan for the preserved volumes; a failed one terminates nothing |
| CleanupExecutor.CompletedCleanup | AWSBackupRestoreTest-LambdaFunction.py:241-243 | a completed cleanup is the lookup, the whole delete plan, then lifting the protection |
| CleanupExecutor.CleanupRunCompleted | AWSBackupRestoreTest-LambdaFunction.py:241-243 | when the lookup and the deletion return, the cleanup completes with them followed by the termination attempt |
| CleanupExecutor.CleanupRunFailed | AWSBackupRestoreTest-LambdaFunction.py:241-243 | when the lookup or the deletion raises, the cleanup fails having terminated nothing |
| CleanupExecutor.CleanUp | AWSBackupRestoreTest-LambdaFunction.py:241-243 | the three helper calls make the calls of the cleanup sequence |
| CleanupExecutor.CleanupActionsOnly | AWSBackupRestoreTest-LambdaFunction.py:241-243 | the cleanup makes only describe, detach, wait, delete, protection and terminate calls |
| CleanupExecutor.NoTerminateGuarded | AWSBackupRestoreTest-LambdaFunction.py:55-64 | a trace without a termination terminates nothing unguarded |
| CleanupExecutor.TerminateGuardedAppend | AWSBackupRestoreTest-LambdaFunction.py:55-64 | joining guarded traces keeps every termination guarded, provided the second does not open with one |
| CleanupExecutor.CleanupTerminateGuarded | AWSBackupRestoreTest-LambdaFunction.py:55-64 | every termination in the cleanup comes right after lifting that instance's protection |
| CleanupExecutor.CompletedCleanupRunGuarded | AWSBackupRestoreTest-LambdaFunction.py:55-64 | the same holds for a cleanup whose lookup and deletion returned |
| CleanupExecutor.DeletePlanCalls | AWSBackupRestoreTest-LambdaFunction.py:32-51 | the calls of `delete_volumes` are cleanup calls and never a termination |
| LambdaHandler.FailedJobReply | AWSBackupRestoreTest-LambdaFunction.py:112-114 | the notification of a failed job, as AWS Backup words it, is answered with "Job ID:" followed by the job id it names |
| LambdaHandler.HandleEvent | AWSBackupRestoreTest-LambdaFunction.py:90-285 | `lambda_handler` makes the calls and returns the outcome of the handler's specification |
| LambdaHandler.OnBackupCompleted | AWSBackupRestoreTest-LambdaFunction.py:116-168 | the backup branch makes the calls of the backup path |
| LambdaHandler.RequestRestore | AWSBackupRestoreTest-LambdaFunction.py:125-165 | the backup branch issues the tag read, the job description, the metadata read and the EC2-only restore start, in order, until the first exception |
| LambdaHandler.OnRestoreCompleted | AWSBackupRestoreTest-LambdaFunction.py:170-180 | the restore branch makes the calls of the restore path |
| LambdaHandler.OnRestoreJob | AWSBackupRestoreTest-LambdaFunction.py:180-187 | after parsing, the restore branch makes the calls of the restore path for that job |
| LambdaHandler.OnRestoredResource | AWSBackupRestoreTest-LambdaFunction.py:193-281 | from the tagging on, the restore branch makes the calls of the restored-resource path |
| LambdaHandler.TestRestoredInstance | AWSBackupRestoreTest-LambdaFunction.py:224-268 | the inner try makes the connection test's calls and reaches its verdict |
| RestoreReport.Subject | AWSBackupRestoreTest-LambdaFunction.py:245-267 | every subject the handler composes carries the restore-test marker |
| RestoreReport.SubjectHasMarker | AWSBackupRestoreTest-LambdaFunction.py:245-267 | a subject that starts with the marker carries it |
| RestoreReport.SubjectNamesVerdict | AWSBackupRestoreTest-LambdaFunction.py:245-267 | the fifth ' '-token of the subject is SUCCEEDED, FAILED or ERROR, matching the verdict |
| RestoreReport.MessageNames | AWSBackupRestoreTest-LambdaFunction.py:246-268 | the success message names the recovery point, the restored instance and the restored resource; the failure message names the instance and the resource; the error message carries the exception's text |
| RestoreReport.MarkerTokens | AWSBackupRestoreTest-LambdaFunction.py:245-267 | after the four-word marker, the fifth token is the first word that follows |
| HandlerProperties.IgnoredNotification | AWSBackupRestoreTest-LambdaFunction.py:99-106 | a missing subject, or one carrying the marker, returns at once with no call |
| HandlerProperties.OwnReportsComeBackIgnored | AWSBackupRestoreTest-LambdaFunction.py:101-106 | every report the handler publishes, delivered back to it, takes the ignore path whatever the services then answer |
| HandlerProperties.PropagatesIffJobTypeUnreadable | AWSBackupRestoreTest-LambdaFunction.py:109 | an exception escapes the handler exactly when the notification is not ignored and its job type cannot be read; it escapes before any call |
| HandlerProperties.FailedJobAnswered | AWSBackupRestoreTest-LambdaFunction.py:112-114 | "failed" in the message wins over the job type: no call, and "Job ID:" plus the stripped id is returned, or None when the id does not parse |
| HandlerProperties.ReturnsNoneUnlessFailed | AWSBackupRestoreTest-LambdaFunction.py:111-285 | the handler returns a value only for a failed job, and then makes no call |
| HandlerProperties.HandleBackup | AWSBackupRestoreTest-LambdaFunction.py:116 | a backup notification makes exactly the calls of the backup path and returns None |
| HandlerProperties.HandleRestore | AWSBackupRestoreTest-LambdaFunction.py:170 | a restore notification makes exactly the calls of the restore path and returns None |
| HandlerProperties.RestoreStartedOnlyForEc2Backup | AWSBackupRestoreTest-LambdaFunction.py:148-164 | a restore is started only on a backup notification for an EC2 resource, as the fourth and last call, with the rewritten metadata |
| HandlerProperties.BackupStartsRestoreLast | AWSBackupRestoreTest-LambdaFunction.py:148-164 | in the backup path a restore start is the fourth and last call, for an EC2 resource, with the rewritten metadata |
| HandlerProperties.BackupPlanStartsLast | AWSBackupRestoreTest-LambdaFunction.py:148-164 | the same, for the backup calls once the ids are parsed |
| HandlerProperties.Ec2BackupStartsRestore | AWSBackupRestoreTest-LambdaFunction.py:116-165 | when the three reads return for an EC2 backup, the handler makes them and then starts one restore with the rewritten metadata |
| HandlerProperties.Ec2BackupPlanIssued | AWSBackupRestoreTest-LambdaFunction.py:132-164 | the same, for the backup calls once the ids are parsed |
| HandlerProperties.BackupPlanNeverTests | AWSBackupRestoreTest-LambdaFunction.py:116-168 | the backup plan contains no call of the connection test |
| HandlerProperties.BackupPathNeverTests | AWSBackupRestoreTest-LambdaFunction.py:116-168 | the backup path makes no call of the connection test |
| HandlerProperties.RestorePathNeverStartsRestore | AWSBackupRestoreTest-LambdaFunction.py:170-281 | the restore path never starts a restore |
| HandlerProperties.RestoreJobNoStart | AWSBackupRestoreTest-LambdaFunction.py:183-281 | nor does it once the ids are parsed |
| HandlerProperties.RestoredResourceNoStart | AWSBackupRestoreTest-LambdaFunction.py:193-281 | nor does it from the tagging on |
| HandlerProperties.ProbeCalls | AWSBackupRestoreTest-LambdaFunction.py:224-268 | the connection test starts with the SSH connect, makes only cleanup calls after it, and guards every termination |
| HandlerProperties.ConnectionVerdict | AWSBackupRestoreTest-LambdaFunction.py:227-263 | a SUCCEEDED or FAILED verdict means the connect returned and the cleanup completed; the verdict is SUCCEEDED exactly when the connect code is 0 |
| HandlerProperties.ConnectionVerdictAfterCleanup | AWSBackupRestoreTest-LambdaFunction.py:227-256 | a SUCCEEDED or FAILED verdict comes after the connect, the volume lookup, the whole delete plan and the lifting of protection |
| HandlerProperties.ErrorVerdictTerminatesNothing | AWSBackupRestoreTest-LambdaFunction.py:265-268 | an ERROR verdict comes with no termination |
| HandlerProperties.CleanupTerminateTarget | AWSBackupRestoreTest-LambdaFunction.py:241-256 | the cleanup terminates no instance other than the restored one |
| HandlerProperties.PublishedReport | AWSBackupRestoreTest-LambdaFunction.py:245-268 | the published subject carries the marker and names the verdict in its fifth token |
| HandlerProperties.RestoredResourceTested | AWSBackupRestoreTest-LambdaFunction.py:194-281 | when the tagging and the description return for an instance with a private address, the path is tag, describe, the connection test, then one publish of the report |
| HandlerProperties.RestoredResourceUntested | AWSBackupRestoreTest-LambdaFunction.py:194-221 | otherwise the path stops after the tagging or the description |
| HandlerProperties.RestoreJobReachesResource | AWSBackupRestoreTest-LambdaFunction.py:183-187 | when both lookups return and the ARN parses, the path continues with the restored resource |
| HandlerProperties.RestoreJobTested | AWSBackupRestoreTest-LambdaFunction.py:183-281 | a job that reaches the test makes exactly the four preliminary calls, the connection test and the publish |
| HandlerProperties.SiteResourceTested | AWSBackupRestoreTest-LambdaFunction.py:194-281 | the same, from the tagging on |
| HandlerProperties.RestoreJobUntested | AWSBackupRestoreTest-LambdaFunction.py:183-221 | a job that does not reach the test makes no call of the test |
| HandlerProperties.HandleShape | AWSBackupRestoreTest-LambdaFunction.py:90-285 | an invocation that reaches the test makes exactly the tested calls; any other makes no call of the test |
| HandlerProperties.TestedPublishesLast | AWSBackupRestoreTest-LambdaFunction.py:274-281 | a tested run begins with the four preliminary calls and the SSH connect, and ends with the single publish of the report |
| HandlerProperties.ProbeStartsTest | AWSBackupRestoreTest-LambdaFunction.py:224-227 | the test starts with the SSH connect, right after the four preliminary calls, and nothing before the report is published |
| HandlerProperties.TestedTerminateGuarded | AWSBackupRestoreTest-LambdaFunction.py:55-64 | in a tested run every termination comes right after lifting that instance's protection |
| HandlerProperties.TerminateAlwaysGuarded | AWSBackupRestoreTest-LambdaFunction.py:55-64 | in every run every termination comes right after lifting that instance's protection |
| HandlerProperties.ReportPublishedIffTested | AWSBackupRestoreTest-LambdaFunction.py:206-281 | a report is published exactly when the connection test runs; it is then the last call, goes to the notification's topic, carries the marker, and is the only publish |
| HandlerProperties.NonEc2PublishesNothing | AWSBackupRestoreTest-LambdaFunction.py:206-272 | when the job named by the message created a resource outside EC2, the invocation never connects, deletes, terminates or publishes |
| HandlerProperties.TestedReportNamesVerdict | AWSBackupRestoreTest-LambdaFunction.py:245-281 | the report names the verdict of the connection test, and every termination belongs to the test |
| HandlerProperties.ErrorReportTerminatesNothing | AWSBackupRestoreTest-LambdaFunction.py:265-281 | a run that ends with an ERROR report terminated nothing |
| HandlerProperties.VerdictReportAfterCleanup | AWSBackupRestoreTest-LambdaFunction.py:229-281 | a SUCCEEDED or FAILED report follows the whole cleanup (lookup, delete plan, lifting protection) and says SUCCEEDED exactly when the connect code is 0 |
| HandlerProperties.TestedVerdictReport | AWSBackupRestoreTest-LambdaFunction.py:229-281 | the same, for the tested calls of a test site |

## Left out

- boto3, sockets and SNS are not modelled as services. Each call is an
  `Action`; whether it raises and what it answers are inputs.
- Read answers are fixed for the whole invocation: tags, instance
  descriptions, backup and restore jobs, restore metadata and connect
  codes. In particular, the two descriptions of the restored instance
  (lines 214 and 16) see the same reservations.
- Only whether a call raises may vary from call to call.
- A read response lacking a key the handler indexes is not modelled;
  responses always carry the fields read.
  - Exception: a missing `PrivateIpAddress`, or an empty `Reservations` or
    `Instances` list, at line 221 is modelled.
  - An untagged instance at line 75 is folded into the tag read raising.
- The connect result is keyed by address only.
- Creating the socket and setting its timeout (lines 225-226) are folded
  into the `ConnectTcp` action; an exception from either counts as the
  connect raising.
- The 5-second timeout itself is not modelled.
- `str(e)` is modelled as the message the oracle gives the exception.
- The waiter (lines 41-43) is one `WaitVolumesAvailable` action that may
  raise; its polling and timeout are not modelled.
- `time.sleep(5)` (line 63) and the `datetime` timestamps (lines 118, 172,
  231, 248) are not modelled: they affect timing only.
- `put_itemDynamodb` (lines 83-85) is not modelled: every call site is
  commented out.
- The SQS envelope and `json.loads` (lines 96-97) are not modelled; the
  handler starts from the decoded Subject, Message and TopicArn, each
  possibly missing.
- A subject that is not a string (the TypeError at line 101) is not
  modelled.
- `print` logging is not modelled.
- Concurrency between invocations is not modelled: one invocation is
  modelled at a time.
