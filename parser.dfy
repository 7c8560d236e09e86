/**
 * Reading AWS Backup job notifications. The handler does not parse a
 * grammar: it cuts the free-text message at fixed delimiters ('.' between
 * sentences, ' ', ':' and '/' inside them) and picks fields by position,
 * exactly as Python's `split` and list indexing do. A field that is not
 * there is `None` here (IndexError in the source).
 */
module NotificationParser {
  import opened PyStr

  /** The words every subject the handler itself publishes starts with. */
  const RestoreTestMarker := "AWS Backup Restore Test"

  /** A subject that marks a notification the handler published itself. */
  predicate IsRestoreTestSubject(subject: string) {
    Contains(subject, RestoreTestMarker)
  }

  /** A message the backup service sent about a job that failed. */
  predicate ReportsFailure(message: string) {
    Contains(message, "failed")
  }

  /** `message.split('.')[-1]`: the last sentence, which always exists. */
  function LastSentence(message: string): string {
    var sentences := Split(message, '.');
    sentences[|sentences| - 1]
  }

  /** `message.split('.')[-1].split(' ')[1]`: the job type word, "Backup" or "Restore". */
  function JobType(message: string): Option<string> {
    At(Split(LastSentence(message), ' '), 1)
  }

  /** `message.split('.')[-1].split(':')[1].strip()`: the job id. */
  function JobId(message: string): Option<string> {
    match At(Split(LastSentence(message), ':'), 1)
    case None => None
    case Some(field) => Some(Strip(field))
  }

  /** `message.split('.')[-2].split(':')[6].split('/')[1].strip()`: the id of the instance that was backed up. */
  function OriginalInstanceId(message: string): Option<string> {
    match At(Split(message, '.'), -2)
    case None => None
    case Some(sentence) =>
      match At(Split(sentence, ':'), 6)
      case None => None
      case Some(resource) =>
        match At(Split(resource, '/'), 1)
        case None => None
        case Some(id) => Some(Strip(id))
  }

  /** `arn.split(':')[2]`: the service of an ARN. */
  function ArnService(arn: string): Option<string> {
    At(Split(arn, ':'), 2)
  }

  /** `arn.split(':')[5].split('/')[1]`: the resource id of an ARN (not stripped). */
  function ArnResourceId(arn: string): Option<string> {
    match At(Split(arn, ':'), 5)
    case None => None
    case Some(resource) => At(Split(resource, '/'), 1)
  }

  /** `arn.split(':')[5].split('/')[0]`: the resource type of an ARN. */
  function ArnResourceType(arn: string): Option<string> {
    match At(Split(arn, ':'), 5)
    case None => None
    case Some(resource) => Some(Split(resource, '/')[0])
  }

  // ---------------------------------------------------------------------
  // The shape of well-formed input, and what the parser reads back from it.
  // ---------------------------------------------------------------------

  /** The ARN of an EC2 instance. */
  function InstanceArn(region: string, account: string, instanceId: string): string {
    "arn" + ":" + ("aws" + ":" + ("ec2" + ":" + (region + ":" + (account + ":" + ("instance" + "/" + instanceId)))))
  }

  /** The sentence of a job notification that names the resource ARN. */
  function ResourceSentence(resourceArn: string): string {
    " Resource ARN : " + resourceArn
  }

  /** The last sentence of a job notification: the job type, then the job id after a ':'. */
  function JobSentence(jobType: string, jobId: string): string {
    " " + jobType + " job ID : " + jobId
  }

  /**
   * A job notification of the shape the handler expects: any leading text,
   * then a sentence naming the resource ARN, then a last sentence naming the
   * job type and the job id.
   */
  function JobNotification(lead: string, resourceArn: string, jobType: string, jobId: string): string {
    lead + "." + ResourceSentence(resourceArn) + "." + JobSentence(jobType, jobId)
  }

  /** A field as `strip()` leaves it: empty, or not starting or ending with whitespace. */
  predicate Trimmed(s: string) {
    s == [] || (!IsSpace(s[0]) && !IsSpace(s[|s| - 1]))
  }

  /** The fixed words of an instance ARN hold no separator. */
  lemma ArnWords()
    ensures ':' !in "arn" && ':' !in "aws" && ':' !in "ec2" && '/' !in "instance"
    ensures ':' !in "instance/" && '.' !in "instance/" && '.' !in "arn:aws:ec2:"
  {
  }

  /** The fixed words of a job notification hold no separator where it matters. */
  lemma NotificationWords()
    ensures '.' !in " Resource ARN : " && '.' !in " job ID : "
    ensures ':' !in " Resource ARN " && ':' !in " job ID " && ' ' !in ""
  {
  }

  /** Six separator-free fields, joined right to left, split back into themselves. */
  lemma SplitSixFields(w0: string, w1: string, w2: string, w3: string, w4: string, w5: string, sep: char)
    requires sep !in w0 && sep !in w1 && sep !in w2 && sep !in w3 && sep !in w4 && sep !in w5
    ensures Split(w0 + [sep] + (w1 + [sep] + (w2 + [sep] + (w3 + [sep] + (w4 + [sep] + w5)))), sep)
         == [w0, w1, w2, w3, w4, w5]
  {
    JoinCons(w4, [w5], sep);
    assert [w4] + [w5] == [w4, w5];
    JoinCons(w3, [w4, w5], sep);
    assert [w3] + [w4, w5] == [w3, w4, w5];
    JoinCons(w2, [w3, w4, w5], sep);
    assert [w2] + [w3, w4, w5] == [w2, w3, w4, w5];
    JoinCons(w1, [w2, w3, w4, w5], sep);
    assert [w1] + [w2, w3, w4, w5] == [w1, w2, w3, w4, w5];
    JoinCons(w0, [w1, w2, w3, w4, w5], sep);
    assert [w0] + [w1, w2, w3, w4, w5] == [w0, w1, w2, w3, w4, w5];
    SplitUnique(w0 + [sep] + (w1 + [sep] + (w2 + [sep] + (w3 + [sep] + (w4 + [sep] + w5)))), sep, [w0, w1, w2, w3, w4, w5]);
  }

  /** Concatenation regrouped to the left. */
  lemma Regroup(a: string, b: string, c: string)
    ensures a + (b + c) == a + b + c
  {
  }

  /** The ':'-fields of an instance ARN, with `p` glued to the front of the first one. */
  lemma ArnFields(p: string, region: string, account: string, instanceId: string)
    requires ':' !in p && ':' !in region && ':' !in account && ':' !in instanceId
    ensures Split(p + InstanceArn(region, account, instanceId), ':')
         == [p + "arn", "aws", "ec2", region, account, "instance" + "/" + instanceId]
  {
    var t1 := "aws" + ":" + ("ec2" + ":" + (region + ":" + (account + ":" + ("instance" + "/" + instanceId))));
    Regroup(p, "arn" + ":", t1);
    Regroup(p, "arn", ":");
    ArnWords();
    SplitSixFields(p + "arn", "aws", "ec2", region, account, "instance" + "/" + instanceId, ':');
  }

  /** The '/'-fields of the resource part of an instance ARN. */
  lemma ResourceFields(instanceId: string)
    requires '/' !in instanceId
    ensures Split("instance" + "/" + instanceId, '/') == ["instance", instanceId]
  {
    ArnWords();
    var w := "instance";
    SplitWithoutSep(w, '/');
    SplitWithoutSep(instanceId, '/');
    SplitAppend(w, '/', instanceId);
  }

  /** An instance ARN reads back as service "ec2", resource type "instance" and the instance id. */
  lemma InstanceArnFields(region: string, account: string, instanceId: string)
    requires ':' !in region && ':' !in account && ':' !in instanceId && '/' !in instanceId
    ensures ArnService(InstanceArn(region, account, instanceId)) == Some("ec2")
    ensures ArnResourceType(InstanceArn(region, account, instanceId)) == Some("instance")
    ensures ArnResourceId(InstanceArn(region, account, instanceId)) == Some(instanceId)
  {
    InstanceArnSplit(region, account, instanceId);
    ResourceFields(instanceId);
  }

  /** An instance ARN splits at ':' into its six fields. */
  lemma InstanceArnSplit(region: string, account: string, instanceId: string)
    requires ':' !in region && ':' !in account && ':' !in instanceId
    ensures Split(InstanceArn(region, account, instanceId), ':') == ["arn", "aws", "ec2", region, account, "instance" + "/" + instanceId]
  {
    ArnWords();
    SplitSixFields("arn", "aws", "ec2", region, account, "instance" + "/" + instanceId, ':');
  }

  /** The sentences of a job notification: the last two are the resource sentence and the job sentence. */
  lemma NotificationSentences(lead: string, resourceSentence: string, jobSentence: string)
    requires '.' !in resourceSentence && '.' !in jobSentence
    ensures LastSentence(lead + "." + resourceSentence + "." + jobSentence) == jobSentence
    ensures At(Split(lead + "." + resourceSentence + "." + jobSentence, '.'), -2) == Some(resourceSentence)
  {
    SplitWithoutSep(resourceSentence, '.');
    SplitWithoutSep(jobSentence, '.');
    SplitAppend(lead, '.', resourceSentence);
    SplitAppend(lead + "." + resourceSentence, '.', jobSentence);
  }

  /** The second ' '-token of the job sentence is the job type. */
  lemma JobTypeToken(jobType: string, jobId: string)
    requires ' ' !in jobType
    ensures At(Split(JobSentence(jobType, jobId), ' '), 1) == Some(jobType)
  {
    var rest := "job ID : " + jobId;
    JobSentenceRegroup(jobType, jobId);
    assert Split(jobType + " " + rest, ' ') == [jobType] + Split(rest, ' ') by {
      SplitCons(jobType, ' ', rest);
    }
    assert Split("" + " " + (jobType + " " + rest), ' ') == [""] + Split(jobType + " " + rest, ' ') by {
      SplitCons("", ' ', jobType + " " + rest);
    }
  }

  /** The second ':'-field of the job sentence is the job id after one space. */
  lemma JobIdField(jobType: string, jobId: string)
    requires ':' !in jobType && ':' !in jobId
    ensures At(Split(JobSentence(jobType, jobId), ':'), 1) == Some(" " + jobId)
  {
    var head := " " + jobType + " job ID ";
    JobSentenceRegroup(jobType, jobId);
    assert ':' !in head by {
      NotificationWords();
    }
    assert ':' !in " " + jobId;
    SplitCons(head, ':', " " + jobId);
    SplitWithoutSep(" " + jobId, ':');
  }

  /** The job sentence, regrouped around its first ' ' and around its ':'. */
  lemma JobSentenceRegroup(jobType: string, jobId: string)
    ensures " " + jobType + " job ID : " + jobId == "" + " " + (jobType + " " + ("job ID : " + jobId))
    ensures " " + jobType + " job ID : " + jobId == " " + jobType + " job ID " + ":" + (" " + jobId)
  {
  }

  /** A trimmed field is left alone by `strip()`. */
  lemma StripTrimmed(s: string)
    requires Trimmed(s)
    ensures Strip(s) == s
  {
    StripPadding("", s, "");
    assert "" + s + "" == s;
  }

  /** The job id field is the job id after one space. */
  lemma JobIdPadding(jobId: string)
    requires Trimmed(jobId)
    ensures Strip(" " + jobId) == jobId
  {
    assert AllSpace(" ") && AllSpace("");
    StripPadding(" ", jobId, "");
    assert " " + jobId + "" == " " + jobId;
  }

  /** The resource sentence yields the instance id after '/' in its seventh ':'-field. */
  lemma ResourceSentenceFields(region: string, account: string, instanceId: string)
    requires ':' !in region && ':' !in account && ':' !in instanceId && '/' !in instanceId
    ensures At(Split(ResourceSentence(InstanceArn(region, account, instanceId)), ':'), 6)
         == Some("instance" + "/" + instanceId)
  {
    NotificationWords();
    var arn := InstanceArn(region, account, instanceId);
    var head := " Resource ARN ";
    assert " Resource ARN : " + arn == head + ":" + (" " + arn);
    SplitWithoutSep(head, ':');
    SplitAppend(head, ':', " " + arn);
    ArnFields(" ", region, account, instanceId);
  }

  /** Neither sentence of a job notification about an instance holds a '.'. */
  lemma SentencesWithoutDot(region: string, account: string, instanceId: string, jobType: string, jobId: string)
    requires '.' !in region && '.' !in account && '.' !in instanceId && '.' !in jobType && '.' !in jobId
    ensures '.' !in ResourceSentence(InstanceArn(region, account, instanceId))
    ensures '.' !in JobSentence(jobType, jobId)
  {
    NotificationWords();
    assert '.' !in "arn" + ":" && '.' !in "aws" + ":" && '.' !in "ec2" + ":" && '.' !in "instance" + "/";
  }

  /**
   * Parsing a well-formed job notification recovers the job type, the job id
   * and the original instance id, whatever text precedes the last two
   * sentences.
   */
  lemma ParseJobNotification(lead: string, region: string, account: string, instanceId: string, jobType: string, jobId: string)
    requires '.' !in region && ':' !in region && '.' !in account && ':' !in account
    requires '.' !in instanceId && ':' !in instanceId && '/' !in instanceId && Trimmed(instanceId)
    requires '.' !in jobType && ':' !in jobType && ' ' !in jobType
    requires '.' !in jobId && ':' !in jobId && Trimmed(jobId)
    ensures var message := JobNotification(lead, InstanceArn(region, account, instanceId), jobType, jobId);
      && JobType(message) == Some(jobType)
      && JobId(message) == Some(jobId)
      && OriginalInstanceId(message) == Some(instanceId)
  {
    var resourceSentence := ResourceSentence(InstanceArn(region, account, instanceId));
    var jobSentence := JobSentence(jobType, jobId);
    var message := lead + "." + resourceSentence + "." + jobSentence;
    assert LastSentence(message) == jobSentence && At(Split(message, '.'), -2) == Some(resourceSentence) by {
      SentencesWithoutDot(region, account, instanceId, jobType, jobId);
      NotificationSentences(lead, resourceSentence, jobSentence);
    }
    assert JobType(message) == Some(jobType) by {
      JobTypeToken(jobType, jobId);
    }
    assert JobId(message) == Some(jobId) by {
      JobIdField(jobType, jobId);
      JobIdPadding(jobId);
    }
    var resource := "instance" + "/" + instanceId;
    assert At(Split(resourceSentence, ':'), 6) == Some(resource) by {
      ResourceSentenceFields(region, account, instanceId);
    }
    assert At(Split(resource, '/'), 1) == Some(instanceId) by {
      ResourceFields(instanceId);
    }
    assert Strip(instanceId) == instanceId by {
      StripTrimmed(instanceId);
    }
  }
}
