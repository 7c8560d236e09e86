/**
 * The notification the handler publishes after testing a restored instance:
 * its subject names the verdict, its message the resources involved. Every
 * subject starts with the restore-test marker, which is what makes the
 * handler ignore its own notifications when they come back to it.
 */
module RestoreReport {
  import opened PyStr
  import opened NotificationParser

  /** What the connection test concluded. */
  datatype Verdict =
    | Reachable                  // connect_ex returned 0
    | Unreachable                // connect_ex returned an error code
    | TestError(reason: string)  // an exception inside the test, with its message

  /** The subject and message of a published notification. */
  datatype Report = Report(subject: string, message: string)

  /** The word that names the verdict, as the subject spells it. */
  function VerdictWord(v: Verdict): string {
    match v
    case Reachable => "SUCCEEDED"
    case Unreachable => "FAILED"
    case TestError(_) => "ERROR"
  }

  /**
   * The subject of the notification for verdict `v` about the instance
   * `originalId` named `name`: "... SUCCEEDED on <name>/<id>", "... FAILED on
   * <name>/<id>", or "... ERROR" after the marker.
   */
  function Subject(v: Verdict, name: string, originalId: string): (subject: string)
    ensures IsRestoreTestSubject(subject)
  {
    if v.TestError? then
      SubjectHasMarker(" " + "ERROR");
      RestoreTestMarker + (" " + "ERROR")
    else
      SubjectHasMarker(" " + (VerdictWord(v) + " on " + name + "/" + originalId));
      RestoreTestMarker + (" " + (VerdictWord(v) + " on " + name + "/" + originalId))
  }

  /** A subject that starts with the marker is recognised as the handler's own. */
  lemma SubjectHasMarker(rest: string)
    ensures IsRestoreTestSubject(RestoreTestMarker + rest)
  {
    ContainsInfix("", RestoreTestMarker, rest);
    assert "" + RestoreTestMarker + rest == RestoreTestMarker + rest;
  }

  // The fixed text of the three messages, around the values they name.
  const SuccessLead := "Restore from "
  const SuccessMiddle := " was successful and restore test SUCCEEDED with SSH OK returned by the instance "
  const SuccessTail := ". The newly created resource "
  const CleanedUp := " has been cleaned up."
  const FailureLead := "Unable to connect to EC2 Instance "
  const FailureMiddle := " via SSH. Restore test FAILED. New resource "
  const FailureTail := " has been cleaned up. Please take immidiate action to sort it out."
  const ErrorLead := "Error connecting to the Restored Instance: "

  /**
   * The message of the notification: the recovery point and the restored
   * instance on success, the instance and the restored resource on failure,
   * the exception's message on error.
   */
  function Message(v: Verdict, recoveryPointArn: string, instanceId: string, createdResourceArn: string): (message: string) {
    match v
    case Reachable => SuccessLead + recoveryPointArn + SuccessMiddle + instanceId + SuccessTail + createdResourceArn + CleanedUp
    case Unreachable => FailureLead + instanceId + FailureMiddle + createdResourceArn + FailureTail
    case TestError(reason) => ErrorLead + reason
  }

  /**
   * Each message names what its reader needs: the recovery point, the
   * restored instance and the restored resource on success, the instance and
   * the resource on failure, and the exception's text on error.
   */
  lemma MessageNames(v: Verdict, recoveryPointArn: string, instanceId: string, createdResourceArn: string)
    ensures var m := Message(v, recoveryPointArn, instanceId, createdResourceArn);
      && (v.Reachable? ==> Contains(m, recoveryPointArn) && Contains(m, instanceId) && Contains(m, createdResourceArn))
      && (v.Unreachable? ==> Contains(m, instanceId) && Contains(m, createdResourceArn))
      && (v.TestError? ==> Contains(m, v.reason))
  {
    match v
    case Reachable =>
      InfixesOfSeven(SuccessLead, recoveryPointArn, SuccessMiddle, instanceId, SuccessTail, createdResourceArn, CleanedUp);
    case Unreachable =>
      InfixesOfFive(FailureLead, instanceId, FailureMiddle, createdResourceArn, FailureTail);
    case TestError(reason) =>
      ContainsInfix(ErrorLead, reason, "");
      assert ErrorLead + reason + "" == ErrorLead + reason;
  }

  /** Text between fixed pieces is contained in the whole: the three values of a success message. */
  lemma InfixesOfSeven(a: string, x: string, b: string, y: string, c: string, z: string, d: string)
    ensures var m := a + x + b + y + c + z + d;
      Contains(m, x) && Contains(m, y) && Contains(m, z)
  {
    ContainsInfix(a, x, b + y + c + z + d);
    assert a + x + b + y + c + z + d == a + x + (b + y + c + z + d);
    ContainsInfix(a + x + b, y, c + z + d);
    assert a + x + b + y + c + z + d == a + x + b + y + (c + z + d);
    ContainsInfix(a + x + b + y + c, z, d);
  }

  /** The same for the two values of a failure message. */
  lemma InfixesOfFive(a: string, x: string, b: string, y: string, c: string)
    ensures var m := a + x + b + y + c;
      Contains(m, x) && Contains(m, y)
  {
    ContainsInfix(a, x, b + y + c);
    assert a + x + b + y + c == a + x + (b + y + c);
    ContainsInfix(a + x + b, y, c);
  }

  /** The report published for verdict `v`. */
  function ReportFor(v: Verdict, name: string, originalId: string, recoveryPointArn: string, instanceId: string, createdResourceArn: string): Report {
    Report(Subject(v, name, originalId), Message(v, recoveryPointArn, instanceId, createdResourceArn))
  }

  /** The verdict word, read back from a subject as its fifth ' '-token. */
  function SubjectVerdictWord(subject: string): Option<string> {
    At(Split(subject, ' '), 4)
  }

  /**
   * The subject names its verdict: the fifth word of the subject is the
   * verdict word, whatever the instance name holds, so the three verdicts
   * never share a subject.
   */
  lemma SubjectNamesVerdict(v: Verdict, name: string, originalId: string)
    ensures SubjectVerdictWord(Subject(v, name, originalId)) == Some(VerdictWord(v))
  {
    var word := VerdictWord(v);
    var tail := "on " + name + "/" + originalId;
    var rest := if v.TestError? then word else word + " " + tail;
    assert Subject(v, name, originalId) == MarkerThen(rest) by {
      assert v.TestError? || word + " on " + name + "/" + originalId == rest;
      MarkerWords(rest);
    }
    assert Split(rest, ' ')[0] == word by {
      if v.TestError? {
        SplitWithoutSep(word, ' ');
      } else {
        SplitCons(word, ' ', tail);
      }
    }
    MarkerTokens(word, rest);
  }

  /** The marker, a space, then `rest`, written right to left as its words. */
  function MarkerThen(rest: string): string {
    "AWS" + " " + ("Backup" + " " + ("Restore" + " " + ("Test" + " " + rest)))
  }

  /** The marker is its four words. */
  lemma MarkerWords(rest: string)
    ensures RestoreTestMarker + (" " + rest) == MarkerThen(rest)
  {
  }

  /** After the four words of the marker, the fifth ' '-token is the first word of the rest. */
  lemma MarkerTokens(word: string, rest: string)
    requires Split(rest, ' ')[0] == word
    ensures At(Split(MarkerThen(rest), ' '), 4) == Some(word)
  {
    SplitFourThen("AWS", "Backup", "Restore", "Test", rest, ' ');
  }
}
