/**
 * Removing a restored instance after its test: detaching and deleting the
 * volumes that would survive termination (`delete_volumes`), then lifting
 * termination protection and terminating it (`terminate_instance`). Each
 * helper is a plan of calls, which `RunAll` issues until one raises, plus the
 * method that issues them one at a time.
 */
module CleanupExecutor {
  import opened PyStr
  import opened Cloud
  import opened ResourceInspector

  /** One forced detach per volume, in list order. */
  function Detaches(vols: seq<string>, instanceId: string): (plan: seq<Action>)
    ensures |plan| == |vols|
  {
    if vols == [] then [] else [DetachVolume(instanceId, vols[0], true)] + Detaches(vols[1..], instanceId)
  }

  /** The detach at each position is the forced detach of the volume at that position. */
  lemma {:induction false} DetachesAt(vols: seq<string>, instanceId: string)
    ensures forall k :: 0 <= k < |vols| ==> Detaches(vols, instanceId)[k] == DetachVolume(instanceId, vols[k], true)
    decreases |vols|
  {
    if vols != [] {
      DetachesAt(vols[1..], instanceId);
      forall k | 0 < k < |vols| ensures Detaches(vols, instanceId)[k] == DetachVolume(instanceId, vols[k], true) {
        assert vols[1..][k - 1] == vols[k];
      }
    }
  }

  /** One delete per volume, in list order. */
  function Deletes(vols: seq<string>): (plan: seq<Action>)
    ensures |plan| == |vols|
  {
    if vols == [] then [] else [DeleteVolume(vols[0])] + Deletes(vols[1..])
  }

  /** The delete at each position is the delete of the volume at that position. */
  lemma {:induction false} DeletesAt(vols: seq<string>)
    ensures forall k :: 0 <= k < |vols| ==> Deletes(vols)[k] == DeleteVolume(vols[k])
    decreases |vols|
  {
    if vols != [] {
      DeletesAt(vols[1..]);
      forall k | 0 < k < |vols| ensures Deletes(vols)[k] == DeleteVolume(vols[k]) {
        assert vols[1..][k - 1] == vols[k];
      }
    }
  }

  /**
   * The calls of `delete_volumes(vols, instance_id)`: none for an empty list;
   * otherwise every detach, one wait for the whole list, then every delete.
   */
  function DeletePlan(vols: seq<string>, instanceId: string): seq<Action> {
    if vols == [] then [] else Detaches(vols, instanceId) + [WaitVolumesAvailable(vols)] + Deletes(vols)
  }

  /** The layout of a non-empty delete plan: position of each detach, of the wait and of each delete. */
  lemma DeletePlanLayout(vols: seq<string>, instanceId: string)
    requires vols != []
    ensures var plan := DeletePlan(vols, instanceId);
      && |plan| == 2 * |vols| + 1
      && (forall k :: 0 <= k < |vols| ==> plan[k] == DetachVolume(instanceId, vols[k], true))
      && plan[|vols|] == WaitVolumesAvailable(vols)
      && (forall j :: |vols| < j < |plan| ==> plan[j] == DeleteVolume(vols[j - |vols| - 1]))
  {
    DetachesAt(vols, instanceId);
    DeletesAt(vols);
  }

  /** A non-empty delete plan holds a detach and a delete per volume, and the wait. */
  lemma DeletePlanLength(vols: seq<string>, instanceId: string)
    requires vols != []
    ensures |DeletePlan(vols, instanceId)| == 2 * |vols| + 1
  {
  }

  /** The detach of the volume at position `i` is call `i` of the plan. */
  lemma DetachAt(vols: seq<string>, instanceId: string, i: nat)
    requires i < |vols|
    ensures i < |DeletePlan(vols, instanceId)| && DeletePlan(vols, instanceId)[i] == DetachVolume(instanceId, vols[i], true)
  {
    DeletePlanLayout(vols, instanceId);
  }

  /** The wait follows the detaches. */
  lemma WaitAt(vols: seq<string>, instanceId: string)
    requires vols != []
    ensures |vols| < |DeletePlan(vols, instanceId)| && DeletePlan(vols, instanceId)[|vols|] == WaitVolumesAvailable(vols)
  {
    DeletePlanLayout(vols, instanceId);
  }

  /** The delete of the volume at position `i` follows the wait. */
  lemma DeleteAt(vols: seq<string>, instanceId: string, i: nat)
    requires i < |vols|
    ensures |vols| + 1 + i < |DeletePlan(vols, instanceId)|
    ensures DeletePlan(vols, instanceId)[|vols| + 1 + i] == DeleteVolume(vols[i])
  {
    DeletePlanLayout(vols, instanceId);
  }

  /**
   * The phases of a delete plan never interleave: every detach precedes the
   * wait, which precedes every delete; and a volume is only deleted after
   * it was detached from the instance.
   */
  lemma DeletePlanOrder(vols: seq<string>, instanceId: string)
    ensures var plan := DeletePlan(vols, instanceId);
      && (forall i, j :: 0 <= i < |plan| && 0 <= j < |plan| && plan[i].DeleteVolume? && plan[j].DetachVolume? ==> j < i)
      && (forall i, j :: 0 <= i < |plan| && 0 <= j < |plan| && plan[i].DeleteVolume? && plan[j].WaitVolumesAvailable? ==> j < i)
      && (forall i :: 0 <= i < |plan| && plan[i].DeleteVolume? ==>
            exists j :: 0 <= j < i && plan[j] == DetachVolume(instanceId, plan[i].volumeId, true))
  {
    var plan := DeletePlan(vols, instanceId);
    if vols != [] {
      DeletePlanLayout(vols, instanceId);
      var n := |vols|;
      forall i | 0 <= i < |plan| && plan[i].DeleteVolume?
        ensures i > n
        ensures exists j :: 0 <= j < i && plan[j] == DetachVolume(instanceId, plan[i].volumeId, true)
      {
        assert plan[i - n - 1] == DetachVolume(instanceId, vols[i - n - 1], true);
      }
      forall j | 0 <= j < |plan| && (plan[j].DetachVolume? || plan[j].WaitVolumesAvailable?)
        ensures j <= n
      {
      }
    }
  }

  /** `delete_volumes` issues nothing for an empty list. */
  lemma DeleteNothing(svc: Services, start: nat, instanceId: string)
    ensures RunAll(svc, start, DeletePlan([], instanceId)) == Issued(Completed, [])
  {
  }

  /**
   * Issue `call` as call number `start + |done|`, after the calls `done` of
   * `plan` all returned: the calls issued are `done` and `call`, and either
   * `call` returns too, or its exception ends the plan there.
   */
  method Issue(svc: Services, start: nat, plan: seq<Action>, done: seq<Action>, call: Action) returns (r: Issued)
    requires |done| < |plan| && done == plan[..|done|] && plan[|done|] == call
    requires NoneRaise(svc, start, done)
    ensures r.calls == done + [call] && r.calls == plan[..|done| + 1]
    ensures r.status.Completed? ==> NoneRaise(svc, start, r.calls)
    ensures r.status.Failed? ==> r == RunAll(svc, start, plan)
  {
    var i := |done|;
    RunAllStep(svc, start, plan, i);
    assert plan[..i + 1] == done + [call];
    match svc.raises(start + i, call)
    case Some(e) =>
      r := Issued(Failed(e), done + [call]);
    case None =>
      r := Issued(Completed, done + [call]);
  }

  /**
   * `delete_volumes(vols, instance_id)`, its calls numbered from `start`: a
   * forced detach of each volume, one wait until all are available, then a
   * delete of each; the first call that raises ends it.
   */
  method DeleteVolumes(svc: Services, start: nat, vols: seq<string>, instanceId: string) returns (r: Issued)
    ensures r == RunAll(svc, start, DeletePlan(vols, instanceId))
  {
    if vols == [] {
      return Issued(Completed, []);
    }
    var plan := DeletePlan(vols, instanceId);
    r := DetachAll(svc, start, vols, instanceId);
    if r.status.Failed? {
      return;
    }
    WaitAt(vols, instanceId);
    r := Issue(svc, start, plan, r.calls, WaitVolumesAvailable(vols));
    if r.status.Failed? {
      return;
    }
    r := DeleteAll(svc, start, vols, instanceId);
  }

  /** The first loop of `delete_volumes`: a forced detach of each volume, in list order. */
  method DetachAll(svc: Services, start: nat, vols: seq<string>, instanceId: string) returns (r: Issued)
    requires vols != []
    ensures var plan := DeletePlan(vols, instanceId);
      r.status.Completed? ==> r == Issued(Completed, plan[..|vols|]) && NoneRaise(svc, start, plan[..|vols|])
    ensures r.status.Failed? ==> r == RunAll(svc, start, DeletePlan(vols, instanceId))
  {
    var plan := DeletePlan(vols, instanceId);
    r := Issued(Completed, []);
    var i := 0;
    while i < |vols|
      invariant 0 <= i <= |vols|
      invariant r == Issued(Completed, plan[..i]) && NoneRaise(svc, start, plan[..i])
    {
      DetachAt(vols, instanceId, i);
      r := Issue(svc, start, plan, r.calls, DetachVolume(instanceId, vols[i], true));
      if r.status.Failed? {
        return;
      }
      i := i + 1;
    }
  }

  /** The second loop of `delete_volumes`, after the wait: a delete of each volume, in list order. */
  method DeleteAll(svc: Services, start: nat, vols: seq<string>, instanceId: string) returns (r: Issued)
    requires vols != []
    requires NoneRaise(svc, start, DeletePlan(vols, instanceId)[..|vols| + 1])
    ensures r == RunAll(svc, start, DeletePlan(vols, instanceId))
  {
    var plan := DeletePlan(vols, instanceId);
    var n := |vols|;
    DeletePlanLength(vols, instanceId);
    r := Issued(Completed, plan[..n + 1]);
    var i, k := 0, n + 1;  // the volume to delete next, and the position of its delete in the plan
    while i < n
      invariant 0 <= i <= n && k == n + 1 + i
      invariant r == Issued(Completed, plan[..k]) && NoneRaise(svc, start, plan[..k])
    {
      DeleteAt(vols, instanceId, i);
      r := Issue(svc, start, plan, r.calls, DeleteVolume(vols[i]));
      if r.status.Failed? {
        return;
      }
      i, k := i + 1, k + 1;
    }
    assert plan[..k] == plan;
    RunAllNoneRaise(svc, start, plan);
  }

  /** The calls of `terminate_instance`: lift termination protection, then terminate. */
  function TerminatePlan(instanceId: string): seq<Action> {
    [ClearTerminationProtection(instanceId), Terminate(instanceId)]
  }

  /**
   * `terminate_instance(instance_id)`, its calls numbered from `start`: the
   * calls are issued until one raises, and the exception is swallowed, so
   * only the calls issued are returned.
   */
  method TerminateInstance(svc: Services, start: nat, instanceId: string) returns (calls: seq<Action>)
    ensures calls == RunAll(svc, start, TerminatePlan(instanceId)).calls
  {
    var plan := TerminatePlan(instanceId);
    var r := Issue(svc, start, plan, [], ClearTerminationProtection(instanceId));
    if r.status.Completed? {
      r := Issue(svc, start, plan, r.calls, Terminate(instanceId));
      if r.status.Completed? {
        assert plan[..2] == plan;
        RunAllNoneRaise(svc, start, plan);
      }
    }
    calls := r.calls;
  }

  /** Termination is attempted only after protection was lifted without error, right before it. */
  lemma TerminateAfterProtectionLifted(svc: Services, start: nat, instanceId: string)
    ensures var calls := RunAll(svc, start, TerminatePlan(instanceId)).calls;
      && 1 <= |calls| <= 2
      && calls[0] == ClearTerminationProtection(instanceId)
      && (Terminate(instanceId) in calls <==> svc.raises(start, ClearTerminationProtection(instanceId)).None?)
  {
  }

  /**
   * The cleanup the restore test runs (`get_volume_id`, `delete_volumes`,
   * `terminate_instance`), its calls numbered from `start`. It fails with
   * the exception of the volume lookup or of `delete_volumes`, and then
   * terminates nothing; an error of the termination itself is swallowed.
   */
  function CleanupRun(svc: Services, start: nat, instanceId: string): Issued {
    var lookup := RunAll(svc, start, [DescribeInstances(instanceId)]);
    if lookup.status.Failed? then lookup
    else
      var vols := PreservedVolumes(svc.reservations(instanceId));
      var deletion := RunAll(svc, start + 1, DeletePlan(vols, instanceId));
      if deletion.status.Failed? then Issued(deletion.status, lookup.calls + deletion.calls)
      else
        var termination := RunAll(svc, start + 1 + |deletion.calls|, TerminatePlan(instanceId));
        Issued(Completed, lookup.calls + deletion.calls + termination.calls)
  }

  /**
   * What the cleanup does, in order: describe the instance, delete exactly
   * its preserved volumes, then try to terminate it. It completes exactly
   * when the lookup and the deletion complete, and a Terminate is issued
   * only when it completes.
   */
  lemma CleanupShape(svc: Services, start: nat, instanceId: string)
    ensures var r := CleanupRun(svc, start, instanceId);
      && |r.calls| >= 1 && r.calls[0] == DescribeInstances(instanceId)
      && (r.status.Completed? <==>
            && svc.raises(start, DescribeInstances(instanceId)).None?
            && RunAll(svc, start + 1, DeletePlan(PreservedVolumes(svc.reservations(instanceId)), instanceId)).status.Completed?)
      && (r.status.Completed? ==>
            r.calls[..1 + |DeletePlan(PreservedVolumes(svc.reservations(instanceId)), instanceId)|]
              == [DescribeInstances(instanceId)] + DeletePlan(PreservedVolumes(svc.reservations(instanceId)), instanceId))
      && (r.status.Failed? ==> Terminate(instanceId) !in r.calls)
  {
    var vols := PreservedVolumes(svc.reservations(instanceId));
    var plan := DeletePlan(vols, instanceId);
    var r := CleanupRun(svc, start, instanceId);
    var lookup := RunAll(svc, start, [DescribeInstances(instanceId)]);
    var deletion := RunAll(svc, start + 1, plan);
    if lookup.status.Completed? && deletion.status.Failed? {
      DeletePlanCalls(vols, instanceId, deletion.calls);
      assert Terminate(instanceId) !in lookup.calls + deletion.calls;
    }
    if lookup.status.Completed? && deletion.status.Completed? {
      var termination := RunAll(svc, start + 1 + |deletion.calls|, TerminatePlan(instanceId));
      assert r.calls == ([DescribeInstances(instanceId)] + plan) + termination.calls;
      assert r.calls[..1 + |plan|] == [DescribeInstances(instanceId)] + plan;
    }
  }

  /**
   * A cleanup that completed described the instance, issued its whole
   * delete plan, then lifted the instance's termination protection.
   */
  lemma CompletedCleanup(svc: Services, start: nat, instanceId: string)
    requires CleanupRun(svc, start, instanceId).status.Completed?
    ensures var plan := DeletePlan(PreservedVolumes(svc.reservations(instanceId)), instanceId);
      var calls := CleanupRun(svc, start, instanceId).calls;
      && 1 + |plan| < |calls|
      && calls[..1 + |plan|] == [DescribeInstances(instanceId)] + plan
      && calls[1 + |plan|] == ClearTerminationProtection(instanceId)
  {
    var plan := DeletePlan(PreservedVolumes(svc.reservations(instanceId)), instanceId);
    var calls := CleanupRun(svc, start, instanceId).calls;
    RunAllSingle(svc, start, DescribeInstances(instanceId));
    var deletion := RunAll(svc, start + 1, plan);
    assert deletion.status.Completed? && deletion.calls == plan;
    var termination := RunAll(svc, start + 1 + |plan|, TerminatePlan(instanceId));
    assert termination.calls[0] == ClearTerminationProtection(instanceId) by {
      TerminateAfterProtectionLifted(svc, start + 1 + |plan|, instanceId);
    }
    var head := [DescribeInstances(instanceId)] + plan;
    assert calls == head + termination.calls;
    assert calls[|head|] == termination.calls[0];
  }

  /**
   * The cleanup sequence of the restore test, its calls numbered from
   * `start`: look up the preserved volumes, delete them, terminate.
   */
  method CleanUp(svc: Services, start: nat, instanceId: string) returns (r: Issued)
    ensures r == CleanupRun(svc, start, instanceId)
  {
    var lookup, vols := GetVolumeId(svc, start, instanceId);
    if lookup.status.Failed? {
      return lookup;
    }
    var deletion := DeleteVolumes(svc, start + 1, vols, instanceId);
    if deletion.status.Failed? {
      return Issued(deletion.status, lookup.calls + deletion.calls);
    }
    var terminated := TerminateInstance(svc, start + 1 + |deletion.calls|, instanceId);
    r := Issued(Completed, lookup.calls + deletion.calls + terminated);
    CleanupRunCompleted(svc, start, instanceId);
  }

  /** Once the lookup and the deletion complete, the cleanup goes on to the termination attempt and completes. */
  lemma CleanupRunCompleted(svc: Services, start: nat, instanceId: string)
    requires svc.raises(start, DescribeInstances(instanceId)).None?
    requires RunAll(svc, start + 1, DeletePlan(PreservedVolumes(svc.reservations(instanceId)), instanceId)).status.Completed?
    ensures var plan := DeletePlan(PreservedVolumes(svc.reservations(instanceId)), instanceId);
      CleanupRun(svc, start, instanceId)
        == Issued(Completed, [DescribeInstances(instanceId)] + plan + RunAll(svc, start + 1 + |plan|, TerminatePlan(instanceId)).calls)
  {
    var plan := DeletePlan(PreservedVolumes(svc.reservations(instanceId)), instanceId);
    RunAllSingle(svc, start, DescribeInstances(instanceId));
    assert RunAll(svc, start, [DescribeInstances(instanceId)]) == Issued(Completed, [DescribeInstances(instanceId)]);
    assert RunAll(svc, start + 1, plan) == Issued(Completed, plan);
  }

  /** The kinds of call the cleanup makes. */
  predicate IsCleanupAction(a: Action) {
    a.DescribeInstances? || a.DetachVolume? || a.WaitVolumesAvailable? || a.DeleteVolume?
    || a.ClearTerminationProtection? || a.Terminate?
  }

  /** Call `j` of `calls`, when it is a Terminate, comes right after the call that lifted the same instance's protection. */
  predicate GuardedAt(calls: seq<Action>, j: nat)
    requires j < |calls|
  {
    calls[j].Terminate? ==> 0 < j && calls[j - 1] == ClearTerminationProtection(calls[j].instanceId)
  }

  /** Every Terminate of `calls` comes right after the call that lifted the same instance's protection. */
  predicate TerminateGuarded(calls: seq<Action>) {
    forall j {:trigger GuardedAt(calls, j)} :: 0 <= j < |calls| ==> GuardedAt(calls, j)
  }

  /** A call sequence without a Terminate is guarded. */
  lemma NoTerminateGuarded(calls: seq<Action>)
    requires forall a :: a in calls ==> !a.Terminate?
    ensures TerminateGuarded(calls)
  {
    forall j | 0 <= j < |calls| ensures GuardedAt(calls, j) {
      assert calls[j] in calls;
    }
  }

  /** Guarded call sequences stay guarded when joined, unless the second starts with a Terminate. */
  lemma TerminateGuardedAppend(a: seq<Action>, b: seq<Action>)
    requires TerminateGuarded(a) && TerminateGuarded(b)
    requires b != [] ==> !b[0].Terminate?
    ensures TerminateGuarded(a + b)
  {
    var ab := a + b;
    forall j | 0 <= j < |ab| ensures GuardedAt(ab, j) {
      if j < |a| {
        assert GuardedAt(a, j);
        assert ab[j] == a[j];
        if 0 < j {
          assert ab[j - 1] == a[j - 1];
        }
      } else if j > |a| {
        assert GuardedAt(b, j - |a|);
        assert ab[j] == b[j - |a|] && ab[j - 1] == b[j - 1 - |a|];
      } else {
        assert ab[j] == b[0];
      }
    }
  }

  /** The cleanup makes only cleanup calls. */
  lemma CleanupActionsOnly(svc: Services, start: nat, instanceId: string)
    ensures forall a :: a in CleanupRun(svc, start, instanceId).calls ==> IsCleanupAction(a)
  {
    var r := CleanupRun(svc, start, instanceId);
    var lookup := RunAll(svc, start, [DescribeInstances(instanceId)]);
    if lookup.status.Completed? {
      var vols := PreservedVolumes(svc.reservations(instanceId));
      var deletion := RunAll(svc, start + 1, DeletePlan(vols, instanceId));
      DeletePlanCalls(vols, instanceId, deletion.calls);
      if deletion.status.Completed? {
        var termination := RunAll(svc, start + 1 + |deletion.calls|, TerminatePlan(instanceId));
        assert r.calls == lookup.calls + deletion.calls + termination.calls;
      }
    }
  }

  /** The cleanup terminates an instance only right after lifting that instance's termination protection. */
  lemma CleanupTerminateGuarded(svc: Services, start: nat, instanceId: string)
    ensures TerminateGuarded(CleanupRun(svc, start, instanceId).calls)
  {
    var plan := DeletePlan(PreservedVolumes(svc.reservations(instanceId)), instanceId);
    if svc.raises(start, DescribeInstances(instanceId)).None? && RunAll(svc, start + 1, plan).status.Completed? {
      CompletedCleanupRunGuarded(svc, start, instanceId);
    } else {
      CleanupRunFailed(svc, start, instanceId);
      NoTerminateGuarded(CleanupRun(svc, start, instanceId).calls);
    }
  }

  /** A completed lookup and deletion: the termination attempt that follows is guarded. */
  lemma CompletedCleanupRunGuarded(svc: Services, start: nat, instanceId: string)
    requires svc.raises(start, DescribeInstances(instanceId)).None?
    requires RunAll(svc, start + 1, DeletePlan(PreservedVolumes(svc.reservations(instanceId)), instanceId)).status.Completed?
    ensures TerminateGuarded(CleanupRun(svc, start, instanceId).calls)
  {
    var vols := PreservedVolumes(svc.reservations(instanceId));
    var plan := DeletePlan(vols, instanceId);
    CleanupRunCompleted(svc, start, instanceId);
    CompletedCleanupGuarded(CleanupRun(svc, start, instanceId).calls, vols, instanceId,
      RunAll(svc, start + 1 + |plan|, TerminatePlan(instanceId)).calls, svc, start + 1 + |plan|);
  }

  /** The lookup, a whole delete plan and a termination attempt: each termination right after its protection lift. */
  lemma CompletedCleanupGuarded(calls: seq<Action>, vols: seq<string>, instanceId: string, termination: seq<Action>, svc: Services, start: nat)
    requires termination == RunAll(svc, start, TerminatePlan(instanceId)).calls
    requires calls == [DescribeInstances(instanceId)] + DeletePlan(vols, instanceId) + termination
    ensures TerminateGuarded(calls)
  {
    var head := [DescribeInstances(instanceId)] + DeletePlan(vols, instanceId);
    TerminateAfterProtectionLifted(svc, start, instanceId);
    DeletePlanCalls(vols, instanceId, DeletePlan(vols, instanceId));
    NoTerminateGuarded(head);
    TerminateGuardedAppend(head, termination);
  }

  /**
   * When the lookup or the deletion raises, the cleanup fails after issuing
   * the lookup and part of the delete plan, and terminates nothing.
   */
  lemma CleanupRunFailed(svc: Services, start: nat, instanceId: string)
    requires !(svc.raises(start, DescribeInstances(instanceId)).None?
               && RunAll(svc, start + 1, DeletePlan(PreservedVolumes(svc.reservations(instanceId)), instanceId)).status.Completed?)
    ensures CleanupRun(svc, start, instanceId).status.Failed?
    ensures forall a :: a in CleanupRun(svc, start, instanceId).calls ==> IsCleanupAction(a) && !a.Terminate?
  {
    var describe := DescribeInstances(instanceId);
    var vols := PreservedVolumes(svc.reservations(instanceId));
    var deletion := RunAll(svc, start + 1, DeletePlan(vols, instanceId));
    RunAllSingle(svc, start, describe);
    if svc.raises(start, describe).None? {
      DeletePlanCalls(vols, instanceId, deletion.calls);
      assert CleanupRun(svc, start, instanceId).calls == [describe] + deletion.calls;
    }
  }

  /** The calls of a delete plan are cleanup calls, and none of them terminates anything. */
  lemma DeletePlanCalls(vols: seq<string>, instanceId: string, calls: seq<Action>)
    requires calls <= DeletePlan(vols, instanceId)
    ensures forall a :: a in calls ==> IsCleanupAction(a) && !a.Terminate?
  {
    var plan := DeletePlan(vols, instanceId);
    if vols != [] {
      DeletePlanLayout(vols, instanceId);
      forall k | 0 <= k < |calls| ensures IsCleanupAction(calls[k]) && !calls[k].Terminate? {
        assert calls[k] == plan[k];
        if k > |vols| {
          assert plan[k] == DeleteVolume(vols[k - |vols| - 1]);
        }
      }
    }
  }
}
