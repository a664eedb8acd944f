/** Apply-if-different reconciliation against the workload's replica count,
    which the external store owns. */
module Reconciler {

  /** How the replica store behaves during one reconcile call: the read of
      the current count can fail, and so can the patch that follows it. A
      failure is caught and changes nothing. */
  datatype Access = Healthy | ReadFails | PatchFails

  /** The store's replica count after the call, and whether a patch was sent. */
  datatype Reconciled = Reconciled(replicas: int, patchSent: bool)

  /** Read the current count; patch it to `desired` only when they differ. */
  function ScaleDeployment(current: int, desired: int, access: Access): (r: Reconciled)
    ensures r.patchSent <==> !access.ReadFails? && desired != current
    ensures access.Healthy? ==> r.replicas == desired
    ensures !access.Healthy? ==> r.replicas == current
  {
    match access
    case ReadFails => Reconciled(current, false)
    case _ =>
      if desired == current then Reconciled(current, false)
      else if access.Healthy? then Reconciled(desired, true)
      else Reconciled(current, true)
  }

  /** Once a call has succeeded, calling again with the same target sends no
      patch and leaves the count where it is, however the store behaves. */
  lemma ScaleDeploymentIdempotent(current: int, desired: int, access: Access)
    ensures ScaleDeployment(current, desired, Healthy).replicas == desired
    ensures var again := ScaleDeployment(ScaleDeployment(current, desired, Healthy).replicas, desired, access);
            !again.patchSent && again.replicas == desired
  {
  }

  /** The count and the number of state changes after reconciling to the same
      target once per element of `accesses`. */
  datatype Outcome = Outcome(replicas: int, changes: nat)

  function ReconcileRepeatedly(current: int, desired: int, accesses: seq<Access>): Outcome
    decreases |accesses|
  {
    if |accesses| == 0 then Outcome(current, 0)
    else
      var first := ScaleDeployment(current, desired, accesses[0]);
      var rest := ReconcileRepeatedly(first.replicas, desired, accesses[1..]);
      Outcome(rest.replicas, rest.changes + if first.replicas != current then 1 else 0)
  }

  /** Repeating the call with one target changes the store at most once:
      exactly once when the target differs and some call gets through, and
      the store then holds the target; otherwise it keeps its count. */
  lemma {:induction false} ReconcileChangesAtMostOnce(current: int, desired: int, accesses: seq<Access>)
    ensures ReconcileRepeatedly(current, desired, accesses).changes <= 1
    ensures ReconcileRepeatedly(current, desired, accesses).changes == 1
        <==> desired != current && Healthy in accesses
    ensures ReconcileRepeatedly(current, desired, accesses).replicas
         == if Healthy in accesses then desired else current
    decreases |accesses|
  {
    if |accesses| > 0 {
      var first := ScaleDeployment(current, desired, accesses[0]);
      ReconcileChangesAtMostOnce(first.replicas, desired, accesses[1..]);
      assert Healthy in accesses <==> accesses[0] == Healthy || Healthy in accesses[1..] by {
        assert accesses == [accesses[0]] + accesses[1..];
      }
    }
  }
}
