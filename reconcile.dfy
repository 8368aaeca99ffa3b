/**
 * The loop of `reconcile` over the annotated claims (cmd/reconcile.go, lines
 * 31-160): each claim is decided on its own and, on a resize, updated in
 * place; a skip or a failed update does not stop the claims after it.
 */
module Reconciler {
  import opened Claims
  import opened ResizeDecision

  /** What happened to one claim in a cycle. */
  datatype ClaimReport = ClaimReport(id: ClaimId, decision: Decision, updateFailed: bool)

  /** The claim as it stands after its decision has been carried out. */
  function AfterDecision(v: ClaimView, d: Decision): ClaimView {
    match d
    case Skip(_) => v
    case Resize(target, previousCapacity) => WithDesiredState(v, target, previousCapacity)
  }

  /**
   * One pass over the claims listed for this cycle, in order, against the
   * metrics fetched for it.
   */
  method Reconcile(claims: seq<Pvc>, metrics: map<ClaimId, VolumeMetrics>, env: Env)
    returns (reports: seq<ClaimReport>)
    requires forall i, j :: 0 <= i < j < |claims| ==> claims[i] != claims[j]
    modifies set i | 0 <= i < |claims| :: claims[i]
    ensures |reports| == |claims|
    ensures forall i :: 0 <= i < |claims| ==>
              && reports[i].id == claims[i].id
              && reports[i].decision == Decide(old(claims[i].View()), metrics, env)
              && claims[i].View() == AfterDecision(old(claims[i].View()), reports[i].decision)
              && reports[i].updateFailed == (reports[i].decision.Resize? && env.updateFails(claims[i].View()))
  {
    reports := [];
    var k := 0;
    while k < |claims|
      invariant 0 <= k <= |claims|
      invariant |reports| == k
      invariant forall i :: 0 <= i < k ==>
                  && reports[i].id == claims[i].id
                  && reports[i].decision == Decide(old(claims[i].View()), metrics, env)
                  && claims[i].View() == AfterDecision(old(claims[i].View()), reports[i].decision)
                  && reports[i].updateFailed == (reports[i].decision.Resize? && env.updateFails(claims[i].View()))
      invariant forall i :: k <= i < |claims| ==> claims[i].View() == old(claims[i].View())
    {
      var pvc := claims[k];
      var d := Decide(pvc.View(), metrics, env);
      var failed := false;
      if d.Resize? {
        failed := pvc.UpdateWithNewStorageSize(d.previousCapacity, d.target, env.updateFails);
      }
      reports := reports + [ClaimReport(pvc.id, d, failed)];
      k := k + 1;
    }
  }
}
