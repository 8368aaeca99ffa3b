/**
 * The per-claim resize decision of `reconcile` (cmd/reconcile.go, lines
 * 35-144): a fixed chain of gates, any of which skips the claim, followed by
 * the growth computation.
 */
module ResizeDecision {
  import opened Wrappers
  import opened Decimal
  import opened Growth
  import opened Claims

  /**
   * The collaborators whose code is not part of this model, each as the
   * outcome it delivers (`None` for an error return).
   */
  datatype Env = Env(
    // isStorageClassExpandable(ctx, client, name)
    storageClassExpandable: string -> Option<bool>,
    // isPVCResizable(&pvc) == nil
    isResizable: ClaimView -> bool,
    // convertPercentageToBytes(annotation, reference, default)
    toBytes: (string, Int64, string) -> Option<Int64>,
    // getPVCStorageCeiling(&pvc)
    storageCeiling: ClaimView -> Option<int>,
    // the API server's Update call returned an error
    updateFails: ClaimView -> bool)

  /** Why a claim was left alone, one per `continue` of the loop, plus the fall-through below threshold. */
  datatype SkipReason =
    | StorageClassLookupFailed
    | StorageClassNotExpandable
    | NotResizable
    | MetricsMissing
    | ThresholdInvalid
    | CapacityUnset
    | CapacityZero
    | IncreaseInvalid
    | PreviousCapacityInvalid
    | ResizePending
    | CeilingInvalid
    | CeilingReached
    | BelowThreshold

  /** Either a skip, or a resize to `target` recording `previousCapacity` as the marker. */
  datatype Decision = Skip(reason: SkipReason) | Resize(target: int, previousCapacity: Int64)

  /** The threshold in bytes, with the capacity reported by the metrics as the percentage reference. */
  function Threshold(v: ClaimView, m: VolumeMetrics, env: Env): Option<Int64> {
    env.toBytes(Annotation(v, ThresholdAnnotation), m.capacityBytes, DefaultThreshold)
  }

  /** The increase in bytes, with the status capacity as the percentage reference. */
  function Increase(v: ClaimView, capacity: Int64, env: Env): Option<Int64> {
    env.toBytes(Annotation(v, IncreaseAnnotation), capacity, DefaultIncrease)
  }

  /** The decision for one claim, gate by gate in the order of the loop body. */
  function Decide(v: ClaimView, metrics: map<ClaimId, VolumeMetrics>, env: Env): (d: Decision)
    ensures d.Resize? ==> v.id in metrics && d.previousCapacity == metrics[v.id].capacityBytes
    ensures d.Resize? ==> env.storageCeiling(v).Some? && d.target <= env.storageCeiling(v).value
    ensures d.Resize? ==> StatusCapacity(v).Some? && StatusCapacity(v).value < env.storageCeiling(v).value
    ensures d.Resize? ==> ReadMarker(v) != Marker(metrics[v.id].capacityBytes)
    ensures d.Resize? ==> Increase(v, StatusCapacity(v).value, env).Some?
    ensures d.Resize? && Increase(v, StatusCapacity(v).value, env).value > 0 ==>
              StatusCapacity(v).value < d.target
  {
    match env.storageClassExpandable(v.storageClassName)
    case None => Skip(StorageClassLookupFailed)
    case Some(expandable) =>
      if !expandable then Skip(StorageClassNotExpandable)
      else if !env.isResizable(v) then Skip(NotResizable)
      else if v.id !in metrics then Skip(MetricsMissing)
      else
        var m := metrics[v.id];
        match Threshold(v, m, env)
        case None => Skip(ThresholdInvalid)
        case Some(threshold) =>
          match StatusCapacity(v)
          case None => Skip(CapacityUnset)
          case Some(capacity) =>
            if capacity == 0 then Skip(CapacityZero)
            else
              match Increase(v, capacity, env)
              case None => Skip(IncreaseInvalid)
              case Some(increase) =>
                match ReadMarker(v)
                case BadMarker => Skip(PreviousCapacityInvalid)
                case _ =>
                  if ReadMarker(v) == Marker(m.capacityBytes) then Skip(ResizePending)
                  else
                    match env.storageCeiling(v)
                    case None => Skip(CeilingInvalid)
                    case Some(ceiling) =>
                      if capacity >= ceiling then Skip(CeilingReached)
                      else if m.usedBytes < threshold then Skip(BelowThreshold)
                      else Resize(NewStorageBytes(capacity, increase, ceiling), m.capacityBytes)
  }

  /**
   * Every gate before the usage check, written as one conjunction: the claim
   * is a candidate for a resize this cycle.
   */
  predicate GatesPass(v: ClaimView, metrics: map<ClaimId, VolumeMetrics>, env: Env) {
    && env.storageClassExpandable(v.storageClassName) == Some(true)
    && env.isResizable(v)
    && v.id in metrics
    && Threshold(v, metrics[v.id], env).Some?
    && StatusCapacity(v).Some? && StatusCapacity(v).value != 0
    && Increase(v, StatusCapacity(v).value, env).Some?
    && ReadMarker(v) != BadMarker
    && ReadMarker(v) != Marker(metrics[v.id].capacityBytes)
    && env.storageCeiling(v).Some?
    && StatusCapacity(v).value < env.storageCeiling(v).value
  }

  /**
   * A resize is issued exactly when every gate passes and the used bytes are
   * at or above the threshold; its target is the rounded, clamped growth of
   * the status capacity and its marker the capacity the metrics reported.
   */
  lemma ResizeIffGatesPassAndUsageReachesThreshold(v: ClaimView, metrics: map<ClaimId, VolumeMetrics>, env: Env)
    ensures Decide(v, metrics, env).Resize? <==>
              GatesPass(v, metrics, env) && metrics[v.id].usedBytes >= Threshold(v, metrics[v.id], env).value
    ensures Decide(v, metrics, env).Resize? ==>
              var capacity := StatusCapacity(v).value;
              Decide(v, metrics, env) == Resize(
                NewStorageBytes(capacity, Increase(v, capacity, env).value, env.storageCeiling(v).value),
                metrics[v.id].capacityBytes)
  {
  }

  /**
   * A storage class that cannot expand, or whose lookup fails, ends the
   * decision before anything else is looked at: the outcome is the same for
   * any metrics and any converters, ceilings or resizability checks.
   */
  lemma StorageClassGateComesFirst(v: ClaimView, metrics1: map<ClaimId, VolumeMetrics>, metrics2: map<ClaimId, VolumeMetrics>,
                                   env1: Env, env2: Env)
    requires env1.storageClassExpandable(v.storageClassName) == env2.storageClassExpandable(v.storageClassName)
    requires env1.storageClassExpandable(v.storageClassName) != Some(true)
    ensures Decide(v, metrics1, env1) == Decide(v, metrics2, env2)
    ensures Decide(v, metrics1, env1) ==
              if env1.storageClassExpandable(v.storageClassName).None? then Skip(StorageClassLookupFailed)
              else Skip(StorageClassNotExpandable)
  {
  }

  /** No metrics entry, no status capacity, or a zero status capacity: no resize. */
  lemma MissingMetricsOrCapacityNeverResizes(v: ClaimView, metrics: map<ClaimId, VolumeMetrics>, env: Env)
    requires v.id !in metrics || StatusCapacity(v).None? || StatusCapacity(v) == Some(0)
    ensures !Decide(v, metrics, env).Resize?
  {
  }

  /**
   * While the marker equals the capacity the metrics report, a resize is
   * still pending and none is issued, whatever the usage; a marker that is
   * not a decimal int64 skips the claim too.
   */
  lemma PendingOrBadMarkerNeverResizes(v: ClaimView, metrics: map<ClaimId, VolumeMetrics>, env: Env)
    requires v.id in metrics
    requires ReadMarker(v) == Marker(metrics[v.id].capacityBytes) || ReadMarker(v) == BadMarker
    ensures !Decide(v, metrics, env).Resize?
  {
  }

  /** At or above the ceiling no resize is issued, even when usage is above the threshold. */
  lemma CeilingReachedNeverResizes(v: ClaimView, metrics: map<ClaimId, VolumeMetrics>, env: Env)
    requires StatusCapacity(v).Some? && env.storageCeiling(v).Some?
    requires StatusCapacity(v).value >= env.storageCeiling(v).value
    ensures !Decide(v, metrics, env).Resize?
  {
  }

  /** Usage below the threshold never resizes. */
  lemma BelowThresholdNeverResizes(v: ClaimView, metrics: map<ClaimId, VolumeMetrics>, env: Env)
    requires v.id in metrics && Threshold(v, metrics[v.id], env).Some?
    requires metrics[v.id].usedBytes < Threshold(v, metrics[v.id], env).value
    ensures !Decide(v, metrics, env).Resize?
  {
  }

  /**
   * The target of a resize: at most the ceiling; equal to the ceiling exactly
   * when the gibibyte round-up reached it; otherwise the least multiple of
   * a gibibyte at or above capacity plus increase.
   */
  lemma ResizeTargetIsRoundedAndClamped(v: ClaimView, metrics: map<ClaimId, VolumeMetrics>, env: Env)
    requires Decide(v, metrics, env).Resize?
    ensures var d := Decide(v, metrics, env);
      var capacity := StatusCapacity(v).value;
      var wanted := capacity + Increase(v, capacity, env).value;
      var ceiling := env.storageCeiling(v).value;
      && d.target <= ceiling
      && (d.target == ceiling <==> RoundUpToGiB(wanted) >= ceiling)
      && (d.target < ceiling ==>
            GiBAligned(d.target) && wanted <= d.target
            && forall m :: GiBAligned(m) && wanted <= m ==> d.target <= m)
  {
  }

  /**
   * Once the desired state of a resize is written, no second resize is issued
   * for as long as the metrics report the same capacity: the marker reads
   * back as that capacity, so the claim is either held as pending or skipped
   * by an earlier gate.
   */
  lemma NoSecondResizeWhilePending(v: ClaimView, metrics: map<ClaimId, VolumeMetrics>, env: Env,
                                   later: map<ClaimId, VolumeMetrics>, laterEnv: Env)
    requires Decide(v, metrics, env).Resize?
    requires v.id in later && later[v.id].capacityBytes == metrics[v.id].capacityBytes
    ensures var d := Decide(v, metrics, env);
            !Decide(WithDesiredState(v, d.target, d.previousCapacity), later, laterEnv).Resize?
  {
    var d := Decide(v, metrics, env);
    var w := WithDesiredState(v, d.target, d.previousCapacity);
    DesiredStateChangesOnlyRequestAndMarker(v, d.target, d.previousCapacity);
    assert ReadMarker(w) == Marker(later[w.id].capacityBytes);
  }
}
