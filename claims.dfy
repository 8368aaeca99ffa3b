/**
 * The PersistentVolumeClaim fields the resize decision reads and the two it
 * writes: the storage request and the `previous_capacity` annotation.
 */
module Claims {
  import opened Wrappers
  import opened Decimal

  /** corev1.ResourceStorage, the key of the storage quantity in requests and status capacity. */
  const ResourceStorage: string := "storage"

  /** Annotation names the autoscaler reads (the prefix the deployment uses is not part of this model). */
  const ThresholdAnnotation: string := "threshold"
  const IncreaseAnnotation: string := "increase"
  const PreviousCapacityAnnotation: string := "previous_capacity"

  /** Defaults passed to the percentage converter. */
  const DefaultThreshold: string := "80%"
  const DefaultIncrease: string := "20%"

  /** types.NamespacedName: the key of the metrics map. */
  datatype ClaimId = ClaimId(namespace: string, name: string)

  /** Metrics of one volume: VolumeUsedBytes and VolumeCapacityBytes, both int64. */
  datatype VolumeMetrics = VolumeMetrics(usedBytes: Int64, capacityBytes: Int64)

  /**
   * A claim as the decision sees it. Quantities are byte counts: status
   * capacity as `Quantity.Value()` (an int64), requests as exact quantities.
   */
  datatype ClaimView = ClaimView(
    id: ClaimId,
    storageClassName: string,
    annotations: map<string, string>,
    requests: map<string, int>,
    statusCapacity: map<string, Int64>)

  /** `pvc.Annotations[key]`: Go yields the empty string for a missing key. */
  function Annotation(v: ClaimView, key: string): string {
    if key in v.annotations then v.annotations[key] else ""
  }

  /** `pvc.Status.Capacity[corev1.ResourceStorage]`, with `None` when it is not set. */
  function StatusCapacity(v: ClaimView): Option<Int64> {
    if ResourceStorage in v.statusCapacity then Some(v.statusCapacity[ResourceStorage]) else None
  }

  /** What the `previous_capacity` annotation says. */
  datatype Marker = NoMarker | BadMarker | Marker(bytes: Int64)

  function ReadMarker(v: ClaimView): (m: Marker)
    ensures m.NoMarker? <==> PreviousCapacityAnnotation !in v.annotations
    ensures m.BadMarker? <==> PreviousCapacityAnnotation in v.annotations && ParseInt(v.annotations[PreviousCapacityAnnotation]).None?
    ensures m.Marker? ==> m.bytes == ParseInt(v.annotations[PreviousCapacityAnnotation]).value
  {
    if PreviousCapacityAnnotation !in v.annotations then NoMarker
    else match ParseInt(v.annotations[PreviousCapacityAnnotation])
      case None => BadMarker
      case Some(x) => Marker(x)
  }

  /**
   * The claim after `updatePVCWithNewStorageSize` has written its desired
   * state: the storage request is the target and `previous_capacity` is the
   * decimal form of the capacity the metrics reported before the resize.
   */
  function WithDesiredState(v: ClaimView, target: int, capacityBytes: Int64): ClaimView {
    v.(requests := v.requests[ResourceStorage := target],
       annotations := v.annotations[PreviousCapacityAnnotation := FormatInt(capacityBytes)])
  }

  /**
   * Writing the desired state changes the storage request and the marker and
   * nothing else, and the marker reads back as the capacity it recorded.
   */
  lemma DesiredStateChangesOnlyRequestAndMarker(v: ClaimView, target: int, capacityBytes: Int64)
    ensures var w := WithDesiredState(v, target, capacityBytes);
      && w.id == v.id
      && w.storageClassName == v.storageClassName
      && w.statusCapacity == v.statusCapacity
      && w.requests.Keys == v.requests.Keys + {ResourceStorage}
      && w.requests[ResourceStorage] == target
      && (forall k :: k in v.requests && k != ResourceStorage ==> w.requests[k] == v.requests[k])
      && w.annotations.Keys == v.annotations.Keys + {PreviousCapacityAnnotation}
      && (forall k :: k in v.annotations && k != PreviousCapacityAnnotation ==> w.annotations[k] == v.annotations[k])
      && ReadMarker(w) == Marker(capacityBytes)
  {
    FormatParseRoundTrip(capacityBytes);
  }

  /** A claim object, whose request and annotation maps are updated in place. */
  class Pvc {
    const id: ClaimId
    const storageClassName: string
    const statusCapacity: map<string, Int64>
    var annotations: map<string, string>
    var requests: map<string, int>

    constructor (id: ClaimId, storageClassName: string, statusCapacity: map<string, Int64>,
                 annotations: map<string, string>, requests: map<string, int>)
      ensures View() == ClaimView(id, storageClassName, annotations, requests, statusCapacity)
    {
      this.id := id;
      this.storageClassName := storageClassName;
      this.statusCapacity := statusCapacity;
      this.annotations := annotations;
      this.requests := requests;
    }

    function View(): ClaimView
      reads this
    {
      ClaimView(id, storageClassName, annotations, requests, statusCapacity)
    }

    /**
     * `updatePVCWithNewStorageSize`: set the storage request to `newStorageBytes`,
     * record `capacityBytes` in decimal as `previous_capacity`, then send the
     * claim to the API server. `updateFails` stands for that call's outcome;
     * the object is changed whether or not the call succeeds.
     */
    method UpdateWithNewStorageSize(capacityBytes: Int64, newStorageBytes: int, updateFails: ClaimView -> bool)
      returns (failed: bool)
      modifies this
      ensures View() == WithDesiredState(old(View()), newStorageBytes, capacityBytes)
      ensures failed == updateFails(View())
    {
      requests := requests[ResourceStorage := newStorageBytes];
      annotations := annotations[PreviousCapacityAnnotation := FormatInt(capacityBytes)];
      failed := updateFails(View());
    }
  }
}
