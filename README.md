# pvc-autoscaler: the resize decision

This project models the core of pvc-autoscaler, a controller that grows Kubernetes
PersistentVolumeClaims as they fill up. Each cycle, `reconcile` walks the annotated claims.
For each claim it runs a fixed chain of gates, and any gate can skip the claim:

1. The storage class must allow expansion.
2. The claim must be resizable.
3. Metrics must exist for the claim.
4. The threshold annotation must convert to bytes.
5. The status capacity must be set and non-zero.
6. The increase annotation must convert to bytes.
7. The `previous_capacity` marker must be valid and must not equal the reported capacity.
8. The ceiling must be readable and above the status capacity.
9. Usage must have reached the threshold.

When every gate passes, the claim's storage request becomes capacity plus increase, rounded up
to a whole gibibyte and clamped to the ceiling. The capacity the metrics reported is written to
`previous_capacity` in decimal. The next cycle compares that marker with the metrics so that it
does not issue a second resize while the first is still pending.

Modules:

- `Wrappers`: `Option`.
- `Decimal`: `strconv.FormatInt`/`strconv.ParseInt` in base 10 over int64, and their round trip.
- `Growth`: the gibibyte round-up and the ceiling clamp.
- `Claims`: the claim as a value (`ClaimView`) and as an object updated in place (`Pvc`), the
  marker reading, and the desired-state write.
- `ResizeDecision`: the collaborators as an `Env` of outcomes, the gate chain `Decide`, and its
  safety lemmas.
- `Reconciler`: the loop over the claims.

Points of the code the model keeps as written:

- The threshold percentage uses the capacity reported by the metrics as its reference
  (cmd/reconcile.go:78). The increase percentage uses the status capacity (cmd/reconcile.go:97).
- After the clamp, nothing checks that the target is above the status capacity
  (cmd/reconcile.go:140-146). Growth is guaranteed only when the increase is positive
  (`ResizeDecision.Decide`, `Growth.NewStorageBytes`). An increase of zero on a
  gibibyte-aligned capacity asks for the same size again.
- The storage class and resizability are checked before any annotation is converted. A ceiling
  that cannot be obtained skips the claim (cmd/reconcile.go:119-126).

## Model

| member | source | states |
|---|---|---|
| `Decimal.FormatParseRoundTrip` | cmd/reconcile.go:170 | the decimal marker `Decimal.FormatInt` (strconv.FormatInt) writes for any int64 is read back by `Decimal.ParseInt` (strconv.ParseInt, line 108) as the same int64 |
| `Decimal.FormatIntInjective` | cmd/reconcile.go:170 | different capacities are never recorded as the same marker |
| `Decimal.ParseIntAcceptsOnlyDecimal` | cmd/reconcile.go:108-112 | `Decimal.ParseInt` accepts a marker only when it is an optional sign followed by one or more digits whose value fits an int64, and returns that signed value (the converse is `Decimal.ParseIntAcceptsEveryDecimal`) |
| `Decimal.ParseIntAcceptsEveryDecimal` | cmd/reconcile.go:108 | every optionally signed run of digits whose value fits an int64 parses to that signed value |
| `Decimal.Digits` | cmd/reconcile.go:170 | the digits written are non-empty, all decimal, and have no leading zero |
| `Growth.RoundUpToGiB` | cmd/reconcile.go:140 | the rounded size is a multiple of 2^30, at least the requested size, and less than one GiB above it |
| `Growth.RoundUpIsLeast` | cmd/reconcile.go:140 | no multiple of 2^30 lies between the requested size and the rounded size |
| `Growth.ClampToCeiling` | cmd/reconcile.go:142-144 | the result is at most the ceiling; it equals the ceiling exactly when the candidate reached it; a candidate within the ceiling is kept |
| `Growth.NewStorageBytes` | cmd/reconcile.go:140-144 | the new size is at most the ceiling; it equals the ceiling exactly when the round-up of capacity plus increase reaches it, and is that aligned round-up otherwise; below the ceiling and with a non-negative increase it never shrinks, and it grows when the increase is positive |
| `Claims.ReadMarker` | cmd/reconcile.go:106-112 | the marker is absent exactly when the annotation is missing, invalid exactly when the annotation is not a decimal int64, and otherwise carries the parsed value |
| `Claims.DesiredStateChangesOnlyRequestAndMarker` | cmd/reconcile.go:168-170 | `Claims.WithDesiredState` changes only the storage request, which becomes the target, and `previous_capacity`, which reads back as the recorded capacity |
| `Claims.Pvc.UpdateWithNewStorageSize` | cmd/reconcile.go:165-180 | the object afterwards is the desired state of its old value; the reported failure is the update call's outcome |
| `ResizeDecision.Decide` | cmd/reconcile.go:35-144 | a resize targets at most the ceiling; it happens only with metrics, a status capacity below the ceiling, a valid increase, and no pending marker; its marker is the capacity the metrics reported; with a positive increase the target is above the status capacity |
| `ResizeDecision.ResizeIffGatesPassAndUsageReachesThreshold` | cmd/reconcile.go:35-144 | a resize is issued if and only if every gate passes and usage is at or above the threshold; its target and marker are the clamped growth and the reported capacity |
| `ResizeDecision.StorageClassGateComesFirst` | cmd/reconcile.go:35-52 | a failed lookup or a non-expandable storage class skips the claim, whatever the metrics, converters, ceiling or resizability |
| `ResizeDecision.MissingMetricsOrCapacityNeverResizes` | cmd/reconcile.go:70-95 | missing metrics, an unset status capacity, or a zero status capacity never leads to a resize |
| `ResizeDecision.PendingOrBadMarkerNeverResizes` | cmd/reconcile.go:106-117 | a marker equal to the reported capacity, or an unparsable marker, means no resize, whatever the usage |
| `ResizeDecision.CeilingReachedNeverResizes` | cmd/reconcile.go:119-133 | a status capacity at or above the ceiling means no resize, even when usage is above the threshold |
| `ResizeDecision.BelowThresholdNeverResizes` | cmd/reconcile.go:135-136 | usage below the threshold means no resize |
| `ResizeDecision.ResizeTargetIsRoundedAndClamped` | cmd/reconcile.go:140-144 | the target is at most the ceiling and equals it exactly when the round-up reached it; otherwise it is the least multiple of 2^30 at or above capacity plus increase |
| `ResizeDecision.NoSecondResizeWhilePending` | cmd/reconcile.go:113-115 | after a resize's desired state is written, no further resize is issued while the metrics report the same capacity |
| `Reconciler.Reconcile` | cmd/reconcile.go:31-160 | every listed claim is decided from its own state at the start of the cycle; resized claims take their desired state and skipped claims stay unchanged; a skip or failed update does not stop later claims |

## Left out

- Listing the annotated claims (`getAnnotatedPVCs`, line 18) and fetching metrics (`FetchPVCsMetrics`, line 24) are network I/O. The claims and the metrics map are inputs, so the early returns at lines 20 and 27 are not modelled.
- `isStorageClassExpandable`, `isPVCResizable`, `convertPercentageToBytes` and `getPVCStorageCeiling` are not part of this model. They are fields of `ResizeDecision.Env` that give their outcomes, with `None` for an error. The update call at line 173 is `Env.updateFails`.
- Logging (logrus) and `context` have no effect on the decision. This includes the "pvc resized" message, which is logged even after a failed update.
- `Growth.RoundUpToGiB` computes exactly in integers. The source converts capacity plus increase to float64 before `math.Ceil`, which can lose precision above 2^53 bytes.
- `Growth.NewStorageBytes` uses unbounded integers. In the source, capacity plus increase and the final `<< 30` are int64 and wrap above about 2^63 bytes.
- Quantities are byte counts. `Quantity.Value()` is an int64, and `Cmp` is integer comparison.
- The annotation names' common prefix and `DefaultThreshold`/`DefaultIncrease` are defined in files not part of this model. The model uses the bare names `threshold`, `increase` and `previous_capacity`, and the defaults "80%" and "20%". The decision does not depend on the spelling of these strings.
- Line 36 dereferences `Spec.StorageClassName` without a nil check, line 168 writes into the requests map and line 170 writes into the annotation map. The model takes the name and both maps as present, so it does not model the panic a claim without them would cause.
- `Reconciler.Reconcile` requires the listed claims to be distinct objects. Each item of a Kubernetes list is its own claim.
