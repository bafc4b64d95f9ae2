# Tortoise HPA client: recommendation-to-HPA update, in Dafny

This project models the logic at the core of `pkg/hpa/client.go` of Tortoise.
That code turns a Tortoise's HPA recommendations into an update of a
`HorizontalPodAutoscaler` spec. It has three parts:

- **Replica window selection** (`getReplicasRecommendation`). The input is a list of
  replica recommendations, each valid over a half-open time interval
  `[From, To)`. The result is the value of the first recommendation whose interval
  contains `now`. If none contains it, the result is a "no recommendation slot" error.
- **Metric target synchronisation** (`updateHPATargetValue`). This makes two passes
  over the HPA's metric list.
  - The first pass writes a utilization target into every `ContainerResource`
    entry that names the container, names the resource, and already has a
    utilization target.
  - Next, a prefix is chosen. For `cpu` it is the CPU prefix annotation; for
    `memory` it is the memory prefix annotation. Any other resource is an error.
  - The second pass writes the target value into every `External` entry named
    `prefix + container`.
- **Orchestration** (the middle of `UpdateHPAFromTortoiseRecommendation`). Every
  recommended (container, resource, utilization) target is applied in turn. Then
  the minimum and maximum replica counts are selected at `now` and set on the spec.

Modules:

- `Wrappers` (wrappers.dfy): `Option` stands for a nil pointer; `Result` stands for a Go `error` return.
- `HpaTypes` (hpa_types.dfy): `Int32`, and the `Metric` sum type
  (`ContainerResourceMetric` | `ExternalMetric` | `OtherMetric`). A nil source
  pointer is `None`. The module also holds `Hpa`, `HpaError`, and `SameShape`,
  which says that only a target value changed.
- `Naming` (naming.dfy): `TortoiseVPAName`.
- `Replicas` (replicas.dfy): window selection.
- `TargetValue` (target_value.dfy): the two passes, the prefix choice, and `updateHPATargetValue`.
- `Recommendation` (recommendation.dfy): the orchestration, and a reference
  definition of "last write wins" with a proof that the orchestration meets it.

In Go, the update writes through the `ContainerResource` and `External` pointers.
So the writes reach the HPA even though the loop variable is a copy. The model
therefore treats each pass as an in-place update of list elements: it returns
the whole list, with the same length and order. A call that fails still returns
the HPA, holding the effect of the passes that ran before the failure
(`TargetUpdate`).

Further facts about the code that the model keeps:

- When no window contains `now`, the error is "no recommendation slot" (`NoRecommendationSlot`, pkg/hpa/client.go:79).
- A nil source pointer is logged and skipped (pkg/hpa/client.go:88-91, 117-120). The model skips it.
- Windows with `From > To` are accepted, because the code does not check them. Such a window contains no instant.
- A failed target update drops its cause (`UpdateFromRecommendation`, pkg/hpa/client.go:52).
  The two replica lookups keep theirs (`GetMinReplicas(cause)`, `GetMaxReplicas(cause)`, pkg/hpa/client.go:59, 65).
- The containers are processed in slice order, and each container's resources are processed in turn.
  When two targets address the same external entry, the call order decides the value.

## Model

| member | source | states |
|---|---|---|
| Naming.TortoiseVPAName | pkg/hpa/client.go:29-33 | the name is the prefix "tortoise-hpa-" followed by the Tortoise name: its first 13 characters are the prefix and the rest is the name |
| Naming.TortoiseVPANameInjective | pkg/hpa/client.go:29-33 | two Tortoises with different names never get the same HPA name |
| Replicas.GetReplicasRecommendation | pkg/hpa/client.go:73-80 | succeeds exactly when some window contains `now`; the value is that of the first window in slice order with From <= now < To; otherwise the error is "no recommendation slot" |
| Replicas.UniqueWindowSelected | pkg/hpa/client.go:73-80 | when exactly one window contains `now`, its value is selected wherever it sits in the list |
| Replicas.NonOverlappingSelectsCovering | pkg/hpa/client.go:73-80 | for pairwise non-overlapping windows, any window containing `now` is the one selected |
| Replicas.BoundaryInstants | pkg/hpa/client.go:75 | `now == From` selects the window; `now == To` does not, and selection falls through to the later windows |
| Replicas.TwoWindowExample | pkg/hpa/client.go:73-80 | windows [0,10)->2 and [10,20)->5 give 5 at instant 12 and the error at instant 25 |
| TargetValue.UpdateContainerResources | pkg/hpa/client.go:83-99 | an entry gets the target utilization exactly when it is a non-nil container-resource entry for that container and resource that already has a utilization; every other entry, including nil and other-type entries, is unchanged; length, order and names are kept |
| TargetValue.PrefixFor | pkg/hpa/client.go:101-109 | cpu reads the CPU prefix annotation, memory reads the memory one, and a missing annotation gives ""; any other resource is a NonSupportedResource error |
| TargetValue.ExternalMetricName | pkg/hpa/client.go:110 | the external name is the prefix followed directly by the container name |
| TargetValue.ExternalMetricNameExample | pkg/hpa/client.go:110 | "external-cpu-" and "app" give "external-cpu-app" |
| TargetValue.UpdateExternals | pkg/hpa/client.go:112-128 | every non-nil external entry with exactly that metric name gets the target value; all other entries, including nil ones, are unchanged; length, order and names are kept |
| TargetValue.UpdateHPATargetValue | pkg/hpa/client.go:82-131 | only the metric list changes; it fails exactly for a resource other than cpu or memory; matching container-resource entries always get the target; matching external entries get it only for a supported resource; every other entry is unchanged |
| TargetValue.UnsupportedResourcePartialEffect | pkg/hpa/client.go:83-109 | for an unsupported resource the call fails, every external entry is untouched, and the container-resource pass has still been applied |
| TargetValue.UpdateContainerResourcesIdempotent | pkg/hpa/client.go:83-99 | running the container-resource pass twice equals running it once |
| TargetValue.UpdateExternalsIdempotent | pkg/hpa/client.go:112-128 | running the external pass twice equals running it once |
| TargetValue.PassesCommute | pkg/hpa/client.go:83-128 | the two passes touch disjoint entries, so they commute |
| TargetValue.UpdateHPATargetValueIdempotent | pkg/hpa/client.go:82-131 | applying the same (container, resource, target) twice gives the same HPA and error as applying it once |
| TargetValue.CpuTargetExample | pkg/hpa/client.go:82-131 | with CPU prefix "cpu-", target 80 for "app" updates both the CPU entry of "app" and the external entry "cpu-app" |
| Recommendation.FlattenMembers | pkg/hpa/client.go:49-51 | the update calls are exactly the (container, resource, utilization) triples of the recommendations |
| Recommendation.FlattenSingle | pkg/hpa/client.go:50-51 | for one container the calls are its resources in iteration order, each with the container's name |
| Recommendation.FlattenAppend | pkg/hpa/client.go:49-51 | the calls for earlier containers in the slice all come before those for later ones; this with FlattenSingle fixes the whole call order |
| Recommendation.LaterContainerWinsExample | pkg/hpa/client.go:49-55 | with CPU prefix "a" and memory prefix "ab", containers "bc" (cpu 10) then "c" (memory 20) both address external entry "abc", and the later one leaves 20 |
| Recommendation.ApplyTargets | pkg/hpa/client.go:49-55 | succeeds exactly when every target names cpu or memory, and otherwise fails with the cause dropped; on success annotations and replica bounds are unchanged, and the metric list keeps its length and every entry's shape |
| Recommendation.UnsupportedTargetFails | pkg/hpa/client.go:49-53 | a recommended utilization for a resource other than cpu or memory, in any container, makes the whole update fail with the target-update error |
| Recommendation.ApplyTargetsLastWriteWins | pkg/hpa/client.go:49-55 | after success, each entry holds the value of the last target that addresses it, by an independent last-to-first definition; an entry no target addresses is unchanged |
| Recommendation.UpdateHPAFromTortoiseRecommendation | pkg/hpa/client.go:49-67 | an unsupported target fails the update first; then a missing minimum window fails it, then a missing maximum window; success happens exactly when none of these occurs, and then MinReplicas and MaxReplicas are the first-match window values at `now` and the metrics are those the targets produced |

## Left out

- The Kubernetes client I/O is not modelled: `Client`, `New`, `GetHPAOnTortoise`, and the `Get` and `Update` calls (pkg/hpa/client.go:21-27, 35-47, 45, 69). These are API-server plumbing. A `Success` result of the orchestration is the HPA that would be passed to `Update`. The `Get` error is wrapped with context (pkg/hpa/client.go:46), and the `Update` error is returned together with the HPA (pkg/hpa/client.go:69). Neither is modelled.
- `klog` logging of nil source pointers (pkg/hpa/client.go:90, 119) is not modelled. Such entries are skipped, which is all the code does besides logging.
- The annotation keys come from `pkg/annotation`, which is not part of this model. They are a parameter (`AnnotationKeys`) rather than fixed strings.
- TargetValue.UpdateExternals: `Target.Value` is a plain integer here. In Go a nil `Target.Value` on a matching external entry makes `Set` panic (pkg/hpa/client.go:127). The model has no such panic.
- `time.Time` is an integer instant, and `resource.Quantity` is an exact integer. The `int32` to `int64` conversion at pkg/hpa/client.go:127 is exact, so it needs no explicit modelling.
- Go fixes no order for iterating the `TargetUtilization` map (pkg/hpa/client.go:50). The model takes one iteration order as a sequence. No result is claimed to be independent of that order. When two targets address the same entry, the later one wins (see `Recommendation.ApplyTargetsLastWriteWins`).
- Error message text and wrapping are not modelled. The errors are variants of `HpaError`.
- On failure `getReplicasRecommendation` also returns the value 0. The model's `Failure` carries no value, because every caller ignores it.
- Metric target fields other than `AverageUtilization` and `Value` are not modelled. Neither pass reads or writes them.
