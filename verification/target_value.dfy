/** updateHPATargetValue: writes one recommended target value into every HPA
    metric entry that refers to a given (container, resource) pair, first into
    the container-resource entries, then into the external entries whose name
    is derived from an annotation prefix and the container name. */
module TargetValue {
  import opened Wrappers
  import opened HpaTypes

  /** The container-resource pass rewrites this entry: a well-formed
      container-resource entry for `container` and resource `k` that already
      has a utilization target. */
  predicate TargetsUtilization(m: Metric, container: string, k: ResourceName) {
    && m.ContainerResourceMetric?
    && m.containerResource.Some?
    && m.containerResource.value.container == container
    && m.containerResource.value.name == k
    && m.containerResource.value.averageUtilization.Some?
  }

  /** The external pass rewrites this entry: a well-formed external entry whose
      metric name is `name`. */
  predicate IsExternalNamed(m: Metric, name: string) {
    m.ExternalMetric? && m.external.Some? && m.external.value.metricName == name
  }

  /** One iteration of the container-resource loop. Entries of another type are
      skipped, a nil source is logged and skipped, a mismatch is skipped. */
  function SetUtilization(m: Metric, container: string, k: ResourceName, target: Int32): Metric {
    match m
    case ContainerResourceMetric(None) => m
    case ContainerResourceMetric(Some(cr)) =>
      if cr.container != container || cr.name != k || cr.averageUtilization.None? then m
      else ContainerResourceMetric(Some(cr.(averageUtilization := Some(target))))
    case _ => m
  }

  /** The container-resource pass over the whole metric list. */
  function UpdateContainerResources(ms: seq<Metric>, container: string, k: ResourceName, target: Int32)
    : (r: seq<Metric>)
    ensures |r| == |ms|
    ensures forall i :: 0 <= i < |ms| ==> SameShape(ms[i], r[i])
    ensures forall i :: 0 <= i < |ms| && TargetsUtilization(ms[i], container, k) ==>
              UtilizationOf(r[i]) == Some(target)
    ensures forall i :: 0 <= i < |ms| && !TargetsUtilization(ms[i], container, k) ==> r[i] == ms[i]
  {
    if |ms| == 0 then []
    else [SetUtilization(ms[0], container, k, target)] + UpdateContainerResources(ms[1..], container, k, target)
  }

  /** One iteration of the external loop. Entries of another type are skipped,
      a nil source is logged and skipped, another name is skipped. */
  function SetExternalValue(m: Metric, name: string, target: Int32): Metric {
    match m
    case ExternalMetric(None) => m
    case ExternalMetric(Some(e)) =>
      if e.metricName != name then m
      else ExternalMetric(Some(e.(value := target)))
    case _ => m
  }

  /** The external pass over the whole metric list. */
  function UpdateExternals(ms: seq<Metric>, name: string, target: Int32): (r: seq<Metric>)
    ensures |r| == |ms|
    ensures forall i :: 0 <= i < |ms| ==> SameShape(ms[i], r[i])
    ensures forall i :: 0 <= i < |ms| && IsExternalNamed(ms[i], name) ==> ExternalValueOf(r[i]) == Some(target as int)
    ensures forall i :: 0 <= i < |ms| && !IsExternalNamed(ms[i], name) ==> r[i] == ms[i]
  {
    if |ms| == 0 then []
    else [SetExternalValue(ms[0], name, target)] + UpdateExternals(ms[1..], name, target)
  }

  /** A Go map lookup: a missing key reads as the empty string. */
  function Lookup(annotations: map<string, string>, key: string): string {
    if key in annotations then annotations[key] else ""
  }

  /** The external metric name prefix for resource `k`: the value of the CPU or
      memory prefix annotation, or an error for any other resource. */
  function PrefixFor(annotations: map<string, string>, keys: AnnotationKeys, k: ResourceName)
    : (r: Result<string, HpaError>)
    ensures r.Failure? <==> !IsSupportedResource(k)
    ensures r.Failure? ==> r.error == NonSupportedResource(k)
    ensures k == ResourceCpu && keys.cpu in annotations ==> r == Success(annotations[keys.cpu])
    ensures k == ResourceMemory && keys.memory in annotations ==> r == Success(annotations[keys.memory])
    ensures k == ResourceCpu && keys.cpu !in annotations ==> r == Success("")
    ensures k == ResourceMemory && keys.memory !in annotations ==> r == Success("")
  {
    if k == ResourceCpu then Success(Lookup(annotations, keys.cpu))
    else if k == ResourceMemory then Success(Lookup(annotations, keys.memory))
    else Failure(NonSupportedResource(k))
  }

  /** The external metric that mirrors a container's resource: the prefix
      followed by the container name, with no separator. */
  function ExternalMetricName(prefix: string, container: string): (r: string)
    ensures |r| == |prefix| + |container|
    ensures r[..|prefix|] == prefix && r[|prefix|..] == container
  {
    prefix + container
  }

  lemma ExternalMetricNameExample()
    ensures ExternalMetricName("external-cpu-", "app") == "external-cpu-app"
  {
  }

  /** The HPA after the call together with the error it returned, if any: the
      Go function mutates the HPA in place, so a failing call still leaves the
      effect of the passes that ran before the failure. */
  datatype TargetUpdate = TargetUpdate(hpa: Hpa, err: Option<HpaError>)

  /** The external metric name the call targets, for a supported resource. */
  function TargetedExternalName(hpa: Hpa, keys: AnnotationKeys, container: string, k: ResourceName): string
    requires IsSupportedResource(k)
  {
    ExternalMetricName(PrefixFor(hpa.annotations, keys, k).value, container)
  }

  /** updateHPATargetValue. */
  function UpdateHPATargetValue(hpa: Hpa, keys: AnnotationKeys, container: string, k: ResourceName, target: Int32)
    : (r: TargetUpdate)
    // only the metric list changes, and it keeps its length and the shape of every entry
    ensures r.hpa.annotations == hpa.annotations
    ensures r.hpa.minReplicas == hpa.minReplicas && r.hpa.maxReplicas == hpa.maxReplicas
    ensures |r.hpa.metrics| == |hpa.metrics|
    ensures forall i :: 0 <= i < |hpa.metrics| ==> SameShape(hpa.metrics[i], r.hpa.metrics[i])
    // an error exactly for a resource other than CPU and memory
    ensures r.err.Some? <==> !IsSupportedResource(k)
    ensures r.err.Some? ==> r.err.value == NonSupportedResource(k)
    // the container-resource pass always runs
    ensures forall i :: 0 <= i < |hpa.metrics| && TargetsUtilization(hpa.metrics[i], container, k) ==>
              UtilizationOf(r.hpa.metrics[i]) == Some(target)
    // the external pass runs only for a supported resource
    ensures IsSupportedResource(k) ==>
              forall i :: 0 <= i < |hpa.metrics| && IsExternalNamed(hpa.metrics[i], TargetedExternalName(hpa, keys, container, k)) ==>
                ExternalValueOf(r.hpa.metrics[i]) == Some(target as int)
    // every other entry is left as it was
    ensures forall i ::
              (&& 0 <= i < |hpa.metrics|
               && !TargetsUtilization(hpa.metrics[i], container, k)
               && !(IsSupportedResource(k) && IsExternalNamed(hpa.metrics[i], TargetedExternalName(hpa, keys, container, k))))
              ==> r.hpa.metrics[i] == hpa.metrics[i]
  {
    var afterContainerResources := hpa.(metrics := UpdateContainerResources(hpa.metrics, container, k, target));
    match PrefixFor(hpa.annotations, keys, k)
    case Failure(e) => TargetUpdate(afterContainerResources, Some(e))
    case Success(prefix) =>
      var name := ExternalMetricName(prefix, container);
      TargetUpdate(afterContainerResources.(metrics := UpdateExternals(afterContainerResources.metrics, name, target)), None)
  }

  /** Re-running the container-resource pass changes nothing more. */
  lemma {:induction false} UpdateContainerResourcesIdempotent(ms: seq<Metric>, container: string, k: ResourceName, target: Int32)
    ensures UpdateContainerResources(UpdateContainerResources(ms, container, k, target), container, k, target)
            == UpdateContainerResources(ms, container, k, target)
  {
    if |ms| > 0 {
      var once := UpdateContainerResources(ms, container, k, target);
      assert once[1..] == UpdateContainerResources(ms[1..], container, k, target);
      UpdateContainerResourcesIdempotent(ms[1..], container, k, target);
    }
  }

  /** Re-running the external pass changes nothing more. */
  lemma {:induction false} UpdateExternalsIdempotent(ms: seq<Metric>, name: string, target: Int32)
    ensures UpdateExternals(UpdateExternals(ms, name, target), name, target) == UpdateExternals(ms, name, target)
  {
    if |ms| > 0 {
      var once := UpdateExternals(ms, name, target);
      assert once[1..] == UpdateExternals(ms[1..], name, target);
      UpdateExternalsIdempotent(ms[1..], name, target);
    }
  }

  /** The two passes touch disjoint entries, so their order does not matter.
      This follows from the entry-by-entry contracts of the two passes. */
  lemma PassesCommute(ms: seq<Metric>, container: string, k: ResourceName, name: string, target: Int32)
    ensures UpdateContainerResources(UpdateExternals(ms, name, target), container, k, target)
            == UpdateExternals(UpdateContainerResources(ms, container, k, target), name, target)
  {
  }

  /** Applying the same target twice gives the HPA (and the error) that
      applying it once gives. */
  lemma UpdateHPATargetValueIdempotent(hpa: Hpa, keys: AnnotationKeys, container: string, k: ResourceName, target: Int32)
    ensures var once := UpdateHPATargetValue(hpa, keys, container, k, target);
            UpdateHPATargetValue(once.hpa, keys, container, k, target) == once
  {
    var ms := hpa.metrics;
    var c := UpdateContainerResources(ms, container, k, target);
    UpdateContainerResourcesIdempotent(ms, container, k, target);
    if IsSupportedResource(k) {
      var name := TargetedExternalName(hpa, keys, container, k);
      PassesCommute(c, container, k, name, target);
      UpdateExternalsIdempotent(c, name, target);
    }
  }

  /** For an unsupported resource the call fails, every external entry is
      left as it was, and the container-resource pass has still been applied. */
  lemma UnsupportedResourcePartialEffect(hpa: Hpa, keys: AnnotationKeys, container: string, k: ResourceName, target: Int32)
    requires !IsSupportedResource(k)
    ensures var r := UpdateHPATargetValue(hpa, keys, container, k, target);
            && r.err == Some(NonSupportedResource(k))
            && r.hpa.metrics == UpdateContainerResources(hpa.metrics, container, k, target)
            && forall i :: 0 <= i < |hpa.metrics| && hpa.metrics[i].ExternalMetric? ==> r.hpa.metrics[i] == hpa.metrics[i]
  {
  }

  /** A CPU target of 80 for container "app" reaches both the container-resource
      entry and the external entry "cpu-app" named through the CPU prefix. */
  lemma CpuTargetExample(keys: AnnotationKeys)
    ensures var hpa := Hpa(map[keys.cpu := "cpu-"],
                           [ContainerResourceMetric(Some(ContainerResourceSource(ResourceCpu, "app", Some(50)))),
                            ExternalMetric(Some(ExternalSource("cpu-app", 50)))],
                           None, 5);
            UpdateHPATargetValue(hpa, keys, "app", ResourceCpu, 80).hpa.metrics
              == [ContainerResourceMetric(Some(ContainerResourceSource(ResourceCpu, "app", Some(80)))),
                  ExternalMetric(Some(ExternalSource("cpu-app", 80)))]
  {
  }
}
