/** The slice of the Kubernetes autoscaling/v2 object model that the HPA
    client reads and writes, reduced to the fields the update logic touches. */
module HpaTypes {
  import opened Wrappers

  /** Go's `int32`: replica counts and utilization targets. */
  type Int32 = x: int | -0x8000_0000 <= x < 0x8000_0000

  /** A Kubernetes resource name (`corev1.ResourceName` is a string). */
  type ResourceName = string

  const ResourceCpu: ResourceName := "cpu"
  const ResourceMemory: ResourceName := "memory"

  /** The two resource kinds for which an external metric name prefix exists. */
  predicate IsSupportedResource(k: ResourceName) {
    k == ResourceCpu || k == ResourceMemory
  }

  /** A `ContainerResourceMetricSource`: a resource of one container, with an
      optional average-utilization target (a percentage). */
  datatype ContainerResourceSource = ContainerResourceSource(
    name: ResourceName,
    container: string,
    averageUtilization: Option<Int32>)

  /** An `ExternalMetricSource`: a metric known by name, with a raw target value
      (the `resource.Quantity` in `Target.Value`, held as an exact integer). */
  datatype ExternalSource = ExternalSource(metricName: string, value: int)

  /** One entry of `Spec.Metrics`. The metric type tag selects the variant; the
      payload is the pointer field that type uses, `None` when it is nil.
      Object, Pods and Resource metrics are never touched and are `OtherMetric`. */
  datatype Metric =
    | ContainerResourceMetric(containerResource: Option<ContainerResourceSource>)
    | ExternalMetric(external: Option<ExternalSource>)
    | OtherMetric

  /** The parts of a `HorizontalPodAutoscaler` the client reads or writes. */
  datatype Hpa = Hpa(
    annotations: map<string, string>,
    metrics: seq<Metric>,
    minReplicas: Option<Int32>,
    maxReplicas: Int32)

  /** The keys of the two annotations that carry the external metric name
      prefixes for CPU and for memory. */
  datatype AnnotationKeys = AnnotationKeys(cpu: string, memory: string)

  /** The errors the client can return. The cause of a failed target update is
      not kept; the causes of failed replica lookups are. */
  datatype HpaError =
    | NoRecommendationSlot
    | NonSupportedResource(resource: ResourceName)
    | UpdateFromRecommendation
    | GetMinReplicas(cause: HpaError)
    | GetMaxReplicas(cause: HpaError)

  /** The utilization target of an entry, when it is a well-formed
      container-resource entry. */
  function UtilizationOf(m: Metric): Option<Int32> {
    match m
    case ContainerResourceMetric(Some(cr)) => cr.averageUtilization
    case _ => None
  }

  /** The target value of an entry, when it is a well-formed external entry. */
  function ExternalValueOf(m: Metric): Option<int> {
    match m
    case ExternalMetric(Some(e)) => Some(e.value)
    case _ => None
  }

  /** `after` is `before` with at most its target value changed: same variant,
      same container, resource and metric names, and a utilization target
      present exactly when it was present before. */
  predicate SameShape(before: Metric, after: Metric) {
    match (before, after)
    case (ContainerResourceMetric(Some(x)), ContainerResourceMetric(Some(y))) =>
      x.name == y.name && x.container == y.container
      && x.averageUtilization.Some? == y.averageUtilization.Some?
    case (ExternalMetric(Some(x)), ExternalMetric(Some(y))) =>
      x.metricName == y.metricName
    case _ => before == after
  }

  lemma SameShapeTransitive(a: Metric, b: Metric, c: Metric)
    requires SameShape(a, b) && SameShape(b, c)
    ensures SameShape(a, c)
  {
  }
}
