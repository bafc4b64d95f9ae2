/** The in-memory part of UpdateHPAFromTortoiseRecommendation: apply every
    recommended utilization target, then set the replica bounds selected at
    `now`. Fetching the HPA before and persisting it after are not modelled;
    a `Success` result is the HPA that would be sent to the API server. */
module Recommendation {
  import opened Wrappers
  import opened HpaTypes
  import opened Replicas
  import opened TargetValue

  /** One container's recommended utilization per resource. The Go field is a
      map; the sequence is one iteration order of it (Go fixes none). */
  datatype ContainerRecommendation = ContainerRecommendation(
    containerName: string,
    targetUtilization: seq<(ResourceName, Int32)>)

  /** The HPA part of a Tortoise's status recommendations. */
  datatype HpaRecommendation = HpaRecommendation(
    targetUtilizations: seq<ContainerRecommendation>,
    minReplicas: seq<Window>,
    maxReplicas: seq<Window>)

  /** One call of updateHPATargetValue to be made. */
  datatype TargetTriple = TargetTriple(container: string, resource: ResourceName, value: Int32)

  /** The calls the inner loop makes for one container, in iteration order. */
  function ContainerTargets(c: ContainerRecommendation): (r: seq<TargetTriple>)
    ensures |r| == |c.targetUtilization|
    ensures forall j :: 0 <= j < |r| ==>
              r[j] == TargetTriple(c.containerName, c.targetUtilization[j].0, c.targetUtilization[j].1)
  {
    seq(|c.targetUtilization|, j requires 0 <= j < |c.targetUtilization| =>
          TargetTriple(c.containerName, c.targetUtilization[j].0, c.targetUtilization[j].1))
  }

  /** The calls the nested loops make, in the order they make them: the
      containers in slice order, and within a container its resources in
      iteration order. */
  function Flatten(recs: seq<ContainerRecommendation>): seq<TargetTriple> {
    if |recs| == 0 then [] else ContainerTargets(recs[0]) + Flatten(recs[1..])
  }

  /** The calls are exactly the (container, resource, utilization) triples of
      the recommendations. */
  lemma {:induction false} FlattenMembers(recs: seq<ContainerRecommendation>)
    ensures forall c, p :: c in recs && p in c.targetUtilization ==> TargetTriple(c.containerName, p.0, p.1) in Flatten(recs)
    ensures forall t :: t in Flatten(recs) ==>
              exists c :: c in recs && t.container == c.containerName && (t.resource, t.value) in c.targetUtilization
  {
    if |recs| > 0 {
      var c := recs[0];
      var here := ContainerTargets(c);
      var rest := Flatten(recs[1..]);
      FlattenMembers(recs[1..]);
      assert Flatten(recs) == here + rest;
      assert forall q :: q in recs ==> q == c || q in recs[1..];
      forall p | p in c.targetUtilization
        ensures TargetTriple(c.containerName, p.0, p.1) in here
      {
        var j :| 0 <= j < |c.targetUtilization| && c.targetUtilization[j] == p;
        assert here[j] == TargetTriple(c.containerName, p.0, p.1);
      }
      assert forall t :: t in here ==> c in recs && t.container == c.containerName && (t.resource, t.value) in c.targetUtilization;
      assert forall q :: q in recs[1..] ==> q in recs;
    }
  }

  /** The calls for a single container are that container's calls, in order. */
  lemma FlattenSingle(c: ContainerRecommendation)
    ensures Flatten([c]) == ContainerTargets(c)
  {
    assert [c][1..] == [];
  }

  /** The calls for the containers of `a` all come before those of `b`: the
      containers are processed in slice order, each one completely. */
  lemma {:induction false} FlattenAppend(a: seq<ContainerRecommendation>, b: seq<ContainerRecommendation>)
    ensures Flatten(a + b) == Flatten(a) + Flatten(b)
  {
    if |a| == 0 {
      assert a + b == b;
    } else {
      assert (a + b)[0] == a[0];
      assert (a + b)[1..] == a[1..] + b;
      FlattenAppend(a[1..], b);
    }
  }

  /** Every call in `ts` names CPU or memory. */
  predicate AllSupported(ts: seq<TargetTriple>) {
    forall i :: 0 <= i < |ts| ==> IsSupportedResource(ts[i].resource)
  }

  /** The outer loops: apply each target in turn, stopping at the first call
      that fails (the cause of that failure is dropped). */
  function ApplyTargets(hpa: Hpa, keys: AnnotationKeys, ts: seq<TargetTriple>): (r: Result<Hpa, HpaError>)
    decreases |ts|
    ensures r.Success? <==> AllSupported(ts)
    ensures r.Failure? ==> r.error == UpdateFromRecommendation
    ensures r.Success? ==>
              && r.value.annotations == hpa.annotations
              && r.value.minReplicas == hpa.minReplicas && r.value.maxReplicas == hpa.maxReplicas
              && |r.value.metrics| == |hpa.metrics|
              && forall i :: 0 <= i < |hpa.metrics| ==> SameShape(hpa.metrics[i], r.value.metrics[i])
  {
    if |ts| == 0 then Success(hpa)
    else
      var u := UpdateHPATargetValue(hpa, keys, ts[0].container, ts[0].resource, ts[0].value);
      if u.err.Some? then Failure(UpdateFromRecommendation)
      else
        var rest := ApplyTargets(u.hpa, keys, ts[1..]);
        assert AllSupported(ts) <==> AllSupported(ts[1..]) by {
          assert forall i :: 0 < i < |ts| ==> ts[i] == ts[1..][i - 1];
        }
        if rest.Success? then
          forall i | 0 <= i < |hpa.metrics|
            ensures SameShape(hpa.metrics[i], rest.value.metrics[i])
          {
            SameShapeTransitive(hpa.metrics[i], u.hpa.metrics[i], rest.value.metrics[i]);
          }
          rest
        else rest
  }

  /** UpdateHPAFromTortoiseRecommendation without the Get and the Update: the
      targets first, then the minimum, then the maximum replica count. */
  function UpdateHPAFromTortoiseRecommendation(hpa: Hpa, keys: AnnotationKeys, rec: HpaRecommendation, now: int)
    : (r: Result<Hpa, HpaError>)
    // a target for a resource other than CPU or memory fails the whole update
    ensures !AllSupported(Flatten(rec.targetUtilizations)) ==> r == Failure(UpdateFromRecommendation)
    // otherwise the minimum is resolved before the maximum
    ensures (AllSupported(Flatten(rec.targetUtilizations)) && !Covered(rec.minReplicas, now))
              ==> r == Failure(GetMinReplicas(NoRecommendationSlot))
    ensures (AllSupported(Flatten(rec.targetUtilizations)) && Covered(rec.minReplicas, now) && !Covered(rec.maxReplicas, now))
              ==> r == Failure(GetMaxReplicas(NoRecommendationSlot))
    ensures r.Success? <==>
              AllSupported(Flatten(rec.targetUtilizations)) && Covered(rec.minReplicas, now) && Covered(rec.maxReplicas, now)
    // on success the bounds are the values of the first windows containing `now`
    ensures r.Success? ==> exists i :: IsFirstMatch(rec.minReplicas, now, i) && r.value.minReplicas == Some(rec.minReplicas[i].value)
    ensures r.Success? ==> exists i :: IsFirstMatch(rec.maxReplicas, now, i) && r.value.maxReplicas == rec.maxReplicas[i].value
    // and the metrics are those the targets produced
    ensures r.Success? ==>
              && r.value.annotations == hpa.annotations
              && ApplyTargets(hpa, keys, Flatten(rec.targetUtilizations)).Success?
              && r.value.metrics == ApplyTargets(hpa, keys, Flatten(rec.targetUtilizations)).value.metrics
  {
    var ts := Flatten(rec.targetUtilizations);
    match ApplyTargets(hpa, keys, ts)
    case Failure(e) => Failure(e)
    case Success(updated) =>
      match GetReplicasRecommendation(rec.minReplicas, now)
      case Failure(e) => Failure(GetMinReplicas(e))
      case Success(min) =>
        match GetReplicasRecommendation(rec.maxReplicas, now)
        case Failure(e) => Failure(GetMaxReplicas(e))
        case Success(max) => Success(updated.(minReplicas := Some(min), maxReplicas := max))
  }

  /** A recommended utilization for any resource other than CPU or memory, in
      any container, makes the whole update fail before the replica bounds are
      looked at. */
  lemma UnsupportedTargetFails(hpa: Hpa, keys: AnnotationKeys, rec: HpaRecommendation, now: int,
                               c: ContainerRecommendation, p: (ResourceName, Int32))
    requires c in rec.targetUtilizations && p in c.targetUtilization && !IsSupportedResource(p.0)
    ensures UpdateHPAFromTortoiseRecommendation(hpa, keys, rec, now) == Failure(UpdateFromRecommendation)
  {
    var ts := Flatten(rec.targetUtilizations);
    FlattenMembers(rec.targetUtilizations);
    var j :| 0 <= j < |ts| && ts[j] == TargetTriple(c.containerName, p.0, p.1);
    assert !IsSupportedResource(ts[j].resource);
  }

  /** Target `t` rewrites the utilization of entry `m`. */
  predicate WritesUtilization(m: Metric, t: TargetTriple) {
    TargetsUtilization(m, t.container, t.resource)
  }

  /** Target `t` rewrites the value of external entry `m`, whose name must be
      the prefix for `t`'s resource followed by `t`'s container. */
  predicate WritesExternal(m: Metric, annotations: map<string, string>, keys: AnnotationKeys, t: TargetTriple) {
    && IsSupportedResource(t.resource)
    && IsExternalNamed(m, ExternalMetricName(PrefixFor(annotations, keys, t.resource).value, t.container))
  }

  /** Reference definition, reading the targets from the last one back: the
      value of the last target that rewrites the utilization of `m`. */
  function LastUtilizationWrite(m: Metric, ts: seq<TargetTriple>): Option<Int32>
    decreases |ts|
  {
    if |ts| == 0 then None
    else if WritesUtilization(m, ts[|ts| - 1]) then Some(ts[|ts| - 1].value)
    else LastUtilizationWrite(m, ts[..|ts| - 1])
  }

  /** Reference definition: the value of the last target that rewrites the
      external value of `m`. */
  function LastExternalWrite(m: Metric, annotations: map<string, string>, keys: AnnotationKeys, ts: seq<TargetTriple>)
    : Option<Int32>
    decreases |ts|
  {
    if |ts| == 0 then None
    else if WritesExternal(m, annotations, keys, ts[|ts| - 1]) then Some(ts[|ts| - 1].value)
    else LastExternalWrite(m, annotations, keys, ts[..|ts| - 1])
  }

  /** Reading the last write from the front: a later write overrides the first target. */
  lemma {:induction false} LastUtilizationWriteCons(m: Metric, t: TargetTriple, ts: seq<TargetTriple>)
    ensures LastUtilizationWrite(m, [t] + ts)
            == if LastUtilizationWrite(m, ts).Some? then LastUtilizationWrite(m, ts)
               else if WritesUtilization(m, t) then Some(t.value) else None
    decreases |ts|
  {
    if |ts| == 0 {
      assert ([t] + ts)[..0] == [];
    } else {
      assert ([t] + ts)[..|ts|] == [t] + ts[..|ts| - 1];
      LastUtilizationWriteCons(m, t, ts[..|ts| - 1]);
    }
  }

  lemma {:induction false} LastExternalWriteCons(m: Metric, annotations: map<string, string>, keys: AnnotationKeys,
                                                 t: TargetTriple, ts: seq<TargetTriple>)
    ensures LastExternalWrite(m, annotations, keys, [t] + ts)
            == if LastExternalWrite(m, annotations, keys, ts).Some? then LastExternalWrite(m, annotations, keys, ts)
               else if WritesExternal(m, annotations, keys, t) then Some(t.value) else None
    decreases |ts|
  {
    if |ts| == 0 {
      assert ([t] + ts)[..0] == [];
    } else {
      assert ([t] + ts)[..|ts|] == [t] + ts[..|ts| - 1];
      LastExternalWriteCons(m, annotations, keys, t, ts[..|ts| - 1]);
    }
  }

  /** Whether a target rewrites an entry depends only on the entry's shape. */
  lemma {:induction false} LastWriteShape(m: Metric, m': Metric, annotations: map<string, string>, keys: AnnotationKeys,
                                          ts: seq<TargetTriple>)
    requires SameShape(m, m')
    ensures LastUtilizationWrite(m, ts) == LastUtilizationWrite(m', ts)
    ensures LastExternalWrite(m, annotations, keys, ts) == LastExternalWrite(m', annotations, keys, ts)
    decreases |ts|
  {
    if |ts| > 0 {
      LastWriteShape(m, m', annotations, keys, ts[..|ts| - 1]);
    }
  }

  /** After a successful run of all targets, every entry holds the value of the
      last target that addresses it (last write wins when two targets address
      the same entry), and an entry no target addresses is left as it was. */
  lemma {:induction false} ApplyTargetsLastWriteWins(hpa: Hpa, keys: AnnotationKeys, ts: seq<TargetTriple>, i: int)
    requires ApplyTargets(hpa, keys, ts).Success?
    requires 0 <= i < |hpa.metrics|
    ensures var m := hpa.metrics[i];
            var m' := ApplyTargets(hpa, keys, ts).value.metrics[i];
            && UtilizationOf(m') == (if LastUtilizationWrite(m, ts).Some? then LastUtilizationWrite(m, ts) else UtilizationOf(m))
            && ExternalValueOf(m') == (match LastExternalWrite(m, hpa.annotations, keys, ts)
                                       case Some(v) => Some(v as int)
                                       case None => ExternalValueOf(m))
            && (LastUtilizationWrite(m, ts).None? && LastExternalWrite(m, hpa.annotations, keys, ts).None? ==> m' == m)
    decreases |ts|
  {
    var m := hpa.metrics[i];
    if |ts| > 0 {
      var t := ts[0];
      var u := UpdateHPATargetValue(hpa, keys, t.container, t.resource, t.value);
      var mid := u.hpa.metrics[i];
      assert ts == [t] + ts[1..];
      LastUtilizationWriteCons(m, t, ts[1..]);
      LastExternalWriteCons(m, hpa.annotations, keys, t, ts[1..]);
      LastWriteShape(m, mid, hpa.annotations, keys, ts[1..]);
      ApplyTargetsLastWriteWins(u.hpa, keys, ts[1..], i);
    }
  }

  /** When two containers' external names coincide (CPU prefix "a" with
      container "bc", memory prefix "ab" with container "c"), the container
      later in the slice decides the value of the shared entry "abc". */
  lemma LaterContainerWinsExample(keys: AnnotationKeys)
    requires keys.cpu != keys.memory
    ensures var hpa := Hpa(map[keys.cpu := "a", keys.memory := "ab"], [ExternalMetric(Some(ExternalSource("abc", 0)))], None, 1);
            var recs := [ContainerRecommendation("bc", [(ResourceCpu, 10)]), ContainerRecommendation("c", [(ResourceMemory, 20)])];
            ApplyTargets(hpa, keys, Flatten(recs)) == Success(hpa.(metrics := [ExternalMetric(Some(ExternalSource("abc", 20)))]))
  {
    var hpa := Hpa(map[keys.cpu := "a", keys.memory := "ab"], [ExternalMetric(Some(ExternalSource("abc", 0)))], None, 1);
    var recs := [ContainerRecommendation("bc", [(ResourceCpu, 10)]), ContainerRecommendation("c", [(ResourceMemory, 20)])];
    var ts := [TargetTriple("bc", ResourceCpu, 10), TargetTriple("c", ResourceMemory, 20)];
    FlattenAppend([recs[0]], [recs[1]]);
    FlattenSingle(recs[0]);
    FlattenSingle(recs[1]);
    assert [recs[0]] + [recs[1]] == recs;
    assert Flatten(recs) == ts;
    var u1 := UpdateHPATargetValue(hpa, keys, "bc", ResourceCpu, 10);
    assert ExternalMetricName("a", "bc") == "abc";
    assert u1.hpa == hpa.(metrics := [ExternalMetric(Some(ExternalSource("abc", 10)))]);
    var u2 := UpdateHPATargetValue(u1.hpa, keys, "c", ResourceMemory, 20);
    assert ExternalMetricName("ab", "c") == "abc";
    assert u2.hpa == hpa.(metrics := [ExternalMetric(Some(ExternalSource("abc", 20)))]);
    assert ts[1..] == [ts[1]] && ts[1..][1..] == [];
    assert ApplyTargets(u2.hpa, keys, []) == Success(u2.hpa);
    assert ApplyTargets(u1.hpa, keys, ts[1..]) == ApplyTargets(u2.hpa, keys, []);
    assert ApplyTargets(hpa, keys, ts) == ApplyTargets(u1.hpa, keys, ts[1..]);
  }
}
