/** The record shapes of the session store: an analysis item, its issues and metrics, a user. */
module Items {
  import opened Wrappers

  datatype MediaType = Image | Video

  datatype Status = Pending | Processing | Done | Error

  /** The closed catalogue of issue ids. */
  datatype IssueId = TextureInconsistency | BiologicalAnomaly | CompressionArtifacts {
    /** The id as the source spells it. */
    function Text(): string {
      match this
      case TextureInconsistency => "texture_inconsistency"
      case BiologicalAnomaly => "biological_anomaly"
      case CompressionArtifacts => "compression_artifacts"
    }
  }

  /** One detected anomaly (`labelText` is the source's `label`); `severity` is not clamped and may exceed 1. */
  datatype Issue = Issue(id: IssueId, labelText: string, severity: real, description: string, suggestion: Option<string>)

  /** One entry of the `metrics` record, a named sub-score. */
  datatype Metric = Metric(key: string, value: real)

  /** One submitted media analysis; score, metrics and issues are filled in on completion. */
  datatype AnalysisItem = AnalysisItem(
    id: string,
    name: string,
    status: Status,
    score: Option<real>,
    mediaType: MediaType,
    createdAt: int,
    metrics: Option<seq<Metric>>,
    issues: Option<seq<Issue>>)

  datatype User = User(id: string, email: string)

  /** The keys of a metrics record, in order. */
  function Keys(ms: seq<Metric>): (r: seq<string>)
    ensures |r| == |ms|
    ensures forall i :: 0 <= i < |ms| ==> r[i] == ms[i].key
  {
    if ms == [] then [] else Keys(ms[..|ms| - 1]) + [ms[|ms| - 1].key]
  }

  /** A metrics record has each key at most once, as a JavaScript object does. */
  predicate DistinctKeys(ms: seq<Metric>) {
    forall i, j :: 0 <= i < j < |ms| ==> ms[i].key != ms[j].key
  }

  /** `metrics[key]`: the value stored under `key`, or nothing when the record has no such key. */
  function MetricValue(ms: seq<Metric>, key: string): (r: Option<real>)
    ensures r.None? <==> forall i :: 0 <= i < |ms| ==> ms[i].key != key
    ensures r.Some? ==> exists i :: 0 <= i < |ms| && ms[i] == Metric(key, r.value)
  {
    if ms == [] then None
    else if ms[0].key == key then
      assert ms[0] == Metric(key, ms[0].value);
      Some(ms[0].value)
    else
      var r := MetricValue(ms[1..], key);
      if r.Some? then
        var i :| 0 <= i < |ms[1..]| && ms[1..][i] == Metric(key, r.value);
        assert ms[i + 1] == Metric(key, r.value);
        r
      else
        assert forall i :: 1 <= i < |ms| ==> ms[i] == ms[1..][i - 1];
        r
  }

  /** In a record with distinct keys, looking up an entry's key gives that entry's value. */
  lemma {:induction false} MetricValueAt(ms: seq<Metric>, k: nat)
    requires DistinctKeys(ms) && k < |ms|
    ensures MetricValue(ms, ms[k].key) == Some(ms[k].value)
  {
    if k > 0 {
      assert ms[0].key != ms[k].key;
      assert ms[1..][k - 1] == ms[k];
      MetricValueAt(ms[1..], k - 1);
    }
  }
}
