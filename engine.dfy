/**
 * The mock scoring engine `fakeAnalyse`. The random delay is left out and the
 * five uniform draws are parameters, so the engine is a function of them.
 */
module Engine {
  import opened Wrappers
  import opened Items

  /** The five draws of Math.random(), in the order the engine takes them. */
  datatype Draws = Draws(authenticity: real, lighting: real, texture: real, biological: real, compression: real)

  predicate UnitDraw(x: real) { 0.0 <= x < 1.0 }

  /** Every draw lies in [0, 1), as Math.random() guarantees. */
  predicate ValidDraws(d: Draws) {
    UnitDraw(d.authenticity) && UnitDraw(d.lighting) && UnitDraw(d.texture)
    && UnitDraw(d.biological) && UnitDraw(d.compression)
  }

  datatype AnalysisResult = AnalysisResult(score: real, metrics: seq<Metric>, issues: seq<Issue>)

  /** The five metric keys, in the order the engine writes them. */
  const Authenticity := "authenticity"
  const Lighting := "lighting"
  const Texture := "texture"
  const Biological := "biological"
  const Compression := "compression"
  const MetricNames: seq<string> := [Authenticity, Lighting, Texture, Biological, Compression]

  /** The score's weights applied to a five-entry metrics record in the engine's key order. */
  function WeightedSum(ms: seq<Metric>): real
    requires |ms| == 5
  {
    ms[0].value * 0.3 + ms[1].value * 0.1 + ms[2].value * 0.2 + ms[3].value * 0.25 + ms[4].value * 0.15
  }

  /**
   * The weighted sum of the draws; the weights add up to 1, so it stays in
   * [0, 1). It is the same weighted sum of the metrics the result carries.
   */
  function Score(d: Draws): (r: real)
    ensures ValidDraws(d) ==> 0.0 <= r < 1.0
    ensures d.authenticity == d.lighting == d.texture == d.biological == d.compression ==> r == d.texture
    ensures r == WeightedSum(Metrics(d))
  {
    d.authenticity * 0.3 + d.lighting * 0.1 + d.texture * 0.2 + d.biological * 0.25 + d.compression * 0.15
  }

  /** The raw draws under their five names. */
  function Metrics(d: Draws): (r: seq<Metric>)
    ensures Keys(r) == MetricNames
    ensures DistinctKeys(r)
    ensures ValidDraws(d) ==> forall i :: 0 <= i < |r| ==> UnitDraw(r[i].value)
  {
    [Metric(Authenticity, d.authenticity), Metric(Lighting, d.lighting), Metric(Texture, d.texture),
     Metric(Biological, d.biological), Metric(Compression, d.compression)]
  }

  /** Each metric holds the draw of its own name. */
  lemma MetricsCarryDraws(d: Draws)
    ensures MetricValue(Metrics(d), Authenticity) == Some(d.authenticity)
    ensures MetricValue(Metrics(d), Lighting) == Some(d.lighting)
    ensures MetricValue(Metrics(d), Texture) == Some(d.texture)
    ensures MetricValue(Metrics(d), Biological) == Some(d.biological)
    ensures MetricValue(Metrics(d), Compression) == Some(d.compression)
  {
    var r := Metrics(d);
    MetricValueAt(r, 0);
    MetricValueAt(r, 1);
    MetricValueAt(r, 2);
    MetricValueAt(r, 3);
    MetricValueAt(r, 4);
  }

  // The fixed texts of the three issues.
  const TextureLabel := "Texture Inconsistency"
  const TextureDescription := "Surface texture variance deviates from natural frequency spectrum."
  const TextureSuggestion := "Increase resolution source or capture under uniform lighting."
  const BiologicalLabel := "Biological Motion Anomaly"
  const BiologicalDescription := "Micro-expression timing / blink rate irregular."
  const BiologicalSuggestion := "Capture longer segment for motion stabilization analysis."
  const CompressionLabel := "Compression Artifacts"
  const CompressionDescription := "Blocky / oversmoothed regions reduce authenticity confidence."
  const CompressionSuggestion := "Use less aggressive compression or source original file."

  function TextureIssue(texture: real): Issue {
    Issue(TextureInconsistency, TextureLabel, 0.6 + (0.45 - texture), TextureDescription, Some(TextureSuggestion))
  }

  function BiologicalIssue(biological: real): Issue {
    Issue(BiologicalAnomaly, BiologicalLabel, 0.5 + (0.5 - biological), BiologicalDescription, Some(BiologicalSuggestion))
  }

  function CompressionIssue(compression: real): Issue {
    Issue(CompressionArtifacts, CompressionLabel, 0.4 + (0.4 - compression), CompressionDescription, Some(CompressionSuggestion))
  }

  /** Position of an issue id in the fixed order texture, biological, compression. */
  function Rank(id: IssueId): int {
    match id
    case TextureInconsistency => 0
    case BiologicalAnomaly => 1
    case CompressionArtifacts => 2
  }

  predicate HasIssue(issues: seq<Issue>, id: IssueId) {
    exists i :: i in issues && i.id == id
  }

  /** One entry of the issue array literal after `filter(Boolean)`: kept only when its gate holds. */
  function Gate(gate: bool, issue: Issue): (r: seq<Issue>)
    ensures forall i :: i in r <==> gate && i == issue
    ensures |r| <= 1
  {
    if gate then [issue] else []
  }

  /** The three threshold-gated issues, in the fixed order texture, biological, compression. */
  function Issues(d: Draws): (r: seq<Issue>)
    ensures |r| <= 3
    ensures HasIssue(r, TextureInconsistency) <==> d.texture < 0.45
    ensures HasIssue(r, BiologicalAnomaly) <==> d.biological < 0.5
    ensures HasIssue(r, CompressionArtifacts) <==> d.compression < 0.4
  {
    var t := Gate(d.texture < 0.45, TextureIssue(d.texture));
    var b := Gate(d.biological < 0.5, BiologicalIssue(d.biological));
    var c := Gate(d.compression < 0.4, CompressionIssue(d.compression));
    assert forall i :: i in t + b + c <==> i in t || i in b || i in c;
    t + b + c
  }

  /** The metric stored under `key` is present and below `threshold`. */
  predicate MetricBelow(ms: seq<Metric>, key: string, threshold: real) {
    MetricValue(ms, key).Some? && MetricValue(ms, key).value < threshold
  }

  /**
   * Each issue is reported exactly when the metric of the same name that the
   * result carries is below its threshold, so the drawer's issue list and
   * radar agree.
   */
  lemma GatesReadCarriedMetrics(mediaType: MediaType, d: Draws)
    ensures HasIssue(FakeAnalyse(mediaType, d).issues, TextureInconsistency)
      <==> MetricBelow(FakeAnalyse(mediaType, d).metrics, Texture, 0.45)
    ensures HasIssue(FakeAnalyse(mediaType, d).issues, BiologicalAnomaly)
      <==> MetricBelow(FakeAnalyse(mediaType, d).metrics, Biological, 0.5)
    ensures HasIssue(FakeAnalyse(mediaType, d).issues, CompressionArtifacts)
      <==> MetricBelow(FakeAnalyse(mediaType, d).metrics, Compression, 0.4)
  {
    MetricsCarryDraws(d);
  }

  /** fakeAnalyse(type): the `type` argument is never read. */
  function FakeAnalyse(mediaType: MediaType, d: Draws): (r: AnalysisResult)
    ensures r.metrics == Metrics(d) && r.issues == Issues(d)
    ensures ValidDraws(d) ==> 0.0 <= r.score < 1.0
  {
    AnalysisResult(Score(d), Metrics(d), Issues(d))
  }

  /** The result is the same whichever media type is asked for. */
  lemma TypeIgnored(d: Draws)
    ensures FakeAnalyse(Image, d) == FakeAnalyse(Video, d)
  {
  }

  /** Issues come in the fixed order texture, biological, compression, so their ids are distinct. */
  lemma IssueOrder(d: Draws)
    ensures forall k, m :: 0 <= k < m < |Issues(d)| ==> Rank(Issues(d)[k].id) < Rank(Issues(d)[m].id)
    ensures forall k, m :: 0 <= k < m < |Issues(d)| ==> Issues(d)[k].id != Issues(d)[m].id
  {
    var t := Gate(d.texture < 0.45, TextureIssue(d.texture));
    var b := Gate(d.biological < 0.5, BiologicalIssue(d.biological));
    var c := Gate(d.compression < 0.4, CompressionIssue(d.compression));
    var r := Issues(d);
    assert r == t + b + c;
    forall k, m | 0 <= k < m < |r| ensures Rank(r[k].id) < Rank(r[m].id) {
      if k < |t| {
        assert r[k] in t;
        assert m >= |t| && r[m] in b + c;
      } else if k < |t| + |b| {
        assert r[k] == b[k - |t|];
        assert m >= |t| + |b| && r[m] == c[m - |t| - |b|];
      } else {
        assert false;
      }
    }
  }

  /** Each issue's severity is its fixed formula, and for valid draws it lies in the stated range. */
  lemma SeverityRanges(d: Draws)
    requires ValidDraws(d)
    ensures forall i :: i in Issues(d) && i.id == TextureInconsistency ==>
      i.severity == 0.6 + (0.45 - d.texture) && 0.6 < i.severity <= 1.05
    ensures forall i :: i in Issues(d) && i.id == BiologicalAnomaly ==>
      i.severity == 0.5 + (0.5 - d.biological) && 0.5 < i.severity <= 1.0
    ensures forall i :: i in Issues(d) && i.id == CompressionArtifacts ==>
      i.severity == 0.4 + (0.4 - d.compression) && 0.4 < i.severity <= 0.8
  {
    var t := Gate(d.texture < 0.45, TextureIssue(d.texture));
    var b := Gate(d.biological < 0.5, BiologicalIssue(d.biological));
    var c := Gate(d.compression < 0.4, CompressionIssue(d.compression));
    assert Issues(d) == t + b + c;
    assert forall i :: i in Issues(d) ==> i in t || i in b || i in c;
  }

  /** Severity is not clamped: a texture draw of 0 gives a severity above 1. */
  lemma SeverityExceedsOne()
    ensures var found := Issues(Draws(0.5, 0.5, 0.0, 0.5, 0.5));
      |found| == 1 && found[0].id == TextureInconsistency && found[0].severity == 1.05 > 1.0
  {
  }
}
