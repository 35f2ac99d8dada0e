/**
 * The detail drawer for the current analysis item: what it shows for each
 * status (loader while in flight, results only when done), the displayed
 * percentages, the issue severity bars, and the Close button.
 */
module AnalysisDrawer {
  import opened Wrappers
  import opened Numbers
  import opened Items
  import opened Engine
  import opened SessionStore
  import opened Submission

  /** `status !== 'done' && status !== 'error'`. */
  function Loading(status: Status): (b: bool)
    ensures b <==> status == Pending || status == Processing
  {
    status != Done && status != Error
  }

  /** The trust score badge: `Math.round((score ?? 0) * 100)`. */
  function ScorePercent(score: Option<real>): (pct: int)
    ensures score.None? ==> pct == 0
    ensures score.Some? && 0.0 <= score.value <= 1.0 ==> 0 <= pct <= 100
  {
    var x := score.GetOr(0.0);
    if 0.0 <= x <= 1.0 then RoundPercent(x); Round(x * 100.0) else Round(x * 100.0)
  }

  /** The `sev` label: the rounded percentage, not clamped. */
  function SeverityLabel(severity: real): (n: int)
    ensures n as real - 0.5 <= severity * 100.0 < n as real + 0.5
  {
    Round(severity * 100.0)
  }

  /** The bar width: the label clamped to 100. */
  function SeverityBarWidth(severity: real): (w: int)
    ensures w <= 100
    ensures w <= SeverityLabel(severity)
    ensures SeverityLabel(severity) <= 100 ==> w == SeverityLabel(severity)
    ensures SeverityLabel(severity) > 100 ==> w == 100
  {
    var n := SeverityLabel(severity);
    if 100 <= n then 100 else n
  }

  /** The engine's largest texture severity, 1.05, reads "sev 105" over a full bar. */
  lemma OverflowingSeverityClamped()
    ensures SeverityLabel(1.05) == 105 && SeverityBarWidth(1.05) == 100
  {
    assert 1.05 * 100.0 + 0.5 == 105.5;
  }

  /** Engine severities stay within "sev 105", so a bar only ever loses at most five points to the clamp. */
  lemma EngineSeverityLabels(d: Draws)
    requires ValidDraws(d)
    ensures forall i :: i in Issues(d) ==> 40 <= SeverityLabel(i.severity) <= 105
  {
    SeverityRanges(d);
    forall i | i in Issues(d) ensures 40 <= SeverityLabel(i.severity) <= 105 {
      assert 0.4 < i.severity <= 1.05;
      RoundMonotone(40.0, i.severity * 100.0);
      RoundMonotone(i.severity * 100.0, 105.0);
      RoundInt(40);
      RoundInt(105);
    }
  }

  /** One row of the issue list. */
  datatype IssueRow = IssueRow(labelText: string, severityLabel: int, barWidth: int, description: string, suggestion: Option<string>)

  /** `is.suggestion && ...`: an empty suggestion is falsy and shows nothing. */
  function ShownSuggestion(s: Option<string>): (r: Option<string>)
    ensures r.Some? <==> s.Some? && s.value != []
    ensures r.Some? ==> r == s
  {
    if s.Some? && s.value != [] then s else None
  }

  function Row(i: Issue): (r: IssueRow)
    ensures r.labelText == i.labelText && r.description == i.description
    ensures r.severityLabel == SeverityLabel(i.severity) && r.barWidth <= 100
  {
    IssueRow(i.labelText, SeverityLabel(i.severity), SeverityBarWidth(i.severity), i.description, ShownSuggestion(i.suggestion))
  }

  /** What a `done` item shows: the score badge, the radar when there are metrics, the issue list when there are issues. */
  datatype Results = Results(scorePercent: int, radar: Option<seq<Metric>>, issueRows: Option<seq<IssueRow>>)

  /** The drawer: the file name and type, the loader or the results, and the sign-up hint for visitors. */
  datatype Drawer = Drawer(name: string, mediaType: MediaType, loader: bool, results: Option<Results>, signupHint: bool)

  function Rows(issues: seq<Issue>): (r: seq<IssueRow>)
    ensures |r| == |issues|
    ensures forall k :: 0 <= k < |r| ==> r[k] == Row(issues[k])
  {
    seq(|issues|, k requires 0 <= k < |issues| => Row(issues[k]))
  }

  /** The drawer for the current item, or nothing when there is none. */
  function Render(item: Option<AnalysisItem>, user: Option<User>): (v: Option<Drawer>)
    ensures v.None? <==> item.None?
    ensures v.Some? ==>
      var i := item.value; var d := v.value;
      && d.name == i.name && d.mediaType == i.mediaType
      && (d.loader <==> i.status == Pending || i.status == Processing)
      && (d.results.Some? <==> i.status == Done)
      && (d.signupHint <==> user.None?)
      && (d.results.Some? ==>
            && d.results.value.scorePercent == ScorePercent(i.score)
            && (d.results.value.radar.Some? <==> i.metrics.Some? && i.metrics.value != [])
            && (d.results.value.issueRows.Some? <==> i.issues.Some? && i.issues.value != [])
            && (d.results.value.issueRows.Some? ==> forall r :: r in d.results.value.issueRows.value ==> r.barWidth <= 100))
  {
    if item.None? then None
    else
      var i := item.value;
      var loading := Loading(i.status);
      var results :=
        if !loading && i.status == Done then
          Some(Results(
            ScorePercent(i.score),
            if i.metrics.Some? && i.metrics.value != [] then i.metrics else None,
            if i.issues.Some? && |i.issues.value| > 0 then Some(Rows(i.issues.value)) else None))
        else None;
      Some(Drawer(i.name, i.mediaType, loading, results, user.None?))
  }

  /** An item in the `error` status shows neither the loader nor any result. */
  lemma ErrorShowsNothing(i: AnalysisItem, user: Option<User>)
    requires i.status == Error
    ensures var d := Render(Some(i), user).value; !d.loader && d.results.None?
  {
  }

  /**
   * While the engine runs, the drawer shows the pending item with the loader
   * and no results.
   */
  lemma InFlightShowsLoader(s: UIState, id: string, name: string, mediaType: MediaType, now: int)
    ensures var v := Render(StartSubmit(s, id, name, mediaType, now).analysisItem, s.user);
      && v.Some? && v.value.loader && v.value.results.None?
      && v.value.name == name && v.value.mediaType == mediaType
      && (v.value.signupHint <==> s.user.None?)
  {
  }

  /** An anonymous submission leaves the drawer on its loader with the sign-up hint. */
  lemma PlaceholderShowsLoader(s: UIState, id: string, name: string, mediaType: MediaType, now: int, d: Draws)
    requires s.user.None?
    ensures var r := Submit(s, id, name, mediaType, now, d);
      var v := Render(r.state.analysisItem, r.state.user);
      && v.Some? && v.value.loader && v.value.signupHint && v.value.results.None?
  {
    AnonymousDefers(s, id, name, mediaType, now, d);
  }

  /** The Close button clears the current item; the history and everything else stay. */
  method Close(store: UIStore)
    requires store.Valid()
    modifies store
    ensures store.Valid()
    ensures store.State() == old(store.State()).(analysisItem := None)
    ensures Render(store.analysisItem, store.user).None?
  {
    store.SetAnalysisItem(None);
  }
}
