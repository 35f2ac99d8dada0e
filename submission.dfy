/**
 * The submission protocol shared by file upload (`onFiles`), URL input
 * (`analyseFromUrl`) and the context-menu action (`runImageAnalysis`):
 * once the input is classified, an anonymous visitor gets a `processing`
 * placeholder and an auth prompt; a signed-in user with no quota left is
 * turned away with nothing changed; otherwise a `pending` item becomes
 * current, the quota is decremented, the engine runs and the `done`
 * snapshot replaces the current item and is prepended to the history.
 * The submissions are taken one at a time.
 */
module Submission {
  import opened Wrappers
  import opened Items
  import opened Engine
  import opened SessionStore

  /** How a submission ended: auth prompt requested, quota refused, or analysed. */
  datatype Outcome = AuthRequired | LimitReached | Analysed(item: AnalysisItem)

  datatype Step = Step(state: UIState, outcome: Outcome)

  /** A freshly created item: no score, metrics or issues yet. */
  function NewItem(id: string, name: string, mediaType: MediaType, now: int, status: Status): AnalysisItem {
    AnalysisItem(id, name, status, None, mediaType, now, None, None)
  }

  /** `{ ...item, status: 'done', score, metrics, issues }`. */
  function Complete(item: AnalysisItem, r: AnalysisResult): AnalysisItem {
    item.(status := Done, score := Some(r.score), metrics := Some(r.metrics), issues := Some(r.issues))
  }

  /**
   * One submission against the store state `s`, as the three handlers run it
   * after classifying the input: a visitor is asked to sign in, a user without
   * quota is refused, anyone else is analysed. The user, the referral credits,
   * the prompt and secure mode are never touched.
   */
  function Submit(s: UIState, id: string, name: string, mediaType: MediaType, now: int, d: Draws): (r: Step)
    ensures r.outcome == AuthRequired <==> s.user.None?
    ensures r.outcome == LimitReached <==> s.user.Some? && s.dailyRemaining <= 0
    ensures r.outcome.Analysed? <==> s.user.Some? && s.dailyRemaining > 0
    ensures r.state.user == s.user && r.state.referralCredits == s.referralCredits
    ensures r.state.authOpen == s.authOpen && r.state.secureMode == s.secureMode
  {
    if s.user.None? then
      Step(Apply(s, SetAnalysisItem(Some(NewItem(id, name, mediaType, now, Processing)))), AuthRequired)
    else if s.dailyRemaining <= 0 then
      Step(s, LimitReached)
    else
      FinishSubmit(StartSubmit(s, id, name, mediaType, now), NewItem(id, name, mediaType, now, Pending), mediaType, d)
  }

  /**
   * The store while the engine runs: the `pending` item is current and the
   * quota is already spent; nothing else has changed.
   */
  function StartSubmit(s: UIState, id: string, name: string, mediaType: MediaType, now: int): (r: UIState)
    ensures r.analysisItem == Some(NewItem(id, name, mediaType, now, Pending))
    ensures s.dailyRemaining > 0 ==>
      r == s.(analysisItem := Some(NewItem(id, name, mediaType, now, Pending)), dailyRemaining := s.dailyRemaining - 1)
  {
    Apply(Apply(s, SetAnalysisItem(Some(NewItem(id, name, mediaType, now, Pending)))), DecrementQuota)
  }

  /**
   * After the engine returns: the `done` snapshot of `pending` replaces the
   * current item and heads the history; the quota is not touched again.
   */
  function FinishSubmit(s: UIState, pending: AnalysisItem, mediaType: MediaType, d: Draws): (r: Step)
    ensures r.outcome == Analysed(Complete(pending, FakeAnalyse(mediaType, d)))
    ensures r.state == s.(analysisItem := Some(r.outcome.item), history := Prepend(s.history, r.outcome.item))
  {
    var done := Complete(pending, FakeAnalyse(mediaType, d));
    Step(Apply(Apply(s, SetAnalysisItem(Some(done))), AddHistory(done)), Analysed(done))
  }

  /**
   * The store calls the three handlers make, in order, once the input is
   * classified; the store ends in the state `Submit` computes. When the
   * engine runs, `inFlight` is the store as it stands during that call:
   * `StartSubmit`'s state, with the pending item current and the quota spent.
   */
  method SubmitTo(store: UIStore, id: string, name: string, mediaType: MediaType, now: int, d: Draws)
    returns (outcome: Outcome, ghost inFlight: Option<UIState>)
    requires store.Valid()
    modifies store
    ensures store.Valid()
    ensures Step(store.State(), outcome) == Submit(old(store.State()), id, name, mediaType, now, d)
    ensures inFlight.Some? <==> outcome.Analysed?
    ensures inFlight.Some? ==> inFlight.value == StartSubmit(old(store.State()), id, name, mediaType, now)
  {
    if store.user.None? {
      var temp := NewItem(id, name, mediaType, now, Processing);
      store.SetAnalysisItem(Some(temp));
      return AuthRequired, None;
    }
    if store.dailyRemaining <= 0 {
      return LimitReached, None;
    }
    var item := NewItem(id, name, mediaType, now, Pending);
    store.SetAnalysisItem(Some(item));
    store.DecrementQuota();
    ghost var spent := store.State();
    var result := FakeAnalyse(mediaType, d);
    var doneItem := Complete(item, result);
    store.SetAnalysisItem(Some(doneItem));
    store.AddHistory(doneItem);
    return Analysed(doneItem), Some(spent);
  }

  /**
   * A signed-in submission with quota left is `StartSubmit` then `FinishSubmit`:
   * the quota is spent before the engine runs and is not touched again, and
   * finishing changes only the current item and the history.
   */
  lemma SubmitComposes(s: UIState, id: string, name: string, mediaType: MediaType, now: int, d: Draws)
    requires s.user.Some? && s.dailyRemaining > 0
    ensures var mid := StartSubmit(s, id, name, mediaType, now);
      var r := Submit(s, id, name, mediaType, now, d);
      && r == FinishSubmit(mid, NewItem(id, name, mediaType, now, Pending), mediaType, d)
      && mid.dailyRemaining == s.dailyRemaining - 1
      && r.state == mid.(analysisItem := r.state.analysisItem, history := r.state.history)
  {
  }

  /** An anonymous submission only shows a `processing` placeholder and asks for sign-in. */
  lemma AnonymousDefers(s: UIState, id: string, name: string, mediaType: MediaType, now: int, d: Draws)
    requires s.user.None?
    ensures var r := Submit(s, id, name, mediaType, now, d);
      && r.outcome == AuthRequired
      && r.state == s.(analysisItem := Some(NewItem(id, name, mediaType, now, Processing)))
  {
  }

  /** A signed-in user without quota is refused and nothing in the store changes. */
  lemma NoQuotaNoChange(s: UIState, id: string, name: string, mediaType: MediaType, now: int, d: Draws)
    requires s.user.Some? && s.dailyRemaining <= 0
    ensures Submit(s, id, name, mediaType, now, d) == Step(s, LimitReached)
  {
  }

  /**
   * A signed-in user with quota gets the engine's result: the quota drops by
   * exactly one, the `done` snapshot keeps the item's identity, becomes current
   * and heads the history, and nothing else changes.
   */
  lemma AnalysedUpdates(s: UIState, id: string, name: string, mediaType: MediaType, now: int, d: Draws)
    requires s.user.Some? && s.dailyRemaining > 0
    ensures var r := Submit(s, id, name, mediaType, now, d);
      && r.outcome.Analysed?
      && var done := r.outcome.item;
      && done.id == id && done.name == name && done.mediaType == mediaType && done.createdAt == now
      && done.status == Done
      && done.score == Some(FakeAnalyse(mediaType, d).score)
      && done.metrics == Some(Metrics(d)) && done.issues == Some(Issues(d))
      && r.state.dailyRemaining == s.dailyRemaining - 1
      && r.state.analysisItem == Some(done)
      && r.state.history == Prepend(s.history, done)
      && |r.state.history| == (if |s.history| < HistoryLimit then |s.history| + 1 else HistoryLimit)
      && r.state == s.(dailyRemaining := s.dailyRemaining - 1, analysisItem := Some(done), history := r.state.history)
  {
  }

  /** Every submission keeps the store invariant. */
  lemma SubmitKeepsInv(s: UIState, id: string, name: string, mediaType: MediaType, now: int, d: Draws)
    requires Inv(s)
    ensures Inv(Submit(s, id, name, mediaType, now, d).state)
  {
  }

  /**
   * A history entry as the engine leaves it: `done`, with exactly the five
   * named metrics, each in [0, 1), and a score in [0, 1) that is their
   * weighted sum.
   */
  predicate EngineDone(i: AnalysisItem) {
    && i.status == Done
    && i.score.Some? && 0.0 <= i.score.value < 1.0
    && i.metrics.Some? && |i.metrics.value| == 5
    && Keys(i.metrics.value) == MetricNames && DistinctKeys(i.metrics.value)
    && (forall k :: 0 <= k < |i.metrics.value| ==> UnitDraw(i.metrics.value[k].value))
    && i.score.value == WeightedSum(i.metrics.value)
    && i.issues.Some?
  }

  predicate HistoryFromEngine(s: UIState) {
    forall i :: i in s.history ==> EngineDone(i)
  }

  /** Completing an item with a result from valid draws gives an engine-shaped `done` item. */
  lemma CompleteIsEngineDone(item: AnalysisItem, mediaType: MediaType, d: Draws)
    requires ValidDraws(d)
    ensures EngineDone(Complete(item, FakeAnalyse(mediaType, d)))
  {
    var ms := Metrics(d);
    assert DistinctKeys(ms);
    assert forall k :: 0 <= k < |ms| ==> UnitDraw(ms[k].value);
  }

  /** Submissions only ever add engine results to the history. */
  lemma SubmitKeepsEngineHistory(s: UIState, id: string, name: string, mediaType: MediaType, now: int, d: Draws)
    requires ValidDraws(d) && HistoryFromEngine(s)
    ensures HistoryFromEngine(Submit(s, id, name, mediaType, now, d).state)
  {
    var r := Submit(s, id, name, mediaType, now, d);
    if s.user.Some? && s.dailyRemaining > 0 {
      var done := Complete(NewItem(id, name, mediaType, now, Pending), FakeAnalyse(mediaType, d));
      CompleteIsEngineDone(NewItem(id, name, mediaType, now, Pending), mediaType, d);
      var h := Prepend(s.history, done);
      assert r.state.history == h;
      assert h == [done] + h[1..];
      forall i | i in h ensures EngineDone(i) {
        if i != done {
          assert i in h[1..];
        }
      }
    }
  }

  /**
   * Quota of one: the first submission is analysed and spends it; the second
   * is refused and the history still holds the one entry.
   */
  lemma LastUnitOfQuota(s: UIState, d1: Draws, d2: Draws)
    requires s.user.Some? && s.dailyRemaining == 1 && s.history == []
    ensures var first := Submit(s, "1", "a.jpg", Image, 0, d1);
      && first.outcome.Analysed? && first.outcome.item.status == Done
      && first.state.dailyRemaining == 0 && |first.state.history| == 1
      && var second := Submit(first.state, "2", "b.jpg", Image, 1, d2);
      && second.outcome == LimitReached
      && second.state == first.state && |second.state.history| == 1
  {
  }
}
