/**
 * The upload panel: `onFiles` (file picker and drop) and `analyseFromUrl`
 * (the URL field), which classify their input and then run the submission
 * protocol against the store, plus the panel's own state (`url`, `urlErr`,
 * `uploading`).
 */
module UploadPanel {
  import opened Wrappers
  import opened Items
  import opened Text
  import opened Engine
  import opened SessionStore
  import opened Submission

  /** The part of a picked or dropped File the handler reads. */
  datatype FileInfo = FileInfo(name: string, mimeType: string)

  /** `f.type.startsWith('video') ? 'video' : 'image'`: any other MIME type counts as an image. */
  function FileMediaType(mimeType: string): (t: MediaType)
    ensures t == Video <==> |mimeType| >= 5 && mimeType[..5] == "video"
  {
    if StartsWith(mimeType, "video") then Video else Image
  }

  const HttpScheme := "http://"
  const HttpsScheme := "https://"

  /** `/^https?:\/\//i`: an http or https scheme, letters in either case. */
  predicate HasHttpScheme(u: string) {
    var l := Lower(u);
    StartsWith(l, HttpScheme) || StartsWith(l, HttpsScheme)
  }

  /** The input with `https://` put in front unless it already has an http(s) scheme. */
  function WithHttpsScheme(u: string): (r: string)
    ensures HasHttpScheme(r)
    ensures r == u <==> HasHttpScheme(u)
    ensures r == u || r == HttpsScheme + u
  {
    if HasHttpScheme(u) then u
    else
      var r := HttpsScheme + u;
      LowerAppend(HttpsScheme, u);
      LowerHttps();
      assert Lower(r)[..|HttpsScheme|] == HttpsScheme;
      r
  }

  /** Normalising is idempotent: a normalised URL is left as it is. */
  lemma WithHttpsSchemeIdempotent(u: string)
    ensures WithHttpsScheme(WithHttpsScheme(u)) == WithHttpsScheme(u)
  {
  }

  const VideoExtensions: seq<string> := [".mp4", ".mov", ".webm", ".m4v"]
  const ImageExtensions: seq<string> := [".jpg", ".jpeg", ".png", ".gif", ".webp"]

  const EnterUrl := "Enter a URL"
  const NeedsDirectUrl := "Needs direct image/video URL"
  const DailyLimit := "Daily limit reached"

  /** `exts.find(e => lower.includes(e))`: the first listed extension that occurs. */
  function Find(lower: string, exts: seq<string>): (r: Option<string>)
    ensures r.None? <==> forall e :: e in exts ==> !Contains(lower, e)
    ensures r.Some? ==> exists k :: (0 <= k < |exts| && exts[k] == r.value && Contains(lower, r.value)
      && forall j :: 0 <= j < k ==> !Contains(lower, exts[j]))
  {
    if exts == [] then None
    else if Contains(lower, exts[0]) then
      assert exts[0] in exts;
      Some(exts[0])
    else
      var r := Find(lower, exts[1..]);
      assert forall e :: e in exts ==> e == exts[0] || e in exts[1..];
      if r.Some? then
        var k :| (0 <= k < |exts[1..]| && exts[1..][k] == r.value && Contains(lower, r.value)
          && forall j :: 0 <= j < k ==> !Contains(lower, exts[1..][j]));
        assert forall j :: 0 <= j < k + 1 ==> !Contains(lower, exts[j]) by {
          forall j | 0 <= j < k + 1 ensures !Contains(lower, exts[j]) {
            if j > 0 { assert exts[j] == exts[1..][j - 1]; }
          }
        }
        assert r.value in exts;
        r
      else r
  }

  /** `exts.some(e => lower.includes(e))`. */
  predicate AnyContained(lower: string, exts: seq<string>) {
    exists e :: e in exts && Contains(lower, e)
  }

  /** A URL that passed validation, with the media type read from its extension. */
  datatype UrlRequest = UrlRequest(url: string, mediaType: MediaType)

  /** The validation and classification steps of `analyseFromUrl`, before any store access. */
  function CheckUrl(input: string): Result<UrlRequest, string> {
    var raw := Trim(input);
    if raw == [] then Failure(EnterUrl)
    else
      var u := WithHttpsScheme(raw);
      var lower := Lower(u);
      if Find(lower, VideoExtensions + ImageExtensions).None? then Failure(NeedsDirectUrl)
      else Success(UrlRequest(u, if AnyContained(lower, VideoExtensions) then Video else Image))
  }

  /** Every extension starts with a dot. */
  lemma ExtensionsStartWithDot(e: string)
    requires e in VideoExtensions + ImageExtensions
    ensures |e| > 0 && e[0] == '.'
  {
  }

  lemma LowerHttps()
    ensures Lower(HttpsScheme) == HttpsScheme
  {
    var s := HttpsScheme;
    var r := Lower(s);
    forall i | 0 <= i < |s| ensures r[i] == s[i] {
      assert !('A' <= s[i] <= 'Z');
    }
  }

  lemma SchemeHasNoDot()
    ensures forall k :: 0 <= k < |HttpsScheme| ==> HttpsScheme[k] != '.'
  {
  }

  /**
   * Putting `https://` in front never creates or removes a match of a
   * pattern that starts with '.', as every extension does: the scheme has no dot.
   */
  lemma SchemeDoesNotMatter(raw: string, e: string)
    requires |e| > 0 && e[0] == '.'
    ensures Contains(Lower(WithHttpsScheme(raw)), e) <==> Contains(Lower(raw), e)
  {
    if WithHttpsScheme(raw) != raw {
      assert WithHttpsScheme(raw) == HttpsScheme + raw;
      LowerAppend(HttpsScheme, raw);
      LowerHttps();
      SchemeHasNoDot();
      ContainsPastPrefix(HttpsScheme, Lower(raw), e);
    }
  }

  /** Putting `https://` in front changes no match of a list of dotted extensions. */
  lemma SchemeKeepsMatches(raw: string, exts: seq<string>)
    requires forall e :: e in exts ==> |e| > 0 && e[0] == '.'
    ensures AnyContained(Lower(WithHttpsScheme(raw)), exts) <==> AnyContained(Lower(raw), exts)
  {
    forall e | e in exts
      ensures Contains(Lower(WithHttpsScheme(raw)), e) <==> Contains(Lower(raw), e)
    {
      SchemeDoesNotMatter(raw, e);
    }
  }

  /** Every extension of the allowlist starts with a dot. */
  lemma AllowlistDotted()
    ensures forall e :: e in VideoExtensions + ImageExtensions ==> |e| > 0 && e[0] == '.'
    ensures forall e :: e in VideoExtensions ==> |e| > 0 && e[0] == '.'
  {
    forall e | e in VideoExtensions + ImageExtensions ensures |e| > 0 && e[0] == '.' {
      ExtensionsStartWithDot(e);
    }
  }

  /** The scheme changes neither whether a listed extension occurs nor whether a video extension does. */
  lemma SchemeKeepsAllowlist(raw: string)
    ensures AnyContained(Lower(WithHttpsScheme(raw)), VideoExtensions + ImageExtensions)
      <==> AnyContained(Lower(raw), VideoExtensions + ImageExtensions)
    ensures AnyContained(Lower(WithHttpsScheme(raw)), VideoExtensions) <==> AnyContained(Lower(raw), VideoExtensions)
  {
    AllowlistDotted();
    SchemeKeepsMatches(raw, VideoExtensions + ImageExtensions);
    SchemeKeepsMatches(raw, VideoExtensions);
  }

  /** A blank input, and only a blank input, is refused with "Enter a URL". */
  lemma CheckUrlBlank(input: string)
    ensures CheckUrl(input) == Failure(EnterUrl) <==> AllWhitespace(input)
  {
    TrimEmptyIffBlank(input);
    assert EnterUrl != NeedsDirectUrl by { assert |EnterUrl| != |NeedsDirectUrl|; }
  }

  /** A non-blank input is refused with "Needs direct image/video URL" exactly when no listed extension occurs. */
  lemma CheckUrlRejects(input: string)
    ensures CheckUrl(input) == Failure(NeedsDirectUrl) <==>
      !AllWhitespace(input) && !AnyContained(Lower(Trim(input)), VideoExtensions + ImageExtensions)
    ensures CheckUrl(input).Failure? ==> CheckUrl(input).error == EnterUrl || CheckUrl(input).error == NeedsDirectUrl
  {
    TrimEmptyIffBlank(input);
    SchemeKeepsAllowlist(Trim(input));
    assert EnterUrl != NeedsDirectUrl by { assert |EnterUrl| != |NeedsDirectUrl|; }
  }

  /** An accepted URL has an http(s) scheme and is the trimmed input with or without `https://`. */
  lemma CheckUrlAcceptsUrl(input: string)
    ensures CheckUrl(input).Success? ==> HasHttpScheme(CheckUrl(input).value.url)
    ensures CheckUrl(input).Success? ==>
      CheckUrl(input).value.url == Trim(input) || CheckUrl(input).value.url == HttpsScheme + Trim(input)
  {
  }

  /** An accepted URL is a video exactly when a video extension occurs in the scheme-prefixed form. */
  lemma CheckUrlKind(input: string)
    ensures CheckUrl(input).Success? ==>
      (CheckUrl(input).value.mediaType == Video <==> AnyContained(Lower(WithHttpsScheme(Trim(input))), VideoExtensions))
  {
  }

  /** An accepted URL is a video exactly when a video extension occurs in the trimmed input. */
  lemma CheckUrlAcceptsKind(input: string)
    ensures CheckUrl(input).Success? ==>
      (CheckUrl(input).value.mediaType == Video <==> AnyContained(Lower(Trim(input)), VideoExtensions))
  {
    CheckUrlKind(input);
    SchemeKeepsAllowlist(Trim(input));
  }

  /**
   * What `analyseFromUrl` accepts: a blank input is "Enter a URL"; otherwise
   * the URL is accepted exactly when its lower-case form contains one of the
   * nine extensions, else "Needs direct image/video URL"; an accepted URL
   * carries an http(s) scheme, ends with the trimmed input, and is a video
   * exactly when some video extension occurs, whatever image extension does.
   */
  lemma CheckUrlSpec(input: string)
    ensures CheckUrl(input) == Failure(EnterUrl) <==> AllWhitespace(input)
    ensures CheckUrl(input) == Failure(NeedsDirectUrl) <==>
      !AllWhitespace(input) && !AnyContained(Lower(Trim(input)), VideoExtensions + ImageExtensions)
    ensures CheckUrl(input).Failure? ==> CheckUrl(input).error == EnterUrl || CheckUrl(input).error == NeedsDirectUrl
    ensures CheckUrl(input).Success? ==> HasHttpScheme(CheckUrl(input).value.url)
    ensures CheckUrl(input).Success? ==>
      CheckUrl(input).value.url == Trim(input) || CheckUrl(input).value.url == HttpsScheme + Trim(input)
    ensures CheckUrl(input).Success? ==>
      (CheckUrl(input).value.mediaType == Video <==> AnyContained(Lower(Trim(input)), VideoExtensions))
  {
    CheckUrlBlank(input);
    CheckUrlRejects(input);
    CheckUrlAcceptsUrl(input);
    CheckUrlAcceptsKind(input);
  }

  /** The panel's own state: the URL field, its error line and the busy flag. */
  class Panel {
    var url: string
    var urlErr: Option<string>
    var uploading: bool

    constructor ()
      ensures url == [] && urlErr == None && !uploading
    {
      url := [];
      urlErr := None;
      uploading := false;
    }

    /**
     * `onFiles`: an absent or empty file list is ignored; otherwise the first
     * file is classified by MIME type and submitted. The auth prompt (a 600 ms
     * timer in the source) is the `AuthRequired` outcome, the quota alert the
     * `LimitReached` outcome.
     */
    method OnFiles(store: UIStore, files: Option<seq<FileInfo>>, id: string, now: int, d: Draws)
      returns (outcome: Option<Outcome>)
      requires store.Valid()
      modifies this, store
      ensures store.Valid()
      ensures url == old(url) && urlErr == old(urlErr)
      ensures files.None? || files.value == [] ==>
        outcome.None? && store.State() == old(store.State()) && uploading == old(uploading)
      ensures files.Some? && files.value != [] ==>
        var f := files.value[0];
        var step := Submit(old(store.State()), id, f.name, FileMediaType(f.mimeType), now, d);
        && store.State() == step.state
        && outcome == Some(step.outcome)
        && uploading == (if step.outcome == LimitReached then old(uploading) else false)
    {
      if files.None? || |files.value| == 0 {
        return None;
      }
      var f := files.value[0];
      var mediaType := FileMediaType(f.mimeType);
      var result, inFlight := SubmitTo(store, id, f.name, mediaType, now, d);
      if result != LimitReached {
        uploading := false;
      }
      return Some(result);
    }

    /**
     * `analyseFromUrl`: validates the field, then runs the submission.
     * Validation failures and the quota refusal set `urlErr`; the field is
     * cleared only after a completed analysis.
     */
    method AnalyseFromUrl(store: UIStore, id: string, now: int, d: Draws)
      returns (outcome: Option<Outcome>)
      requires store.Valid()
      modifies this, store
      ensures store.Valid()
      ensures var check := CheckUrl(old(url));
        && (check.Failure? ==>
              && outcome.None? && store.State() == old(store.State())
              && urlErr == Some(check.error) && url == old(url) && uploading == old(uploading))
        && (check.Success? ==>
              var step := Submit(old(store.State()), id, check.value.url, check.value.mediaType, now, d);
              && store.State() == step.state
              && outcome == Some(step.outcome)
              && urlErr == (if step.outcome == LimitReached then Some(DailyLimit) else None)
              && url == (if step.outcome.Analysed? then [] else old(url))
              && uploading == (if step.outcome == LimitReached then old(uploading) else false))
    {
      var check := CheckUrl(url);
      if check.Failure? {
        urlErr := Some(check.error);
        return None;
      }
      var result := SubmitRequest(store, check.value, id, now, d);
      return Some(result);
    }

    /** The part of `analyseFromUrl` after validation: the submission and the field updates it causes. */
    method SubmitRequest(store: UIStore, req: UrlRequest, id: string, now: int, d: Draws)
      returns (outcome: Outcome)
      requires store.Valid()
      modifies this, store
      ensures store.Valid()
      ensures var step := Submit(old(store.State()), id, req.url, req.mediaType, now, d);
        && store.State() == step.state
        && outcome == step.outcome
        && urlErr == (if step.outcome == LimitReached then Some(DailyLimit) else None)
        && url == (if step.outcome.Analysed? then [] else old(url))
        && uploading == (if step.outcome == LimitReached then old(uploading) else false)
    {
      urlErr := None;
      ghost var inFlight;
      outcome, inFlight := SubmitTo(store, id, req.url, req.mediaType, now, d);
      if outcome == LimitReached {
        urlErr := Some(DailyLimit);
      } else {
        uploading := false;
      }
      if outcome.Analysed? {
        url := [];
      }
    }
  }

  /** An anonymous visitor dropping "a.jpg" sees a `processing` placeholder; no history entry, quota untouched. */
  lemma AnonymousFileScenario(s: UIState, id: string, now: int, d: Draws)
    requires s.user.None?
    ensures var r := Submit(s, id, "a.jpg", FileMediaType("image/jpeg"), now, d);
      && r.outcome == AuthRequired
      && r.state.analysisItem == Some(NewItem(id, "a.jpg", Image, now, Processing))
      && r.state.history == s.history && r.state.dailyRemaining == s.dailyRemaining
  {
    assert "image/jpeg"[0] != "video"[0];
  }
}
