/**
 * The page controller (Index.jsx): it keeps its own staged image, loading
 * flag and prediction, and its predict handler falls back to a demo label,
 * after a delay, on any failure.
 *
 * As in the upload widget, the state together with the browser work the page
 * waits on is a `PageState`; each handler is a function on it and the class
 * `Page` performs the same handler on its fields. A pending `fetch` settles
 * in `OnPageResponse`, and a pending `setTimeout` callback fires in
 * `OnFallback` with the index that `Math.floor(Math.random() * 4)` picked.
 */
module IndexPage {
  import opened Js
  import opened Wire
  import MRIUpload

  /** The four labels of the demo fallback, in their order. */
  const MockPredictions: seq<string> :=
    ["No Dementia", "Mild Dementia", "Moderate Dementia", "Severe Dementia"]

  /** `inFlight`: the file carried by each `fetch` not yet settled;
      `timers`: the fallback callbacks scheduled and not yet run. */
  datatype PageState = PageState(
    selectedImage: Option<File>,
    isLoading: bool,
    prediction: Scalar,
    inFlight: seq<File>,
    timers: nat)

  const PageInitial := PageState(None, false, Null, [], 0)

  /** `handleImageSelect(file)`. */
  function OnImageSelect(s: PageState, file: Option<File>): PageState
  {
    s.(selectedImage := file, prediction := Null)
  }

  /** `handlePredict` up to the `await`: without an image nothing happens. */
  function OnPredict(s: PageState): PageState
  {
    if s.selectedImage.None? then s
    else s.(isLoading := true, inFlight := s.inFlight + [s.selectedImage.value])
  }

  /** How the `try` block of `handlePredict` ends: with `result.prediction`,
      or by throwing (`None`) on a transport error, a non-ok status, a body
      that does not decode, or a `null` body. The closeness array is not read. */
  function PageOutcome(resp: Response): Option<Scalar>
  {
    if resp.Http? && resp.ok && resp.body.Record? then Some(resp.body.prediction) else None
  }

  /** The k-th request settles. On success the prediction is the response's
      and loading ends; on failure a fallback is scheduled and the early
      `return` skips the final `setIsLoading(false)`. */
  function OnPageResponse(s: PageState, k: nat, resp: Response): PageState
    requires k < |s.inFlight|
  {
    var s1 := s.(inFlight := RemoveAt(s.inFlight, k));
    match PageOutcome(resp)
    case Some(p) => s1.(prediction := p, isLoading := false)
    case None => s1.(timers := s1.timers + 1)
  }

  /** A scheduled fallback runs: the demo label at index i, and loading ends. */
  function OnFallback(s: PageState, i: nat): PageState
    requires s.timers > 0 && i < |MockPredictions|
  {
    s.(prediction := Str(MockPredictions[i]), isLoading := false, timers := s.timers - 1)
  }

  /** The page's Analyze button is rendered. */
  predicate PredictOffered(s: PageState)
  {
    s.selectedImage.Some? && !s.isLoading && !Truthy(s.prediction)
  }

  // ---------------------------------------------------------------------
  // Properties of the handlers
  // ---------------------------------------------------------------------

  /** Selecting an image stages it and clears the prediction, and nothing else. */
  lemma ImageSelectStages(s: PageState, file: Option<File>)
    ensures var t := OnImageSelect(s, file);
      t.selectedImage == file && t.prediction == Null
      && t.isLoading == s.isLoading && t.inFlight == s.inFlight && t.timers == s.timers
  {
  }

  /** Predicting without an image changes nothing: no request, no loading. */
  lemma PredictWithoutImage(s: PageState)
    requires s.selectedImage.None?
    ensures OnPredict(s) == s
  {
  }

  /** With an image, loading starts and one request for it is issued; the
      prediction shown so far is not cleared. */
  lemma PredictIssuesRequest(s: PageState)
    requires s.selectedImage.Some?
    ensures OnPredict(s).isLoading && OnPredict(s).prediction == s.prediction
    ensures OnPredict(s).inFlight == s.inFlight + [s.selectedImage.value]
  {
  }

  /** Success: the prediction comes from the response, loading ends. */
  lemma PageSuccess(s: PageState, k: nat, p: Scalar, c: Option<seq<Entry>>)
    requires k < |s.inFlight|
    ensures var t := OnPageResponse(s, k, Http(true, Record(p, c)));
      t.prediction == p && !t.isLoading && t.timers == s.timers
  {
  }

  /** Any failure (no response, a non-ok status, an undecodable or `null`
      body) schedules the fallback and leaves loading and the prediction alone. */
  lemma PageFailure(s: PageState, k: nat, resp: Response)
    requires k < |s.inFlight|
    requires resp.NetworkError? || !resp.ok || resp.body.Unparseable? || resp.body.NullBody?
    ensures var t := OnPageResponse(s, k, resp);
      t.timers == s.timers + 1 && t.isLoading == s.isLoading && t.prediction == s.prediction
      && |t.inFlight| == |s.inFlight| - 1
  {
  }

  /** The fallback ends loading with one of the four demo labels. Every label
      is truthy, so the page's Analyze button stays hidden afterwards. */
  lemma FallbackLabel(s: PageState, i: nat)
    requires s.timers > 0 && i < |MockPredictions|
    ensures var t := OnFallback(s, i);
      && !t.isLoading && t.prediction.Str?
      && t.prediction.s in {"No Dementia", "Mild Dementia", "Moderate Dementia", "Severe Dementia"}
    ensures Truthy(OnFallback(s, i).prediction) && !PredictOffered(OnFallback(s, i))
  {
  }

  /** The two controllers answer the same response differently: a body with
      no `closeness` array fails in the widget (after setting its prediction)
      but succeeds on the page; a non-ok status leaves the widget idle but the
      page loading, waiting for its fallback. */
  lemma PoliciesDiverge(u: MRIUpload.UploadState, s: PageState, p: Scalar)
    requires |u.inFlight| == 1 && |s.inFlight| == 1
    ensures MRIUpload.Settle(Http(true, Record(p, None))).Threw?
    ensures PageOutcome(Http(true, Record(p, None))) == Some(p)
    ensures !MRIUpload.OnResponse(u, 0, Http(false, NullBody)).isLoading
    ensures OnPageResponse(s, 0, Http(false, NullBody)).isLoading == s.isLoading
    ensures OnPageResponse(s, 0, Http(false, NullBody)).timers == s.timers + 1
  {
  }

  // ---------------------------------------------------------------------
  // Runs of events
  // ---------------------------------------------------------------------

  datatype PageEvent =
    | ImageSelected(file: Option<File>)
    | ClickPredict
    | PredictSettles(k: nat, resp: Response)
    | FallbackFires(i: nat)

  predicate PageEnabled(s: PageState, e: PageEvent)
  {
    match e
    case PredictSettles(k, _) => k < |s.inFlight|
    case FallbackFires(i) => s.timers > 0 && i < |MockPredictions|
    case _ => true
  }

  /** What can happen given the page's screen: the Analyze button only when
      it is rendered. `handleImageSelect` is a callback handed to the widget
      and may come at any time. */
  predicate PageOffered(s: PageState, e: PageEvent)
  {
    match e
    case ClickPredict => PredictOffered(s)
    case _ => PageEnabled(s, e)
  }

  function PageStep(s: PageState, e: PageEvent): PageState
    requires PageEnabled(s, e)
  {
    match e
    case ImageSelected(file) => OnImageSelect(s, file)
    case ClickPredict => OnPredict(s)
    case PredictSettles(k, resp) => OnPageResponse(s, k, resp)
    case FallbackFires(i) => OnFallback(s, i)
  }

  predicate PageFeasible(s: PageState, es: seq<PageEvent>)
    decreases |es|
  {
    es == [] || (PageEnabled(s, es[0]) && PageFeasible(PageStep(s, es[0]), es[1..]))
  }

  predicate PageOfferedRun(s: PageState, es: seq<PageEvent>)
    decreases |es|
  {
    es == [] || (PageOffered(s, es[0]) && PageOfferedRun(PageStep(s, es[0]), es[1..]))
  }

  function PageRun(s: PageState, es: seq<PageEvent>): PageState
    requires PageFeasible(s, es)
    decreases |es|
  {
    if es == [] then s else PageRun(PageStep(s, es[0]), es[1..])
  }

  /** The invariant of every state the screen can lead to: at most one
      request or fallback is outstanding, and loading is on exactly while
      one is. */
  predicate PageDisciplined(s: PageState)
  {
    && |s.inFlight| + s.timers <= 1
    && (s.isLoading <==> |s.inFlight| + s.timers == 1)
  }

  lemma PageInitialDisciplined()
    ensures PageDisciplined(PageInitial) && !PageInitial.isLoading
  {
  }

  lemma PageStepKeepsDisciplined(s: PageState, e: PageEvent)
    requires PageDisciplined(s) && PageOffered(s, e)
    ensures PageDisciplined(PageStep(s, e))
  {
  }

  lemma {:induction false} PageDisciplinedRun(s: PageState, es: seq<PageEvent>)
    requires PageDisciplined(s) && PageOfferedRun(s, es)
    ensures PageFeasible(s, es) && PageDisciplined(PageRun(s, es))
    decreases |es|
  {
    if es != [] {
      PageStepKeepsDisciplined(s, es[0]);
      PageDisciplinedRun(PageStep(s, es[0]), es[1..]);
    }
  }

  /** In a reachable state a failure leaves the page loading, with its
      fallback the only thing outstanding. */
  lemma FailureKeepsLoading(s: PageState, k: nat, resp: Response)
    requires PageDisciplined(s) && k < |s.inFlight|
    requires resp.NetworkError? || !resp.ok || resp.body.Unparseable? || resp.body.NullBody?
    ensures var t := OnPageResponse(s, k, resp);
      t.isLoading && t.timers == 1 && t.inFlight == [] && PageDisciplined(t)
  {
  }

  /** Once a fallback is scheduled, whatever else happens through the page,
      loading stays on and the Analyze button stays hidden until a fallback fires. */
  lemma {:induction false} LoadingUntilFallback(s: PageState, es: seq<PageEvent>)
    requires PageDisciplined(s) && s.timers > 0 && PageOfferedRun(s, es)
    requires forall j :: 0 <= j < |es| ==> !es[j].FallbackFires?
    ensures PageFeasible(s, es)
    ensures PageRun(s, es).isLoading && PageRun(s, es).timers == s.timers
    ensures !PredictOffered(PageRun(s, es))
    decreases |es|
  {
    if es != [] {
      assert !es[0].FallbackFires?;
      var t := PageStep(s, es[0]);
      assert t.timers == s.timers && t.isLoading && t.inFlight == [];
      LoadingUntilFallback(t, es[1..]);
    }
  }

  // ---------------------------------------------------------------------
  // The page
  // ---------------------------------------------------------------------

  /** The page instance: its `useState` variables, and as ghost fields the
      requests and the scheduled fallbacks the browser has not yet completed. */
  class Page {
    var selectedImage: Option<File>
    var isLoading: bool
    var prediction: Scalar
    ghost var inFlight: seq<File>
    ghost var timers: nat

    ghost function Snapshot(): PageState
      reads this
    {
      PageState(selectedImage, isLoading, prediction, inFlight, timers)
    }

    constructor ()
      ensures Snapshot() == PageInitial
    {
      selectedImage, isLoading, prediction := None, false, Null;
      inFlight, timers := [], 0;
    }

    method HandleImageSelect(file: Option<File>)
      modifies this
      ensures Snapshot() == OnImageSelect(old(Snapshot()), file)
    {
      selectedImage := file;
      prediction := Null;
    }

    /** Returns whether a request was issued (false: "Please select an MRI image first"). */
    method HandlePredict() returns (issued: bool)
      modifies this
      ensures issued == old(selectedImage).Some?
      ensures Snapshot() == OnPredict(old(Snapshot()))
    {
      if selectedImage.None? {
        return false;
      }
      isLoading := true;
      inFlight := inFlight + [selectedImage.value];  // fetch(...)
      return true;
    }

    /** The rest of `handlePredict` once its k-th request settles. Returns
        whether the `catch` block ran and scheduled the fallback. */
    method ResponseArrives(k: nat, resp: Response) returns (failed: bool)
      requires k < |inFlight|
      modifies this
      ensures failed == PageOutcome(resp).None?
      ensures Snapshot() == OnPageResponse(old(Snapshot()), k, resp)
    {
      inFlight := RemoveAt(inFlight, k);
      if !(resp.Http? && resp.ok && resp.body.Record?) {
        timers := timers + 1;  // setTimeout(..., 2000); return;
        return true;
      }
      prediction := resp.body.prediction;
      isLoading := false;
      return false;
    }

    /** The fallback callback, with the index the random draw produced. */
    method TimerFires(i: nat)
      requires timers > 0 && i < |MockPredictions|
      modifies this
      ensures Snapshot() == OnFallback(old(Snapshot()), i)
    {
      timers := timers - 1;
      prediction := Str(MockPredictions[i]);
      isLoading := false;
    }

    /** Whether the page's Analyze button is on screen. In a reachable state
        it is exactly when an image is staged, neither a request nor a
        fallback is outstanding and no prediction is shown. */
    method PredictShown() returns (shown: bool)
      requires PageDisciplined(Snapshot())
      ensures shown <==> selectedImage.Some? && inFlight == [] && timers == 0 && !Truthy(prediction)
    {
      shown := selectedImage.Some? && !isLoading && !Truthy(prediction);
    }
  }
}
