/**
 * The upload widget (MRIUpload.jsx): file intake, clearing, the analyse
 * request and what the rendering shows.
 *
 * The component's six state variables, together with the browser work it has
 * started and not yet seen finish, form an `UploadState`. Each handler is a
 * function from the old state to the new one (the specification), and the
 * class `Component` performs the same handler by overwriting its fields one
 * setter at a time (the implementation). The asynchronous parts are separate
 * events: a `FileReader` finishing (`ReadLoads`) and a `fetch` settling
 * (`FetchSettles`), each naming which pending task completes, in any order.
 */
module MRIUpload {
  import opened Js
  import opened Wire

  // ---------------------------------------------------------------------
  // Intake validation
  // ---------------------------------------------------------------------

  /** The size limit: 10 MiB. */
  const MaxBytes: nat := 10 * 1024 * 1024

  /** What `handleFiles` does with a file list: nothing to take, a type
      rejection, a size rejection, or acceptance of the first file. */
  datatype IntakeResult = NoFile | InvalidType | TooLarge | Accepted

  /** The checks of `handleFiles`, in their order. `None` is a missing list. */
  function CheckFiles(files: Option<seq<File>>): IntakeResult
  {
    if files.None? || |files.value| == 0 then NoFile
    else if !StartsWith(files.value[0].mimeType, "image/") then InvalidType
    else if files.value[0].size > MaxBytes then TooLarge
    else Accepted
  }

  /** Only the first file of a list is ever looked at. */
  lemma OnlyFirstFileConsidered(f: File, rest: seq<File>)
    ensures CheckFiles(Some([f] + rest)) == CheckFiles(Some([f]))
  {
  }

  /** A file whose type does not start with "image/" is a type rejection,
      whatever its size: the type is checked first. */
  lemma TypeCheckedBeforeSize(f: File)
    requires !(|f.mimeType| >= 6 && f.mimeType[..6] == "image/")
    ensures CheckFiles(Some([f])) == InvalidType
  {
  }

  /** An image is accepted exactly when it has at most 10485760 bytes. */
  lemma SizeLimitInclusive(f: File)
    requires |f.mimeType| >= 6 && f.mimeType[..6] == "image/"
    ensures CheckFiles(Some([f])) == Accepted <==> f.size <= 10485760
    ensures CheckFiles(Some([f])) == TooLarge <==> f.size > 10485760
  {
  }

  // ---------------------------------------------------------------------
  // The closeness rows and the bar colours
  // ---------------------------------------------------------------------

  /** A chart row `{ Class, "Closeness (%)" }`. */
  datatype Row = Row(classLabel: Scalar, closeness: Scalar)

  /** Every element of the array can have its properties read (none is `null`). */
  predicate AllItems(es: seq<Entry>)
  {
    forall i :: 0 <= i < |es| ==> es[i].Item?
  }

  /** `data.closeness.map(d => ({ Class: d.class, "Closeness (%)": d.score }))`. */
  function FormatCloseness(es: seq<Entry>): (rows: seq<Row>)
    requires AllItems(es)
    ensures |rows| == |es|
    ensures forall i :: 0 <= i < |es| ==>
      rows[i].classLabel == es[i].cls && rows[i].closeness == es[i].score
  {
    if es == [] then []
    else [Row(es[0].cls, es[0].score)] + FormatCloseness(es[1..])
  }

  /** The renaming undone: each row read back as a response element. */
  function EntriesOf(rows: seq<Row>): (es: seq<Entry>)
    ensures |es| == |rows| && AllItems(es)
  {
    if rows == [] then []
    else [Item(rows[0].classLabel, rows[0].closeness)] + EntriesOf(rows[1..])
  }

  /** Renaming the keys loses nothing: the elements can be read back. */
  lemma {:induction false} EntriesOfFormat(es: seq<Entry>)
    requires AllItems(es)
    ensures EntriesOf(FormatCloseness(es)) == es
  {
    if es != [] {
      assert AllItems(es[1..]);
      EntriesOfFormat(es[1..]);
      assert FormatCloseness(es) == [Row(es[0].cls, es[0].score)] + FormatCloseness(es[1..]);
      assert FormatCloseness(es)[1..] == FormatCloseness(es[1..]);
    }
  }

  /** And every list of rows is the renaming of some response array. */
  lemma {:induction false} FormatEntriesOf(rows: seq<Row>)
    ensures FormatCloseness(EntriesOf(rows)) == rows
  {
    if rows != [] {
      FormatEntriesOf(rows[1..]);
      assert EntriesOf(rows)[1..] == EntriesOf(rows[1..]);
    }
  }

  /** The two fills of a bar: "url(#barGradient)" and "url(#otherGradient)". */
  datatype Fill = Highlight | Plain

  /** One `Cell` per row, highlighted when `entry.Class === prediction`. */
  function BarFills(rows: seq<Row>, prediction: Scalar): (fills: seq<Fill>)
    ensures |fills| == |rows|
    ensures forall i :: 0 <= i < |rows| ==>
      (fills[i] == Highlight <==> rows[i].classLabel == prediction)
  {
    if rows == [] then []
    else [if rows[0].classLabel == prediction then Highlight else Plain] + BarFills(rows[1..], prediction)
  }

  /** With distinct class labels, at most one bar is highlighted, and it is
      the row of the predicted class when that class is in the list. */
  lemma DistinctLabelsHighlightOne(rows: seq<Row>, prediction: Scalar, k: nat)
    requires forall i, j :: 0 <= i < j < |rows| ==> rows[i].classLabel != rows[j].classLabel
    requires k < |rows| && rows[k].classLabel == prediction
    ensures forall i :: 0 <= i < |rows| ==> (BarFills(rows, prediction)[i] == Highlight <==> i == k)
  {
    var fills := BarFills(rows, prediction);
    forall i | 0 <= i < |rows|
      ensures fills[i] == Highlight <==> i == k
    {
      if i < k {
        assert rows[i].classLabel != rows[k].classLabel;
      } else if k < i {
        assert rows[k].classLabel != rows[i].classLabel;
      }
    }
  }

  // ---------------------------------------------------------------------
  // State and handlers
  // ---------------------------------------------------------------------

  /** The component state, and the browser tasks it is waiting on:
      `inFlight` holds the file carried by each `fetch` not yet settled,
      `pendingReads` the file of each `FileReader` not yet loaded.
      `previewUrl` is the data URL of a file, represented by that file.
      `inputValue` is the value of the hidden file input. */
  datatype UploadState = UploadState(
    dragActive: bool,
    previewUrl: Option<File>,
    selectedImage: Option<File>,
    isLoading: bool,
    prediction: Scalar,
    closenessData: Option<seq<Row>>,
    inputValue: string,
    inFlight: seq<File>,
    pendingReads: seq<File>)

  /** The state on mount: every `useState` initial value, nothing pending. */
  const Initial := UploadState(false, None, None, false, Null, None, "", [], [])

  /** The three events wired to `handleDrag`. */
  datatype DragKind = DragEnter | DragOver | DragLeave

  /** `handleDrag`. */
  function OnDrag(s: UploadState, kind: DragKind): UploadState
  {
    if kind == DragEnter || kind == DragOver then s.(dragActive := true)
    else s.(dragActive := false)
  }

  /** The drop zone is highlighted after enter and over, not after leave
      or a drop; nothing else changes. */
  lemma DragHighlight(s: UploadState, kind: DragKind, files: seq<File>)
    ensures OnDrag(s, kind).dragActive <==> kind != DragLeave
    ensures OnDrag(s, kind).(dragActive := s.dragActive) == s
    ensures !OnDrop(s, files).dragActive
  {
  }

  /** `handleFiles`: an accepted file starts a read for its preview, becomes
      the staged image and discards any result; otherwise nothing changes. */
  function OnFiles(s: UploadState, files: Option<seq<File>>): UploadState
  {
    if CheckFiles(files) == Accepted then
      var file := files.value[0];
      s.(pendingReads := s.pendingReads + [file],
         selectedImage := Some(file), prediction := Null, closenessData := None)
    else s
  }

  /** `handleDrop`: the drag highlight goes off, then the dropped files go to intake. */
  function OnDrop(s: UploadState, files: seq<File>): UploadState
  {
    OnFiles(s.(dragActive := false), Some(files))
  }

  /** The input's `onChange`: the browser has set the input's value, then
      `handleFiles(e.target.files)` runs. */
  function OnInputChange(s: UploadState, files: Option<seq<File>>, value: string): UploadState
  {
    OnFiles(s.(inputValue := value), files)
  }

  /** `clearImage`. */
  function OnClear(s: UploadState): UploadState
  {
    s.(previewUrl := None, selectedImage := None, prediction := Null,
       closenessData := None, inputValue := "")
  }

  /** `analyzeMRI` up to the `await`: without an image nothing happens;
      otherwise loading starts, the result is discarded and a request for the
      staged file is issued. */
  function OnAnalyze(s: UploadState): UploadState
  {
    if s.selectedImage.None? then s
    else s.(isLoading := true, prediction := Null, closenessData := None,
            inFlight := s.inFlight + [s.selectedImage.value])
  }

  /** How the `try` block of `analyzeMRI` ends for a response: it throws after
      possibly having already called `setPrediction`, or it completes with the
      prediction and the formatted rows. */
  datatype Settlement =
    | Threw(written: Option<Scalar>)
    | Completed(prediction: Scalar, rows: seq<Row>)

  function Settle(resp: Response): Settlement
  {
    match resp
    case NetworkError => Threw(None)
    case Http(ok, body) =>
      if !ok then Threw(None)
      else
        match body
        case Unparseable => Threw(None)
        case NullBody => Threw(None)
        case Record(p, c) =>
          if c.Some? && AllItems(c.value) then Completed(p, FormatCloseness(c.value))
          else Threw(Some(p))
  }

  /** The continuation of `analyzeMRI` for its k-th pending request: the
      `try` block's writes, then `finally` turns loading off. Nothing checks
      that the request belongs to the image now staged. */
  function OnResponse(s: UploadState, k: nat, resp: Response): UploadState
    requires k < |s.inFlight|
  {
    var s1 := s.(inFlight := RemoveAt(s.inFlight, k));
    var s2 :=
      match Settle(resp)
      case Threw(None) => s1
      case Threw(Some(p)) => s1.(prediction := p)
      case Completed(p, rows) => s1.(prediction := p, closenessData := Some(rows));
    s2.(isLoading := false)
  }

  /** `reader.onload` of the k-th pending read: the preview becomes that file's. */
  function OnReadLoad(s: UploadState, k: nat): UploadState
    requires k < |s.pendingReads|
  {
    s.(previewUrl := Some(s.pendingReads[k]), pendingReads := RemoveAt(s.pendingReads, k))
  }

  // ---------------------------------------------------------------------
  // Properties of the handlers
  // ---------------------------------------------------------------------

  /** An absent or empty file list, or a rejected file, changes nothing. */
  lemma RejectedIntakeChangesNothing(s: UploadState, files: Option<seq<File>>)
    requires CheckFiles(files) != Accepted
    ensures OnFiles(s, files) == s
  {
  }

  /** An accepted file is staged and any result is gone, whatever came before. */
  lemma AcceptedIntakeStagesFile(s: UploadState, f: File, rest: seq<File>)
    requires StartsWith(f.mimeType, "image/") && f.size <= MaxBytes
    ensures OnFiles(s, Some([f] + rest)).selectedImage == Some(f)
    ensures OnFiles(s, Some([f] + rest)).prediction == Null
    ensures OnFiles(s, Some([f] + rest)).closenessData == None
    ensures OnFiles(s, Some([f] + rest)).isLoading == s.isLoading
  {
  }

  /** Analysing without a staged image issues no request and changes nothing. */
  lemma AnalyzeWithoutImage(s: UploadState)
    requires s.selectedImage.None?
    ensures OnAnalyze(s) == s
  {
  }

  /** With an image, the request carries that image and the result is
      cleared while loading. */
  lemma AnalyzeIssuesRequest(s: UploadState)
    requires s.selectedImage.Some?
    ensures OnAnalyze(s).inFlight == s.inFlight + [s.selectedImage.value]
    ensures OnAnalyze(s).isLoading && OnAnalyze(s).prediction == Null
    ensures OnAnalyze(s).closenessData == None
  {
  }

  /** A well-formed success: the prediction is the response's, and the rows
      are its closeness array in order with the keys renamed. */
  lemma ResponseSuccess(s: UploadState, k: nat, p: Scalar, es: seq<Entry>)
    requires k < |s.inFlight| && AllItems(es)
    ensures var t := OnResponse(s, k, Http(true, Record(p, Some(es))));
      && !t.isLoading && t.prediction == p && t.closenessData.Some?
      && |t.closenessData.value| == |es|
      && forall i :: 0 <= i < |es| ==>
           t.closenessData.value[i] == Row(es[i].cls, es[i].score)
  {
  }

  /** Every other response makes the `try` block throw: the rows stay as
      they were and loading ends; the prediction changes only when the body
      was read far enough to call `setPrediction` before the `.map` threw. */
  lemma ResponseFailure(s: UploadState, k: nat, resp: Response)
    requires k < |s.inFlight|
    requires !(resp.Http? && resp.ok && resp.body.Record? && resp.body.closeness.Some?
               && AllItems(resp.body.closeness.value))
    ensures Settle(resp).Threw?
    ensures var t := OnResponse(s, k, resp);
      && !t.isLoading && t.closenessData == s.closenessData
      && t.selectedImage == s.selectedImage && |t.inFlight| == |s.inFlight| - 1
      && (t.prediction != s.prediction ==>
            resp.Http? && resp.ok && resp.body.Record? && t.prediction == resp.body.prediction)
  {
  }

  /** A body without a usable `closeness` array still sets the prediction. */
  lemma MissingClosenessSetsPrediction(s: UploadState, k: nat, p: Scalar)
    requires k < |s.inFlight|
    ensures var t := OnResponse(s, k, Http(true, Record(p, None)));
      t.prediction == p && t.closenessData == s.closenessData && !t.isLoading
  {
  }

  /** `clearImage` resets the image, the preview, the result and the input. */
  lemma ClearResets(s: UploadState)
    ensures var t := OnClear(s);
      t.previewUrl == None && t.selectedImage == None && t.prediction == Null
      && t.closenessData == None && t.inputValue == ""
      && t.isLoading == s.isLoading && t.inFlight == s.inFlight
  {
  }

  // ---------------------------------------------------------------------
  // Rendering
  // ---------------------------------------------------------------------

  /** The drop zone, its file input and its picker button are rendered. */
  predicate UploadCardShown(s: UploadState) { s.selectedImage.None? }

  /** The preview card with its clear button is rendered. */
  predicate AnalysisCardShown(s: UploadState) { s.selectedImage.Some? && s.previewUrl.Some? }

  /** The Analyze button is rendered (inside the preview card). */
  predicate AnalyzeButtonShown(s: UploadState)
  {
    AnalysisCardShown(s) && !s.isLoading && !Truthy(s.prediction)
  }

  /** The bar chart is rendered. */
  predicate ChartShown(s: UploadState)
  {
    AnalysisCardShown(s) && Truthy(s.prediction) && s.closenessData.Some?
  }

  /** The fills of the bars on screen (none when there is no chart). */
  function Bars(s: UploadState): (fills: seq<Fill>)
    ensures ChartShown(s) ==> |fills| == |s.closenessData.value|
    ensures ChartShown(s) ==> forall i :: 0 <= i < |fills| ==>
      (fills[i] == Highlight <==> s.closenessData.value[i].classLabel == s.prediction)
    ensures !ChartShown(s) ==> fills == []
  {
    if ChartShown(s) then BarFills(s.closenessData.value, s.prediction) else []
  }

  // ---------------------------------------------------------------------
  // Runs of events
  // ---------------------------------------------------------------------

  datatype UploadEvent =
    | Drag(kind: DragKind)
    | Drop(dropped: seq<File>)
    | Pick(chosen: Option<seq<File>>, value: string)
    | ClickClear
    | ClickAnalyze
    | FetchSettles(k: nat, resp: Response)
    | ReadLoads(k: nat)

  /** An event can happen: a completion needs its task to be pending. */
  predicate Enabled(s: UploadState, e: UploadEvent)
  {
    match e
    case FetchSettles(k, _) => k < |s.inFlight|
    case ReadLoads(k) => k < |s.pendingReads|
    case _ => true
  }

  /** A user can cause the event: its control is on screen. */
  predicate Offered(s: UploadState, e: UploadEvent)
  {
    match e
    case Drag(_) => UploadCardShown(s)
    case Drop(_) => UploadCardShown(s)
    case Pick(_, _) => UploadCardShown(s)
    case ClickClear => AnalysisCardShown(s)
    case ClickAnalyze => AnalyzeButtonShown(s)
    case _ => Enabled(s, e)
  }

  function Step(s: UploadState, e: UploadEvent): UploadState
    requires Enabled(s, e)
  {
    match e
    case Drag(kind) => OnDrag(s, kind)
    case Drop(files) => OnDrop(s, files)
    case Pick(files, value) => OnInputChange(s, files, value)
    case ClickClear => OnClear(s)
    case ClickAnalyze => OnAnalyze(s)
    case FetchSettles(k, resp) => OnResponse(s, k, resp)
    case ReadLoads(k) => OnReadLoad(s, k)
  }

  predicate Feasible(s: UploadState, es: seq<UploadEvent>)
    decreases |es|
  {
    es == [] || (Enabled(s, es[0]) && Feasible(Step(s, es[0]), es[1..]))
  }

  /** Every event of the run is one the screen offers at that moment. */
  predicate OfferedRun(s: UploadState, es: seq<UploadEvent>)
    decreases |es|
  {
    es == [] || (Offered(s, es[0]) && OfferedRun(Step(s, es[0]), es[1..]))
  }

  function Run(s: UploadState, es: seq<UploadEvent>): UploadState
    requires Feasible(s, es)
    decreases |es|
  {
    if es == [] then s else Run(Step(s, es[0]), es[1..])
  }

  /** The invariant of every state the screen can lead to: at most one
      request is in flight, exactly while loading, and while loading there is
      no result. */
  predicate Disciplined(s: UploadState)
  {
    && |s.inFlight| <= 1
    && (s.isLoading <==> |s.inFlight| == 1)
    && (s.isLoading ==> s.prediction == Null && s.closenessData.None?)
  }

  lemma InitialDisciplined()
    ensures Disciplined(Initial) && UploadCardShown(Initial) && !Truthy(Initial.prediction)
  {
  }

  lemma StepKeepsDisciplined(s: UploadState, e: UploadEvent)
    requires Disciplined(s) && Offered(s, e)
    ensures Disciplined(Step(s, e))
  {
  }

  /** Whatever the user does through the screen, the request discipline holds:
      the widget never has two requests in flight. */
  lemma {:induction false} DisciplinedRun(s: UploadState, es: seq<UploadEvent>)
    requires Disciplined(s) && OfferedRun(s, es)
    ensures Feasible(s, es) && Disciplined(Run(s, es))
    decreases |es|
  {
    if es != [] {
      StepKeepsDisciplined(s, es[0]);
      DisciplinedRun(Step(s, es[0]), es[1..]);
    }
  }

  /** In a reachable state a failed request leaves no rows behind: the rows
      were cleared when it was issued and nothing sets them meanwhile. */
  lemma FailureLeavesNoRows(s: UploadState, k: nat, resp: Response)
    requires Disciplined(s) && k < |s.inFlight|
    requires !(resp.Http? && resp.ok && resp.body.Record? && resp.body.closeness.Some?
               && AllItems(resp.body.closeness.value))
    ensures OnResponse(s, k, resp).closenessData == None
    ensures Disciplined(OnResponse(s, k, resp))
  {
  }

  // ---------------------------------------------------------------------
  // Scenarios
  // ---------------------------------------------------------------------

  /** The response `{"prediction":"Mild Dementia","closeness":[{"class":"Mild
      Dementia","score":87.5},{"class":"No Dementia","score":12.5}]}`. */
  const MildResponse := Http(true, Record(Str("Mild Dementia"),
    Some([Item(Str("Mild Dementia"), Num(87.5)), Item(Str("No Dementia"), Num(12.5))])))

  /** The example response keeps its order, renames its keys and highlights
      the bar of the predicted class only. */
  lemma MildResponseRendered(s: UploadState)
    requires |s.inFlight| == 1 && AnalysisCardShown(s)
    ensures var t := OnResponse(s, 0, MildResponse);
      && t.prediction == Str("Mild Dementia")
      && t.closenessData == Some([Row(Str("Mild Dementia"), Num(87.5)), Row(Str("No Dementia"), Num(12.5))])
      && Bars(t) == [Highlight, Plain]
  {
    var t := OnResponse(s, 0, MildResponse);
    var es := [Item(Str("Mild Dementia"), Num(87.5)), Item(Str("No Dementia"), Num(12.5))];
    assert AllItems(es);
    var rows := FormatCloseness(es);
    assert rows[0] == Row(Str("Mild Dementia"), Num(87.5)) && rows[1] == Row(Str("No Dementia"), Num(12.5));
    assert rows == [Row(Str("Mild Dementia"), Num(87.5)), Row(Str("No Dementia"), Num(12.5))];
    assert t.closenessData == Some(rows);
    assert ChartShown(t);
    var fills := Bars(t);
    assert |fills| == 2 && fills[0] == Highlight && fills[1] == Plain;
  }

  /** A run offered by the screen can always take place. */
  lemma {:induction false} OfferedIsFeasible(s: UploadState, es: seq<UploadEvent>)
    requires OfferedRun(s, es)
    ensures Feasible(s, es)
    decreases |es|
  {
    if es != [] {
      OfferedIsFeasible(Step(s, es[0]), es[1..]);
    }
  }

  /** Two offered runs, one after the other, are one offered run. */
  lemma {:induction false} RunAppend(s: UploadState, xs: seq<UploadEvent>, ys: seq<UploadEvent>)
    requires OfferedRun(s, xs) && Feasible(s, xs) && OfferedRun(Run(s, xs), ys)
    ensures OfferedRun(s, xs + ys) && Feasible(s, xs + ys)
    ensures Feasible(Run(s, xs), ys) && Run(s, xs + ys) == Run(Run(s, xs), ys)
    decreases |xs|
  {
    OfferedIsFeasible(Run(s, xs), ys);
    if xs == [] {
      assert xs + ys == ys;
    } else {
      assert (xs + ys)[0] == xs[0] && (xs + ys)[1..] == xs[1..] + ys;
      RunAppend(Step(s, xs[0]), xs[1..], ys);
    }
  }

  /** Three offered events in a row. */
  lemma RunThree(s0: UploadState, e0: UploadEvent, e1: UploadEvent, e2: UploadEvent)
    requires Offered(s0, e0) && Offered(Step(s0, e0), e1) && Offered(Step(Step(s0, e0), e1), e2)
    ensures OfferedRun(s0, [e0, e1, e2]) && Feasible(s0, [e0, e1, e2])
    ensures Run(s0, [e0, e1, e2]) == Step(Step(Step(s0, e0), e1), e2)
  {
    var s1 := Step(s0, e0);
    var s2 := Step(s1, e1);
    var s3 := Step(s2, e2);
    assert [e2][1..] == [];
    assert OfferedRun(s2, [e2]) && Feasible(s2, [e2]) && Run(s2, [e2]) == s3;
    assert [e1, e2][1..] == [e2];
    assert OfferedRun(s1, [e1, e2]) && Feasible(s1, [e1, e2]) && Run(s1, [e1, e2]) == s3;
    assert [e0, e1, e2][1..] == [e1, e2];
  }

  /** Choose an image, let its preview load, press Analyze. */
  lemma StartAnalysis(a: File, v: string)
    requires CheckFiles(Some([a])) == Accepted
    ensures var es := [Pick(Some([a]), v), ReadLoads(0), ClickAnalyze];
      && OfferedRun(Initial, es) && Feasible(Initial, es)
      && Run(Initial, es) == Initial.(inputValue := v, selectedImage := Some(a),
           previewUrl := Some(a), isLoading := true, inFlight := [a])
  {
    var s1 := Initial.(inputValue := v, pendingReads := [a], selectedImage := Some(a));
    assert Step(Initial, Pick(Some([a]), v)) == s1;
    var s2 := s1.(previewUrl := Some(a), pendingReads := []);
    assert Step(s1, ReadLoads(0)) == s2;
    RunThree(Initial, Pick(Some([a]), v), ReadLoads(0), ClickAnalyze);
  }

  /** While loading, clear, choose another image and let its preview load. */
  lemma RestageWhileLoading(s: UploadState, b: File, w: string)
    requires AnalysisCardShown(s) && s.pendingReads == [] && CheckFiles(Some([b])) == Accepted
    ensures var es := [ClickClear, Pick(Some([b]), w), ReadLoads(0)];
      && OfferedRun(s, es) && Feasible(s, es)
      && Run(s, es) == s.(inputValue := w, selectedImage := Some(b), previewUrl := Some(b),
                          prediction := Null, closenessData := None)
  {
    var s1 := OnClear(s);
    var s2 := s1.(inputValue := w, pendingReads := [b], selectedImage := Some(b));
    assert Step(s1, Pick(Some([b]), w)) == s2;
    RunThree(s, ClickClear, Pick(Some([b]), w), ReadLoads(0));
  }

  /** Nothing ties a response to the image it was asked for. Through
      controls that are all on screen: choose A, its preview loads, Analyze,
      clear while the request is in flight, choose B, its preview loads; A's
      request, the only one in flight, then answers, and its result is shown
      beside the preview of B. */
  lemma StaleResponseApplied(a: File, b: File, v: string, w: string, p: Scalar, es: seq<Entry>)
    requires CheckFiles(Some([a])) == Accepted && CheckFiles(Some([b])) == Accepted
    requires Truthy(p) && AllItems(es)
    ensures var before := [Pick(Some([a]), v), ReadLoads(0), ClickAnalyze] +
                          [ClickClear, Pick(Some([b]), w), ReadLoads(0)];
      && OfferedRun(Initial, before) && Feasible(Initial, before)
      && Run(Initial, before).inFlight == [a] && Run(Initial, before).selectedImage == Some(b)
      && var t := Step(Run(Initial, before), FetchSettles(0, Http(true, Record(p, Some(es)))));
         && t.selectedImage == Some(b) && t.previewUrl == Some(b)
         && t.prediction == p && t.closenessData == Some(FormatCloseness(es)) && ChartShown(t)
  {
    var xs := [Pick(Some([a]), v), ReadLoads(0), ClickAnalyze];
    var ys := [ClickClear, Pick(Some([b]), w), ReadLoads(0)];
    StartAnalysis(a, v);
    RestageWhileLoading(Run(Initial, xs), b, w);
    RunAppend(Initial, xs, ys);
  }

  // ---------------------------------------------------------------------
  // The component
  // ---------------------------------------------------------------------

  /** The component instance. Its fields are the `useState` variables and the
      input's value; `pendingReads` stands for the `FileReader` objects it has
      started (each holds the file it reads), and the ghost `inFlight` for the
      requests the browser has not yet answered. */
  class Component {
    var dragActive: bool
    var previewUrl: Option<File>
    var selectedImage: Option<File>
    var isLoading: bool
    var prediction: Scalar
    var closenessData: Option<seq<Row>>
    var inputValue: string
    ghost var inFlight: seq<File>
    var pendingReads: seq<File>

    ghost function Snapshot(): UploadState
      reads this
    {
      UploadState(dragActive, previewUrl, selectedImage, isLoading, prediction,
                  closenessData, inputValue, inFlight, pendingReads)
    }

    constructor ()
      ensures Snapshot() == Initial
    {
      dragActive, previewUrl, selectedImage := false, None, None;
      isLoading, prediction, closenessData := false, Null, None;
      inputValue := "";
      inFlight, pendingReads := [], [];
    }

    method HandleDrag(kind: DragKind)
      modifies this
      ensures Snapshot() == OnDrag(old(Snapshot()), kind)
    {
      if kind == DragEnter || kind == DragOver {
        dragActive := true;
      } else if kind == DragLeave {
        dragActive := false;
      }
    }

    method HandleFiles(files: Option<seq<File>>) returns (outcome: IntakeResult)
      modifies this
      ensures outcome == CheckFiles(files)
      ensures Snapshot() == OnFiles(old(Snapshot()), files)
    {
      if files.None? || |files.value| == 0 {
        return NoFile;
      }
      var file := files.value[0];
      if !StartsWith(file.mimeType, "image/") {
        return InvalidType;
      }
      if file.size > MaxBytes {
        return TooLarge;
      }
      pendingReads := pendingReads + [file];  // reader.readAsDataURL(file)
      selectedImage := Some(file);
      prediction := Null;
      closenessData := None;
      return Accepted;
    }

    method HandleDrop(files: seq<File>) returns (outcome: IntakeResult)
      modifies this
      ensures outcome == CheckFiles(Some(files))
      ensures Snapshot() == OnDrop(old(Snapshot()), files)
    {
      dragActive := false;
      outcome := HandleFiles(Some(files));
    }

    method InputChange(files: Option<seq<File>>, value: string) returns (outcome: IntakeResult)
      modifies this
      ensures outcome == CheckFiles(files)
      ensures Snapshot() == OnInputChange(old(Snapshot()), files, value)
    {
      inputValue := value;
      outcome := HandleFiles(files);
    }

    method ClearImage()
      modifies this
      ensures Snapshot() == OnClear(old(Snapshot()))
    {
      previewUrl := None;
      selectedImage := None;
      prediction := Null;
      closenessData := None;
      inputValue := "";
    }

    /** Returns whether a request was issued (false: "No MRI file selected."). */
    method AnalyzeMRI() returns (issued: bool)
      modifies this
      ensures issued == old(selectedImage).Some?
      ensures Snapshot() == OnAnalyze(old(Snapshot()))
    {
      if selectedImage.None? {
        return false;
      }
      isLoading := true;
      prediction := Null;
      closenessData := None;
      inFlight := inFlight + [selectedImage.value];  // fetch(API_URL, ...)
      return true;
    }

    /** The rest of `analyzeMRI` once its k-th request settles. Returns
        whether the `catch` block ran ("Failed to analyze MRI."). */
    method ResponseArrives(k: nat, resp: Response) returns (failed: bool)
      requires k < |inFlight|
      modifies this
      ensures failed == Settle(resp).Threw?
      ensures Snapshot() == OnResponse(old(Snapshot()), k, resp)
    {
      inFlight := RemoveAt(inFlight, k);
      failed := true;
      if resp.Http? && resp.ok && resp.body.Record? {
        prediction := resp.body.prediction;
        var closeness := resp.body.closeness;
        if closeness.Some? && AllItems(closeness.value) {
          closenessData := Some(FormatCloseness(closeness.value));
          failed := false;
        }
      }
      isLoading := false;
    }

    /** `reader.onload` for the k-th pending read. */
    method ReaderLoads(k: nat)
      requires k < |pendingReads|
      modifies this
      ensures Snapshot() == OnReadLoad(old(Snapshot()), k)
    {
      previewUrl := Some(pendingReads[k]);
      pendingReads := RemoveAt(pendingReads, k);
    }

    /** Whether the Analyze button is on screen. In a reachable state it is
        exactly when the preview card is up, no request is in flight and no
        prediction is shown, so pressing it never overlaps a request. */
    method AnalyzeOffered() returns (shown: bool)
      requires Disciplined(Snapshot())
      ensures shown <==> AnalysisCardShown(Snapshot()) && inFlight == [] && !Truthy(prediction)
    {
      shown := selectedImage.Some? && previewUrl.Some? && !isLoading && !Truthy(prediction);
    }
  }
}
