# MRI upload client: a verified model of its state machines

The front end of this MRI-classification app lets a user stage one image,
send it to a remote prediction endpoint and see the predicted class with a
bar chart of per-class closeness scores. It has two controllers that do this:

- the upload widget (`MRIUpload.jsx`). It holds `dragActive`, `previewUrl`,
  `selectedImage`, `isLoading`, `prediction` and `closenessData`. It validates
  files, clears, sends the request, renames the response keys for the chart
  and highlights the bar of the predicted class;
- the page controller (`Index.jsx`). It holds its own `selectedImage`,
  `isLoading` and `prediction`. On any failure its predict handler shows a
  random demo label after a delay.

This project models both as state machines and proves what each handler does
and which invariants hold along any run the screen allows.

## How it is modelled

- `js.dfy` (module `Js`) has the JavaScript values involved:
  - `Option`;
  - `Scalar`, the primitive JSON values plus `undefined`;
  - `Truthy`, JavaScript truthiness, used by `!prediction`;
  - `StartsWith`;
  - the browser `File`.
- `wire.dfy` (module `Wire`) has what the client can observe of one call to
  the endpoint. `fetch` either rejects or gives a status with `ok`, and the
  body decodes to one of three forms: it fails to decode, it is `null`, or it
  is a record with a `prediction` and possibly a `closeness` array.
- `mri_upload.dfy` (module `MRIUpload`) and `index_page.dfy` (module
  `IndexPage`) share one layout. Each handler is a function from an old state
  record to a new one. A class (`MRIUpload.Component`, `IndexPage.Page`) has
  the component's fields, and its methods overwrite them one setter at a time.
  Each method is proved to produce the state its function gives. The
  functions are the specification and the methods are the imperative form
  of the same handlers, which is why each handler appears twice. Lemmas
  about the handlers and about runs are stated over the functions, because
  a lemma cannot call a method.
- Asynchronous work is a queue of pending tasks in the state. These are the
  requests in flight (each holds the file it sends), the `FileReader` reads,
  and the page's scheduled fallback callbacks. Each completion is a separate
  event that names which pending task finishes, so tasks may complete in any
  order. Settling `fetch` and settling `response.json()` are one event,
  because no state changes between them.
- A run is a sequence of events. `OfferedRun` keeps only those runs where a
  user event goes through a control that is on screen at that moment: the
  drop zone and the picker only while no image is staged, Clear and Analyze
  only inside the preview card, and Analyze only while its guard holds.
  Along such runs the widget keeps `Disciplined` (at most one request in
  flight, exactly while loading, with no result while loading). The page
  keeps `PageDisciplined` in the same sense, counting its fallback timer.

Behaviour of the code worth knowing:

- Neither controller checks whether a response belongs to the image now
  staged; there is no generation token. `MRIUpload.StaleResponseApplied`
  proves a run, made only of offered events, that reaches this. The user
  starts an analysis of A, clears and stages B. Then A's answer arrives and
  is charted beside B's preview.
- A success body with no usable `closeness` array is not rejected before
  anything is published. `setPrediction` runs before `.map` throws, so the
  prediction is shown with no chart (`MRIUpload.MissingClosenessSetsPrediction`).
- The page falls back to a demo label on every failure, a non-ok status
  included. The widget never falls back. `IndexPage.PoliciesDiverge` states
  how the two differ.
- The page's predict handler does not clear an earlier prediction when it
  starts. The widget's does.
- A second analyse while one is in flight is not refused by either handler.
  Only the rendering guard prevents it, and the `Disciplined` invariants
  prove that this guard is enough.
- `Index.jsx` passes `onImageSelect`, `selectedImage`, `isLoading` and
  `prediction` to `MRIUpload`, but the widget takes no props
  (`MRIUpload.jsx:22`). The page's own state is therefore never updated from
  the screen, and its Analyze button never appears. The model still treats
  the page's handlers as events that can occur.

## Model

| member | source | states |
|---|---|---|
| `Js.Truthy` | MRI_Scan_ML/src/components/MRIUpload.jsx:202 | `undefined`, `null`, `false`, `0` and `""` are falsy and every other primitive is truthy, as `!prediction` and `prediction &&` read them |
| `MRIUpload.CheckFiles` | MRI_Scan_ML/src/components/MRIUpload.jsx:86-96 | definition: no list or an empty list gives `NoFile`; otherwise the first file's type is checked for the "image/" prefix (`InvalidType`), then its size against 10485760 bytes (`TooLarge`); otherwise `Accepted` |
| `MRIUpload.OnDrag` | MRI_Scan_ML/src/components/MRIUpload.jsx:72-77 | definition: enter and over turn the drag highlight on, leave turns it off |
| `MRIUpload.OnFiles` | MRI_Scan_ML/src/components/MRIUpload.jsx:86-105 | definition: an accepted first file starts one preview read, becomes the staged image and clears prediction and rows; any other verdict leaves the state as it was |
| `MRIUpload.OnDrop` | MRI_Scan_ML/src/components/MRIUpload.jsx:79-84 | definition: the drag highlight goes off, then the dropped list goes through intake |
| `MRIUpload.OnInputChange` | MRI_Scan_ML/src/components/MRIUpload.jsx:133-137 | definition: the input keeps the value the browser set, then its file list goes through intake |
| `MRIUpload.OnClear` | MRI_Scan_ML/src/components/MRIUpload.jsx:107-113 | definition: preview, image, prediction and rows become null and the input value becomes "" |
| `MRIUpload.OnAnalyze` | MRI_Scan_ML/src/components/MRIUpload.jsx:32-49 | definition: with no staged image nothing changes; otherwise loading starts, prediction and rows are cleared and one request carrying the staged file is added |
| `MRIUpload.Settle` | MRI_Scan_ML/src/components/MRIUpload.jsx:45-64 | definition: a network error, a non-ok status, an undecodable body or a `null` body throws before `setPrediction`; a record whose `closeness` is missing, not an array or holds a `null` element throws after `setPrediction` has run with the body's prediction; any other record completes with its prediction and renamed rows |
| `MRIUpload.OnResponse` | MRI_Scan_ML/src/components/MRIUpload.jsx:45-67 | definition: the k-th request leaves the queue, the writes of the `try` block are applied as `Settle` says, then `finally` turns loading off; the staged image is not consulted |
| `MRIUpload.OnReadLoad` | MRI_Scan_ML/src/components/MRIUpload.jsx:98-100 | definition: the k-th pending read finishes and the preview becomes that read's file |
| `MRIUpload.AnalyzeButtonShown` | MRI_Scan_ML/src/components/MRIUpload.jsx:166-210 | definition: the Analyze button is rendered when image and preview are present, not loading and the prediction is falsy |
| `MRIUpload.ChartShown` | MRI_Scan_ML/src/components/MRIUpload.jsx:221-236 | definition: the chart is rendered when the preview card is up, the prediction is truthy and rows are present |
| `IndexPage.OnImageSelect` | MRI_Scan_ML/src/pages/Index.jsx:16-19 | definition: the given file is staged and the prediction becomes null |
| `IndexPage.OnPredict` | MRI_Scan_ML/src/pages/Index.jsx:21-37 | definition: with no image nothing changes; otherwise loading starts and one request carrying the image is added, leaving the old prediction |
| `IndexPage.PageOutcome` | MRI_Scan_ML/src/pages/Index.jsx:39-46 | definition: an ok response whose body decodes to a non-null value yields its `prediction`; a network error, a non-ok status, an undecodable or a `null` body throws; `closeness` is never read |
| `IndexPage.OnPageResponse` | MRI_Scan_ML/src/pages/Index.jsx:39-67 | definition: the k-th request leaves the queue; success sets the prediction and ends loading at line 67; failure schedules one fallback and the early `return` keeps loading on |
| `IndexPage.OnFallback` | MRI_Scan_ML/src/pages/Index.jsx:50-62 | definition: a scheduled callback runs, shows the demo label at the drawn index and ends loading |
| `IndexPage.PredictOffered` | MRI_Scan_ML/src/pages/Index.jsx:199 | definition: the page's Analyze button is rendered when an image is staged, not loading and the prediction is falsy |
| `Js.StartsWith` | MRI_Scan_ML/src/components/MRIUpload.jsx:89 | `startsWith` holds exactly when the prefix is no longer than the string and the string begins with it |
| `MRIUpload.OnlyFirstFileConsidered` | MRI_Scan_ML/src/components/MRIUpload.jsx:86-88 | a list's verdict is the verdict on its first file alone |
| `MRIUpload.TypeCheckedBeforeSize` | MRI_Scan_ML/src/components/MRIUpload.jsx:89-92 | a type not starting with "image/" is an `InvalidType` rejection whatever the size |
| `MRIUpload.SizeLimitInclusive` | MRI_Scan_ML/src/components/MRIUpload.jsx:93-96 | an image is accepted iff its size is at most 10485760 bytes, otherwise it is `TooLarge` |
| `MRIUpload.RejectedIntakeChangesNothing` | MRI_Scan_ML/src/components/MRIUpload.jsx:86-96 | a missing or empty list, a wrong type or an oversized file leaves the whole state unchanged |
| `MRIUpload.AcceptedIntakeStagesFile` | MRI_Scan_ML/src/components/MRIUpload.jsx:98-104 | an accepted first file becomes `selectedImage`, and `prediction`/`closenessData` are cleared whatever the prior state; loading is untouched |
| `MRIUpload.Component.HandleFiles` | MRI_Scan_ML/src/components/MRIUpload.jsx:86-105 | returns the intake verdict and leaves exactly the state that intake gives, starting one preview read on acceptance |
| `MRIUpload.DragHighlight` | MRI_Scan_ML/src/components/MRIUpload.jsx:72-84 | the drop zone is active after enter and over, inactive after leave and after a drop; only that flag changes |
| `MRIUpload.Component.HandleDrag` | MRI_Scan_ML/src/components/MRIUpload.jsx:72-77 | the field updates produce the `handleDrag` transition |
| `MRIUpload.Component.HandleDrop` | MRI_Scan_ML/src/components/MRIUpload.jsx:79-84 | drag flag off, then intake of the dropped list; returns the intake verdict |
| `MRIUpload.Component.InputChange` | MRI_Scan_ML/src/components/MRIUpload.jsx:133-137 | the input's new value is kept, then intake of its file list |
| `MRIUpload.ClearResets` | MRI_Scan_ML/src/components/MRIUpload.jsx:107-113 | preview, image, prediction and rows become null and the input value "", leaving loading and pending requests alone |
| `MRIUpload.Component.ClearImage` | MRI_Scan_ML/src/components/MRIUpload.jsx:107-113 | the setter sequence of `clearImage` gives the cleared state |
| `MRIUpload.AnalyzeWithoutImage` | MRI_Scan_ML/src/components/MRIUpload.jsx:32-36 | with no staged image, analysing issues no request and changes no state |
| `MRIUpload.AnalyzeIssuesRequest` | MRI_Scan_ML/src/components/MRIUpload.jsx:38-49 | with an image, loading starts, the result is cleared and exactly one request carrying that image is added |
| `MRIUpload.Component.AnalyzeMRI` | MRI_Scan_ML/src/components/MRIUpload.jsx:32-49 | reports whether a request was issued (iff an image was staged) and leaves the state of `OnAnalyze` |
| `MRIUpload.FormatCloseness` | MRI_Scan_ML/src/components/MRIUpload.jsx:56-59 | the rows have the array's length and order, row i having `Class` = class and `Closeness (%)` = score of element i |
| `MRIUpload.EntriesOfFormat` | MRI_Scan_ML/src/components/MRIUpload.jsx:56-59 | reading the rows back as elements gives the original array: the renaming loses nothing |
| `MRIUpload.FormatEntriesOf` | MRI_Scan_ML/src/components/MRIUpload.jsx:56-59 | every list of rows is the renaming of the array it reads back as |
| `MRIUpload.ResponseSuccess` | MRI_Scan_ML/src/components/MRIUpload.jsx:51-67 | an ok record whose closeness is an array of non-null elements sets the prediction to the body's and the rows to the renamed array in order, and ends loading |
| `MRIUpload.ResponseFailure` | MRI_Scan_ML/src/components/MRIUpload.jsx:45-67 | every other response throws: rows unchanged, loading off, and the prediction changes only to the body's own when `setPrediction` ran before the throw |
| `MRIUpload.MissingClosenessSetsPrediction` | MRI_Scan_ML/src/components/MRIUpload.jsx:53-56 | a record without a closeness array still sets the prediction, leaves the rows, ends loading |
| `MRIUpload.Component.ResponseArrives` | MRI_Scan_ML/src/components/MRIUpload.jsx:45-67 | reports whether the catch block ran and leaves the state of `OnResponse` for that request |
| `MRIUpload.Component.ReaderLoads` | MRI_Scan_ML/src/components/MRIUpload.jsx:98-100 | the preview becomes that of the file the finished read was started for |
| `MRIUpload.BarFills` | MRI_Scan_ML/src/components/MRIUpload.jsx:297-305 | one fill per row, highlighted iff the row's class strictly equals the prediction |
| `MRIUpload.DistinctLabelsHighlightOne` | MRI_Scan_ML/src/components/MRIUpload.jsx:297-305 | with distinct classes and the predicted class at row k, row k is the one and only highlighted bar |
| `MRIUpload.Bars` | MRI_Scan_ML/src/components/MRIUpload.jsx:221-306 | bars appear only with a staged image, a preview, a truthy prediction and rows; then bar i is highlighted iff row i's class equals the prediction |
| `MRIUpload.Component.AnalyzeOffered` | MRI_Scan_ML/src/components/MRIUpload.jsx:166-210 | in a disciplined state the Analyze button is shown exactly when the preview card is up, no request is in flight and the prediction is falsy, so a press never overlaps a request |
| `MRIUpload.MildResponseRendered` | MRI_Scan_ML/src/components/MRIUpload.jsx:53-61 | the response with "Mild Dementia" 87.5 and "No Dementia" 12.5 yields those two rows in order, with only the first bar highlighted |
| `MRIUpload.InitialDisciplined` | MRI_Scan_ML/src/components/MRIUpload.jsx:23-28 | the mount state satisfies the request discipline and shows the drop zone |
| `MRIUpload.Component.constructor` | MRI_Scan_ML/src/components/MRIUpload.jsx:23-28 | the fields start at the `useState` initial values, with nothing pending |
| `MRIUpload.StepKeepsDisciplined` | MRI_Scan_ML/src/components/MRIUpload.jsx:32-113 | every offered event keeps: at most one request in flight, loading iff one is, no result while loading |
| `MRIUpload.DisciplinedRun` | MRI_Scan_ML/src/components/MRIUpload.jsx:202 | along any run of offered events the discipline holds, so the guard prevents overlapping requests |
| `MRIUpload.FailureLeavesNoRows` | MRI_Scan_ML/src/components/MRIUpload.jsx:38-67 | in a disciplined state a failed request leaves `closenessData` null |
| `MRIUpload.StartAnalysis` | MRI_Scan_ML/src/components/MRIUpload.jsx:86-105 | choosing an acceptable image, loading its preview and pressing Analyze is an offered run ending loading with one request for that image |
| `MRIUpload.RestageWhileLoading` | MRI_Scan_ML/src/components/MRIUpload.jsx:107-113 | while the preview card is up, clearing and staging another image is offered even during loading, and ends with the new image and preview |
| `MRIUpload.StaleResponseApplied` | MRI_Scan_ML/src/components/MRIUpload.jsx:45-61 | an offered run exists in which A's response, the only one in flight, is charted while B is staged and previewed: no staleness check |
| `IndexPage.ImageSelectStages` | MRI_Scan_ML/src/pages/Index.jsx:16-19 | the given file becomes `selectedImage` and the prediction is cleared, nothing else changes |
| `IndexPage.Page.HandleImageSelect` | MRI_Scan_ML/src/pages/Index.jsx:16-19 | the two setters give the `handleImageSelect` transition |
| `IndexPage.PredictWithoutImage` | MRI_Scan_ML/src/pages/Index.jsx:21-25 | with no image, no request is issued and neither loading nor prediction changes |
| `IndexPage.PredictIssuesRequest` | MRI_Scan_ML/src/pages/Index.jsx:27-37 | with an image, loading starts and one request for it is issued; the old prediction stays |
| `IndexPage.Page.HandlePredict` | MRI_Scan_ML/src/pages/Index.jsx:21-37 | reports whether a request was issued and leaves the state of `OnPredict` |
| `IndexPage.PageSuccess` | MRI_Scan_ML/src/pages/Index.jsx:39-67 | an ok record sets the prediction to `result.prediction` and ends loading, closeness or not |
| `IndexPage.PageFailure` | MRI_Scan_ML/src/pages/Index.jsx:39-64 | no response, a non-ok status or an unreadable body schedules one fallback and leaves loading and prediction as they were |
| `IndexPage.Page.ResponseArrives` | MRI_Scan_ML/src/pages/Index.jsx:29-67 | reports whether the catch block ran and leaves the state of `OnPageResponse` |
| `IndexPage.FallbackLabel` | MRI_Scan_ML/src/pages/Index.jsx:50-62 | the fallback ends loading and shows one of the four labels; each is truthy, so the page's Analyze button stays hidden afterwards |
| `IndexPage.Page.TimerFires` | MRI_Scan_ML/src/pages/Index.jsx:50-62 | the callback's setters give the `OnFallback` transition |
| `IndexPage.PoliciesDiverge` | MRI_Scan_ML/src/pages/Index.jsx:39-64 | an ok body without closeness is a failure for the widget but a success for the page; a non-ok status ends the widget's loading but not the page's |
| `IndexPage.PageInitialDisciplined` | MRI_Scan_ML/src/pages/Index.jsx:12-14 | the mount state is idle and disciplined |
| `IndexPage.Page.constructor` | MRI_Scan_ML/src/pages/Index.jsx:12-14 | the fields start at the `useState` initial values |
| `IndexPage.PageStepKeepsDisciplined` | MRI_Scan_ML/src/pages/Index.jsx:21-68 | every offered event keeps: at most one request or fallback outstanding, loading iff one is |
| `IndexPage.PageDisciplinedRun` | MRI_Scan_ML/src/pages/Index.jsx:199 | along any run of offered events the page discipline holds |
| `IndexPage.FailureKeepsLoading` | MRI_Scan_ML/src/pages/Index.jsx:46-67 | in a disciplined state a failure leaves loading on with the fallback as the only outstanding task |
| `IndexPage.LoadingUntilFallback` | MRI_Scan_ML/src/pages/Index.jsx:50-67 | once a fallback is scheduled, any offered run without it firing keeps loading on and the page's Analyze button hidden |
| `IndexPage.Page.PredictShown` | MRI_Scan_ML/src/pages/Index.jsx:199 | in a disciplined state the page's Analyze button is shown exactly when an image is staged, no request or fallback is outstanding and the prediction is falsy |

## Left out

- Layout, styling, icons and the recharts rendering are left out. Only which
  parts appear and the fill of each bar are modelled.
- Toast notifications are left out. Whether a handler rejected, issued a
  request or ran its `catch` block is returned as the method's result instead.
- The `toFixed` formatting of bar labels and tooltips is left out, because it
  is floating-point formatting.
- The 2-second delay is left out. The fallback is a later event. The random
  draw is left out; the fallback takes an arbitrary index below 4.
- `fetch`, `FormData` and `FileReader` are not modelled. They are completion
  events, with the response as an input datatype and the preview represented
  by the file it encodes. A read that never loads (a reader error, which has
  no handler) stays pending.
- JSON numbers are modelled as unbounded reals. A literal too large for a
  double, such as `1e400`, which `JSON.parse` turns into `Infinity`, is left
  out, and so is double rounding. Only equality and truthiness of numbers
  are used, and both agree for every finite value.
- `prediction` and closeness `class` values are modelled only as JavaScript
  primitives. An object or array in those places, compared by reference, is
  left out.
- Whether `fileInputRef.current` is mounted when Clear runs is left out. The
  input lives in the drop zone, which is unmounted while an image is staged.
  The model sets the input value to "" as line 112 asks.
- The console logging and the `API_URL` constant are left out.
- When React renders is left out. Each handler and each completion is one
  atomic step.
- `model.py`, `app.py` and `utils.py` are not part of this model. They are
  the neural network, the HTTP endpoint and the image transforms, and are
  floating-point and library code. `Header.jsx` and `Footer.jsx` are not part
  of this model either; they are static markup.
