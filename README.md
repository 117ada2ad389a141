# areca.ai upload form and analysis action, modelled in Dafny

areca.ai is a web page where a user uploads a photo of areca nuts. A hosted
AI model grades the photo. This project models the two parts of the
page that the repository itself implements, and proves their properties:

- **The server action `getAnalysis`** (module `Actions`). It checks that the
  submitted `photoDataUri` is present and starts with `data:image/`. It then
  calls the grading flow exactly once and turns the outcome into a
  `FormState`: the result or an error message. The grading flow is an
  oracle, a function parameter `flow: string -> FlowOutcome<R>`, and the
  result is an opaque type `R`. `GetAnalysis` returns the new form state and
  the list of inputs the flow was called with, so "no call" and "exactly one
  call with the unchanged URI" are stated directly.
- **The upload form `ArecaAnalyzer`** (module `ArecaAnalyzer`). It is a class
  whose fields are the preview, the inline validation error, the page's local
  storage and the form state. Each event is a method: mount (load the cached
  image), file selection and loading, clear, and submit. The derived values
  are pure functions: the displayed error and the hidden form field. Page
  reloads are written as client methods that build a fresh `Analyzer` over
  the old storage.
- **The progress bar `AnalysisProgress`** (module `AnalysisProgress`). It is
  a class with `pending`, `progress` and the interval timer's state. Timer
  firings (`Tick`) and changes of `pending` (`SetPending`) are explicit calls.
  Its invariant says the value is always `ProgressAfter(ticks)` (0 when not pending), which is
  proved to equal `min(5·ticks, 95)`.

Modules `Wrappers` (an `Option` type for JavaScript's `null`) and `Text`
(`startsWith` and string truthiness) are shared helpers.

Behaviours of the code that the model keeps as written:

- The grading flow returns `output!`, and this non-null assertion is not
  checked at run time. The flow library may check the returned value against
  the declared output schema and throw instead; that check is outside the
  model. To stay on the safe side, the model keeps one more outcome,
  `FlowOutcome.NoOutput`: the flow hands `null` to `getAnalysis`, which then
  returns `{result: null, error: null}`. "Exactly one of result and error" is
  proved for every other outcome.
- The displayed error is `state.error || localError`, so a non-empty server
  error hides a local validation error.
- The reader's `onloadend` also fires when a read fails, with result `null`.
  The handler then sets the preview to `null` and passes `null` to
  `localStorage.setItem`, which stores the string `"null"`. After a reload,
  `"null"` is the preview, and the server action rejects it
  (`ReloadAfterFailedRead`).
- For a thrown non-`Error` value, the error text is
  `"Failed to analyze the image. An unknown error occurred.. Please try again."`.
  The double period comes from the template.

## Model

| member | source | states |
|---|---|---|
| Actions.GetAnalysis | src/app/actions.ts:11-29 | A missing, empty or non-`data:image/` field gives result none and error "Please upload a valid image.", with zero flow calls. Otherwise the flow is called exactly once, with the field unchanged. Success returns the flow's result unchanged with no error. A thrown `Error` gives the failure template around its message. Any other thrown value gives the template around "An unknown error occurred.". A null output from the flow gives neither result nor error. Unless the flow yields null, exactly one of result and error is set. |
| Actions.ImageDataUriIsPrefixed | src/app/actions.ts:17 | The emptiness test of the guard adds nothing: the guard holds exactly when the field is present and starts with `data:image/`. |
| Actions.ParseFailureText | src/app/actions.ts:27 | The failure text carries the thrown message: reading it back between the fixed prefix and suffix gives the message. |
| Actions.ParseFailureSound | src/app/actions.ts:27 | Conversely, every string that has the fixed prefix and suffix is the failure text of the message between them. |
| Actions.FailureTextInjective | src/app/actions.ts:27 | Different messages give different failure texts. |
| Actions.InvalidImageIsNoFailure | src/app/actions.ts:18-27 | The validation error is never equal to a failure text. |
| Actions.ErrorIdentifiesPath | src/app/actions.ts:17-28 | In the returned state, the validation error appears exactly when the flow was not called. An error after a call is the failure text of the thrown value's message. |
| Actions.PrevStateIgnored | src/app/actions.ts:11-15 | The answer does not depend on the previous form state. |
| AnalysisProgress.ProgressAfterClosedForm | src/components/areca-analyzer.tsx:42-50 | After n firings from 0, the value is min(5·n, 95): it rises by 5 while below 95 and then holds. |
| AnalysisProgress.ProgressInRange | src/components/areca-analyzer.tsx:38-57 | Every reachable value is in [0, 95] and is a multiple of 5. |
| AnalysisProgress.Progress.constructor | src/components/areca-analyzer.tsx:36-53 | On mount the value is 0, and the timer is installed exactly when pending. |
| AnalysisProgress.Progress.SetPending | src/components/areca-analyzer.tsx:38-57 | When pending changes, the value returns to 0 and the timer is installed only if pending is now true. When pending does not change, nothing happens. The invariant (range, multiple of 5, 0 when not pending) is kept. |
| AnalysisProgress.Progress.Tick | src/components/areca-analyzer.tsx:42-50 | A firing adds 5 while the value is below 95. At 95 or above it keeps the value and removes the timer. Without a timer it does nothing. The invariant is kept. |
| AnalysisProgress.Progress.Shown | src/components/areca-analyzer.tsx:59-63 | The bar is rendered exactly when pending, with a value in [0, 95] that is a multiple of 5. |
| AnalysisProgress.RunPending | src/components/areca-analyzer.tsx:40-50 | While a submission stays pending and the timer fires n times, the bar shows min(5·n, 95). |
| ArecaAnalyzer.CheckFile | src/components/areca-analyzer.tsx:91-103 | No file does nothing. Size above 5·1024·1024 is rejected before the type is looked at. Otherwise a type not starting with `image/` is rejected. Everything else is read. Each outcome is stated as an if-and-only-if. |
| ArecaAnalyzer.CacheSlotLaws | src/components/areca-analyzer.tsx:82-122 | Reading the cache slot right after `setItem(key, v)` gives `v`, including the empty string. After `removeItem(key)` it gives null. Writing any other key leaves what the slot reads unchanged. |
| ArecaAnalyzer.DisplayedError | src/components/areca-analyzer.tsx:131 | A non-empty server error wins over the local error. Otherwise the local error is shown. The alert appears exactly when one of the two is non-empty. |
| ArecaAnalyzer.HiddenFieldValue | src/components/areca-analyzer.tsx:136 | The hidden field is non-empty exactly when the preview is, and then it is the preview. |
| ArecaAnalyzer.Analyzer.constructor | src/components/areca-analyzer.tsx:72-76 | The first render has no preview, no local error and the initial form state {null, null}. |
| ArecaAnalyzer.Analyzer.Mount | src/components/areca-analyzer.tsx:80-89 | The preview becomes the cached image only when the read succeeds and the cached value is non-empty. Otherwise it stays as it was. Nothing else changes. |
| ArecaAnalyzer.Analyzer.SelectFile | src/components/areca-analyzer.tsx:91-117 | A rejected file sets the size or type message and leaves the preview and storage unchanged. An accepted file sets the preview to the read result, clears the local error and writes the cache key (and only it). A failed write leaves storage unchanged. |
| ArecaAnalyzer.Analyzer.Clear | src/components/areca-analyzer.tsx:119-129 | The preview becomes none and the cache key is removed; other keys stay as they were. A failed removal leaves storage unchanged. The local error and form state are untouched. |
| ArecaAnalyzer.Analyzer.Submit | src/components/areca-analyzer.tsx:135-136 | The new form state is `getAnalysis` of the previous state and the hidden field, and the flow calls are exactly its calls. Preview, local error and storage are unchanged. |
| ArecaAnalyzer.ReloadAfterUpload | src/components/areca-analyzer.tsx:80-115 | After an accepted upload and a reload, the new page shows the same data URL (when non-empty). If the write failed, it shows whatever was cached before. |
| ArecaAnalyzer.ReloadAfterClear | src/components/areca-analyzer.tsx:80-129 | After a clear and a reload, no image is restored, unless the removal failed. |
| ArecaAnalyzer.ReloadAfterFailedRead | src/components/areca-analyzer.tsx:105-116 | After a failed read, the preview is null and the cache holds "null". After a reload, the preview is "null", and submitting it is rejected. |
| ArecaAnalyzer.EmptyFormRejected | src/components/areca-analyzer.tsx:136 | A form with no preview submits "", which the server action rejects without calling the flow. |
| ArecaAnalyzer.SizeLimitBoundary | src/components/areca-analyzer.tsx:95-103 | A file of exactly 5 MiB passes the size check. One byte more is rejected as too large, even when the type is not an image type. |

## Left out

- The grading flows (`src/ai/flows/analyze-areca-nut-grade.ts`, `src/ai/flows/assess-areca-nut-quality.ts`) are not part of this model. They bind a prompt and schemas to a hosted model. Here they are only the oracle `flow`, and `AnalysisResult` is an opaque type. Nothing is assumed about the percentages.
- `src/components/analysis-results.tsx`, `src/app/page.tsx` and `src/components/icons.tsx` are not part of this model. They are rendering only.
- The FileReader's base64 encoding is not modelled. Its result is an input (`read`), and `None` stands for a failed read.
- Selecting a file and the reader finishing are one event (`SelectFile`). Events that could happen between the two (a clear, a second selection) are not interleaved.
- The real 200 ms interval scheduling, React's effect lifecycle, `useFormStatus` and `useFormState` are not modelled. `pending` is set by the caller of `SetPending`, and it is not tied to `Submit`, which runs as one atomic step.
- A local-storage call that throws is a boolean input (`readFails`, `writeFails`, `removeFails`). The `console.error` logging is left out.
- Resetting the file input in `handleClear` (`fileInputRef.current.value = ""`) is DOM state that is not modelled.
- `formData.get` returning a `File` instead of a string is not modelled. The hidden input always submits a string, and a missing field is `None`.
- The disabled submit button and the other JSX markup and styling.
