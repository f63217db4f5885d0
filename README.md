# stemclient core in Dafny

This project models the client-side core of stemclient, the web front end for
live scanning transmission electron microscopy (STEM) images.

- **Raster data source** (`ImageData`).
  - A row-major buffer of samples, with its size, its `{min, max}` range and an observer list.
  - A resize fills the buffer with zeros.
  - A sparse chunk update has two checks: a length mismatch drops the whole chunk, and an out-of-bounds index skips one sample.
  - The min/max scan.
- **Publish/subscribe** (`Subjects`). An ordered observer list (`Subject`) and a lazily populated map from topics to subjects (`MultiSubject`).
- **Rectangle selection** (`Selection`).
  - Pointer positions are clamped into `[0, 1]`.
  - The second corner is constrained to 1..9 pixels from the first on each axis, keeping its direction.
  - The corner state is set by the press, move and release handlers.
  - The drawn rectangle.
- **Grey-scale rendering**.
  - `LinearScales` holds the linear map.
  - `View` is the source-bound view with its RGBA buffer.
  - `StemImage` is the React component's `minMax` and `dataToPixels`. The TypeScript component and the older `src/STEMImage.js` contain the same code, and this one module models both.
- **Small rules**:
  - the aggregation-function table (`Aggregation`);
  - form validators and the server-parameter-to-form-field mapping (`Forms`);
  - the mask parameter/position conversion (`Mask`);
  - the worker and pipeline choice and the merged form values (`Pipelines`);
  - the parameter form's validity, display and forwarding rules (`PipelineForm`);
  - two Redux reducers (`ImagesDuck`, `FlaskDuck`);
  - route access conditions (`Routes`).

## How the system's concepts are represented

- **JavaScript objects used as dictionaries** (`Dicts.Dict`). These are entry lists with unique keys, in insertion order. That is the order `Object.keys`, `Object.values` and `Object.entries` report for keys that are not array indices. `d[k] = v` keeps an existing key in place and appends a new one.
- **Observers** are identities compared with `!==`. Calling them is recorded as the returned list of calls, in call order.
- **Samples and canvas coordinates** are reals. Pixel coordinates and mask parameters are integers.
- **The range scan** starts from the infinities, so a range bound is a real or one of the two infinities (`ImageData.Bound`). The infinities remain when the buffer is empty.
- **Operations that change fields in place are class methods**: the data source, the subjects, the view, the selection and the pipeline panel. Their contracts state the whole new state. Loops of the source are `for` loops with invariants:
  - the range scan;
  - the chunk write;
  - the RGBA fills;
  - `minMax`;
  - `makeFormFields`;
  - the form-value merge;
  - the image index.
- **Specification functions** describe each loop's result, and the lemmas state the properties.
  - `ApplyChunk` is the buffer after a chunk.
  - `Rendered` is the RGBA buffer after a draw.
  - `Merge` is the merged form values.
  - `ById` is the image index.
- **JavaScript semantics that need care**:
  - `error || v(x)` treats an empty message like `undefined`. See `Forms.IsError`.
  - `Math.round` rounds halves up.
  - `Math.floor(w / 2)` of a size is natural-number division.
  - Writes past the end of a typed array are dropped.
  - `isFinite(undefined)` is false.
- **The host's numeric string parsing** (`isFinite` of a string, and the `parseInt`/`parseFloat` comparison) is the uninterpreted parameter `Forms.JsNumbers`. The whitespace set of `String.prototype.trim` is written out.

The data source's code behaves as follows, and the model follows it:
- `getPixelData` checks only the flat index `y * width + x`. An `x` past the right edge therefore reads into the next row instead of giving 0.
- The range scan neither excludes zeros nor substitutes `{0, 1}`.
- A chunk overwrites cells rather than adding to them.
- `setImageSize` does not recompute the range.

## Model

| member | source | states |
|---|---|---|
| `Dicts.Get` | src/components/pipeline/index.tsx:72 | a lookup finds a value exactly when the key is present, and the value is that key's entry |
| `Dicts.GetAt` | src/store/ducks/images.ts:16 | with unique keys, the entry at each position is what a lookup of its key finds |
| `Dicts.Put` | src/components/pipeline/index.tsx:140 | `d[k] = v`: `k` maps to `v`, every other key keeps its value, an existing key keeps its position and a new key is appended |
| `ImageData.ConstructorCheck` | src/stem-image/data.ts:24-26 | construction throws exactly when the class being constructed is the abstract base class |
| `ImageData.StreamImageDataSource.constructor` | src/stem-image/data.ts:27-30 | a fresh source holds the one-sample buffer `[0]`, size 1×1, range {0, 0} and no observers |
| `ImageData.StreamImageDataSource.GetPixelData` | src/stem-image/data.ts:45-55 | both coordinates are floored; a flat index inside the buffer reads that sample, a flat index at or past `width*height` (in particular any row past the last) gives 0, and a pixel inside the image reads `data[y*width+x]` |
| `ImageData.StreamImageDataSource.Subscribe` | src/stem-image/data.ts:57-59 | the handler is appended to the observer list; the buffer, size and range are unchanged |
| `ImageData.StreamImageDataSource.Unsubscribe` | src/stem-image/data.ts:61-63 | the observer list becomes `Without(observers, fn)`, i.e. every occurrence removed and the rest kept in order |
| `ImageData.StreamImageDataSource.Emit` | src/stem-image/data.ts:65-67 | the calls made are one per listed handler, in list order, each with the event |
| `ImageData.StreamImageDataSource.UpdateRange` | src/stem-image/data.ts:69-82 | the stored range is the exact range of the buffer: every sample lies between its bounds and both bounds are samples; ±infinity for an empty buffer |
| `ImageData.RangeUnique` | src/stem-image/data.ts:69-82 | a buffer has only one exact range, so the scan's result is determined by the samples |
| `ImageData.RangeOrdered` | src/stem-image/data.ts:81 | for a non-empty buffer the range is finite and `min <= max` |
| `ImageData.StreamImageDataSource.SetImageSize` | src/stem-image/data.ts:137-144 | an unchanged size changes nothing and emits nothing; otherwise a fresh all-zero buffer of `width*height` samples, the new size and exactly one `sizeChanged` call per observer; the range and observers are kept |
| `ImageData.ApplyChunkAt` | src/stem-image/data.ts:155-159 | a cell no in-bounds index names keeps its value; a named cell takes the value paired with the last occurrence of its index |
| `ImageData.StreamImageDataSource.UpdateImageChunk` | src/stem-image/data.ts:146-163 | a length mismatch leaves buffer and range unchanged and emits nothing; otherwise the buffer becomes `ApplyChunk` of the old buffer, the range is the new buffer's exact range and `dataChanged` goes once to each observer |
| `Subjects.Without` | src/stem-image/subject.ts:13 | the filtered list holds no occurrence of the removed observer, only observers of the original list, and every other observer of it |
| `Subjects.WithoutAppend` | src/stem-image/subject.ts:12-14 | filtering distributes over concatenation, so the remaining observers keep their relative order |
| `Subjects.WithoutMultiset` | src/stem-image/subject.ts:13 | every other observer keeps its number of occurrences and the removed one has none left |
| `Subjects.WithoutAbsent` | src/stem-image/subject.ts:12-14 | removing an observer that is not subscribed leaves the list unchanged |
| `Subjects.WithoutIdempotent` | src/stem-image/subject.ts:12-14 | unsubscribing twice is the same as unsubscribing once |
| `Subjects.SubscribeThenUnsubscribe` | src/stem-image/subject.ts:8-14 | subscribing and then unsubscribing an observer leaves the list as a plain unsubscribe does |
| `Subjects.Notify` | src/stem-image/subject.ts:17 | one call per list entry, the i-th to the i-th observer, with the message |
| `Subjects.BroadcastIsNotify` | src/stem-image/subject.ts:16-18 | the calls `forEach` makes are exactly `Broadcast(observers, message)` |
| `Subjects.Subject.constructor` | src/stem-image/subject.ts:6 | a new subject has no observers |
| `Subjects.Subject.Subscribe` | src/stem-image/subject.ts:8-10 | the observer is appended at the end |
| `Subjects.Subject.Unsubscribe` | src/stem-image/subject.ts:12-14 | the list becomes `Without(old list, observer)` |
| `Subjects.Subject.Emit` | src/stem-image/subject.ts:16-18 | each listed observer is called once per occurrence, in order |
| `Subjects.MultiSubject.constructor` | src/stem-image/subject.ts:22 | no topic exists |
| `Subjects.MultiSubject.Subscribe` | src/stem-image/subject.ts:24-29 | the topic is created empty when unknown, then the observer is appended to its list; every other topic's list is unchanged |
| `Subjects.MultiSubject.Unsubscribe` | src/stem-image/subject.ts:31-36 | an unknown topic changes nothing and is not created; otherwise only that topic's list is filtered |
| `Subjects.MultiSubject.Emit` | src/stem-image/subject.ts:38-42 | an unknown topic makes no calls; otherwise each of the topic's observers is called once, in order |
| `Selection.Clamp01` | src/stem-image/selection.ts:11-12 | the result lies in `[0, 1]`, equals the input inside it, and is 0 below and 1 above |
| `Selection.MousePositionToImagePosition` | src/stem-image/selection.ts:7-14 | each coordinate is the pointer's offset from the canvas corner as a fraction of the canvas size, clamped into `[0, 1]` |
| `Selection.ClampAxisProperties` | src/stem-image/selection.ts:24-42 | an offset already within `[min, max]` is kept; for `0 < min <= max` the final offset lies in `[min, max]` and keeps its direction, a zero offset becomes `+min`, a short one becomes `±min` and a long one `±max` |
| `Selection.CalculateP1` | src/stem-image/selection.ts:16-45 | each axis of the result is the floored pixel under the pointer clamped on its own against the anchor with `ClampAxis` |
| `Selection.SelectionRectOrderFree` | src/stem-image/selection.ts:129-132 | the drawn rectangle is the same when the corners are swapped or swapped along one axis, and has non-negative extent under monotone scales |
| `Selection.SquareSelection.constructor` | src/stem-image/selection.ts:51-54 | the corners start at (0, 0) and (10, 20), and the rectangle for them is drawn |
| `Selection.SquareSelection.Draw` | src/stem-image/selection.ts:128-137 | the drawn rectangle is `SelectionRect` of the current corners and scales |
| `Selection.SquareSelection.Resize` | src/stem-image/selection.ts:118-126 | the new scales are stored and the rectangle is redrawn with them |
| `Selection.SquareSelection.SetSelection` | src/stem-image/selection.ts:143-147 | both corners are stored and the rectangle is redrawn |
| `Selection.SquareSelection.MouseDown` | src/stem-image/selection.ts:70-82 | both corners become the same floored pixel under the pointer and a drag starts |
| `Selection.SquareSelection.MouseMove` | src/stem-image/selection.ts:95-103 | while dragging, the clamped corner (limits 1 and 9) is stored and drawn exactly when it differs from the corner the press fixed; otherwise nothing changes |
| `Selection.SquareSelection.MouseUp` | src/stem-image/selection.ts:84-93 | while dragging, the clamped corner (limits 1 and 9) is stored and drawn, `selectionChanged` carries both corners and the drag ends; without a drag nothing happens |
| `Selection.ReleasedSelectionWithinLimits` | src/stem-image/selection.ts:86 | after a release each axis offset from the first corner is between 1 and 9 pixels |
| `Aggregation.Apply` | src/stem-image/aggregation.ts:7-11 | `MaxAggregation` gives one of its arguments and at least both; `MinAggregation` gives one of them and at most both; the contract does not cover Sum, which is `+` (its body and `SumCommutesAndAssociates` state it) |
| `Aggregation.SumCommutesAndAssociates` | src/stem-image/aggregation.ts:7 | over the reals that model the samples, the sum is commutative and associative |
| `Aggregation.GetAggregationFunction` | src/stem-image/aggregation.ts:13-26 | as written: `Min` and only `Min` selects `MinAggregation`, and no input selects `MaxAggregation` |
| `Aggregation.MaxSelectsSum` | src/stem-image/aggregation.ts:15-16 | as written, `Max` selects the sum: aggregating 1 and 2 gives 3 where the maximum is 2 |
| `Aggregation.GetAggregationFunctionCorrected` | src/stem-image/aggregation.ts:13-26 | `Max` and only `Max` selects `MaxAggregation`, `Min` and only `Min` selects `MinAggregation`, and every other input agrees with the code as written |
| `LinearScales.LinearScale` | src/stem-image/view.ts:4-10 | `linearScale` for a non-degenerate domain: `d0` maps to `r0` and `d1` to `r1`; the same formula is at src/components/stem-image/index.tsx:22-31 and src/STEMImage.js:21-30 |
| `LinearScales.ScaleEndpoints` | src/stem-image/view.ts:4-10 | for `d0 != d1` the map sends `d0` to `r0` and `d1` to `r1` |
| `LinearScales.ScaleMonotone` | src/components/stem-image/index.tsx:22-31 | for `d0 < d1` and `r0 <= r1` the map is non-decreasing |
| `LinearScales.ScaleInto` | src/STEMImage.js:21-30 | for `d0 < d1` and `r0 <= r1` a value inside the domain maps inside the range |
| `View.GreyEndpoints` | src/stem-image/view.ts:57-59 | the grey scale maps the range minimum to 0 and the maximum to 255, and keeps order |
| `View.ImageView.constructor` | src/stem-image/view.ts:18-29 | the view has a fresh buffer of `4*width*height` entries drawn from the source, and its handler is appended to the source's observers; the source's data, size and range are unchanged |
| `View.ImageView.Unsubscribe` | src/stem-image/view.ts:31-33 | the view's own handler is removed from the source's observers |
| `View.ImageView.OnSourceModified` | src/stem-image/view.ts:35-46 | `dataChanged` redraws into the same buffer and `sizeChanged` reallocates a zero buffer for the source's size |
| `View.ImageView.Resize` | src/stem-image/view.ts:48-53 | the buffer is reallocated, all zero, with exactly four entries per pixel of the source's size |
| `View.ImageView.Draw` | src/stem-image/view.ts:55-67 | for every pixel `i` entries `4i`, `4i+1` and `4i+2` hold the grey value of sample `i` and entry `4i+3` holds 255; entries past the samples are unchanged |
| `StemImage.MinMax` | src/components/stem-image/index.tsx:5-20 | nothing (undefined) exactly for empty data; otherwise `[min, max]` with `min <= max`, every sample in between and both values samples |
| `StemImage.SeqMinMaxBounds` | src/STEMImage.js:4-19 | the smallest and largest samples bound every sample, are samples and are ordered |
| `StemImage.NotConstantSpread` | src/components/stem-image/index.tsx:44-46 | two different samples make the minimum strictly smaller than the maximum, so the grey scale is defined |
| `StemImage.DataToPixels` | src/components/stem-image/index.tsx:43-57 | a fresh buffer of `4*data.length` entries where in each pixel R, G and B are the sample's grey value and alpha is 255 |
| `StemImage.PixelGreyEndpoints` | src/STEMImage.js:40-47 | the minimum sample maps to 0, the maximum to 255, and every grey value lies in `[0, 255]` |
| `Forms.MakeValidator` | src/utils/forms.ts:4-8 | the validator returns undefined exactly when the base validator accepts, and the message otherwise |
| `Forms.ReduceKeepsError` | src/utils/forms.ts:12-14 | once an error has been found, the remaining validators no longer change the result |
| `Forms.ComposeFirstError` | src/utils/forms.ts:10-16 | the composed validator returns the first error in list order; with no error it returns the last validator's non-error result, or undefined for an empty list |
| `Forms.ComposeAllPass` | src/utils/forms.ts:10-16 | when every validator accepts, the composition returns undefined, the empty list included |
| `Forms.ComposeValidators` | src/utils/forms.ts:10-16 | the composed validator accepts every value that all its validators accept, and the empty composition accepts everything; `ComposeFirstError` states which error it returns otherwise |
| `Forms.TrimEmptyIffBlank` | src/utils/forms.ts:23 | a string trims to nothing exactly when every character is JavaScript white space or a line terminator |
| `Forms.RequiredBase` | src/utils/forms.ts:18-28 | false exactly for undefined or a whitespace-only string |
| `Forms.NumberBase` | src/utils/forms.ts:32-34 | undefined is rejected (it converts to NaN), and a string passes exactly when the host's `isFinite` accepts it |
| `Forms.IntegerBase` | src/utils/forms.ts:38-43 | passing the integer check implies passing the number check |
| `Forms.RequiredComesFirst` | src/utils/forms.ts:71 | a field whose validators start with the required check rejects a missing or blank value with `Required`, whatever follows |
| `Forms.MakeFormFields` | src/utils/forms.ts:65-102 | one field per server parameter in entry order, with its name, width 6, the label or else the name, the default as initial value, `Required` first, and the type mapping string→string, number→number plus a number check, integer→number plus an integer check, any other type→no type |
| `Mask.Round` | src/components/image-view/index.tsx:28 | `Math.round`: the result is within half of its input, halves rounding up |
| `Mask.PositionsToParameters` | src/components/image-view/index.tsx:22-30 | `centerX = x0 - floor(w/2)`, `centerY = floor(h/2) - y0`, `minRadius = 0`, and `maxRadius` is the rounded handle distance |
| `Mask.ParametersToPositions` | src/components/image-view/index.tsx:32-49 | exactly two positions: the centre at `(centerX + floor(w/2), floor(h/2) - centerY)` and the rim handle on the centre's row, offset by `maxRadius` in x |
| `Mask.PositionsIgnoreMinRadius` | src/components/image-view/index.tsx:37-48 | the positions do not depend on `minRadius` |
| `Mask.CenterRoundTrip` | src/components/image-view/index.tsx:22-49 | positions to parameters and back reproduces the centre handle |
| `Mask.ParametersRoundTrip` | src/components/image-view/index.tsx:22-49 | parameters to positions and back reproduces `centerX` and `centerY`, and reproduces `maxRadius` when the handle distance is the radius |
| `Mask.OnFormChange` | src/components/image-view/index.tsx:92-95 | only the named field takes the new value; every other field keeps its value |
| `Pipelines.FindPipeline` | src/components/pipeline/index.tsx:72-79 | a pipeline is found exactly when the worker is listed, has a pipeline table and that table has the pipeline |
| `Pipelines.PipelineParameters` | src/components/pipeline/index.tsx:71-80 | `{}` when the worker is unknown, has no pipelines or lacks the pipeline; otherwise that pipeline's parameters |
| `Pipelines.SelectWorker` | src/components/pipeline/index.tsx:187-190 | the current worker is kept when still listed, else the first listed worker, else `'none'`; the choice is a listed worker exactly when some worker is listed |
| `Pipelines.SelectPipeline` | src/components/pipeline/index.tsx:192-197 | `'none'` when the chosen worker is missing or has no pipelines; otherwise the current pipeline if present, else the first, else `'none'`; any other choice is a pipeline of that worker |
| `Pipelines.PipelineWrapper.constructor` | src/components/pipeline/index.tsx:89-99 | no workers, no field values, and worker and pipeline `'none'` |
| `Pipelines.PipelineWrapper.OnReceiveWorkers` | src/components/pipeline/index.tsx:185-205 | the new worker table is stored, the worker is re-chosen by `SelectWorker`, then the pipeline by `SelectPipeline` for that worker; field values are kept |
| `Pipelines.PipelineWrapper.OnFieldChange` | src/components/pipeline/index.tsx:138-143 | only the named field value changes; the workers and the choices are kept |
| `Pipelines.PipelineWrapper.SetValues` | src/components/pipeline/index.tsx:145-150 | the field values become a copy of the given values; the workers and the choices are kept |
| `Pipelines.PipelineWrapper.OnWorkerChange` | src/components/pipeline/index.tsx:207-212 | only the worker choice changes, to the given id; the pipeline choice is not re-made |
| `Pipelines.PipelineWrapper.OnPipelineChange` | src/components/pipeline/index.tsx:214-219 | only the pipeline choice changes, to the given name |
| `Pipelines.MismatchedChoiceHasNoParameters` | src/components/pipeline/index.tsx:71-80 | a chosen worker whose pipeline table lacks the chosen pipeline, which `OnWorkerChange` can leave behind, gives the parameters `{}` |
| `Pipelines.MergeFormValues` | src/components/pipeline/index.tsx:284-291 | the reduce's result is `Merge(fields, fieldValues)` |
| `Pipelines.MergeLookup` | src/components/pipeline/index.tsx:285-289 | a name's merged value is its edited value when it is a field's name and was edited, else the initial value of the last field of that name with one, else absent |
| `Pipelines.MergeDistinct` | src/components/pipeline/index.tsx:284-291 | with distinct field names, each field's merged value is `fieldValues[name]` if defined, else its `initial` |
| `Pipelines.MergeOnlyFieldNames` | src/components/pipeline/index.tsx:284-291 | names that belong to no field are absent from the merged values |
| `Pipelines.RenderForm` | src/components/pipeline/index.tsx:280-291 | the fields rendered for a list of extra fields and a pipeline's parameters satisfy `RenderedFields`: the extra fields come first, then one field per parameter with its name, its server default as initial value and the validators and type of its parameter type; the values are `Merge` over all of them |
| `Pipelines.PipelineWrapper.RenderValues` | src/components/pipeline/index.tsx:280-291 | `RenderedFields` for the wrapper's extra fields and the parameters of the currently selected worker and pipeline, with the values `Merge`d from the wrapper's edited values |
| `PipelineForm.InvalidFromTrue` | src/components/pipeline/form.tsx:28-30 | once the accumulator is true, the reduce returns true whatever the remaining fields are |
| `PipelineForm.InvalidIff` | src/components/pipeline/form.tsx:28-35 | the reduce over the fields, started from `false`, ends true exactly when some field is rejected |
| `PipelineForm.Invalid` | src/components/pipeline/form.tsx:27-36 | `invalid` is true exactly when some field has a validator that reports an error for its current value |
| `PipelineForm.SubmitEnabled` | src/components/pipeline/form.tsx:75 | submit is enabled exactly when no field is rejected and the form is not disabled |
| `PipelineForm.Submit` | src/components/pipeline/form.tsx:78 | a click passes the current values unchanged, and only when submit is enabled |
| `PipelineForm.DisplayedValue` | src/components/pipeline/form.tsx:42 | `''` for an undefined value, the value otherwise |
| `PipelineForm.Forwarded` | src/components/pipeline/form.tsx:58-66 | an edit reaches the owner, as its name and value, exactly when the field has no validator or its validator reports no error |
| `PipelineForm.BlankNotForwarded` | src/components/pipeline/form.tsx:63-65 | a blank edit of a required field is never forwarded |
| `ImagesDuck.DefaultState` | src/store/ducks/images.ts:24-26 | the default state has an empty `byId` |
| `ImagesDuck.ByIdKeys` | src/store/ducks/images.ts:32-35 | the keys of the index are exactly the payload's ids |
| `ImagesDuck.ByIdLastWins` | src/store/ducks/images.ts:32-35 | an id maps to the last image in the payload that carries it |
| `ImagesDuck.Reduce` | src/store/ducks/images.ts:28-38 | a successful fetch replaces `byId` by the index of the payload alone, discarding the previous entries and keeping the other fields; other actions leave the state unchanged |
| `ImagesDuck.GetImages` | src/store/ducks/images.ts:16 | one image per stored entry, in key order, each the value its key maps to |
| `FlaskDuck.DefaultState` | src/store/ducks/flask.ts:25-27 | the default state is logged out |
| `FlaskDuck.Reduce` | src/store/ducks/flask.ts:29-36 | success logs in and failure logs out whatever the prior state; the request changes nothing |
| `FlaskDuck.IsLoggedIn` | src/store/ducks/flask.ts:17 | the selector holds exactly for the logged-in state |
| `FlaskDuck.ReduceIdempotent` | src/store/ducks/flask.ts:29-36 | applying an action twice gives the same state as applying it once |
| `FlaskDuck.LastOutcomeWins` | src/store/ducks/flask.ts:29-36 | after any run of actions the login state is the last authentication outcome in the run; without an outcome the state is unchanged |
| `Routes.DefaultCondition` | src/containers/route/index.tsx:10 | always `'component'` |
| `Routes.PrivateCondition` | src/containers/route/index.tsx:12-17 | undefined while authenticating; otherwise `'component'` exactly when authenticated, and `'fallback'` otherwise |
| `Routes.PublicCondition` | src/containers/route/index.tsx:19-24 | never `'fallback'`; undefined exactly while authenticating |
| `Routes.Render` | src/containers/route/index.tsx:44-69 | nothing without a component; the component exactly for a `'component'` outcome; the fallback exactly for a `'fallback'` outcome with a fallback; nothing for an undefined outcome; a missing condition is the default condition |
| `Routes.DefaultRouteShowsComponent` | src/containers/route/index.tsx:39-42 | a route without a condition always renders its component |
| `Routes.PrivateRoute` | src/containers/route/private.tsx:5 | a private route renders nothing while authenticating, its component when authenticated, and otherwise its fallback or nothing |
| `Routes.PublicRouteNoFallback` | src/containers/route/public.tsx:5 | a public route never renders its fallback |

## Left out

- Sockets and transport are not modelled, because they are network clients whose library is not part of this model. This covers `StreamImageDataSource.connect`/`disconnect` and the parsing of size and data messages (src/stem-image/data.ts:88-135), `StreamConnection`, and the socket emits of the pipeline panel (`onPipelineCreated`, `onPipelineExecuted`, `generateImage`, `connectSocket`).
- The canvas and the DOM are outside the model. This covers canvas creation, listener registration, `getBoundingClientRect` (its rectangle is an input here), `putImageData`, `toDataURL`, and `ImageData` allocation.
  - An `ImageData` of zero width throws in a browser. The view's buffer is modelled as a plain array, which also means this model does not capture a zero-sized source making the view throw.
  - `canvas.height = clientWidth` in `SquareSelection.resize` (src/stem-image/selection.ts:124) sets canvas state only.
  - The clamping and rounding of `Uint8ClampedArray` are not modelled. The buffers hold the grey value as a real.
- The colormap library's `linearScale` behind `SquareSelection`'s `xScale`/`yScale` is not modelled. The scales are opaque functions passed to `Resize`, and monotonicity is a hypothesis where it is used.
- `MultiSubjectProducer` is not defined in src/stem-image/subject.ts. `SquareSelection` therefore returns its `selectionChanged` event instead of emitting it. Its `subscribe('sizeChanged', fn)` call and `removeSubscriptions` call the data source's identically named methods with two arguments, which those methods do not take, so they are not modelled.
- The data source is one class. The abstract base cannot be instantiated, so its constructor guard is the separate `ImageData.ConstructorCheck`. `getImageSize`, `getImageData` and `getDataRange` are plain field reads.
- Floating point:
  - Samples are reals, so NaN, the infinities and rounding are not modelled.
  - Scanning a buffer that holds NaN is not modelled.
  - The grey scale's division by zero is excluded by preconditions: `View.Drawable` requires different range bounds, and `StemImage.NotConstant` requires two different samples. Without that, JavaScript would produce NaN.
  - A drawn source with a constant buffer is outside these preconditions. This includes every freshly constructed `StreamImageDataSource` (1×1, buffer `[0]`, range {0, 0}), so an `ImageView` cannot be built over one; in JavaScript that draw stores NaN, which the `Uint8ClampedArray` turns into 0.
- `ImageData.StreamImageDataSource.GetPixelData` requires non-negative coordinates. Negative ones are not guarded by the source, and they index the typed array at a negative position.
- Chunk indexes are natural numbers, as the `Uint32Array` the socket handler builds holds them.
- `Selection.MousePositionToImagePosition` and the mouse handlers `Selection.SquareSelection.MouseDown`, `MouseMove` and `MouseUp` require a canvas rectangle of nonzero width and height, because only a non-empty canvas can receive a mousedown. For an empty one the source divides by zero and clamps NaN or an infinity.
- `Selection.SquareSelection` models one drag at a time, with a single `dragging` flag. In the source every mousedown adds another window `mousemove`/`mouseup` pair over the same shared corners. A second mousedown before the release, such as a second button pressed while dragging, leaves two `mouseup` listeners, and the release then emits `selectionChanged` twice; the model emits it at most once.
- `Selection.CalculateP1`: the sizes and pixels are integers, and its 1..9 results are stated for `0 < min <= max`, the only limits the code passes.
- `Forms.NumberBase` and `Forms.IntegerBase` leave `isFinite` of a string and the `parseInt`/`parseFloat` comparison as uninterpreted host functions.
- A field's `validator` is the list of named validators it composes. Only `Required`, `Number` and `Integer` exist in this code base, so an arbitrary validator function is not modelled.
- Form values are strings. A key that is missing and a key holding `undefined` are not distinguished; every use in this code base reads both as `undefined`.
- Dictionary order is insertion order for every key. JavaScript lists array-index keys (canonical numeric strings below 2^32 - 1) first, in ascending numeric order, and this model does not capture that order. It affects the order of `ImagesDuck.GetImages` and the first-key choice of `Pipelines.SelectWorker` and `Pipelines.SelectPipeline`. Image ids are 24-hex-digit object ids, so none of them is an array index; worker ids and pipeline names are assumed not to be array indices either.
- Sums of JavaScript doubles depend on the order of the frames, for example `(0.1 + 0.2) + 0.3` differs from `0.1 + (0.2 + 0.3)`. `Aggregation.SumCommutesAndAssociates` holds only for the reals of this model.
- Prototype-inherited keys are not modelled. JavaScript's `in` and indexing also see keys such as `toString`; the dictionaries here hold only their own entries.
- `Mask.Vec2` is a pair of integers, so the handle positions `Mask.PositionsToParameters` takes are whole numbers; the source types them as any `number`, and the circle selection that produces them is not part of this model. `Mask.ParametersToPositions` takes integer parameters, so the `parseInt` of form strings it performs is not modelled. The point-distance function `calculateDistance` is defined outside the modelled files, so it is a parameter of `Mask.PositionsToParameters`. The mask callback `onMaskChange` passes values to a parent component and is not modelled.
- `Mask.ParametersRoundTrip` states the `maxRadius` round trip only under the hypothesis that the distance between the two handles is the radius, because the distance function is not part of this model.
- The pipeline panel holds only the workers, the worker and pipeline choices, and the field values. The connection flags and the dialogs are presentation state and are left out. Only `OnReceiveWorkers` re-makes the choices consistent; `OnWorkerChange` and `OnPipelineChange` store what the status panel picks as it is.
- An image record holds only `_id`, `fileId` and `name`. The reducer reads nothing else.
- State-library details are not modelled. `createReducer`'s behaviour for unhandled actions (the state is returned unchanged) is part of the reducers.

## Findings

| source | as written | input that shows it | evidently intended | confidence | as-written member | corrected member |
|---|---|---|---|---|---|---|
| src/stem-image/aggregation.ts:15-16 | the `PipelineAggregation.Max` case returns `SumAggregation` | `getAggregationFunction(Max)(1, 2)` is 3 | return `MaxAggregation`, which gives 2 | high; not executed | `Aggregation.MaxSelectsSum` | `Aggregation.GetAggregationFunctionCorrected` |
