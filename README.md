# Desktop test-automation backend, modelled in Dafny

The modelled system is the Rust backend of a desktop test-automation app. The app drives the keyboard and mouse, and finds "hint images" on a screenshot by template matching. Its user interface calls the backend through IPC commands. This project models that backend's core and proves properties of the model:

- **Error vocabulary.** The application error type, its display strings, and its translation into the IPC error `{ code, message }`.
- **Screenshot downscaling.** The scale factor that keeps the long edge within 1920 pixels and the pixel count within about two megapixels, the resized size, and the PNG encode failure path.
- **Template matcher.** The pipeline runs: decode the template; align its scale with the screenshot; reject templates under 10% opaque; composite onto white and convert to luma; reject templates larger than the screenshot; correlate; reject non-finite scores; classify against the threshold. The model also covers the single-screenshot and batch entry points and the `match_hint_images` command that numbers the batch's results.
- **Keyboard service.** Key-name parsing, modifier recognition, key combinations, holding a key and typing text. The input device is a class, `Device.Enigo`, whose `events` field records every event sent to it, in order.
- **Mouse service.** Move, click, double and triple click, button down and up, drag, and scroll with its direction-to-delta mapping.
- **Input commands.** The commands that parse a scroll direction and turn service errors into their display text.
- **Stop flag and wait.** The application state holding the stop flag. The control commands set, clear and read it; `wait` is cut short by a stop request.
- **Configuration commands.** Reading the database settings and provider API keys from the process environment.

Files (one Dafny module each):

- `base.dfy`: Option and Result, byte and 32-bit integer ranges, and rounding half away from zero (`f64::round`). It also has saturating casts (`as u8`, `as u32`) and the ASCII string operations the source uses: `to_lowercase`, `trim` and `split`.
- `error.dfy`: `src-tauri/src/error.rs`.
- `raster.dfy`: RGBA and grey rasters, plus the two image-library operations the model needs, exact resizing through a filter and a per-pixel map to grey.
- `template_matcher.dfy`: `src-tauri/src/services/template_matcher.rs`.
- `template_match_command.dfy`: `src-tauri/src/commands/template_match.rs`.
- `image_processor.dfy`: `src-tauri/src/services/image_processor.rs`.
- `device.dfy`: the input-simulation library's vocabulary and the `Enigo` device class.
- `keyboard.dfy`: `src-tauri/src/services/keyboard.rs`.
- `keyboard_examples.dfy`: a worked example of cutting a combination text into parts.
- `mouse.dfy`: `src-tauri/src/services/mouse.rs`.
- `input_commands.dfy`: `src-tauri/src/commands/input.rs`.
- `state.dfy`: `src-tauri/src/state.rs`, as a class with the `stopRequested` field.
- `control.dfy`: `src-tauri/src/commands/control.rs`.
- `config.dfy`: `src-tauri/src/commands/config.rs`.

Library code the matcher calls is passed in as the function-typed fields of `TemplateMatcher.Externals`:

- base64 decoding and image decoding;
- the screenshot's `to_luma8`;
- the Lanczos3 filter;
- normalised cross-correlation with `find_extremes`;
- the `{:.1}` formatting of an f32.

The PNG/base64 encoder of `resize_screenshot` is passed in the same way, as a parameter. The square root in the scale factor is a parameter `pixelRoot`, and a precondition states that it is that square root. The stop flag that other threads set while `wait` runs is an oracle `flagAtCheck`, giving the value read at each look.

Floating-point values are modelled as `real`, with the source's rounding and casts written out. A negation of an `i32` is modelled as the release build computes it: `i32::MIN` wraps to itself. The model then proves the exact negation for every other amount.

## Model

| member | source | states |
|---|---|---|
| Error.Display | src-tauri/src/error.rs:8-26 | Cancelled displays as "Operation cancelled"; every other variant displays its payload after a non-empty prefix |
| Error.DisplayInjective | src-tauri/src/error.rs:8-26 | two errors with the same display string are the same error (variant and payload) |
| Error.IpcCodeDistinct | src-tauri/src/error.rs:37-44 | two errors get the same IPC code exactly when they are the same variant, so the six codes are pairwise distinct |
| Error.ToIpcError | src-tauri/src/error.rs:35-49 | the IPC message is the display string and the code is the variant's code |
| Error.IpcErrorFaithful | src-tauri/src/error.rs:35-49 | the IPC error's message alone identifies the original error |
| Error.ToString | src-tauri/src/error.rs:52-56 | conversion to a string gives the display string |
| Error.FromIoError | src-tauri/src/error.rs:58-62 | an I/O error becomes a capture error carrying its message, displayed as "Screenshot capture failed: …" |
| Error.FromImageError | src-tauri/src/error.rs:64-68 | an image-library error becomes an image error carrying its message, displayed as "Image processing error: …" |
| TemplateMatcher.MatchErrorCode.IsPermanent | src-tauri/src/services/template_matcher.rs:36-45 | permanent exactly for the codes other than a screenshot decode failure and an oversized template |
| TemplateMatcher.MatchErrorCode.IsSizeRelated | src-tauri/src/services/template_matcher.rs:48-50 | a size-related code is never permanent |
| TemplateMatcher.ErrorCodeFacets | src-tauri/src/services/template_matcher.rs:36-50 | the codes fall into three disjoint groups: permanent; size-related (only TemplateTooLarge); neither (only ScreenshotDecodeError) |
| TemplateMatcher.DecodeBase64Image | src-tauri/src/services/template_matcher.rs:398-405 | a base64 failure is an image error "Base64 decode error: …"; an image decode failure is "Image decode error: …"; otherwise the decoded image |
| TemplateMatcher.DecodeTemplateImage | src-tauri/src/services/template_matcher.rs:409-427 | the base64 code is reported exactly when base64 decoding fails, the image code exactly when image decoding fails after it; otherwise the decoded image |
| TemplateMatcher.DecodersAgree | src-tauri/src/services/template_matcher.rs:398-427 | both decoders succeed on the same inputs with the same image, and fail with the same message text |
| TemplateMatcher.ScaledDimension | src-tauri/src/services/template_matcher.rs:223-235 | a scaled template edge is at least 1 pixel and, for a factor below 1, never larger than the original (or 1) |
| TemplateMatcher.ScaledDimensionHalf | src-tauri/src/services/template_matcher.rs:625-635 | a 100-pixel edge at factor 0.5 becomes 50 pixels |
| TemplateMatcher.ScaleAlign | src-tauri/src/services/template_matcher.rs:223-235 | a factor below 1 resamples to the scaled size, between 1 and the original size; a factor of 1 or more leaves the template unchanged |
| TemplateMatcher.CountOpaque | src-tauri/src/services/template_matcher.rs:355-369 | counts the pixels with non-zero alpha: zero exactly when all are transparent, all of them exactly when none is transparent |
| TemplateMatcher.OpacityRatio | src-tauri/src/services/template_matcher.rs:355-369 | the opaque share lies in [0, 1]; it is 0 exactly when every pixel is transparent (or there are none) and 1 exactly when there are pixels and all are opaque |
| TemplateMatcher.HalfOpaqueRatio | src-tauri/src/services/template_matcher.rs:813-823 | an image with exactly half of its pixels opaque, in any arrangement, has a ratio of exactly 0.5 |
| TemplateMatcher.AlternatingHalfOpaque | src-tauri/src/services/template_matcher.rs:813-819 | pixels alternating opaque and transparent from the first one are exactly half opaque |
| TemplateMatcher.CompositeChannel | src-tauri/src/services/template_matcher.rs:377-395 | a channel blended over white stays in [0, 255]; alpha 0 gives white (255) and alpha 255 the channel itself |
| TemplateMatcher.CompositeLuma | src-tauri/src/services/template_matcher.rs:387-392 | the luma of the blended pixel lies in [0, 255] |
| TemplateMatcher.CompositeGray | src-tauri/src/services/template_matcher.rs:377-395 | the grey byte is the rounded luma (the cast never clamps); transparent pixels are white; opaque ones get the plain luma of their colour |
| TemplateMatcher.CompositeGrayBlack | src-tauri/src/services/template_matcher.rs:689-715 | opaque black gives 0, black at alpha 128 gives 127, opaque white gives 255 |
| TemplateMatcher.ConvertToGrayscaleWithAlpha | src-tauri/src/services/template_matcher.rs:377-395 | same size as the template; each grey pixel is its own pixel composited onto white; transparent pixels become 255 |
| TemplateMatcher.Classify | src-tauri/src/services/template_matcher.rs:315-344 | found exactly when the score reaches the threshold; the score is reported either way; the center is the matched corner plus half the template size |
| TemplateMatcher.CenterInsideScreenshot | src-tauri/src/services/template_matcher.rs:315-330 | a match whose template fits in the screenshot has its center inside the screenshot |
| TemplateMatcher.FindTemplateInternal | src-tauri/src/services/template_matcher.rs:197-345 | every result is consistent (a match has a center and a score and no error; an error has a code and is never a match); the screenshot code never comes from here; a template decode code appears exactly when the template does not decode; once decoded, the reported template size is that of the scale-aligned template on every path |
| TemplateMatcher.HalfScaleReportsHalfSize | src-tauri/src/services/template_matcher.rs:625-635 | a decoded 100x100 template matched at factor 0.5 reports a 50x50 template, whatever the outcome |
| TemplateMatcher.FindTemplateWithDecodedScreenshot | src-tauri/src/services/template_matcher.rs:181-188 | the same result as the internal pipeline |
| TemplateMatcher.DecodeFailureStopsPipeline | src-tauri/src/services/template_matcher.rs:204-218 | an undecodable template gives its decode code, no score and 0x0 size, independently of screenshot, scale, threshold, resampler and correlator |
| TemplateMatcher.OpacityGateBeforeSizeGuard | src-tauri/src/services/template_matcher.rs:240-257 | an aligned template under 10% opaque is rejected with its post-scale size and no score, whatever the screenshot, threshold or correlator |
| TemplateMatcher.TransparentTemplateRejected | src-tauri/src/services/template_matcher.rs:240-257 | a fully transparent template is always rejected for insufficient opacity |
| TemplateMatcher.SizeGuard | src-tauri/src/services/template_matcher.rs:268-279 | an opaque enough template wider or taller than the screenshot fails as too large with score 0.0, before any correlation |
| TemplateMatcher.NonFiniteGuard | src-tauri/src/services/template_matcher.rs:300-313 | a non-finite correlation maximum becomes the non-finite error with no score, whatever the threshold |
| TemplateMatcher.ClassificationStage | src-tauri/src/services/template_matcher.rs:284-344 | past every guard, the result is found exactly when the correlator's maximum reaches the threshold, with that score and the center half a template from the maximum |
| TemplateMatcher.ReportedConfidenceIsFinite | src-tauri/src/services/template_matcher.rs:268-344 | any reported score is the 0.0 of an oversized template or the finite maximum the correlator gives for the decoded, scale-aligned, grey-composited template |
| TemplateMatcher.ThresholdAboveOneFindsNothing | src-tauri/src/services/template_matcher.rs:315 | with scores never above 1.0, a threshold above 1.0 never finds anything |
| TemplateMatcher.FindTemplateInScreenshot | src-tauri/src/services/template_matcher.rs:91-120 | consistent result; the screenshot code appears exactly when the screenshot does not decode, and then with no score and 0x0 size |
| TemplateMatcher.ScreenshotFailureResult | src-tauri/src/services/template_matcher.rs:146-155 | the batch's screenshot-failure result: consistent, not found, screenshot code, 0x0, no score |
| TemplateMatcher.MatchTemplatesBatch | src-tauri/src/services/template_matcher.rs:135-178 | one consistent result per template, in input order, each carrying its template's file name |
| TemplateMatcher.BatchScreenshotFailure | src-tauri/src/services/template_matcher.rs:142-160 | an undecodable screenshot gives every slot the same screenshot error with 0x0 size |
| TemplateMatcher.BatchAgreesWithSingle | src-tauri/src/services/template_matcher.rs:91-178 | slot i equals the single-template result for template i; on a screenshot failure they differ only by the batch's "Screenshot decode error: " prefix |
| TemplateMatcher.BatchSplits | src-tauri/src/services/template_matcher.rs:166-177 | a batch over two lists is the concatenation of the two batches, so no template affects another's slot |
| TemplateMatchCommand.EffectiveThreshold | src-tauri/src/commands/template_match.rs:58 | the caller's threshold when given, 0.7 otherwise |
| TemplateMatchCommand.MatchHintImages | src-tauri/src/commands/template_match.rs:52-85 | one result per hint image, in order, numbered by position, with its file name and the single-template result for its image (message aside) |
| TemplateMatchCommand.HintResultsAreBatchResults | src-tauri/src/commands/template_match.rs:62-84 | the numbered results are exactly the batch results, in order |
| ImageProcessor.ScaleFactor | src-tauri/src/services/image_processor.rs:34-42 | the factor lies in (0, 1]; it is below 1 exactly when the long edge exceeds 1920 or the pixel count exceeds 2 000 000; the scaled long edge is at most 1920 |
| ImageProcessor.ResizeScreenshot | src-tauri/src/services/image_processor.rs:31-74 | succeeds exactly when the encoder accepts the final image (resampled to the rounded size when the factor is below one, the original otherwise) and then carries the encoder's output, the original size, the scale factor and the resized size; otherwise fails with the encoder's message as an image error |
| ImageProcessor.ResamplesOnlyWhenShrinking | src-tauri/src/services/image_processor.rs:48-64 | an image within both limits is encoded as it is, with factor 1 and its own size, or fails with the encoder's message as an image error |
| ImageProcessor.SmallScreenshotUnchanged | src-tauri/src/services/image_processor.rs:94-106 | an 800x600 screenshot keeps factor 1 and its size |
| ImageProcessor.ResizedWithinLongEdge | src-tauri/src/services/image_processor.rs:81-92 | after resizing, neither edge exceeds 1920 pixels |
| Device.CreateEnigo | src-tauri/src/services/keyboard.rs:8-10 | opening the device fails exactly when the machine refuses it, as an input error carrying the reason |
| Keyboard.Utf8Length | src-tauri/src/services/keyboard.rs:133 | the byte length is 1 exactly for a single character below 0x80 |
| Keyboard.ParseKey | src-tauri/src/services/keyboard.rs:91-147 | a failure is "Unknown key: " with the text as given; a character key only comes from a one-byte text |
| Keyboard.ParseKeyCaseInsensitive | src-tauri/src/services/keyboard.rs:92 | a text and its lower-case form parse alike |
| Keyboard.ControlAliases | src-tauri/src/services/keyboard.rs:94 | ctrl and control give Control, in any case |
| Keyboard.AltShiftAliases | src-tauri/src/services/keyboard.rs:95-96 | alt and option give Alt; shift gives Shift, in any case |
| Keyboard.MetaAliases | src-tauri/src/services/keyboard.rs:97 | cmd, command, meta, super and win give Meta |
| Keyboard.UnknownKeyMessage | src-tauri/src/services/keyboard.rs:138-143 | an unknown key is reported as "Input operation failed: Unknown key: " followed by the text as given |
| Keyboard.ModifierIffModifierKey | src-tauri/src/services/keyboard.rs:83-97 | a text names a modifier exactly when it parses to one of the four modifier keys |
| Keyboard.SingleCharacterKeys | src-tauri/src/services/keyboard.rs:133-143 | a single ASCII character is its own lower-cased key; a single non-ASCII character is unknown |
| Keyboard.EmptyKeyUnknown | src-tauri/src/services/keyboard.rs:138-143 | the empty text is an unknown key |
| Keyboard.ComboPartsShape | src-tauri/src/services/keyboard.rs:25-28 | every part is free of '+', already lower-case, and has no ASCII whitespace at either end |
| KeyboardExamples.ComboPartsExample | src-tauri/src/services/keyboard.rs:25-28 | "Ctrl + S" has exactly the two parts "ctrl" and "s" |
| Keyboard.FirstParseErrorIffSomeFailure | src-tauri/src/services/keyboard.rs:33-40 | a combination fails exactly when some part fails, with the error of the first failing part |
| Keyboard.MainKeyIsLastNonModifier | src-tauri/src/services/keyboard.rs:33-40 | there is a main key exactly when some part is not a modifier, and it is the key of the last such part |
| Keyboard.ModifiersAreModifierParts | src-tauri/src/services/keyboard.rs:33-40 | every key of a modifier part is collected, and every collected key comes from a modifier part |
| Keyboard.ModifiersInOrder | src-tauri/src/services/keyboard.rs:33-40 | modifiers are collected part by part in input order with repetitions: those of a concatenation are those of its halves in turn, and one part contributes its key exactly when it is a modifier that parses |
| Keyboard.ParseCombination | src-tauri/src/services/keyboard.rs:30-40 | the parsing loop returns the first part's error, or the modifiers in order and the last main key |
| Keyboard.SendKeys | src-tauri/src/services/keyboard.rs:43-61 | the events sent are one key event per key, in order |
| Keyboard.ComboTracePresses | src-tauri/src/services/keyboard.rs:42-47 | the keys pressed are the modifiers in input order |
| Keyboard.ComboTraceReleases | src-tauri/src/services/keyboard.rs:56-61 | the keys released are the modifiers in reverse order, the same multiset as the keys pressed |
| Keyboard.ComboTraceClick | src-tauri/src/services/keyboard.rs:49-54 | the only click is the main key's, once, when there is one |
| Keyboard.KeyCombination | src-tauri/src/services/keyboard.rs:21-64 | a device failure or any bad part sends no event; otherwise it sends press modifiers, click main key, release modifiers reversed |
| Keyboard.HoldKey | src-tauri/src/services/keyboard.rs:67-80 | a parsed key is pressed when `press` is set and released otherwise; a device failure or a bad key sends nothing |
| Keyboard.TypeText | src-tauri/src/services/keyboard.rs:13-18 | the text is sent as one text event, or nothing on a device failure |
| Mouse.ToButtonBijective | src-tauri/src/services/mouse.rs:35-43 | each mouse button maps to the device button of the same name, one-to-one and onto |
| Mouse.WrappingNeg | src-tauri/src/services/mouse.rs:238-240 | the result is the two's-complement additive inverse (the sum is 0 modulo 2^32), and the exact negation for every amount but i32::MIN |
| Mouse.WrappingNegUnique | src-tauri/src/services/mouse.rs:238-240 | no other 32-bit value is an additive inverse modulo 2^32, so i32::MIN must map to itself |
| Mouse.ScrollDeltaAxes | src-tauri/src/services/mouse.rs:237-242 | up/down scroll only vertically and left/right only horizontally; down and right by the amount, up and left by its negation |
| Mouse.ScrollOpposites | src-tauri/src/services/mouse.rs:237-242 | opposite directions give opposite deltas, except for i32::MIN, where up equals down |
| Mouse.MoveMouse | src-tauri/src/services/mouse.rs:60-65 | sends one absolute move, or nothing on a device failure |
| Mouse.Click | src-tauri/src/services/mouse.rs:68-88 | sends a move and then one click of the chosen button |
| Mouse.DoubleClick | src-tauri/src/services/mouse.rs:91-117 | sends a move and then exactly two left clicks |
| Mouse.TripleClick | src-tauri/src/services/mouse.rs:120-143 | sends a move and then exactly three left clicks |
| Mouse.MouseDown | src-tauri/src/services/mouse.rs:146-164 | sends a move and then a press of the chosen button |
| Mouse.MouseUp | src-tauri/src/services/mouse.rs:167-185 | sends a move and then a release of the chosen button |
| Mouse.Drag | src-tauri/src/services/mouse.rs:188-222 | sends, in order: move to start, press left, move to end, release left |
| Mouse.DragHoldsWhileMoving | src-tauri/src/services/mouse.rs:192-216 | the drag ends at the end point with the left button held while moving and released at the end |
| Mouse.Scroll | src-tauri/src/services/mouse.rs:225-256 | sends a move, then a horizontal scroll by dx and a vertical scroll by dy of the direction's delta |
| InputCommands.Reported | src-tauri/src/commands/input.rs:8-10 | a service error is reported as its display string; success stays success |
| InputCommands.ReportedInjective | src-tauri/src/commands/input.rs:8-10 | distinct service outcomes are reported distinctly |
| InputCommands.ParseScrollDirection | src-tauri/src/commands/input.rs:69-75 | an unknown direction is "Invalid scroll direction: " with the text as given |
| InputCommands.ScrollDirectionNames | src-tauri/src/commands/input.rs:69-75 | exactly up, down, left and right, in any case, name a direction, each the matching one |
| InputCommands.MouseMove | src-tauri/src/commands/input.rs:8-10 | the service's move, with errors as text |
| InputCommands.LeftClick | src-tauri/src/commands/input.rs:14-16 | a move and a click of the left button |
| InputCommands.RightClick | src-tauri/src/commands/input.rs:20-22 | a move and a click of the right button |
| InputCommands.MiddleClick | src-tauri/src/commands/input.rs:26-28 | a move and a click of the middle button |
| InputCommands.DoubleClick | src-tauri/src/commands/input.rs:32-34 | a move and two left clicks |
| InputCommands.TripleClick | src-tauri/src/commands/input.rs:38-40 | a move and three left clicks |
| InputCommands.LeftMouseDown | src-tauri/src/commands/input.rs:44-46 | a move and a press of the left button |
| InputCommands.LeftMouseUp | src-tauri/src/commands/input.rs:50-52 | a move and a release of the left button |
| InputCommands.LeftClickDrag | src-tauri/src/commands/input.rs:56-63 | the drag sequence, with errors as text |
| InputCommands.Scroll | src-tauri/src/commands/input.rs:67-78 | an invalid direction is reported before the device is opened and sends nothing; a valid one scrolls by its delta |
| InputCommands.TypeText | src-tauri/src/commands/input.rs:82-84 | one text event, with errors as text |
| InputCommands.Key | src-tauri/src/commands/input.rs:88-90 | the key-combination events, or no event and the first bad part's message |
| InputCommands.HoldKey | src-tauri/src/commands/input.rs:94-96 | a press or release of the parsed key, or "Input operation failed: Unknown key: …" and no event |
| AppState.AppState.constructor | src-tauri/src/state.rs:17-23 | a fresh state has no stop requested |
| AppState.AppState.Default | src-tauri/src/state.rs:46-51 | the default state is a fresh state with no stop requested, like `new` |
| AppState.AppState.RequestStop | src-tauri/src/state.rs:31-34 | afterwards a stop is requested, whatever before (so requesting is idempotent) |
| AppState.AppState.ClearStop | src-tauri/src/state.rs:36-39 | afterwards no stop is requested, whatever before (so clearing is idempotent) |
| AppState.AppState.IsStopRequested | src-tauri/src/state.rs:41-44 | returns the flag and changes nothing |
| Control.RequestStop | src-tauri/src/commands/control.rs:9-11 | the state's flag is set |
| Control.ClearStop | src-tauri/src/commands/control.rs:15-17 | the state's flag is cleared |
| Control.IsStopRequested | src-tauri/src/commands/control.rs:21-23 | returns the state's flag |
| Control.StepCount | src-tauri/src/commands/control.rs:29-44 | the number of looks at the flag in an uninterrupted wait is the number of started 100 ms intervals |
| Control.StepCountExamples | src-tauri/src/commands/control.rs:33-44 | 0 ms takes no look, 1 to 100 ms one, 101 ms two, 1000 ms ten |
| Control.Wait | src-tauri/src/commands/control.rs:28-47 | never fails; true exactly when no look within the step count sees a stop; the time slept never exceeds the duration, equals it on completion, and a cancellation returns at the first look that sees a stop |
| Config.GetSupabaseConfig | src-tauri/src/commands/config.rs:13-20 | succeeds with both values exactly when both variables are set; reports the URL first when it is missing, otherwise the anon key |
| Config.GetApiKey | src-tauri/src/commands/config.rs:25-33 | unknown names give "Unknown key name: " with the name as given; a missing variable gives "<VAR> is not set in environment"; a present one its value unchanged |
| Config.IsApiKeyConfigured | src-tauri/src/commands/config.rs:37-45 | only a known provider can be configured |
| Config.ConfiguredIffReadable | src-tauri/src/commands/config.rs:25-45 | a key is configured exactly when reading it succeeds |
| Config.ProviderNames | src-tauri/src/commands/config.rs:26-28 | exactly "anthropic" and "gemini", in any case, name a provider, mapping to ANTHROPIC_API_KEY and GEMINI_API_KEY |
| Config.ApiKeyReadsOnlyItsVariable | src-tauri/src/commands/config.rs:32 | reading a key depends on no variable other than its own |

## Left out

- Base64 decoding and encoding, PNG decoding and encoding, and `to_rgba8`/`to_luma8`: library code, passed in as functions.
- Lanczos3 resampling: library code, passed in as a filter. Only the output size is modelled.
- The normalised cross-correlation surface and `find_extremes`: library floating-point code, passed in as a function returning a finite-or-not maximum and its position. That the score lies in [0, 1] is not claimed.
- Bit-exact f32/f64 arithmetic: values are `real`. The opacity ratio, the compositing and the scale factor are exact, so a value within one rounding step of a threshold or of .5 may be decided differently by the source.
- The `{:.1}` percentages in the opacity message: formatting is passed in as a function.
- The square root in the scale factor: supplied as the parameter `pixelRoot`, pinned by a precondition.
- ImageProcessor.ScaleFactor: the pixel count is unbounded here, while the source computes it as a `u32` product, which overflows above 4 294 967 295 pixels.
- TemplateMatcher.ScaledDimension and ImageProcessor.ResizedDimension: a value that is NaN or out of range before the `as u32` cast cannot occur with the model's finite reals. Saturation is modelled; NaN is not.
- Individual device calls failing after the device has opened: each service would return that input error having sent only the earlier events. The model lets every call after a successful open succeed.
- `thread::sleep` and `tokio::time::sleep` delays: only the event order and the waited time are modelled.
- `Arc`, `AtomicBool`, `Mutex` and memory ordering in the application state, and `set_hotkey_manager` with the hotkey manager field: cross-thread plumbing. Writes by other threads during `wait` are the `flagAtCheck` oracle.
- Control.Wait: takes the flag values as an oracle rather than reading `AppState`, because other threads may change the flag between looks.
- Full Unicode lower-casing and trimming: only ASCII letters are lower-cased and only ASCII whitespace is trimmed.
- Environment variables that are set but not valid Unicode: `env::var` then fails; the model only has set and unset.
- NaN thresholds and NaN scale factors.
- The screenshot capture service, permission checks, global hotkeys, webhooks, the Tauri wiring with its SQL migrations, the screenshot command and the module declarations are not part of this model.
