# CodeScanToClipboard: scan/generate state engine in Dafny

CodeScanToClipboard is an Android app. It reads barcodes with the camera or from a picked image and copies the decoded text to the clipboard. It can also generate a barcode image from text the user types in. Almost all of the app is Compose UI and Android plumbing. The decisions it makes live in `CodeScanToClipboardViewModel` and in three small spots of `CodeScanToClipboardActivity`. This project models those decisions as pure functions over immutable records and proves properties about them.

- `base.dfy` (`Base`): Kotlin nullables (`Option`) and the outcome of a call that may throw `NumberFormatException` (`Checked`).
- `numeric_text.dfy` (`NumericText`): `isDigitsOnly()` and Kotlin's `String.toInt()` with its 32-bit range. The file also has the canonical decimal rendering, used as an independent reference for parsing.
- `ui_states.dfy` (`UiStates`): the three ui-state data classes and their defaults.
- `validation.dfy` (`Validation`): the generator's validation engine. It covers the dimension range check (as written and corrected), the payload check per symbology, `canGenerate()` and the format-index-to-symbology mapping.
- `view_model.dfy` (`ViewModel`): the setters, `toggleFlash`, `clearLastScannedText`, both branches of `scanImageFile`, `clearBitmap` and `generate`. The external encoder is a function parameter; the external decoder's outcome is an input.
- `activity.dfy` (`Activity`): the camera callback, the collector that turns each published scanner state into torch, vibration and clipboard commands, and the MIME type and share-chooser choice.
- `session.dfy` (`Session`): events, each followed by the collector run it triggers, folded over a sequence. It holds the duplicate-suppression guarantees over whole runs.

Behaviour of the Kotlin code that the model keeps:

- `generate()` evaluates both `toInt()` calls inside its `try`. A dimension that does not parse therefore fails like an encoder error and leaves a message. `generate()` does not check `canGenerate()`; with an invalid form it still parses both dimensions and calls the encoder.
- `generate()` never clears `generatorExceptionMessage` on success. The field setters do not clear it either; only the dialog's dismiss callback sets it to "".
- The camera callback dismisses the picked-image error only for a non-empty text.
- A successful picked-image decode writes `lastScannedText` directly. It skips the callback's duplicate check and leaves the error flag alone.
- Clearing the text does not reset the activity's `textOnClipboard`. Scanning the same text again after a clear shows it but does not copy it again.

## Model

| member | source | states |
|---|---|---|
| NumericText.ToInt | app/src/main/java/eu/thomaskuenneth/codescantoclipboard/CodeScanToClipboardViewModel.kt:162 | `toInt()` returns only 32-bit values and throws on "". On an all-digit text it returns the text's value exactly when that value is at most `Int.MAX_VALUE`, and throws otherwise |
| NumericText.ToIntRoundTrip | app/src/main/java/eu/thomaskuenneth/codescantoclipboard/CodeScanToClipboardViewModel.kt:185 | `toInt()` reads back every `Int` from its decimal rendering (sign included), so valid dimensions reach the encoder unchanged |
| Validation.FormatOf | app/src/main/java/eu/thomaskuenneth/codescantoclipboard/CodeScanToClipboardViewModel.kt:176-181 | the symbology mapping is total: indices 0..3 select the symbology at that button position (1 EAN-13, 2 Aztec, 3 Data Matrix, 0 QR) and every other integer falls back to QR code |
| Validation.FormatIndexRoundTrip | app/src/main/java/eu/thomaskuenneth/codescantoclipboard/screen/CreatorScreen.kt:70-75 | each symbology is produced by the index of its format button, so the button list and the mapping agree |
| Validation.IsNotInRangeAsWritten | app/src/main/java/eu/thomaskuenneth/codescantoclipboard/CodeScanToClipboardViewModel.kt:161-162 | the range check as written agrees with the corrected check whenever it returns, and throws exactly on all-digit texts whose value exceeds `Int.MAX_VALUE` |
| Validation.DimensionTextCharacterization | app/src/main/java/eu/thomaskuenneth/codescantoclipboard/CodeScanToClipboardViewModel.kt:161-162 | a non-empty all-digit text with a value in 200..800 is exactly some leading zeros followed by the canonical decimal text of a number in 200..800 |
| Validation.IsNotInRange | app/src/main/java/eu/thomaskuenneth/codescantoclipboard/CodeScanToClipboardViewModel.kt:161-162 | the corrected, unbounded-parse version of the check: it rejects a text exactly when the text is not a dimension text, so empty, non-digit, signed and out-of-range texts all fail. A passing text is all digits and at least three characters long |
| Validation.IsWidthError | app/src/main/java/eu/thomaskuenneth/codescantoclipboard/CodeScanToClipboardViewModel.kt:152 | the width is flagged exactly when it is not a dimension text |
| Validation.IsHeightError | app/src/main/java/eu/thomaskuenneth/codescantoclipboard/CodeScanToClipboardViewModel.kt:153 | the height is flagged exactly when it is not a dimension text |
| Validation.RangeBoundaries | app/src/main/java/eu/thomaskuenneth/codescantoclipboard/CodeScanToClipboardViewModel.kt:161-162 | "200", "800" and "0400" pass; "199", "801", "", "12a" and "-400" fail |
| Validation.IsCodeError | app/src/main/java/eu/thomaskuenneth/codescantoclipboard/CodeScanToClipboardViewModel.kt:154-159 | the payload is wrong exactly when the symbology that `generate()` would request rejects it (EAN-13 needs 12 or 13 digits, the others any non-empty text). For every index other than 1, out-of-range ones included, the payload is wrong iff it is empty |
| Validation.Ean13Cases | app/src/main/java/eu/thomaskuenneth/codescantoclipboard/CodeScanToClipboardViewModel.kt:156 | for EAN-13, 12 and 13 digits pass; 10 digits and a 12-character text with a letter fail |
| Validation.CanGenerate | app/src/main/java/eu/thomaskuenneth/codescantoclipboard/CodeScanToClipboardViewModel.kt:164 | generation is allowed exactly when width and height are dimension texts and the chosen symbology accepts the payload; then both dimensions are all digits and the payload is non-empty |
| Validation.CanGenerateAsWritten | app/src/main/java/eu/thomaskuenneth/codescantoclipboard/CodeScanToClipboardViewModel.kt:152-164 | `canGenerate()` with Kotlin's short-circuit `&&` agrees with the gate whenever it returns. It throws exactly when the width overflows, or when the width is valid and the height overflows, and it names the offending text |
| Validation.AsWrittenThrowsBeyondInt | app/src/main/java/eu/thomaskuenneth/codescantoclipboard/CodeScanToClipboardViewModel.kt:161-162 | for every number beyond `Int.MAX_VALUE`, the range check as written throws on its decimal text, while the intended answer is "not in range" |
| Validation.OverflowingWidthCrashesCanGenerate | app/src/main/java/eu/thomaskuenneth/codescantoclipboard/CodeScanToClipboardViewModel.kt:161-164 | width "2147483648" makes the range check and `canGenerate()` throw |
| Validation.DefaultCannotGenerate | app/src/main/java/eu/thomaskuenneth/codescantoclipboard/CodeScanToClipboardViewModel.kt:35-41 | the default form has valid dimensions "400" but an empty payload, so `canGenerate()` starts out false (and returns, not throws) |
| ViewModel.SetShowScannerActions | app/src/main/java/eu/thomaskuenneth/codescantoclipboard/CodeScanToClipboardViewModel.kt:54-58 | sets the action-bar flag and keeps the picked-image error flag |
| ViewModel.SetShowScanImageFileError | app/src/main/java/eu/thomaskuenneth/codescantoclipboard/CodeScanToClipboardViewModel.kt:114-118 | sets the picked-image error flag and keeps the action-bar flag |
| ViewModel.SetLastScannedText | app/src/main/java/eu/thomaskuenneth/codescantoclipboard/CodeScanToClipboardViewModel.kt:60-64 | sets the text and keeps the torch setting |
| ViewModel.ClearLastScannedText | app/src/main/java/eu/thomaskuenneth/codescantoclipboard/CodeScanToClipboardViewModel.kt:66-70 | empties the text, keeps the torch setting, and is the text setter applied to "" |
| ViewModel.ToggleFlash | app/src/main/java/eu/thomaskuenneth/codescantoclipboard/CodeScanToClipboardViewModel.kt:72-76 | flips the torch setting and keeps the text |
| ViewModel.ScannerUpdateLaws | app/src/main/java/eu/thomaskuenneth/codescantoclipboard/CodeScanToClipboardViewModel.kt:66-76 | toggling twice is the identity, clearing is idempotent, and toggling commutes with clearing |
| ViewModel.ScanImageFile | app/src/main/java/eu/thomaskuenneth/codescantoclipboard/CodeScanToClipboardViewModel.kt:99-106 | a decoded image publishes its text and leaves the screen flags alone. A failed decode empties the text and raises the error flag. Either way the torch setting, the action-bar flag, the generator form and the bitmap are kept |
| ViewModel.SetWidth | app/src/main/java/eu/thomaskuenneth/codescantoclipboard/CodeScanToClipboardViewModel.kt:122-126 | changes only the width, so the height and payload checks keep their verdicts |
| ViewModel.SetHeight | app/src/main/java/eu/thomaskuenneth/codescantoclipboard/CodeScanToClipboardViewModel.kt:128-132 | changes only the height, so the width and payload checks keep their verdicts |
| ViewModel.SetCode | app/src/main/java/eu/thomaskuenneth/codescantoclipboard/CodeScanToClipboardViewModel.kt:134-138 | changes only the payload, so the dimension checks keep their verdicts |
| ViewModel.SetFormatIndex | app/src/main/java/eu/thomaskuenneth/codescantoclipboard/CodeScanToClipboardViewModel.kt:140-142 | changes only the index; the payload is not touched and the dimension checks keep their verdicts |
| ViewModel.SetGeneratorExceptionMessage | app/src/main/java/eu/thomaskuenneth/codescantoclipboard/CodeScanToClipboardViewModel.kt:144-150 | changes only the message, so the generate gate keeps its verdict |
| ViewModel.SettersUndo | app/src/main/java/eu/thomaskuenneth/codescantoclipboard/CodeScanToClipboardViewModel.kt:122-150 | writing each field back to its old value restores the whole form |
| ViewModel.AnyInvalidFieldBlocksGenerate | app/src/main/java/eu/thomaskuenneth/codescantoclipboard/CodeScanToClipboardViewModel.kt:164 | making the width, the height or the payload invalid closes the generate gate, whatever the other fields hold |
| ViewModel.ClearBitmap | app/src/main/java/eu/thomaskuenneth/codescantoclipboard/CodeScanToClipboardViewModel.kt:169-171 | empties the bitmap slot and keeps the three ui states |
| ViewModel.Generate | app/src/main/java/eu/thomaskuenneth/codescantoclipboard/CodeScanToClipboardViewModel.kt:173-194 | on a valid form the encoder receives (payload, mapped symbology, width value, height value). Success stores its image and keeps the message. Failure keeps the bitmap and stores the message, or "" for a null one. A dimension that does not parse fails with the parse message. At most one of bitmap and form changes; the scanner and screen states never change |
| ViewModel.GenerateHelloAsQrCode | app/src/main/java/eu/thomaskuenneth/codescantoclipboard/CodeScanToClipboardViewModel.kt:173-194 | form 400 x 400, "HELLO", QR: the gate is open, the encoder's image is stored and the message stays "" |
| Activity.OnBarcodeResult | app/src/main/java/eu/thomaskuenneth/codescantoclipboard/CodeScanToClipboardActivity.kt:124-133 | a null text or the text already shown leaves everything unchanged. Any other text is published, and the error flag ends up set exactly when it was set before and the new text is empty |
| Activity.TorchCommand | app/src/main/java/eu/thomaskuenneth/codescantoclipboard/CodeScanToClipboardActivity.kt:145 | the torch is switched on exactly when `flashOn` holds, and off otherwise |
| Activity.CollectScannerState | app/src/main/java/eu/thomaskuenneth/codescantoclipboard/CodeScanToClipboardActivity.kt:144-152 | the torch command always matches `flashOn`. The activity vibrates and copies iff the text is non-empty and differs from the remembered clipboard text. Only that text is copied, and a non-empty text is remembered afterwards |
| Activity.RecollectIsQuiet | app/src/main/java/eu/thomaskuenneth/codescantoclipboard/CodeScanToClipboardActivity.kt:146-151 | delivering the same state a second time only repeats the torch command |
| Activity.MimeType | app/src/main/java/eu/thomaskuenneth/codescantoclipboard/CodeScanToClipboardActivity.kt:253-254 | the type is "text/uri-list" iff the text is a valid URL and the SDK is at least 34; otherwise it is "text/plain" |
| Activity.Share | app/src/main/java/eu/thomaskuenneth/codescantoclipboard/CodeScanToClipboardActivity.kt:213-237 | the chooser offers "open in browser" exactly when the shared text is typed "text/uri-list"; below SDK 34 it never does |
| Session.Step | app/src/main/java/eu/thomaskuenneth/codescantoclipboard/CodeScanToClipboardActivity.kt:142-155 | each event keeps the clipboard in sync with a non-empty scanned text. Any emission starts with the torch command for the new `flashOn`. A changed scanner state or a restart always emits; otherwise nothing is emitted and the remembered clipboard text is kept. At most one text is copied, which is non-empty and new, and the activity then remembers it |
| Session.CopiesAreTheCopyCommands | app/src/main/java/eu/thomaskuenneth/codescantoclipboard/CodeScanToClipboardActivity.kt:149 | the clipboard texts read off a run of effects are exactly the texts of its copy commands: each one comes from a copy command, and each copy command's text is among them |
| Session.RunCopiesAreFresh | app/src/main/java/eu/thomaskuenneth/codescantoclipboard/CodeScanToClipboardActivity.kt:146-151 | over any run of events, no copied text is empty or equal to the text copied just before it (or to the clipboard text at the start). The remembered text ends as the last one copied |
| Session.RunKeepsClipboardInSync | app/src/main/java/eu/thomaskuenneth/codescantoclipboard/CodeScanToClipboardActivity.kt:144-152 | a run that starts with the clipboard in sync stays in sync: a non-empty scanned text is always the remembered clipboard text |
| Session.RepeatedDetectionIsSilent | app/src/main/java/eu/thomaskuenneth/codescantoclipboard/CodeScanToClipboardActivity.kt:126-128 | the same detection delivered twice: the second changes nothing and emits nothing |
| Session.NewDetectionIsCopied | app/src/main/java/eu/thomaskuenneth/codescantoclipboard/CodeScanToClipboardActivity.kt:124-152 | a new non-empty text not yet on the clipboard emits exactly the torch command, one vibration and one copy of that text |
| Session.RescanAfterClearDoesNotCopy | app/src/main/java/eu/thomaskuenneth/codescantoclipboard/CodeScanToClipboardActivity.kt:146-150 | clearing and rescanning the same text shows it again but neither vibrates nor copies |
| Session.FlashToggleReachesTorch | app/src/main/java/eu/thomaskuenneth/codescantoclipboard/CodeScanToClipboardActivity.kt:145 | toggling the flash always emits, starting with the torch command for the new setting |
| Session.FailedImageScanCopiesNothing | app/src/main/java/eu/thomaskuenneth/codescantoclipboard/CodeScanToClipboardViewModel.kt:104-106 | a picked image without a code raises the error flag, empties the text and copies nothing |

## Left out

- Digits: Android's `isDigitsOnly()` and the JVM's `Integer.parseInt` accept Unicode decimal digits beyond ASCII (Arabic-Indic, full-width, ...). The model accepts only '0'..'9', and a string is a sequence of characters, not of UTF-16 units.
- Supplementary-plane digits: `isDigitsOnly()` walks code points, so a digit outside the Basic Multilingual Plane such as U+1D7D2 (mathematical bold digit four) passes it, while `Integer.parseInt` looks at each UTF-16 unit with `Character.digit` and throws on the surrogate pair. A width such as three U+1D7D2 characters is therefore a second kind of input that makes `isNotInRange` throw (CodeScanToClipboardViewModel.kt:162). The model treats only '0'..'9' as digits, so it does not show this.
- String length: `code.length` counts UTF-16 units, so each supplementary-plane digit counts twice, and six of them pass the EAN-13 length test (CodeScanToClipboardViewModel.kt:156). The model counts characters and does not show this either.
- ViewModel.Generate: the `NumberFormatException` message text is runtime code, so it is the parameter `numberFormatMessage`. The encoder (`BarcodeEncoder.encodeBitmap`) is the parameter `encode`, and its images are opaque handles. `Log.e` is not modelled.
- ViewModel.ScanImageFile: the ZXing decoder (`MultiFormatReader` with the try-harder hint) is represented only by its outcome. The float-arithmetic downscaling of images larger than 1000 x 1000, the pixel-buffer conversion and bitmap recycling are not modelled.
- Activity.MimeType: the `java.net.URL(text).toURI()` probe is the uninterpreted parameter `isValidUrl`, and the SDK level is an input.
- Activity.Share: only the chooser's type and browser-action decision are modelled. Intents, `PendingIntent`, icons and `startActivity` are not.
- Session.Step: the `StateFlow` delivery is modelled sequentially, with one collector run per distinct successive scanner state and one per start. Conflation of quickly changing states, coroutines and threads are not modelled.
- Effects: the vibration (100 ms one-shot), the clip label and the torch calls are effect values only.
- Restoring `textOnClipboard` from the saved-instance bundle is not modelled: the activity-recreation lifecycle is platform code. Neither are camera permission handling, pause/resume, key handling, the image picker, or sharing a generated image through `saveBitmapAndGetUri`. The bitmap collector's call to `clearBitmap` is modelled as `ViewModel.ClearBitmap`.
- Compose screens, theming, navigation and the Quick Settings tile service are UI and are not part of this model.

## Findings

| source | as written | input that shows it | evidently intended | confidence | as-written member | corrected member |
|---|---|---|---|---|---|---|
| app/src/main/java/eu/thomaskuenneth/codescantoclipboard/CodeScanToClipboardViewModel.kt:161-162 | the range check calls `toInt()` on any all-digit text. A value beyond `Int.MAX_VALUE` throws `NumberFormatException` out of `isWidthError()`/`isHeightError()` and so out of `canGenerate()`, which the generator screen calls while composing | width (or height) "2147483648" | such a text is simply not in range, so `isNotInRange` returns true | not executed; high | Validation.IsNotInRangeAsWritten, Validation.OverflowingWidthCrashesCanGenerate | Validation.IsNotInRange, Validation.DimensionTextCharacterization |
