/** The three decisions the activity makes itself: how a camera detection
    reaches the view model, how a published scanner state becomes torch,
    haptic and clipboard commands, and which MIME type a shared text gets.
    Hardware and system services appear only as emitted effects. */
module Activity {
  import opened Base
  import opened UiStates
  import opened ViewModel

  /** The camera widget's detection callback. A `null` text, or the text
      already shown, is ignored; otherwise the text is published, and a
      non-empty one also dismisses the picked-image error. */
  function OnBarcodeResult(vm: ViewModelState, text: Option<string>): (r: ViewModelState)
    ensures text.None? || text.value == vm.scanner.lastScannedText ==> r == vm
    ensures text.Some? && text.value != vm.scanner.lastScannedText ==>
              && r.scanner.lastScannedText == text.value
              && r.scanner.flashOn == vm.scanner.flashOn
              && r.ui.showScannerActions == vm.ui.showScannerActions
              && r.generator == vm.generator && r.bitmap == vm.bitmap
              && (r.ui.showScanImageFileError <==> vm.ui.showScanImageFileError && text.value == "")
  {
    match text
    case None => vm
    case Some(t) =>
      if t == vm.scanner.lastScannedText then vm
      else
        var published := vm.(scanner := SetLastScannedText(vm.scanner, t));
        if t != "" then published.(ui := SetShowScanImageFileError(published.ui, false))
        else published
  }

  /** Commands the activity issues to the camera, the vibrator and the clipboard. */
  datatype Effect = TorchOn | TorchOff | Vibrate | CopyToClipboard(text: string)

  /** The torch command for a flash setting: on exactly when the flash is on. */
  function TorchCommand(flashOn: bool): (r: Effect)
    ensures r.TorchOn? <==> flashOn
    ensures r.TorchOn? || r.TorchOff?
  {
    if flashOn then TorchOn else TorchOff
  }

  /** The activity's memory of what it last put on the clipboard, after
      handling one scanner state, and the commands it issued. */
  datatype Collected = Collected(textOnClipboard: string, effects: seq<Effect>)

  /** One delivery of a scanner state to the activity's collector. The torch
      always follows `flashOn`; a non-empty text that differs from the
      remembered clipboard text is vibrated, copied and remembered. */
  function CollectScannerState(textOnClipboard: string, state: ScannerUiState): (r: Collected)
    ensures |r.effects| >= 1 && r.effects[0] == TorchCommand(state.flashOn)
    ensures state.lastScannedText != "" ==> r.textOnClipboard == state.lastScannedText
    ensures state.lastScannedText == "" ==> r.textOnClipboard == textOnClipboard
    ensures (Vibrate in r.effects) <==>
              state.lastScannedText != "" && state.lastScannedText != textOnClipboard
    ensures forall e :: e in r.effects && e.CopyToClipboard? ==>
              e.text == state.lastScannedText && e.text != textOnClipboard
    ensures r.effects == [TorchCommand(state.flashOn)] ||
            r.effects == [TorchCommand(state.flashOn), Vibrate, CopyToClipboard(state.lastScannedText)]
  {
    var torch := TorchCommand(state.flashOn);
    if state.lastScannedText != "" && textOnClipboard != state.lastScannedText then
      Collected(state.lastScannedText, [torch, Vibrate, CopyToClipboard(state.lastScannedText)])
    else
      Collected(textOnClipboard, [torch])
  }

  /** Delivering the same state again only repeats the torch command. */
  lemma RecollectIsQuiet(textOnClipboard: string, state: ScannerUiState)
    ensures var again := CollectScannerState(CollectScannerState(textOnClipboard, state).textOnClipboard, state);
            && again.effects == [TorchCommand(state.flashOn)]
            && again.textOnClipboard == CollectScannerState(textOnClipboard, state).textOnClipboard
  {
  }

  /** `VERSION_CODES.UPSIDE_DOWN_CAKE`, the first SDK with chooser custom actions. */
  const UpsideDownCake: int := 34

  const UriListMimeType := "text/uri-list"
  const PlainTextMimeType := "text/plain"

  /** The MIME type of a shared text. `isValidUrl` stands for the
      `java.net.URL(text).toURI()` probe, which is platform code. */
  function MimeType(text: string, isValidUrl: string -> bool, sdkInt: int): (r: string)
    ensures r == UriListMimeType || r == PlainTextMimeType
    ensures r == UriListMimeType <==> isValidUrl(text) && sdkInt >= UpsideDownCake
  {
    if isValidUrl(text) && sdkInt >= UpsideDownCake then UriListMimeType else PlainTextMimeType
  }

  /** The share chooser for a text: its payload, its MIME type, and whether
      an "open in browser" action is attached. */
  datatype ShareChooser = ShareChooser(text: string, mimeType: string, opensInBrowser: bool)

  /** `share(text)`. The browser action and the URI-list type come from two
      separate tests in the Kotlin code; they always agree. */
  function Share(text: string, isValidUrl: string -> bool, sdkInt: int): (r: ShareChooser)
    ensures r.text == text
    ensures r.opensInBrowser <==> r.mimeType == UriListMimeType
    ensures sdkInt < UpsideDownCake ==> r.mimeType == PlainTextMimeType && !r.opensInBrowser
  {
    ShareChooser(text, MimeType(text, isValidUrl, sdkInt), isValidUrl(text) && sdkInt >= UpsideDownCake)
  }
}
