/** The view model: copy-on-write updates of the three ui-state records and
    of the bitmap slot. Each Kotlin `StateFlow.update` becomes a function from
    the old snapshot to the new one; the external decoder and encoder become
    an input and a function parameter. */
module ViewModel {
  import opened Base
  import opened NumericText
  import opened UiStates
  import opened Validation

  /** Everything the view model holds. */
  datatype ViewModelState = ViewModelState(
    ui: CodeScanToClipboardUiState,
    scanner: ScannerUiState,
    generator: GeneratorUiState,
    bitmap: Option<Bitmap>)

  const InitialViewModel := ViewModelState(DefaultUiState, DefaultScannerUiState, DefaultGeneratorUiState, None)

  // Screen flags

  function SetShowScannerActions(u: CodeScanToClipboardUiState, showActions: bool): (r: CodeScanToClipboardUiState)
    ensures r.showScannerActions == showActions
    ensures r.showScanImageFileError == u.showScanImageFileError
  {
    u.(showScannerActions := showActions)
  }

  function SetShowScanImageFileError(u: CodeScanToClipboardUiState, show: bool): (r: CodeScanToClipboardUiState)
    ensures r.showScanImageFileError == show
    ensures r.showScannerActions == u.showScannerActions
  {
    u.(showScanImageFileError := show)
  }

  // Scanner

  function SetLastScannedText(s: ScannerUiState, text: string): (r: ScannerUiState)
    ensures r.lastScannedText == text
    ensures r.flashOn == s.flashOn
  {
    s.(lastScannedText := text)
  }

  /** Clearing empties the text and leaves the torch alone. */
  function ClearLastScannedText(s: ScannerUiState): (r: ScannerUiState)
    ensures r.lastScannedText == ""
    ensures r.flashOn == s.flashOn
    ensures r == SetLastScannedText(s, "")
  {
    s.(lastScannedText := "")
  }

  /** Toggling flips the torch and leaves the text alone. */
  function ToggleFlash(s: ScannerUiState): (r: ScannerUiState)
    ensures r.flashOn != s.flashOn
    ensures r.lastScannedText == s.lastScannedText
  {
    s.(flashOn := !s.flashOn)
  }

  /** Toggling twice restores the state; clearing twice is clearing once. */
  lemma ScannerUpdateLaws(s: ScannerUiState)
    ensures ToggleFlash(ToggleFlash(s)) == s
    ensures ClearLastScannedText(ClearLastScannedText(s)) == ClearLastScannedText(s)
    ensures ToggleFlash(ClearLastScannedText(s)) == ClearLastScannedText(ToggleFlash(s))
  {
  }

  /** Publishing the outcome of decoding a picked image. `decoded` is the
      decoder's text, or `None` when it found no code (`ReaderException`).
      A success overwrites the text directly, without the duplicate check of
      the camera callback and without touching the error flag; a failure
      clears the text and raises the error flag. The downscaling of large
      images happens before the decoder and is not part of this model. */
  function ScanImageFile(vm: ViewModelState, decoded: Option<string>): (r: ViewModelState)
    ensures r.generator == vm.generator && r.bitmap == vm.bitmap
    ensures r.scanner.flashOn == vm.scanner.flashOn
    ensures r.ui.showScannerActions == vm.ui.showScannerActions
    ensures decoded.Some? ==> r.scanner.lastScannedText == decoded.value && r.ui == vm.ui
    ensures decoded.None? ==> r.scanner.lastScannedText == "" && r.ui.showScanImageFileError
  {
    match decoded
    case Some(text) =>
      vm.(scanner := vm.scanner.(lastScannedText := text))
    case None =>
      var cleared := vm.(scanner := ClearLastScannedText(vm.scanner));
      cleared.(ui := SetShowScanImageFileError(cleared.ui, true))
  }

  // Generator form

  function SetWidth(g: GeneratorUiState, width: string): (r: GeneratorUiState)
    ensures r.width == width
    ensures r.height == g.height && r.code == g.code && r.formatIndex == g.formatIndex
    ensures r.generatorExceptionMessage == g.generatorExceptionMessage
    ensures IsHeightError(r) == IsHeightError(g) && IsCodeError(r) == IsCodeError(g)
  {
    g.(width := width)
  }

  function SetHeight(g: GeneratorUiState, height: string): (r: GeneratorUiState)
    ensures r.height == height
    ensures r.width == g.width && r.code == g.code && r.formatIndex == g.formatIndex
    ensures r.generatorExceptionMessage == g.generatorExceptionMessage
    ensures IsWidthError(r) == IsWidthError(g) && IsCodeError(r) == IsCodeError(g)
  {
    g.(height := height)
  }

  function SetCode(g: GeneratorUiState, code: string): (r: GeneratorUiState)
    ensures r.code == code
    ensures r.width == g.width && r.height == g.height && r.formatIndex == g.formatIndex
    ensures r.generatorExceptionMessage == g.generatorExceptionMessage
    ensures IsWidthError(r) == IsWidthError(g) && IsHeightError(r) == IsHeightError(g)
  {
    g.(code := code)
  }

  /** Selecting a format stores the index only; the payload check follows
      from it rather than being stored. */
  function SetFormatIndex(g: GeneratorUiState, formatIndex: int): (r: GeneratorUiState)
    ensures r.formatIndex == formatIndex
    ensures r.width == g.width && r.height == g.height && r.code == g.code
    ensures r.generatorExceptionMessage == g.generatorExceptionMessage
    ensures IsWidthError(r) == IsWidthError(g) && IsHeightError(r) == IsHeightError(g)
  {
    g.(formatIndex := formatIndex)
  }

  function SetGeneratorExceptionMessage(g: GeneratorUiState, msg: string): (r: GeneratorUiState)
    ensures r.generatorExceptionMessage == msg
    ensures r.width == g.width && r.height == g.height && r.code == g.code
    ensures r.formatIndex == g.formatIndex
    ensures CanGenerate(r) == CanGenerate(g)
  {
    g.(generatorExceptionMessage := msg)
  }

  /** Writing a field back to its old value undoes a setter. */
  lemma SettersUndo(g: GeneratorUiState, width: string, height: string, code: string, formatIndex: int, msg: string)
    ensures SetWidth(SetWidth(g, width), g.width) == g
    ensures SetHeight(SetHeight(g, height), g.height) == g
    ensures SetCode(SetCode(g, code), g.code) == g
    ensures SetFormatIndex(SetFormatIndex(g, formatIndex), g.formatIndex) == g
    ensures SetGeneratorExceptionMessage(SetGeneratorExceptionMessage(g, msg), g.generatorExceptionMessage) == g
  {
  }

  /** Making any single field invalid closes the generate gate. */
  lemma AnyInvalidFieldBlocksGenerate(g: GeneratorUiState, width: string, height: string, code: string)
    ensures IsNotInRange(width) ==> !CanGenerate(SetWidth(g, width))
    ensures IsNotInRange(height) ==> !CanGenerate(SetHeight(g, height))
    ensures !AcceptsCode(FormatOf(g.formatIndex), code) ==> !CanGenerate(SetCode(g, code))
  {
  }

  /** What the external encoder does with a request: an image, or an
      exception whose message may be `null`. */
  datatype EncodeResult = Encoded(image: Bitmap) | EncodeFailed(message: Option<string>)

  /** Clearing the slot once the image has been handed on. */
  function ClearBitmap(vm: ViewModelState): (r: ViewModelState)
    ensures r.bitmap.None?
    ensures r.ui == vm.ui && r.scanner == vm.scanner && r.generator == vm.generator
  {
    vm.(bitmap := None)
  }

  /** `generate()`. The encoder is asked for (code, symbology, width, height);
      both `toInt()` calls sit inside the same `try`, so a dimension that does
      not parse fails like an encoder error, with the runtime's
      `NumberFormatException` text (`numberFormatMessage`). On success only
      the bitmap changes; on failure only the exception message does. */
  function Generate(vm: ViewModelState, encode: (string, BarcodeFormat, int, int) -> EncodeResult,
                    numberFormatMessage: string -> string): (r: ViewModelState)
    ensures r.ui == vm.ui && r.scanner == vm.scanner
    ensures r.generator.width == vm.generator.width && r.generator.height == vm.generator.height
    ensures r.generator.code == vm.generator.code && r.generator.formatIndex == vm.generator.formatIndex
    ensures r.bitmap == vm.bitmap || r.generator == vm.generator
    ensures r.bitmap != vm.bitmap ==> r.bitmap.Some?
    ensures CanGenerate(vm.generator) ==>
              var g := vm.generator;
              var res := encode(g.code, FormatOf(g.formatIndex), DigitsValue(g.width), DigitsValue(g.height));
              && (res.Encoded? ==> r.bitmap == Some(res.image) && r.generator == g)
              && (res.EncodeFailed? ==> r.bitmap == vm.bitmap &&
                                        r.generator.generatorExceptionMessage == res.message.GetOr(""))
    ensures ToInt(vm.generator.width).NumberFormatError? ==>
              r.bitmap == vm.bitmap &&
              r.generator.generatorExceptionMessage == numberFormatMessage(vm.generator.width)
    ensures ToInt(vm.generator.width).Returns? && ToInt(vm.generator.height).NumberFormatError? ==>
              r.bitmap == vm.bitmap &&
              r.generator.generatorExceptionMessage == numberFormatMessage(vm.generator.height)
  {
    var g := vm.generator;
    var format := FormatOf(g.formatIndex);
    var failWith := (msg: string) => vm.(generator := SetGeneratorExceptionMessage(g, msg));
    match ToInt(g.width)
    case NumberFormatError(input) => failWith(numberFormatMessage(input))
    case Returns(w) =>
      match ToInt(g.height)
      case NumberFormatError(input) => failWith(numberFormatMessage(input))
      case Returns(h) =>
        match encode(g.code, format, w, h)
        case Encoded(image) => vm.(bitmap := Some(image))
        case EncodeFailed(message) => failWith(message.GetOr(""))
  }

  /** Valid form, QR code: a successful encoding is stored and no message appears. */
  lemma GenerateHelloAsQrCode(encode: (string, BarcodeFormat, int, int) -> EncodeResult,
                              numberFormatMessage: string -> string, image: Bitmap)
    requires encode("HELLO", QrCode, 400, 400) == Encoded(image)
    ensures var vm := InitialViewModel.(generator := SetCode(DefaultGeneratorUiState, "HELLO"));
            && CanGenerate(vm.generator)
            && Generate(vm, encode, numberFormatMessage).bitmap == Some(image)
            && Generate(vm, encode, numberFormatMessage).generator.generatorExceptionMessage == ""
  {
    ThreeDigitValue("400", 4, 0, 0);
  }
}
