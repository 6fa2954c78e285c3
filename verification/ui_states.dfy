/** The three immutable ui-state records the view model publishes, with the
    defaults their Kotlin constructors give them, and the bitmap slot. */
module UiStates {

  /** Screen-level flags: whether the scanner's action bar is shown, and
      whether the last picked image held no readable code. */
  datatype CodeScanToClipboardUiState = CodeScanToClipboardUiState(
    showScannerActions: bool,
    showScanImageFileError: bool)

  /** The scanner: the most recently decoded text and the torch switch. */
  datatype ScannerUiState = ScannerUiState(
    lastScannedText: string,
    flashOn: bool)

  /** The generator form. Width and height stay text until validated;
      `formatIndex` is the selected entry of the format buttons. */
  datatype GeneratorUiState = GeneratorUiState(
    width: string,
    height: string,
    code: string,
    formatIndex: int,
    generatorExceptionMessage: string)

  /** An image produced by the external encoder; only its identity matters here. */
  datatype Bitmap = Bitmap(handle: nat)

  const DefaultUiState := CodeScanToClipboardUiState(false, false)
  const DefaultScannerUiState := ScannerUiState("", false)
  const DefaultGeneratorUiState := GeneratorUiState("400", "400", "", 0, "")
}
