/** A scanning session as a sequence of events: the view model together with
    the activity's `textOnClipboard`, the collector running once for every
    distinct scanner state the view model publishes (a `StateFlow` only
    delivers changes) and once more whenever the activity is started. The
    lemmas here are the duplicate-suppression guarantees. */
module Session {
  import opened Base
  import opened UiStates
  import opened ViewModel
  import opened Activity

  datatype Session = Session(vm: ViewModelState, textOnClipboard: string)

  /** A fresh activity: default view model, nothing copied yet. */
  const InitialSession := Session(InitialViewModel, "")

  /** What can happen to the scanner side of the app. */
  datatype Event =
    | BarcodeDetected(text: Option<string>)     // camera callback
    | FlashToggled                              // torch button
    | TextCleared                               // clear button
    | ImageFileScanned(decoded: Option<string>) // decoder outcome of a picked image
    | Started                                   // activity reaches STARTED; collection (re)starts

  datatype Stepped = Stepped(session: Session, effects: seq<Effect>)

  /** The view-model update an event causes. */
  function Apply(vm: ViewModelState, e: Event): ViewModelState {
    match e
    case BarcodeDetected(text) => OnBarcodeResult(vm, text)
    case FlashToggled => vm.(scanner := ToggleFlash(vm.scanner))
    case TextCleared => vm.(scanner := ClearLastScannedText(vm.scanner))
    case ImageFileScanned(decoded) => ScanImageFile(vm, decoded)
    case Started => vm
  }

  /** The texts copied to the clipboard, in order. */
  function Copies(effects: seq<Effect>): (r: seq<string>)
    ensures |r| <= |effects|
  {
    if effects == [] then []
    else if effects[0].CopyToClipboard? then [effects[0].text] + Copies(effects[1..])
    else Copies(effects[1..])
  }

  /** Every copy command contributes its text, and nothing else contributes one. */
  lemma {:induction false} CopiesAreTheCopyCommands(effects: seq<Effect>)
    ensures forall i :: 0 <= i < |Copies(effects)| ==> CopyToClipboard(Copies(effects)[i]) in effects
    ensures forall e :: e in effects && e.CopyToClipboard? ==> e.text in Copies(effects)
    decreases |effects|
  {
    if effects != [] {
      CopiesAreTheCopyCommands(effects[1..]);
      assert effects == [effects[0]] + effects[1..];
    }
  }

  lemma {:induction false} CopiesAppend(a: seq<Effect>, b: seq<Effect>)
    ensures Copies(a + b) == Copies(a) + Copies(b)
    decreases |a|
  {
    if a == [] {
      assert a + b == b;
    } else {
      assert (a + b)[0] == a[0];
      assert (a + b)[1..] == a[1..] + b;
      CopiesAppend(a[1..], b);
      if a[0].CopyToClipboard? {
        assert Copies(a + b) == [a[0].text] + Copies(a[1..] + b);
        assert Copies(a) == [a[0].text] + Copies(a[1..]);
        assert [a[0].text] + (Copies(a[1..]) + Copies(b)) == ([a[0].text] + Copies(a[1..])) + Copies(b);
      } else {
        assert Copies(a + b) == Copies(a[1..] + b);
      }
    }
  }

  /** The two shapes of a collector run copy nothing, or the scanned text once. */
  lemma CopiesOfCollected(effects: seq<Effect>, state: ScannerUiState)
    requires effects == [TorchCommand(state.flashOn)] ||
             effects == [TorchCommand(state.flashOn), Vibrate, CopyToClipboard(state.lastScannedText)]
    ensures Copies(effects) == if |effects| == 1 then [] else [state.lastScannedText]
  {
    if |effects| == 1 {
      assert effects[1..] == [];
    } else {
      assert effects[1..] == [Vibrate, CopyToClipboard(state.lastScannedText)];
      assert effects[1..][1..] == [CopyToClipboard(state.lastScannedText)];
      assert effects[1..][1..][1..] == [];
      assert Copies(effects[1..][1..]) == [state.lastScannedText] + Copies([]);
      assert Copies(effects) == Copies(effects[1..]);
    }
  }

  /** The activity copies what the scanner shows, unless the scanner shows nothing. */
  predicate ClipboardInSync(s: Session) {
    s.vm.scanner.lastScannedText == "" || s.vm.scanner.lastScannedText == s.textOnClipboard
  }

  /** One event and the collector run it triggers. */
  function Step(s: Session, e: Event): (r: Stepped)
    ensures ClipboardInSync(s) ==> ClipboardInSync(r.session)
    ensures r.effects != [] ==> r.effects[0] == TorchCommand(r.session.vm.scanner.flashOn)
    ensures e.Started? || r.session.vm.scanner != s.vm.scanner ==> r.effects != []
    ensures !e.Started? && r.session.vm.scanner == s.vm.scanner ==>
              r.effects == [] && r.session.textOnClipboard == s.textOnClipboard
    ensures Copies(r.effects) == [] ==> r.session.textOnClipboard == s.textOnClipboard
    ensures Copies(r.effects) != [] ==>
              && Copies(r.effects) == [r.session.textOnClipboard]
              && r.session.textOnClipboard != s.textOnClipboard
              && r.session.textOnClipboard != ""
  {
    var vm' := Apply(s.vm, e);
    if e.Started? || vm'.scanner != s.vm.scanner then
      var c := CollectScannerState(s.textOnClipboard, vm'.scanner);
      CopiesOfCollected(c.effects, vm'.scanner);
      Stepped(Session(vm', c.textOnClipboard), c.effects)
    else
      Stepped(Session(vm', s.textOnClipboard), [])
  }

  /** A sequence of events, effects concatenated in order. */
  function Run(s: Session, events: seq<Event>): Stepped
    decreases |events|
  {
    if events == [] then Stepped(s, [])
    else
      var first := Step(s, events[0]);
      var rest := Run(first.session, events[1..]);
      Stepped(rest.session, first.effects + rest.effects)
  }

  /** No text is copied twice in a row, none is the text already on the
      clipboard when the run starts, and none is empty. */
  predicate FreshCopies(start: string, copies: seq<string>) {
    && (copies != [] ==> copies[0] != start)
    && (forall i :: 0 <= i < |copies| ==> copies[i] != "")
    && (forall i :: 0 < i < |copies| ==> copies[i] != copies[i - 1])
  }

  function LastOr(start: string, copies: seq<string>): string {
    if copies == [] then start else copies[|copies| - 1]
  }

  /** Over any run, the clipboard is written only with fresh texts, and the
      activity ends up remembering the last one it wrote. */
  lemma {:induction false} RunCopiesAreFresh(s: Session, events: seq<Event>)
    ensures FreshCopies(s.textOnClipboard, Copies(Run(s, events).effects))
    ensures Run(s, events).session.textOnClipboard == LastOr(s.textOnClipboard, Copies(Run(s, events).effects))
    decreases |events|
  {
    if events != [] {
      var first := Step(s, events[0]);
      var rest := Run(first.session, events[1..]);
      RunCopiesAreFresh(first.session, events[1..]);
      CopiesAppend(first.effects, rest.effects);
      var c1 := Copies(first.effects);
      var c2 := Copies(rest.effects);
      if c1 != [] {
        var all := c1 + c2;
        assert c1 == [first.session.textOnClipboard];
        assert FreshCopies(first.session.textOnClipboard, c2);
        forall i | 0 < i < |all|
          ensures all[i] != all[i - 1]
        {
          if i == 1 {
            assert all[1] == c2[0];
          } else {
            assert all[i] == c2[i - 1] && all[i - 1] == c2[i - 2];
          }
        }
        assert forall i :: 0 < i < |all| ==> all[i] == c2[i - 1];
      }
    }
  }

  /** The clipboard invariant holds throughout any run that starts in sync. */
  lemma {:induction false} RunKeepsClipboardInSync(s: Session, events: seq<Event>)
    requires ClipboardInSync(s)
    ensures ClipboardInSync(Run(s, events).session)
    decreases |events|
  {
    if events != [] {
      RunKeepsClipboardInSync(Step(s, events[0]).session, events[1..]);
    }
  }

  /** The same detection delivered twice: the second delivery changes nothing
      and emits nothing. */
  lemma RepeatedDetectionIsSilent(s: Session, text: string)
    ensures var once := Step(s, BarcodeDetected(Some(text))).session;
            && Step(once, BarcodeDetected(Some(text))).session == once
            && Step(once, BarcodeDetected(Some(text))).effects == []
  {
  }

  /** A new non-empty text that is not on the clipboard yet is vibrated and
      copied exactly once, after the torch command. */
  lemma NewDetectionIsCopied(s: Session, text: string)
    requires text != "" && text != s.vm.scanner.lastScannedText && text != s.textOnClipboard
    ensures Step(s, BarcodeDetected(Some(text))).effects ==
              [TorchCommand(s.vm.scanner.flashOn), Vibrate, CopyToClipboard(text)]
    ensures Step(s, BarcodeDetected(Some(text))).session.textOnClipboard == text
  {
  }

  /** Clearing does not forget what was copied: scanning the same text again
      shows it but neither vibrates nor copies. */
  lemma RescanAfterClearDoesNotCopy(s: Session, text: string)
    requires ClipboardInSync(s)
    requires s.vm.scanner.lastScannedText == text && text != ""
    ensures Run(s, [TextCleared, BarcodeDetected(Some(text))]).session.vm.scanner.lastScannedText == text
    ensures Copies(Run(s, [TextCleared, BarcodeDetected(Some(text))]).effects) == []
    ensures Vibrate !in Run(s, [TextCleared, BarcodeDetected(Some(text))]).effects
  {
    var cleared := Step(s, TextCleared);
    var rescanned := Step(cleared.session, BarcodeDetected(Some(text)));
    assert [TextCleared, BarcodeDetected(Some(text))][1..] == [BarcodeDetected(Some(text))];
    assert Run(cleared.session, [BarcodeDetected(Some(text))]).effects == rescanned.effects;
    CopiesAppend(cleared.effects, rescanned.effects);
  }

  /** Toggling the flash always reaches the camera, with the new setting. */
  lemma FlashToggleReachesTorch(s: Session)
    ensures var r := Step(s, FlashToggled);
            && r.effects != []
            && r.effects[0] == TorchCommand(!s.vm.scanner.flashOn)
  {
  }

  /** A picked image without a code: the error flag is raised, the text is
      emptied and nothing is copied. */
  lemma FailedImageScanCopiesNothing(s: Session)
    ensures var r := Step(s, ImageFileScanned(None));
            && r.session.vm.ui.showScanImageFileError
            && r.session.vm.scanner.lastScannedText == ""
            && Copies(r.effects) == []
  {
  }
}
