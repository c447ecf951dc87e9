/** The camera screen (components/ScannerView.tsx): starting the camera and
    classifying a failure, the torch button, and the gallery button's
    file handling, which hands its result to one of the two callbacks the
    application passes in. The barcode library and the camera are outside
    the model: what they do is given as parameters. */
module ScannerView {
  import opened Util
  import opened Text
  import opened Externals

  /** What a failed camera start rejects with: its `name` property, if it
      has one, and its string form. */
  datatype CameraError = CameraError(name: Option<string>, text: string)

  /** The scanner object held in scannerRef, and whether it is scanning. */
  datatype Camera = Camera(isScanning: bool)

  datatype ScannerState = ScannerState(
    torchOn: bool,
    permissionError: Option<string>,
    isInitializing: bool,
    isProcessingFile: bool,
    camera: Option<Camera>)

  /** The state on mount, before the camera has been started. */
  const Mounted := ScannerState(false, None, true, false, None)

  const DeniedMessage := "Camera access was denied. Please enable camera permissions in your browser settings to scan products."
  const UnavailableMessage := "Could not access the camera. Please make sure no other app is using it and try again."

  predicate Scanning(st: ScannerState) {
    st.camera.Some? && st.camera.value.isScanning
  }

  /** A failure counts as a permission denial when its name is
      NotAllowedError or its text mentions "Permission denied". */
  predicate IsDenied(err: CameraError) {
    err.name == Some("NotAllowedError") || Contains(err.text, "Permission denied")
  }

  /** The message shown for a failed start: the denial message exactly for
      denials, the generic one otherwise. */
  function ErrorMessage(err: CameraError): (m: string)
    ensures m == DeniedMessage <==> IsDenied(err)
    ensures m == UnavailableMessage <==> !IsDenied(err)
  {
    if IsDenied(err) then DeniedMessage else UnavailableMessage
  }

  /** startScanner. A scanner object is created only when none is held;
      `constructError` is what creating it throws, if anything, and
      `startError` what starting the camera rejects with, if anything.
      Either failure ends in the same catch block. */
  function StartScanner(st: ScannerState, constructError: Option<CameraError>, startError: Option<CameraError>): (r: ScannerState)
    ensures !r.isInitializing
    ensures r.torchOn == st.torchOn && r.isProcessingFile == st.isProcessingFile
    ensures r.permissionError.None? <==> Scanning(r)
    ensures Scanning(r) <==> (st.camera.Some? || constructError.None?) && startError.None?
    ensures st.camera.Some? ==> r.camera.Some?
    ensures st.camera.None? && constructError.Some? ==>
      r.camera.None? && r.permissionError == Some(ErrorMessage(constructError.value))
    ensures (st.camera.Some? || constructError.None?) && startError.Some? ==>
      r.camera == Some(Camera(false)) && r.permissionError == Some(ErrorMessage(startError.value))
  {
    if st.camera.None? && constructError.Some? then
      st.(isInitializing := false, permissionError := Some(ErrorMessage(constructError.value)))
    else if startError.Some? then
      st.(isInitializing := false, permissionError := Some(ErrorMessage(startError.value)), camera := Some(Camera(false)))
    else
      st.(isInitializing := false, permissionError := None, camera := Some(Camera(true)))
  }

  /** The torch button is disabled while there is an error or the camera is
      still initialising. */
  predicate TorchEnabled(st: ScannerState) {
    st.permissionError.None? && !st.isInitializing
  }

  /** toggleTorch; `applied` is whether the camera accepted the constraint.
      The flag flips only when a scanning camera accepted it. */
  function ToggleTorch(st: ScannerState, applied: bool): (r: ScannerState)
    ensures r.torchOn != st.torchOn <==> Scanning(st) && applied
    ensures r.(torchOn := st.torchOn) == st
  {
    if Scanning(st) && applied then st.(torchOn := !st.torchOn) else st
  }

  /** The effect's cleanup stops the camera only when it is scanning. */
  function StopOnTeardown(st: ScannerState): (stopCalled: bool) {
    Scanning(st)
  }

  /** The two callbacks the screen can invoke. */
  datatype Callback = ScanSuccess(decodedText: string) | ImageUpload(file: File)

  datatype FileChange = FileChange(state: ScannerState, calls: seq<Callback>, inputReset: bool)

  /** handleFileChange. `file` is the first chosen file, if any;
      `constructed` is whether creating the temporary file scanner succeeds
      and `scan` what scanning the file finds. Clearing the temporary
      scanner does not throw for a scanner that never started. */
  function HandleFileChange(st: ScannerState, file: Option<File>, constructed: bool, scan: FileScan): (r: FileChange)
    ensures file.None? ==> r == FileChange(st, [], false)
    ensures file.Some? ==> r.inputReset && r.state == st.(isProcessingFile := false)
    ensures file.Some? ==> |r.calls| == 1
    ensures file.Some? && constructed && scan.Decoded? ==> r.calls == [ScanSuccess(scan.text)]
    ensures file.Some? && !(constructed && scan.Decoded?) ==> r.calls == [ImageUpload(file.value)]
  {
    if file.None? then FileChange(st, [], false)
    else
      var calls :=
        if !constructed then [ImageUpload(file.value)]
        else match scan
          case Decoded(text) => [ScanSuccess(text)]
          case NoBarcode => [ImageUpload(file.value)];
      FileChange(st.(isProcessingFile := false), calls, true)
  }

  /** What the user can do on the camera screen. Retry is the button of the
      error overlay; its outcome is given as in StartScanner. */
  datatype Event =
    | Retry(constructError: Option<CameraError>, startError: Option<CameraError>)
    | Torch(applied: bool)
    | PickFile(file: Option<File>, constructed: bool, scan: FileScan)

  /** Retry is only on screen with an error, the torch only when enabled. */
  predicate EventEnabled(st: ScannerState, ev: Event) {
    match ev
    case Retry(_, _) => st.permissionError.Some?
    case Torch(_) => TorchEnabled(st)
    case PickFile(_, _, _) => true
  }

  function Handle(st: ScannerState, ev: Event): ScannerState {
    match ev
    case Retry(c, s) => StartScanner(st, c, s)
    case Torch(applied) => ToggleTorch(st, applied)
    case PickFile(f, c, s) => HandleFileChange(st, f, c, s).state
  }

  /** Between events: the torch is only on while the camera scans, an error
      is only shown while it does not, and no file is being processed. */
  predicate ScreenInvariant(st: ScannerState) {
    (st.torchOn ==> Scanning(st)) &&
    (st.permissionError.Some? ==> !Scanning(st)) &&
    !st.isProcessingFile
  }

  /** The first start after mounting establishes the invariant. */
  lemma MountEstablishes(constructError: Option<CameraError>, startError: Option<CameraError>)
    ensures ScreenInvariant(StartScanner(Mounted, constructError, startError))
    ensures TorchEnabled(StartScanner(Mounted, constructError, startError)) <==> constructError.None? && startError.None?
  {
  }

  /** Every enabled event keeps the invariant. */
  lemma HandleKeepsInvariant(st: ScannerState, ev: Event)
    requires ScreenInvariant(st) && EventEnabled(st, ev)
    ensures ScreenInvariant(Handle(st, ev))
  {
  }

  function HandleAll(st: ScannerState, evs: seq<Event>): ScannerState
    decreases |evs|
  {
    if evs == [] then st
    else HandleAll(if EventEnabled(st, evs[0]) then Handle(st, evs[0]) else st, evs[1..])
  }

  /** From mount on, the torch is never on without a scanning camera, and
      the cleanup then stops the camera whenever the torch is on. */
  lemma {:induction false} TorchOnlyWhileScanning(st: ScannerState, evs: seq<Event>)
    requires ScreenInvariant(st)
    ensures ScreenInvariant(HandleAll(st, evs))
    ensures HandleAll(st, evs).torchOn ==> StopOnTeardown(HandleAll(st, evs))
    decreases |evs|
  {
    if evs != [] {
      var next := if EventEnabled(st, evs[0]) then Handle(st, evs[0]) else st;
      if EventEnabled(st, evs[0]) {
        HandleKeepsInvariant(st, evs[0]);
      }
      TorchOnlyWhileScanning(next, evs[1..]);
    }
  }
}
