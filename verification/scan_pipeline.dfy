/** The scan handlers of App.tsx: the barcode path (product lookup, then the
    text analysis), the image path (a decoded barcode first, otherwise the
    vision analysis of the photo's base64 payload), saving a result into the
    capped history, and the two routes by which a photo reaches the image
    path. The lookup service, both model calls, barcode decoding of a file
    and the FileReader are oracles in a Services record; the clock is given
    as numbers. */
module ScanPipeline {
  import opened Util
  import opened Types
  import opened Text
  import opened Externals
  import opened ProductService
  import opened AiService
  import opened History
  import opened ScannerView

  /** What the outside world answers: the lookup response for a barcode,
      the model's reply to a text or image request, and what decoding a
      file finds. */
  datatype Services = Services(
    lookup: string -> LookupResponse,
    textModel: TextRequest -> ModelReply,
    imageModel: ImageRequest -> ModelReply,
    scanFile: File -> FileScan)

  datatype Tab = HomeTab | HistoryTab | ProfileTab | OtherTab

  /** The application state the handlers read and write. */
  datatype Session = Session(
    profile: UserProfile,
    history: seq<Product>,
    current: Option<ProductAnalysis>,
    scanning: bool,
    tab: Tab)

  /** The model calls made while handling a scan. */
  datatype ModelRequest = TextCall(text: TextRequest) | ImageCall(image: ImageRequest)

  /** The state a handler leaves, the alert it raises, if any, and the
      model calls it made, in order. */
  datatype Outcome = Outcome(session: Session, alert: Option<string>, requests: seq<ModelRequest>)

  const NotAnalyzedAlert := "Could not analyze this product. Please try a different one."
  const NotIdentifiedAlert := "Could not identify product from image. Please try a clearer photo."
  const ImageFailedAlert := "Failed to analyze image."

  /** The brand App substitutes when the lookup found nothing. */
  const GenericBrand := "Generic"

  /** The start-up state: the loaded profile, the stored history taken as
      it is (or none), nothing selected, the home tab. */
  function InitialSession(profile: UserProfile, storedHistory: Option<seq<Product>>): (s: Session)
    ensures s.history == (if storedHistory.Some? then storedHistory.value else [])
    ensures s.profile == profile && s.current.None? && !s.scanning && s.tab == HomeTab
  {
    Session(profile, storedHistory.GetOr([]), None, false, HomeTab)
  }

  /** The text request: the found product's identity with App's placeholders
      for a miss, and the profile's skin types. */
  function ProductQuery(found: Option<FoundProduct>, skinTypes: seq<SkinType>): (q: TextRequest)
    ensures found.None? ==> q == TextRequest(UnknownProduct, GenericBrand, "", SkinTypeNames(skinTypes))
    ensures found.Some? && found.value.name != "" ==> q.productName == found.value.name
    ensures found.Some? && found.value.brand != "" ==> q.brand == found.value.brand
    ensures found.Some? ==> q.ingredientsText == found.value.ingredientsText
    ensures q.productName != "" && q.brand != "" && q.skinTypes == SkinTypeNames(skinTypes)
  {
    var name := if found.Some? then Some(found.value.name) else None;
    var brand := if found.Some? then Some(found.value.brand) else None;
    var ingredients := if found.Some? then Some(found.value.ingredientsText) else None;
    TextRequest(OrDefault(name, UnknownProduct), OrDefault(brand, GenericBrand), OrDefault(ingredients, ""), SkinTypeNames(skinTypes))
  }

  /** saveAnalysisResult: the analysis becomes the current one and is
      recorded at the head of the history. */
  function SaveAnalysisResult(s: Session, id: string, analysis: ProductAnalysis, now: nat): (r: Session)
    ensures r.current == Some(analysis)
    ensures r.history == Push(NewEntry(id, analysis, now), s.history)
    ensures r.profile == s.profile && r.scanning == s.scanning && r.tab == s.tab
  {
    s.(current := Some(analysis), history := Push(NewEntry(id, analysis, now), s.history))
  }

  /** handleScanSuccess for a barcode; `savedAt` is the clock at saving. */
  function ScanByBarcode(svc: Services, s: Session, barcode: string, savedAt: nat): (o: Outcome)
    ensures !o.session.scanning && o.session.profile == s.profile && o.session.tab == s.tab
    ensures o.requests == [TextCall(ProductQuery(GetProductByBarcode(barcode, svc.lookup(barcode)), s.profile.skinTypes))]
    ensures o.alert.None? <==> AnalyzeReply(svc.textModel(o.requests[0].text)).Some?
    ensures o.alert.Some? ==> o.alert == Some(NotAnalyzedAlert) && o.session == s.(scanning := false)
    ensures o.alert.None? ==>
      o.session == SaveAnalysisResult(s.(scanning := false), barcode, AnalyzeReply(svc.textModel(o.requests[0].text)).value, savedAt)
  {
    var s1 := s.(scanning := false);
    var query := ProductQuery(GetProductByBarcode(barcode, svc.lookup(barcode)), s.profile.skinTypes);
    match AnalyzeReply(svc.textModel(query))
    case Some(analysis) => Outcome(SaveAnalysisResult(s1, barcode, analysis, savedAt), None, [TextCall(query)])
    case None => Outcome(s1, Some(NotAnalyzedAlert), [TextCall(query)])
  }

  /** A data URL with a base64 payload, as FileReader.readAsDataURL writes it
      (RFC 2397, section 3). */
  function DataUrl(mediaType: string, payload: string): string {
    "data:" + mediaType + ";base64," + payload
  }

  /** `url.split(',')[1]`: the text between the first and the second comma,
      undefined when there is no comma. */
  function Payload(url: string): (r: Option<string>)
    ensures r.None? <==> ',' !in url
    ensures r.Some? ==> ',' !in r.value
  {
    var parts := Split(url, ',');
    if |parts| >= 2 then Some(parts[1]) else None
  }

  /** The payload of a data URL whose media type and payload hold no comma
      comes back exactly. */
  lemma PayloadOfDataUrl(mediaType: string, payload: string)
    requires ',' !in mediaType && ',' !in payload
    ensures Payload(DataUrl(mediaType, payload)) == Some(payload)
  {
    var header := "data:" + mediaType + ";base64";
    assert ',' !in header;
    assert DataUrl(mediaType, payload) == Join([header, payload], ',');
    SplitJoin([header, payload], ',');
  }

  /** The payload is the segment right after the first comma. */
  lemma PayloadAfterFirstComma(head: string, tail: string)
    requires ',' !in head
    ensures Payload(head + [','] + tail) == Some(Split(tail, ',')[0])
    ensures Payload(head + [','] + tail).value <= tail
  {
    var url := head + [','] + tail;
    IndexOfAfterPrefix(head, ',', tail);
    assert url[..|head|] == head;
    assert url[|head| + 1..] == tail;
    assert Split(url, ',') == [head] + Split(tail, ',');
    SplitHeadPrefix(tail, ',');
  }

  lemma SplitHeadPrefix(s: string, sep: char)
    ensures Split(s, sep)[0] <= s
  {
  }

  /** The id of a result found from a photo: "IMAGE_" and the clock. */
  function ImageId(now: nat): (id: string)
    ensures |id| > 6 && id[..6] == "IMAGE_" && id[6..] == Decimal(now)
  {
    "IMAGE_" + Decimal(now)
  }

  /** handleImageUpload, given whether the hidden `app-file-scan-temp`
      element is in the document when the temporary scanner is created
      (creating one for a missing element throws). `idTime` is the clock
      when the id is made, `savedAt` the clock at saving. */
  function ImageUploadSteps(svc: Services, s: Session, file: File, idTime: nat, savedAt: nat, tempMounted: bool): (o: Outcome)
    ensures !o.session.scanning && o.session.profile == s.profile && o.session.tab == s.tab
    ensures !tempMounted ==> o == Outcome(s.(scanning := false), Some(ImageFailedAlert), [])
    ensures tempMounted && svc.scanFile(file).Decoded? ==>
      o == ScanByBarcode(svc, s.(scanning := false), svc.scanFile(file).text, savedAt)
    ensures tempMounted && svc.scanFile(file).NoBarcode? && file.dataUrl.None? ==>
      o == Outcome(s.(scanning := false), Some(ImageFailedAlert), [])
    ensures tempMounted && svc.scanFile(file).NoBarcode? && file.dataUrl.Some? ==>
      o.requests == [ImageCall(ImageRequest(Payload(file.dataUrl.value), file.mimeType, SkinTypeNames(s.profile.skinTypes)))]
    ensures tempMounted && svc.scanFile(file).NoBarcode? && file.dataUrl.Some? ==>
      var reply := AnalyzeReply(svc.imageModel(ImageRequest(Payload(file.dataUrl.value), file.mimeType, SkinTypeNames(s.profile.skinTypes))));
      (reply.None? ==> o.session == s.(scanning := false) && o.alert == Some(NotIdentifiedAlert)) &&
      (reply.Some? ==> o.alert.None? && o.session == SaveAnalysisResult(s.(scanning := false), ImageId(idTime), reply.value, savedAt))
  {
    var s1 := s.(scanning := false);
    if !tempMounted then Outcome(s1, Some(ImageFailedAlert), [])
    else
      match svc.scanFile(file)
      case Decoded(code) => ScanByBarcode(svc, s1, code, savedAt)
      case NoBarcode =>
        match file.dataUrl
        case None => Outcome(s1, Some(ImageFailedAlert), [])
        case Some(url) =>
          var request := ImageRequest(Payload(url), file.mimeType, SkinTypeNames(s.profile.skinTypes));
          match AnalyzeReply(svc.imageModel(request))
          case Some(analysis) => Outcome(SaveAnalysisResult(s1, ImageId(idTime), analysis, savedAt), None, [ImageCall(request)])
          case None => Outcome(s1, Some(NotIdentifiedAlert), [ImageCall(request)])
  }

  /** The home screen, which holds the hidden element, is what App renders. */
  predicate HomeRendered(s: Session) {
    !s.scanning && s.current.None? && s.tab == HomeTab
  }

  /** handleImageUpload as written: the element is there only when the
      session, as rendered when the handler starts, shows the home screen. */
  function HandleImageUploadAsWritten(svc: Services, s: Session, file: File, idTime: nat, savedAt: nat): (o: Outcome)
    ensures HomeRendered(s) ==> o == ImageUploadSteps(svc, s, file, idTime, savedAt, true)
    ensures !HomeRendered(s) ==> o.alert == Some(ImageFailedAlert) && o.requests == [] && o.session.history == s.history
  {
    ImageUploadSteps(svc, s, file, idTime, savedAt, HomeRendered(s))
  }

  /** handleImageUpload as intended: the temporary scanner always finds its
      element, wherever the photo came from. */
  function HandleImageUpload(svc: Services, s: Session, file: File, idTime: nat, savedAt: nat): (o: Outcome) {
    ImageUploadSteps(svc, s, file, idTime, savedAt, true)
  }

  /** Either handler, on any input: an alert leaves the history and the
      current analysis as they were; without one, exactly one entry is
      pushed, for the analysis that is now current. */
  lemma HistoryOnlyOnSuccess(svc: Services, s: Session, barcode: string, file: File, idTime: nat, savedAt: nat, tempMounted: bool)
    ensures var o := ScanByBarcode(svc, s, barcode, savedAt);
      (o.alert.Some? ==> o.session.history == s.history && o.session.current == s.current) &&
      (o.alert.None? ==> exists a :: o.session.current == Some(a) && o.session.history == Push(NewEntry(barcode, a, savedAt), s.history))
    ensures var o := ImageUploadSteps(svc, s, file, idTime, savedAt, tempMounted);
      (o.alert.Some? ==> o.session.history == s.history && o.session.current == s.current) &&
      (o.alert.None? ==> exists id, a :: o.session.current == Some(a) && o.session.history == Push(NewEntry(id, a, savedAt), s.history))
  {
    var o := ScanByBarcode(svc, s, barcode, savedAt);
    if o.alert.None? {
      var a := AnalyzeReply(svc.textModel(o.requests[0].text)).value;
      assert o.session.current == Some(a);
    }
    var p := ImageUploadSteps(svc, s, file, idTime, savedAt, tempMounted);
    if tempMounted && svc.scanFile(file).Decoded? {
      var code := svc.scanFile(file).text;
      var q := ScanByBarcode(svc, s.(scanning := false), code, savedAt);
      if q.alert.None? {
        var a := AnalyzeReply(svc.textModel(q.requests[0].text)).value;
        assert p.session.current == Some(a) && p.session.history == Push(NewEntry(code, a, savedAt), s.history);
      }
    } else if tempMounted && file.dataUrl.Some? {
      var request := ImageRequest(Payload(file.dataUrl.value), file.mimeType, SkinTypeNames(s.profile.skinTypes));
      if p.alert.None? {
        var a := AnalyzeReply(svc.imageModel(request)).value;
        assert p.session.current == Some(a) && p.session.history == Push(NewEntry(ImageId(idTime), a, savedAt), s.history);
      }
    }
  }

  /** On a lookup miss the text model is asked about "Unknown Product" by
      "Generic" with no ingredients and the profile's skin types; a found
      product, whose name and brand the lookup never leaves empty, is asked
      about by its own identity, so the "Generic" placeholder is used only on
      a miss. */
  lemma PlaceholderOnlyOnMiss(svc: Services, s: Session, barcode: string, savedAt: nat)
    ensures var found := GetProductByBarcode(barcode, svc.lookup(barcode));
      var q := ScanByBarcode(svc, s, barcode, savedAt).requests[0].text;
      (found.None? ==> q == TextRequest("Unknown Product", "Generic", "", SkinTypeNames(s.profile.skinTypes))) &&
      (found.Some? ==>
        q == TextRequest(found.value.name, found.value.brand, found.value.ingredientsText, SkinTypeNames(s.profile.skinTypes)))
  {
  }

  /** A successful barcode scan records an entry keyed by the barcode that
      carries the analysis verbatim, under the analysis's name and brand. */
  lemma BarcodeEntryRecorded(svc: Services, s: Session, barcode: string, savedAt: nat)
    requires ScanByBarcode(svc, s, barcode, savedAt).alert.None?
    ensures var o := ScanByBarcode(svc, s, barcode, savedAt);
      var e := o.session.history[0];
      e.barcode == barcode && o.session.current.Some? && e.analysis == o.session.current &&
      e.name == o.session.current.value.name && e.brand == o.session.current.value.brand &&
      e.timestamp == savedAt && |o.session.history| == Min(|s.history| + 1, HistoryLimit)
  {
  }

  /** A successful photo analysis made one vision call on the payload of
      the file's data URL, and records the analysis that call returned under
      "IMAGE_" and the clock. */
  lemma ImageEntryRecorded(svc: Services, s: Session, file: File, idTime: nat, savedAt: nat)
    requires svc.scanFile(file).NoBarcode?
    requires HandleImageUpload(svc, s, file, idTime, savedAt).alert.None?
    ensures var o := HandleImageUpload(svc, s, file, idTime, savedAt);
      var e := o.session.history[0];
      file.dataUrl.Some? &&
      o.requests == [ImageCall(ImageRequest(Payload(file.dataUrl.value), file.mimeType, SkinTypeNames(s.profile.skinTypes)))] &&
      o.session.current == AnalyzeReply(svc.imageModel(o.requests[0].image)) && o.session.current.Some? &&
      e.barcode == "IMAGE_" + Decimal(idTime) && e.analysis == o.session.current &&
      e.name == o.session.current.value.name && e.brand == o.session.current.value.brand &&
      e.timestamp == savedAt && |o.session.history| == Min(|s.history| + 1, HistoryLimit)
  {
  }

  /** A readable photo without a barcode whose vision reply yields no
      analysis raises the "could not identify" alert and saves nothing. */
  lemma ImageNotIdentified(svc: Services, s: Session, file: File, idTime: nat, savedAt: nat)
    requires svc.scanFile(file).NoBarcode? && file.dataUrl.Some?
    requires AnalyzeReply(svc.imageModel(ImageRequest(Payload(file.dataUrl.value), file.mimeType, SkinTypeNames(s.profile.skinTypes)))).None?
    ensures var o := HandleImageUpload(svc, s, file, idTime, savedAt);
      o.alert == Some(NotIdentifiedAlert) && o.session.history == s.history && o.session.current == s.current
  {
  }

  /** A photo that decodes to a barcode is handled exactly as a scan of
      that barcode, and the vision model is never asked. */
  lemma DecodedPhotoIsBarcodeScan(svc: Services, s: Session, file: File, idTime: nat, savedAt: nat)
    requires svc.scanFile(file).Decoded?
    ensures HandleImageUpload(svc, s, file, idTime, savedAt) == ScanByBarcode(svc, s, svc.scanFile(file).text, savedAt)
    ensures forall k :: 0 <= k < |HandleImageUpload(svc, s, file, idTime, savedAt).requests| ==>
      HandleImageUpload(svc, s, file, idTime, savedAt).requests[k].TextCall?
  {
    assert ScanByBarcode(svc, s.(scanning := false), svc.scanFile(file).text, savedAt) == ScanByBarcode(svc, s, svc.scanFile(file).text, savedAt);
  }

  /** The history never exceeds its limit, whatever the handlers do. */
  lemma HistoryStaysCapped(svc: Services, s: Session, barcode: string, file: File, idTime: nat, savedAt: nat, tempMounted: bool)
    requires |s.history| <= HistoryLimit
    ensures |ScanByBarcode(svc, s, barcode, savedAt).session.history| <= HistoryLimit
    ensures |ImageUploadSteps(svc, s, file, idTime, savedAt, tempMounted).session.history| <= HistoryLimit
  {
    HistoryOnlyOnSuccess(svc, s, barcode, file, idTime, savedAt, tempMounted);
  }

  /** What a scanner-screen callback does in App: a decoded code goes to
      the barcode handler, a file to the (intended) image handler. */
  function RunCallback(svc: Services, s: Session, cb: Callback, idTime: nat, savedAt: nat): (o: Outcome)
    ensures cb.ScanSuccess? ==> o == ScanByBarcode(svc, s, cb.decodedText, savedAt)
    ensures cb.ImageUpload? ==> o == HandleImageUpload(svc, s, cb.file, idTime, savedAt)
  {
    match cb
    case ScanSuccess(code) => ScanByBarcode(svc, s, code, savedAt)
    case ImageUpload(f) => HandleImageUpload(svc, s, f, idTime, savedAt)
  }

  /** The same callback under the handler as written. */
  function RunCallbackAsWritten(svc: Services, s: Session, cb: Callback, idTime: nat, savedAt: nat): (o: Outcome)
    ensures cb.ScanSuccess? ==> o == ScanByBarcode(svc, s, cb.decodedText, savedAt)
    ensures cb.ImageUpload? ==> o == HandleImageUploadAsWritten(svc, s, cb.file, idTime, savedAt)
  {
    match cb
    case ScanSuccess(code) => ScanByBarcode(svc, s, code, savedAt)
    case ImageUpload(f) => HandleImageUploadAsWritten(svc, s, f, idTime, savedAt)
  }

  /** As written, a readable photo without a barcode chosen from the scanner
      screen's gallery button never reaches the vision model: the scanner
      screen is still shown, the hidden element is absent, and the user sees
      "Failed to analyze image." with the history unchanged. */
  lemma GalleryFallbackFailsAsWritten(svc: Services, s: Session, st: ScannerState, file: File, idTime: nat, savedAt: nat)
    requires s.scanning
    requires svc.scanFile(file).NoBarcode?
    ensures var calls := HandleFileChange(st, Some(file), true, svc.scanFile(file)).calls;
      calls == [ImageUpload(file)] &&
      RunCallbackAsWritten(svc, s, calls[0], idTime, savedAt) ==
        Outcome(s.(scanning := false), Some(ImageFailedAlert), [])
  {
  }

  /** With the intended handler, the same photo is analysed exactly as if it
      had been uploaded with the scanner closed: one vision call on its
      payload. */
  lemma GalleryFallbackReachesVision(svc: Services, s: Session, st: ScannerState, file: File, idTime: nat, savedAt: nat)
    requires s.scanning
    requires svc.scanFile(file).NoBarcode? && file.dataUrl.Some?
    ensures var calls := HandleFileChange(st, Some(file), true, svc.scanFile(file)).calls;
      calls == [ImageUpload(file)] &&
      RunCallback(svc, s, calls[0], idTime, savedAt).requests ==
        [ImageCall(ImageRequest(Payload(file.dataUrl.value), file.mimeType, SkinTypeNames(s.profile.skinTypes)))] &&
      RunCallback(svc, s, calls[0], idTime, savedAt) == HandleImageUpload(svc, s.(scanning := false), file, idTime, savedAt)
  {
  }

  /** A photo uploaded from the home screen is unaffected by the defect. */
  lemma HomeUploadUnaffected(svc: Services, s: Session, file: File, idTime: nat, savedAt: nat)
    requires HomeRendered(s)
    ensures HandleImageUploadAsWritten(svc, s, file, idTime, savedAt) == HandleImageUpload(svc, s, file, idTime, savedAt)
  {
  }

  /** The home screen's file input, which exists only while the home screen
      is rendered: nothing happens without a file, and a file goes to the
      handler as written, which there behaves as intended. */
  function HomeFileChange(svc: Services, s: Session, file: Option<File>, idTime: nat, savedAt: nat): (o: Outcome)
    requires HomeRendered(s)
    ensures file.None? ==> o == Outcome(s, None, [])
    ensures file.Some? ==> o == HandleImageUploadAsWritten(svc, s, file.value, idTime, savedAt)
    ensures file.Some? ==> o == HandleImageUpload(svc, s, file.value, idTime, savedAt)
  {
    match file
    case None => Outcome(s, None, [])
    case Some(f) =>
      HomeUploadUnaffected(svc, s, f, idTime, savedAt);
      HandleImageUploadAsWritten(svc, s, f, idTime, savedAt)
  }

  /** Clicking a history entry shows its stored analysis. */
  function OpenEntry(s: Session, k: nat): (r: Session)
    requires k < |s.history|
    ensures r.current == SelectEntry(s.history[k])
    ensures r.(current := s.current) == s
  {
    s.(current := s.history[k].analysis)
  }

  /** Opening the entry a successful scan just saved shows that analysis. */
  lemma OpenSavedEntry(svc: Services, s: Session, barcode: string, savedAt: nat)
    requires ScanByBarcode(svc, s, barcode, savedAt).alert.None?
    ensures var o := ScanByBarcode(svc, s, barcode, savedAt);
      OpenEntry(o.session, 0) == o.session
  {
  }
}
