/** The product entry form: typed SKU, name and brand, a rack code filled
    in by scanning its QR label, and up to three photos taken with the
    camera. Camera frames and decoded QR text are opaque strings.
 */
module ProductForm {
  import opened Wrappers
  import opened Forms

  const MaxPhotos: nat := 3

  const TooManyPhotos: string := "Máximo 3 fotos permitidas."
  const Incomplete: string := "Por favor, complete todos los campos y capture al menos una foto."
  const NoQrFound: string := "No se ha detectado un código QR, intenta ajustar la cámara."
  const NotFoundException: string := "NotFoundException"

  /** The form fields; `proveedor` has no input wired to it and stays as
      initialised. */
  datatype Fields = Fields(sku: string, nombreProducto: string, marca: string, rack: string, proveedor: string, fotos: seq<string>)

  /** The component state besides the fields: whether the QR reader is
      shown, the last decoded text, the two messages and whether the camera
      (and so the webcam reference) is active. */
  datatype State = State(
    form: Fields,
    scanning: bool,
    qrData: string,
    errorMsg: string,
    photoError: string,
    cameraActive: bool)

  const EmptyFields: Fields := Fields("", "", "", "", "", [])

  const Initial: State := State(EmptyFields, false, "", "", "", false)

  /** The document written to `productos`. */
  datatype ProductDoc = ProductDoc(sku: string, nombreProducto: string, marca: string, rack: string, proveedor: string, fotos: seq<string>)

  /** At most three photos are ever held. */
  predicate PhotoCap(s: State) {
    |s.form.fotos| <= MaxPhotos
  }

  /** `capturePhoto` with the camera's current frame `shot`. */
  function Capture(s: State, shot: string): (r: State)
    ensures !s.cameraActive ==> r == s
    ensures s.cameraActive && |s.form.fotos| >= MaxPhotos ==> r == s.(photoError := TooManyPhotos)
    ensures s.cameraActive && |s.form.fotos| < MaxPhotos ==>
              && r.form.fotos == s.form.fotos + [shot]
              && r.photoError == ""
              && r.form.(fotos := s.form.fotos) == s.form
    ensures r.scanning == s.scanning && r.qrData == s.qrData && r.errorMsg == s.errorMsg
  {
    if !s.cameraActive then s
    else if |s.form.fotos| >= MaxPhotos then s.(photoError := TooManyPhotos)
    else s.(form := s.form.(fotos := s.form.fotos + [shot]), photoError := "")
  }

  /** Capturing keeps the photo cap, and photos already taken keep their
      place. */
  lemma CaptureKeepsCap(s: State, shot: string)
    requires PhotoCap(s)
    ensures PhotoCap(Capture(s, shot))
    ensures Capture(s, shot).form.fotos[..|s.form.fotos|] == s.form.fotos
  {
  }

  /** Capturing four times from no photos leaves three, and the cap
      message. */
  lemma FourthPhotoRefused(s: State, a: string, b: string, c: string, d: string)
    requires s.cameraActive && s.form.fotos == []
    ensures Capture(Capture(Capture(Capture(s, a), b), c), d).form.fotos == [a, b, c]
    ensures Capture(Capture(Capture(Capture(s, a), b), c), d).photoError == TooManyPhotos
  {
  }

  /** The inputs wired to `handleInputChange`, by `name`. */
  datatype Input = Sku | NombreProducto | Marca

  function SetInput(s: State, name: Input, value: string): (r: State)
    ensures name == Sku ==> r.form == s.form.(sku := value)
    ensures name == NombreProducto ==> r.form == s.form.(nombreProducto := value)
    ensures name == Marca ==> r.form == s.form.(marca := value)
    ensures r.(form := s.form) == s
  {
    match name
    case Sku => s.(form := s.form.(sku := value))
    case NombreProducto => s.(form := s.form.(nombreProducto := value))
    case Marca => s.(form := s.form.(marca := value))
  }

  /** The scan button: clear the message and show the reader. */
  function StartScan(s: State): (r: State)
    ensures r.scanning && r.errorMsg == ""
    ensures r.form == s.form && r.qrData == s.qrData && r.photoError == s.photoError
    ensures r.cameraActive == s.cameraActive
  {
    s.(errorMsg := "", scanning := true)
  }

  /** Pressing the scan button and then decoding a label fills the rack
      with the decoded text, hides the reader and shows no hint. */
  lemma ScanFillsRack(s: State, text: string)
    ensures var r := OnQrResult(StartScan(s), Some(text), None);
            && r.form == s.form.(rack := text) && r.qrData == text
            && !r.scanning && r.errorMsg == ""
  {
  }

  /** The camera button. */
  function ActivateCamera(s: State): (r: State)
    ensures r.cameraActive && r.(cameraActive := s.cameraActive) == s
  {
    s.(cameraActive := true)
  }

  /** A capture before the camera is turned on takes nothing; after it, a
      capture below the cap appends the frame. */
  lemma CameraNeededForCapture(s: State, shot: string)
    requires !s.cameraActive && |s.form.fotos| < MaxPhotos
    ensures Capture(s, shot) == s
    ensures Capture(ActivateCamera(s), shot).form.fotos == s.form.fotos + [shot]
  {
  }

  /** The reader's `onResult(result, error)`: a decoded text fills the rack
      field and stops scanning; a not-found error sets the hint message.
      Both are checked, independently. */
  function OnQrResult(s: State, result: Option<string>, errorName: Option<string>): (r: State)
    ensures result.Some? ==> r.qrData == result.value && r.form == s.form.(rack := result.value) && !r.scanning
    ensures result.None? ==> r.qrData == s.qrData && r.form == s.form && r.scanning == s.scanning
    ensures errorName == Some(NotFoundException) ==> r.errorMsg == NoQrFound
    ensures errorName != Some(NotFoundException) ==> r.errorMsg == s.errorMsg
    ensures r.photoError == s.photoError && r.cameraActive == s.cameraActive
  {
    var s1 := if result.Some? then s.(qrData := result.value, form := s.form.(rack := result.value), scanning := false) else s;
    if errorName == Some(NotFoundException) then s1.(errorMsg := NoQrFound) else s1
  }

  /** The submit check: SKU, name, brand and rack non-empty (not trimmed)
      and at least one photo; the supplier is optional. */
  predicate Complete(f: Fields) {
    f.sku != "" && f.nombreProducto != "" && f.marca != "" && f.rack != "" && |f.fotos| > 0
  }

  /** `handleSubmit`: an incomplete form sets the message and writes
      nothing; a complete one writes every field; a completed write resets
      the fields and the decoded text. */
  function Submit(s: State, outcome: WriteOutcome): (r: Submitted<State, ProductDoc>)
    ensures !Complete(s.form) ==> r.write.None? && r.form == s.(errorMsg := Incomplete)
    ensures Complete(s.form) ==>
              r.write == Some(ProductDoc(s.form.sku, s.form.nombreProducto, s.form.marca, s.form.rack, s.form.proveedor, s.form.fotos))
    ensures Complete(s.form) && outcome == Written ==> r.form == s.(form := EmptyFields, qrData := "")
    ensures Complete(s.form) && outcome.WriteFailed? ==> r.form == s
  {
    if !Complete(s.form) then Submitted(s.(errorMsg := Incomplete), None)
    else
      var f := s.form;
      var doc := ProductDoc(f.sku, f.nombreProducto, f.marca, f.rack, f.proveedor, f.fotos);
      Submitted(if outcome == Written then s.(form := EmptyFields, qrData := "") else s, Some(doc))
  }

  /** A written product has one to three photos and a scanned rack. */
  lemma WrittenProductComplete(s: State, outcome: WriteOutcome)
    requires PhotoCap(s)
    requires Submit(s, outcome).write.Some?
    ensures 0 < |Submit(s, outcome).write.value.fotos| <= MaxPhotos
    ensures Submit(s, outcome).write.value.rack != ""
  {
  }

  /** A whitespace-only SKU passes the submit check: unlike the other
      forms, this one does not trim. */
  lemma BlankSkuAccepted(s: State)
    requires s.form.sku == " " && s.form.nombreProducto != "" && s.form.marca != "" && s.form.rack != ""
    requires |s.form.fotos| > 0
    ensures Submit(s, Written).write.Some?
  {
  }

  /** The rack can only come from a scan: typing never changes it. */
  lemma TypingLeavesRack(s: State, name: Input, value: string)
    ensures SetInput(s, name, value).form.rack == s.form.rack
  {
  }

  /** Every transition keeps at most three photos. */
  lemma PhotoCapInvariant(s: State, shot: string, name: Input, value: string,
                          result: Option<string>, errorName: Option<string>, outcome: WriteOutcome)
    requires PhotoCap(s)
    ensures PhotoCap(Initial)
    ensures PhotoCap(Capture(s, shot))
    ensures PhotoCap(SetInput(s, name, value))
    ensures PhotoCap(StartScan(s)) && PhotoCap(ActivateCamera(s))
    ensures PhotoCap(OnQrResult(s, result, errorName))
    ensures PhotoCap(Submit(s, outcome).form)
  {
    CaptureKeepsCap(s, shot);
    assert SetInput(s, name, value).form.fotos == s.form.fotos;
    assert OnQrResult(s, result, errorName).form.fotos == s.form.fotos;
  }
}
