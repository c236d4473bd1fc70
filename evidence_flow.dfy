/**
 * The loan-evidence camera screen as a state machine. A `Session` is a
 * snapshot of the screen's state variables plus the log of what the screen
 * has done to the outside world (alerts shown, gallery saves, uploads,
 * submissions). Each handler of the screen has a step function here that
 * says what the state and the log are after it runs, given what each
 * awaited platform call settled with. The class in module EvidenceCamera
 * implements the handlers step by step and is proved against these functions.
 *
 * Handlers run one after another. Within one handler, state reads see the
 * values the handler started with (React closures), so a step function
 * reads its input session, never its own intermediate updates.
 */
module EvidenceFlow {
  import opened Js
  import opened EvidenceRecord

  /** An `Alert.alert(title, message)`. */
  datatype Notice = Notice(title: string, message: string)

  const CameraError := Notice("Camera error", "Unable to capture photo. Please try again.")
  const LocationNeeded := Notice("Location needed", "Grant location access to embed GPS on the photo.")
  const GalleryLimited := Notice("Gallery access limited",
    "Saving captures to the device gallery is only available in a development build. Evidence uploads will continue.")
  const UploadComplete := Notice("Upload complete", "Evidence uploaded successfully.")
  const GenericUploadFailure := "Could not upload the evidence. Please retry."

  /** The message of a failed upload: the error's own message for an `Error`, else the generic retry text. */
  function FailureMessage(e: Thrown): string {
    match e
    case ErrorObject(message) => message
    case OtherValue => GenericUploadFailure
  }

  function UploadFailed(e: Thrown): Notice {
    Notice("Upload failed", FailureMessage(e))
  }

  /** What the screen has done outside itself. */
  datatype Effect =
    | Alerted(notice: Notice)
    | SavedToGallery(uri: string)
    | Stored(path: string, fileUri: string, contentType: string)
    | Submitted(record: EvidenceSubmission)

  /** The screen's state variables, and the log of effects so far. */
  datatype Session = Session(
    hasCameraPermission: Option<bool>,
    hasMediaPermission: Option<bool>,
    hasLocationPermission: Option<bool>,
    photoUri: Option<string>,
    isCapturing: bool,
    isUploading: bool,
    location: Option<Fix>,
    effects: seq<Effect>)

  const InitialSession := Session(None, None, None, None, false, false, None, [])

  /** A session after a step, with the value the step returns. */
  datatype Step<T> = Step(session: Session, value: T)

  function Alert(s: Session, n: Notice): Session {
    s.(effects := s.effects + [Alerted(n)])
  }

  /** A photo uri the screen holds is never the empty string. */
  predicate UriWellFormed(s: Session) {
    s.photoUri.Some? ==> s.photoUri.value != ""
  }

  // ---------------------------------------------------------------------
  // What is on screen

  datatype GpsBanner = GpsLock(fix: Fix) | LocationPermissionRequired | FetchingGps

  datatype Screen =
    | Blank
    | PermissionPrompt
    | CameraView(captureEnabled: bool, gps: GpsBanner)
    | Preview(uri: string, actionsEnabled: bool, confirmLabel: string)

  /**
   * The screen for a session: nothing until the camera permission is known,
   * a permission prompt when it is denied, otherwise the camera or, exactly
   * when a photo is held, its preview. Capture is disabled while a capture
   * is in flight, Retake and Confirm while an upload is.
   */
  function ScreenOf(s: Session): (v: Screen)
    ensures v.Blank? <==> s.hasCameraPermission.None?
    ensures v.PermissionPrompt? <==> s.hasCameraPermission == Some(false)
    ensures s.hasCameraPermission == Some(true) ==> (v.Preview? <==> Truthy(s.photoUri))
    ensures v.Preview? ==> Truthy(s.photoUri) && v.uri == s.photoUri.value
    ensures v.Preview? ==> (v.actionsEnabled <==> !s.isUploading)
    ensures v.CameraView? ==> (v.captureEnabled <==> !s.isCapturing)
    ensures v.CameraView? ==> (v.gps.GpsLock? <==> s.location.Some?)
    ensures v.CameraView? && s.location.Some? ==> v.gps == GpsLock(s.location.value)
    ensures v.CameraView? && s.location.None? ==>
              v.gps == (if s.hasLocationPermission == Some(false) then LocationPermissionRequired else FetchingGps)
  {
    if s.hasCameraPermission.None? then Blank
    else if !s.hasCameraPermission.value then PermissionPrompt
    else if !Truthy(s.photoUri) then
      CameraView(!s.isCapturing,
        if s.location.Some? then GpsLock(s.location.value)
        else if s.hasLocationPermission == Some(false) then LocationPermissionRequired
        else FetchingGps)
    else Preview(s.photoUri.value, !s.isUploading, if s.isUploading then "Uploading…" else "Confirm")
  }

  /** The camera's ref is attached exactly when the camera view is rendered. */
  predicate CameraMounted(s: Session) {
    ScreenOf(s).CameraView?
  }

  // ---------------------------------------------------------------------
  // Permissions

  /**
   * The start-up effect: camera permission, then media permission, then
   * location permission and, if granted, one location fix. A call that
   * throws ends the sequence there.
   */
  function StartupStep(s: Session, camera: Outcome<bool>, media: Outcome<bool>,
                       locationRequest: Outcome<bool>, position: Outcome<Fix>): (r: Session)
    ensures camera.Throws? ==> r == s
    ensures camera.Returns? ==> r.hasCameraPermission == Some(camera.value)
    ensures camera.Returns? ==> r.hasMediaPermission == Some(media == Returns(true))
    ensures r.effects == s.effects + (if camera.Returns? && media.Throws? then [Alerted(GalleryLimited)] else [])
    ensures camera.Returns? && media.Throws? ==> r.hasMediaPermission == Some(false) && Alerted(GalleryLimited) in r.effects
    ensures camera.Returns? && locationRequest.Returns? ==> r.hasLocationPermission == Some(locationRequest.value)
    ensures camera.Returns? && locationRequest.Throws? ==> r.hasLocationPermission == s.hasLocationPermission
    ensures camera.Returns? && locationRequest == Returns(true) && position.Returns? ==> r.location == Some(position.value)
    ensures r.location != s.location ==>
              camera.Returns? && locationRequest == Returns(true) && position.Returns? && r.location == Some(position.value)
    ensures r.photoUri == s.photoUri && r.isCapturing == s.isCapturing && r.isUploading == s.isUploading
  {
    match camera
    case Throws(_) => s
    case Returns(granted) =>
      var withMedia := MediaPermissionStep(s.(hasCameraPermission := Some(granted)), media).session;
      match locationRequest
      case Throws(_) => withMedia
      case Returns(locationGranted) =>
        var asked := withMedia.(hasLocationPermission := Some(locationGranted));
        if !locationGranted then asked
        else
          match position
          case Throws(_) => asked
          case Returns(fix) => asked.(location := Some(fix))
  }

  /** The "Grant Permission" button: asks for the camera again. */
  function CameraPermissionStep(s: Session, reply: Outcome<bool>): (r: Session)
    ensures reply.Returns? ==> r == s.(hasCameraPermission := Some(reply.value))
    ensures reply.Throws? ==> r == s
  {
    if reply.Returns? then s.(hasCameraPermission := Some(reply.value)) else s
  }

  /**
   * `requestMediaPermission`: it never throws. A platform error counts as a
   * denial and shows the "Gallery access limited" notice.
   */
  function MediaPermissionStep(s: Session, reply: Outcome<bool>): (r: Step<bool>)
    ensures r.value <==> reply == Returns(true)
    ensures r.session.hasMediaPermission == Some(r.value)
    ensures r.session.effects == s.effects + (if reply.Throws? then [Alerted(GalleryLimited)] else [])
    ensures r.session.(hasMediaPermission := s.hasMediaPermission, effects := s.effects) == s
  {
    match reply
    case Returns(granted) => Step(s.(hasMediaPermission := Some(granted)), granted)
    case Throws(_) => Step(Alert(s, GalleryLimited).(hasMediaPermission := Some(false)), false)
  }

  /**
   * `saveToGalleryIfAllowed(uri)`, with `granted` the media flag the calling
   * handler saw: it saves only when that flag is true, and a failed save is
   * swallowed.
   */
  function GalleryStep(s: Session, granted: Option<bool>, uri: string, reply: Outcome<()>): (r: Session)
    ensures r.(effects := s.effects) == s
    ensures r.effects == s.effects + (if granted == Some(true) && reply.Returns? then [SavedToGallery(uri)] else [])
  {
    if granted != Some(true) then s
    else if reply.Throws? then s
    else s.(effects := s.effects + [SavedToGallery(uri)])
  }

  /**
   * `ensureLocation`: asks for location permission again only when the flag
   * is exactly false, and then fetches a fix. It yields no fix (null)
   * exactly when that renewed request is denied; a throwing call propagates.
   */
  function LocationStep(s: Session, request: Outcome<bool>, position: Outcome<Fix>): (r: Step<Outcome<Option<Fix>>>)
    ensures r.value == Returns(None) <==> s.hasLocationPermission == Some(false) && request == Returns(false)
    ensures s.hasLocationPermission != Some(false) ==> r.session.hasLocationPermission == s.hasLocationPermission
    ensures s.hasLocationPermission == Some(false) && request.Returns? ==> r.session.hasLocationPermission == Some(request.value)
    ensures s.hasLocationPermission == Some(false) && request.Throws? ==> r.session.hasLocationPermission == s.hasLocationPermission
    ensures (r.value.Returns? && r.value.value.Some?) <==>
              position.Returns? && (s.hasLocationPermission != Some(false) || request == Returns(true))
    ensures r.value.Returns? && r.value.value.Some? ==>
              r.value.value.value == position.value && r.session.location == Some(position.value)
    ensures !(r.value.Returns? && r.value.value.Some?) ==> r.session.location == s.location
    ensures r.session.effects == s.effects + (if r.value == Returns(None) then [Alerted(LocationNeeded)] else [])
    ensures r.session.(hasLocationPermission := s.hasLocationPermission, location := s.location, effects := s.effects) == s
  {
    if s.hasLocationPermission == Some(false) then
      match request
      case Throws(e) => Step(s, Throws(e))
      case Returns(granted) =>
        var asked := s.(hasLocationPermission := Some(granted));
        if !granted then Step(Alert(asked, LocationNeeded), Returns(None))
        else FetchPosition(asked, position)
    else FetchPosition(s, position)
  }

  /** `getCurrentPositionAsync` and `setLocation`. */
  function FetchPosition(s: Session, position: Outcome<Fix>): Step<Outcome<Option<Fix>>> {
    match position
    case Throws(e) => Step(s, Throws(e))
    case Returns(fix) => Step(s.(location := Some(fix)), Returns(Some(fix)))
  }

  // ---------------------------------------------------------------------
  // Capture and retake

  /**
   * `handleCapture`. Nothing happens while a capture is in flight or when
   * the camera is not mounted. Otherwise the photo is taken; a truthy uri is
   * kept at once, saved to the gallery if the media flag allows, and a fix
   * is fetched. Any throw shows "Camera error" without undoing what was
   * already updated. The in-flight flag is false again afterwards.
   */
  function CaptureStep(s: Session, picture: Outcome<Option<string>>, gallerySave: Outcome<()>,
                       locationRequest: Outcome<bool>, position: Outcome<Fix>): (r: Session)
    ensures !CameraMounted(s) || s.isCapturing ==> r == s
    ensures CameraMounted(s) && !s.isCapturing ==> !r.isCapturing
    ensures CameraMounted(s) && !s.isCapturing && picture.Throws? ==> r == Alert(s, CameraError)
    ensures picture.Returns? && !Truthy(picture.value) ==> r == s
    ensures CameraMounted(s) && !s.isCapturing && picture.Returns? && Truthy(picture.value) ==>
              r.photoUri == picture.value
    ensures picture.Throws? ==> r.photoUri == s.photoUri
    ensures r.hasCameraPermission == s.hasCameraPermission && r.hasMediaPermission == s.hasMediaPermission
    ensures r.isUploading == s.isUploading
    ensures UriWellFormed(s) ==> UriWellFormed(r)
    ensures CameraMounted(s) && !s.isCapturing && picture.Returns? && Truthy(picture.value) ==>
              var l := LocationStep(s, locationRequest, position);
              r.location == l.session.location && r.hasLocationPermission == l.session.hasLocationPermission &&
              r.effects == s.effects
                + (if s.hasMediaPermission == Some(true) && gallerySave.Returns? then [SavedToGallery(picture.value.value)] else [])
                + (if l.value == Returns(None) then [Alerted(LocationNeeded)] else [])
                + (if l.value.Throws? then [Alerted(CameraError)] else [])
  {
    if !CameraMounted(s) || s.isCapturing then s
    else
      match picture
      case Throws(_) => Alert(s, CameraError)
      case Returns(uri) =>
        if !Truthy(uri) then s
        else
          var held := GalleryStep(s.(photoUri := uri), s.hasMediaPermission, uri.value, gallerySave);
          var located := LocationStep(held, locationRequest, position);
          if located.value.Throws? then Alert(located.session, CameraError) else located.session
  }

  /** `handleRetake`: drops the photo; nothing else changes. */
  function RetakeStep(s: Session): (r: Session)
    ensures r.photoUri.None?
    ensures r.(photoUri := s.photoUri) == s
  {
    s.(photoUri := None)
  }

  // ---------------------------------------------------------------------
  // Confirm and upload

  /** How each awaited call of one confirmation settles, and the clock reading it uses. */
  datatype ConfirmReplies = ConfirmReplies(
    locationRequest: Outcome<bool>,
    position: Outcome<Fix>,
    mediaRequest: Outcome<bool>,
    compose: Outcome<string>,
    gallerySave: Outcome<()>,
    upload: Outcome<string>,
    submit: Outcome<()>,
    nowMillis: nat)

  /** How `handleConfirm` ended. */
  datatype ConfirmResult =
    | NoPhoto                        // returned at once: no photo held
    | NoLocation                     // returned: no fix could be had
    | Rejected(error: Thrown)        // ensureLocation threw; the handler's promise rejects
    | Completed(record: EvidenceSubmission)
    | Failed(message: string)        // "Upload failed" was shown with this message

  /** Whether the handler got as far as `setIsUploading(true)`. */
  predicate UploadStarted(c: ConfirmResult) {
    c.Completed? || c.Failed?
  }

  /** The file that is saved and uploaded: the watermarked capture, or the raw photo if composing threw. */
  function ComposedUri(raw: string, compose: Outcome<string>): string {
    match compose
    case Returns(uri) => uri
    case Throws(_) => raw
  }

  /** The fix an upload is located by: the cached one, else the one just fetched. */
  function ActiveFix(s: Session, x: ConfirmReplies): Fix
    requires s.location.Some? || x.position.Returns?
  {
    if s.location.Some? then s.location.value else x.position.value
  }

  /** `location ?? (await ensureLocation())`: the cached fix, or one from `ensureLocation`. */
  function ConfirmLocation(s: Session, x: ConfirmReplies): (r: Step<Outcome<Option<Fix>>>)
    ensures (r.value.Returns? && r.value.value.Some?) <==>
              s.location.Some? || (x.position.Returns? && (s.hasLocationPermission != Some(false) || x.locationRequest == Returns(true)))
    ensures r.value.Returns? && r.value.value.Some? ==>
              r.value.value.value == ActiveFix(s, x) && r.session.location == Some(ActiveFix(s, x))
    ensures !(r.value.Returns? && r.value.value.Some?) ==> r.session.location == s.location
    ensures r.value == Returns(None) <==>
              s.location.None? && s.hasLocationPermission == Some(false) && x.locationRequest == Returns(false)
    ensures r.session.effects == s.effects + (if r.value == Returns(None) then [Alerted(LocationNeeded)] else [])
    ensures r.session.hasLocationPermission ==
              if s.location.None? && s.hasLocationPermission == Some(false) && x.locationRequest.Returns?
              then Some(x.locationRequest.value) else s.hasLocationPermission
    ensures r.session.(hasLocationPermission := s.hasLocationPermission, location := s.location, effects := s.effects) == s
  {
    if s.location.Some? then Step(s, Returns(s.location)) else LocationStep(s, x.locationRequest, x.position)
  }

  /**
   * `handleConfirm` for a capture request. Without a photo, or without a fix
   * (none cached and `ensureLocation` yields none), it stops before the
   * upload starts. Otherwise it uploads the watermarked photo (the raw one if
   * composing threw) to `UploadPath`, submits the record for the returned
   * URL and drops the photo; if the upload or the submission throws, it
   * shows their message and keeps the photo for a retry. The uploading flag
   * is false again afterwards.
   */
  function ConfirmStep(s: Session, request: CaptureRequest, x: ConfirmReplies): (r: Step<ConfirmResult>)
    ensures !Truthy(s.photoUri) ==> r == Step(s, NoPhoto)
    ensures r.value == NoLocation <==>
              Truthy(s.photoUri) && s.location.None? && s.hasLocationPermission == Some(false) && x.locationRequest == Returns(false)
    ensures UploadStarted(r.value) <==>
              Truthy(s.photoUri) &&
              (s.location.Some? || (x.position.Returns? && (s.hasLocationPermission != Some(false) || x.locationRequest == Returns(true))))
    ensures !UploadStarted(r.value) ==>
              r.session.isUploading == s.isUploading && r.session.photoUri == s.photoUri &&
              r.session.effects == s.effects + (if r.value == NoLocation then [Alerted(LocationNeeded)] else [])
    ensures UploadStarted(r.value) ==> !r.session.isUploading
    ensures r.value.Completed? <==> UploadStarted(r.value) && x.upload.Returns? && x.submit.Returns?
    ensures r.value.Completed? ==>
              r.session.photoUri.None? &&
              r.value.record == SubmissionRecord(request, ActiveFix(s, x), x.nowMillis, x.upload.value) &&
              EndsWith(r.session.effects,
                [Stored(UploadPath(request.userId, x.nowMillis), ComposedUri(s.photoUri.value, x.compose), JpegContentType),
                 Submitted(r.value.record), Alerted(UploadComplete)])
    ensures r.value.Failed? ==>
              r.session.photoUri == s.photoUri &&
              r.value.message == FailureMessage(if x.upload.Throws? then x.upload.error else x.submit.error) &&
              EndsWith(r.session.effects, [Alerted(Notice("Upload failed", r.value.message))])
    ensures r.session.hasCameraPermission == s.hasCameraPermission && r.session.isCapturing == s.isCapturing
    ensures UploadStarted(r.value) ==>
              r.session.location == Some(ActiveFix(s, x)) &&
              r.session.hasMediaPermission == MediaFlagAfterUpload(s.hasMediaPermission, x) &&
              r.session.effects == s.effects + UploadLog(s.hasMediaPermission, s.photoUri.value, request, ActiveFix(s, x), x)
    ensures !UploadStarted(r.value) ==>
              r.session.location == s.location && r.session.hasMediaPermission == s.hasMediaPermission
    ensures r.session.hasLocationPermission ==
              if Truthy(s.photoUri) && s.location.None? && s.hasLocationPermission == Some(false) && x.locationRequest.Returns?
              then Some(x.locationRequest.value) else s.hasLocationPermission
  {
    if !Truthy(s.photoUri) then Step(s, NoPhoto)
    else
      var located := ConfirmLocation(s, x);
      match located.value
      case Throws(e) => Step(located.session, Rejected(e))
      case Returns(None) => Step(located.session, NoLocation)
      case Returns(Some(fix)) =>
        ConfirmUpload(located.session, request, fix, x)
  }

  /**
   * The upload phase of `handleConfirm`: `isUploading` set, the `try` block
   * with the flag and photo the handler started with, and `isUploading`
   * cleared in `finally`.
   */
  function ConfirmUpload(s: Session, request: CaptureRequest, fix: Fix, x: ConfirmReplies): (r: Step<ConfirmResult>)
    requires Truthy(s.photoUri)
    ensures UploadStarted(r.value) && !r.session.isUploading
    ensures r.value.Completed? <==> x.upload.Returns? && x.submit.Returns?
    ensures r.session.photoUri == (if r.value.Completed? then None else s.photoUri)
    ensures r.value.Completed? ==> r.value.record == SubmissionRecord(request, fix, x.nowMillis, x.upload.value)
    ensures r.value.Failed? ==>
              r.value.message == FailureMessage(if x.upload.Throws? then x.upload.error else x.submit.error)
    ensures r.session.hasMediaPermission == MediaFlagAfterUpload(s.hasMediaPermission, x)
    ensures r.session.effects == s.effects + UploadLog(s.hasMediaPermission, s.photoUri.value, request, fix, x)
    ensures r.session.(photoUri := s.photoUri, isUploading := s.isUploading,
                       hasMediaPermission := s.hasMediaPermission, effects := s.effects) == s
  {
    var done := UploadStep(s.(isUploading := true), s.hasMediaPermission, s.photoUri.value, request, fix, x);
    Step(done.session.(isUploading := false), done.value)
  }

  /** The media flag after the `try` block: kept when it was already true, else the renewed request's answer. */
  function MediaFlagAfterUpload(granted: Option<bool>, x: ConfirmReplies): (flag: Option<bool>)
    ensures flag.Some?
    ensures granted == Some(true) ==> flag == granted
    ensures granted != Some(true) ==> (flag == Some(true) <==> x.mediaRequest == Returns(true))
  {
    if granted == Some(true) then granted else Some(x.mediaRequest == Returns(true))
  }

  /**
   * What the `try` block adds to the log, oldest first: the "Gallery access
   * limited" alert if the renewed media request throws, the gallery save if
   * the handler's flag was true and the save returned, then the transfer.
   */
  function UploadLog(granted: Option<bool>, raw: string, request: CaptureRequest, fix: Fix, x: ConfirmReplies): (t: seq<Effect>)
    ensures |t| == (if granted != Some(true) && x.mediaRequest.Throws? then 1 else 0)
                 + (if granted == Some(true) && x.gallerySave.Returns? then 1 else 0)
                 + |TransferLog(request, fix, ComposedUri(raw, x.compose), x)|
    ensures EndsWith(t, TransferLog(request, fix, ComposedUri(raw, x.compose), x))
    ensures (SavedToGallery(ComposedUri(raw, x.compose)) in t) <==> granted == Some(true) && x.gallerySave.Returns?
    ensures forall i :: 0 <= i < |t| && t[i].SavedToGallery? ==> t[i] == SavedToGallery(ComposedUri(raw, x.compose))
  {
    PrepareLog(granted, ComposedUri(raw, x.compose), x) + TransferLog(request, fix, ComposedUri(raw, x.compose), x)
  }

  /** What the `try` block logs before the upload. */
  function PrepareLog(granted: Option<bool>, file: string, x: ConfirmReplies): seq<Effect> {
    (if granted != Some(true) && x.mediaRequest.Throws? then [Alerted(GalleryLimited)] else [])
    + (if granted == Some(true) && x.gallerySave.Returns? then [SavedToGallery(file)] else [])
  }

  /**
   * The start of the `try` block: the renewed media request when the
   * handler's flag was not true, then the gallery save under that flag.
   */
  function PrepareStep(s: Session, granted: Option<bool>, file: string, x: ConfirmReplies): (r: Session)
    ensures r.hasMediaPermission == (if granted == Some(true) then s.hasMediaPermission else MediaFlagAfterUpload(granted, x))
    ensures r.effects == s.effects + PrepareLog(granted, file, x)
    ensures r.(hasMediaPermission := s.hasMediaPermission, effects := s.effects) == s
  {
    var asked := if granted != Some(true) then MediaPermissionStep(s, x.mediaRequest).session else s;
    GalleryStep(asked, granted, file, x.gallerySave)
  }

  lemma AppendAssoc<T>(a: seq<T>, b: seq<T>, c: seq<T>)
    ensures a + b + c == a + (b + c)
  {
  }

  /**
   * What the transfer adds to the log: the stored file exactly when the
   * upload returns, first; the submitted record exactly when the submit
   * returns too, second; and last the alert ending the block.
   */
  function TransferLog(request: CaptureRequest, fix: Fix, file: string, x: ConfirmReplies): (t: seq<Effect>)
    ensures |t| == 1 + (if x.upload.Returns? then 1 else 0) + (if x.upload.Returns? && x.submit.Returns? then 1 else 0)
    ensures forall i :: 0 <= i < |t| ==>
              (t[i].Stored? <==> i == 0 && x.upload.Returns?) &&
              (t[i].Submitted? <==> i == 1 && x.upload.Returns? && x.submit.Returns?) &&
              !t[i].SavedToGallery?
    ensures x.upload.Returns? ==> t[0] == Stored(UploadPath(request.userId, x.nowMillis), file, JpegContentType)
    ensures x.upload.Returns? && x.submit.Returns? ==>
              t[1] == Submitted(SubmissionRecord(request, fix, x.nowMillis, x.upload.value))
    ensures t[|t| - 1] ==
              Alerted(if x.upload.Returns? && x.submit.Returns? then UploadComplete
                      else UploadFailed(if x.upload.Throws? then x.upload.error else x.submit.error))
  {
    match x.upload
    case Throws(e) => [Alerted(UploadFailed(e))]
    case Returns(url) =>
      [Stored(UploadPath(request.userId, x.nowMillis), file, JpegContentType)] +
      (match x.submit
       case Throws(e) => [Alerted(UploadFailed(e))]
       case Returns(_) => [Submitted(SubmissionRecord(request, fix, x.nowMillis, url)), Alerted(UploadComplete)])
  }

  /**
   * The `try` block of `handleConfirm`. `granted` is the media flag the
   * handler started with: it decides both whether to ask again and whether
   * the gallery save runs, so a permission granted by that renewed request
   * takes effect from the next confirmation on.
   */
  function UploadStep(s: Session, granted: Option<bool>, raw: string, request: CaptureRequest,
                          fix: Fix, x: ConfirmReplies): (r: Step<ConfirmResult>)
    ensures UploadStarted(r.value)
    ensures r.value.Completed? <==> x.upload.Returns? && x.submit.Returns?
    ensures r.session.photoUri == (if r.value.Completed? then None else s.photoUri)
    ensures r.value.Completed? ==>
              r.value.record == SubmissionRecord(request, fix, x.nowMillis, x.upload.value) &&
              EndsWith(r.session.effects,
                [Stored(UploadPath(request.userId, x.nowMillis), ComposedUri(raw, x.compose), JpegContentType),
                 Submitted(r.value.record), Alerted(UploadComplete)])
    ensures r.value.Failed? ==>
              r.value.message == FailureMessage(if x.upload.Throws? then x.upload.error else x.submit.error) &&
              EndsWith(r.session.effects, [Alerted(Notice("Upload failed", r.value.message))])
    ensures r.session.hasCameraPermission == s.hasCameraPermission && r.session.isCapturing == s.isCapturing
    ensures r.session.isUploading == s.isUploading
    ensures r.session.hasMediaPermission == (if granted == Some(true) then s.hasMediaPermission else MediaFlagAfterUpload(granted, x))
    ensures r.session.effects == s.effects + UploadLog(granted, raw, request, fix, x)
    ensures r.session.(photoUri := s.photoUri, hasMediaPermission := s.hasMediaPermission, effects := s.effects) == s
  {
    var composed := ComposedUri(raw, x.compose);
    var prepared := PrepareStep(s, granted, composed, x);
    AppendAssoc(s.effects, PrepareLog(granted, composed, x), TransferLog(request, fix, composed, x));
    TransferStep(prepared, request, fix, composed, x)
  }

  /**
   * The storage upload of `file` and the submission that names its URL,
   * with the alert that ends the `try` block: "Upload complete" and the
   * photo dropped, or "Upload failed" with the error's message.
   */
  function TransferStep(s: Session, request: CaptureRequest, fix: Fix, file: string, x: ConfirmReplies): (r: Step<ConfirmResult>)
    ensures UploadStarted(r.value)
    ensures r.value.Completed? <==> x.upload.Returns? && x.submit.Returns?
    ensures r.session.photoUri == (if r.value.Completed? then None else s.photoUri)
    ensures r.value.Completed? ==>
              r.value.record == SubmissionRecord(request, fix, x.nowMillis, x.upload.value) &&
              EndsWith(r.session.effects,
                [Stored(UploadPath(request.userId, x.nowMillis), file, JpegContentType),
                 Submitted(r.value.record), Alerted(UploadComplete)])
    ensures r.value.Failed? ==>
              r.value.message == FailureMessage(if x.upload.Throws? then x.upload.error else x.submit.error) &&
              EndsWith(r.session.effects, [Alerted(Notice("Upload failed", r.value.message))])
    ensures r.session.effects == s.effects + TransferLog(request, fix, file, x)
    ensures r.session.(photoUri := s.photoUri, effects := s.effects) == s
  {
    match x.upload
    case Throws(e) => Step(Alert(s, UploadFailed(e)), Failed(FailureMessage(e)))
    case Returns(url) =>
      var stored := s.(effects := s.effects + [Stored(UploadPath(request.userId, x.nowMillis), file, JpegContentType)]);
      var record := SubmissionRecord(request, fix, x.nowMillis, url);
      match x.submit
      case Throws(e) => Step(Alert(stored, UploadFailed(e)), Failed(FailureMessage(e)))
      case Returns(_) =>
        Step(Alert(stored.(effects := stored.effects + [Submitted(record)]), UploadComplete).(photoUri := None),
             Completed(record))
  }

  // ---------------------------------------------------------------------
  // Properties across steps

  /** Composing the watermark is best effort: whether it throws never changes whether the confirmation completes. */
  lemma ComposeIsBestEffort(s: Session, request: CaptureRequest, x: ConfirmReplies, compose: Outcome<string>)
    ensures ConfirmStep(s, request, x).value.Completed? == ConfirmStep(s, request, x.(compose := compose)).value.Completed?
    ensures ConfirmStep(s, request, x).value.Completed? ==>
              ConfirmStep(s, request, x).value == ConfirmStep(s, request, x.(compose := compose)).value
  {
  }

  /** How many submission records a log holds. */
  function Submissions(log: seq<Effect>): (n: nat)
    ensures n <= |log|
    ensures n == 0 <==> forall i :: 0 <= i < |log| ==> !log[i].Submitted?
  {
    if log == [] then 0 else (if log[0].Submitted? then 1 else 0) + Submissions(log[1..])
  }

  lemma {:induction false} SubmissionsAppend(a: seq<Effect>, b: seq<Effect>)
    ensures Submissions(a + b) == Submissions(a) + Submissions(b)
  {
    if a == [] {
      assert a + b == b;
    } else {
      assert (a + b)[0] == a[0] && (a + b)[1..] == a[1..] + b;
      SubmissionsAppend(a[1..], b);
    }
  }

  /** The `try` block submits one record exactly when the upload and the submit both return. */
  lemma UploadLogSubmissions(granted: Option<bool>, raw: string, request: CaptureRequest, fix: Fix, x: ConfirmReplies)
    ensures Submissions(UploadLog(granted, raw, request, fix, x)) == if x.upload.Returns? && x.submit.Returns? then 1 else 0
  {
    var file := ComposedUri(raw, x.compose);
    var prep := PrepareLog(granted, file, x);
    var transfer := TransferLog(request, fix, file, x);
    SubmissionsAppend(prep, transfer);
    assert Submissions(prep) == 0;
    if x.upload.Returns? && x.submit.Returns? {
      var stored := [transfer[0]];
      var rest := transfer[1..];
      assert transfer == stored + rest;
      SubmissionsAppend(stored, rest);
      assert Submissions(stored) == 0;
      assert rest == [rest[0]] + rest[1..];
      SubmissionsAppend([rest[0]], rest[1..]);
    }
  }

  /**
   * A confirmation that reaches the upload keeps the earlier log and adds
   * exactly one submission record when it completes and none when it fails:
   * evidence is created once per successful upload.
   */
  lemma OneSubmissionPerSuccess(s: Session, request: CaptureRequest, x: ConfirmReplies)
    requires UploadStarted(ConfirmStep(s, request, x).value)
    ensures var r := ConfirmStep(s, request, x);
      |s.effects| <= |r.session.effects| && r.session.effects[..|s.effects|] == s.effects &&
      Submissions(r.session.effects[|s.effects|..]) == if r.value.Completed? then 1 else 0
  {
    var r := ConfirmStep(s, request, x);
    var added := UploadLog(s.hasMediaPermission, s.photoUri.value, request, ActiveFix(s, x), x);
    assert r.session.effects == s.effects + added;
    assert r.session.effects[|s.effects|..] == added;
    UploadLogSubmissions(s.hasMediaPermission, s.photoUri.value, request, ActiveFix(s, x), x);
  }

  /** If composing throws, the raw photo is what gets uploaded. */
  lemma FallbackUploadsRawPhoto(s: Session, request: CaptureRequest, x: ConfirmReplies)
    requires Truthy(s.photoUri) && x.compose.Throws?
    requires ConfirmStep(s, request, x).value.Completed?
    ensures Stored(UploadPath(request.userId, x.nowMillis), s.photoUri.value, JpegContentType) in ConfirmStep(s, request, x).session.effects
  {
    var r := ConfirmStep(s, request, x);
    var n := |r.session.effects|;
    assert r.session.effects[n - 3] == r.session.effects[n - 3..][0];
  }

  /**
   * The photo kept after a late failure: if the photo was taken but getting
   * the fix then throws (the renewed location request or the fetch itself),
   * "Camera error" is shown and yet the photo stays.
   */
  lemma CaptureErrorKeepsPhoto(s: Session, uri: string, gallerySave: Outcome<()>,
                               locationRequest: Outcome<bool>, position: Outcome<Fix>)
    requires CameraMounted(s) && !s.isCapturing && uri != ""
    requires position.Throws? || (s.hasLocationPermission == Some(false) && locationRequest.Throws?)
    requires s.hasLocationPermission == Some(false) ==> locationRequest != Returns(false)
    ensures var r := CaptureStep(s, Returns(Some(uri)), gallerySave, locationRequest, position);
      r.photoUri == Some(uri) && r.effects[|r.effects| - 1] == Alerted(CameraError)
  {
  }

  /** After retaking, with the camera granted, the camera (not a preview) is on screen. */
  lemma RetakeShowsCamera(s: Session)
    requires s.hasCameraPermission == Some(true)
    ensures ScreenOf(RetakeStep(s)).CameraView?
  {
  }

  /** A capture with a truthy uri puts its preview on screen, even if a later step threw. */
  lemma CaptureShowsPreview(s: Session, uri: string, gallerySave: Outcome<()>,
                            locationRequest: Outcome<bool>, position: Outcome<Fix>)
    requires CameraMounted(s) && !s.isCapturing && uri != ""
    ensures ScreenOf(CaptureStep(s, Returns(Some(uri)), gallerySave, locationRequest, position)) ==
              Preview(uri, !s.isUploading, if s.isUploading then "Uploading…" else "Confirm")
  {
  }

  /** A failed confirmation can be retried at once: the preview is back, with the same photo. */
  lemma FailedConfirmStaysInPreview(s: Session, request: CaptureRequest, x: ConfirmReplies)
    requires s.hasCameraPermission == Some(true)
    requires ConfirmStep(s, request, x).value.Failed?
    ensures ScreenOf(ConfirmStep(s, request, x).session) == Preview(s.photoUri.value, true, "Confirm")
  {
  }

  /** A completed confirmation returns the screen to the camera. */
  lemma CompletedConfirmShowsCamera(s: Session, request: CaptureRequest, x: ConfirmReplies)
    requires s.hasCameraPermission == Some(true)
    requires ConfirmStep(s, request, x).value.Completed?
    ensures ScreenOf(ConfirmStep(s, request, x).session).CameraView?
  {
  }

  /**
   * The media flag a confirmation starts with decides the gallery save: a
   * permission granted by the renewed request during this confirmation does
   * not yet lead to a save.
   */
  lemma GrantDuringConfirmSavesNothing(s: Session, request: CaptureRequest, x: ConfirmReplies)
    requires s.hasMediaPermission != Some(true) && x.mediaRequest == Returns(true)
    requires UploadStarted(ConfirmStep(s, request, x).value)
    ensures var r := ConfirmStep(s, request, x).session;
      r.hasMediaPermission == Some(true) &&
      |s.effects| <= |r.effects| && r.effects[..|s.effects|] == s.effects &&
      forall i :: |s.effects| <= i < |r.effects| ==> !r.effects[i].SavedToGallery?
  {
    var located := if s.location.Some? then Step(s, Returns(s.location)) else LocationStep(s, x.locationRequest, x.position);
    assert located.session.effects == s.effects && located.session.hasMediaPermission == s.hasMediaPermission;
    var fix := located.value.value.value;
    UngrantedUploadSavesNothing(located.session.(isUploading := true), s.hasMediaPermission, s.photoUri.value, request, fix, x);
  }

  /**
   * The `try` block run with a media flag that is not true: the renewed
   * request's grant is recorded, and nothing the block adds to the log is a
   * gallery save.
   */
  lemma UngrantedUploadSavesNothing(s: Session, granted: Option<bool>, raw: string, request: CaptureRequest,
                                    fix: Fix, x: ConfirmReplies)
    requires granted != Some(true) && x.mediaRequest == Returns(true)
    ensures var r := UploadStep(s, granted, raw, request, fix, x).session;
      r.hasMediaPermission == Some(true) &&
      |s.effects| <= |r.effects| && r.effects[..|s.effects|] == s.effects &&
      forall i :: |s.effects| <= i < |r.effects| ==> !r.effects[i].SavedToGallery?
  {
    var asked := MediaPermissionStep(s, x.mediaRequest).session;
    var composed := ComposedUri(raw, x.compose);
    assert GalleryStep(asked, granted, composed, x.gallerySave) == asked;
    var path := UploadPath(request.userId, x.nowMillis);
    var stored := asked.effects + [Stored(path, composed, JpegContentType)];
    var r := TransferStep(asked, request, fix, composed, x).session;
    if x.upload.Throws? {
      assert r.effects == asked.effects + [Alerted(UploadFailed(x.upload.error))];
    } else if x.submit.Throws? {
      assert r.effects == stored + [Alerted(UploadFailed(x.submit.error))];
    } else {
      var record := SubmissionRecord(request, fix, x.nowMillis, x.upload.value);
      assert r.effects == stored + [Submitted(record)] + [Alerted(UploadComplete)];
    }
  }

  /** With the media permission already granted, a confirmation saves the uploaded file to the gallery. */
  lemma GrantedConfirmSavesToGallery(s: Session, request: CaptureRequest, x: ConfirmReplies)
    requires s.hasMediaPermission == Some(true) && x.gallerySave.Returns?
    requires UploadStarted(ConfirmStep(s, request, x).value)
    ensures Truthy(s.photoUri)
    ensures SavedToGallery(ComposedUri(s.photoUri.value, x.compose)) in ConfirmStep(s, request, x).session.effects
  {
  }

  /** A media-library error at start-up is a denial; the location part of start-up still runs. */
  lemma MediaErrorAtStartup(s: Session, granted: bool, error: Thrown, position: Fix)
    ensures var r := StartupStep(s, Returns(granted), Throws(error), Returns(true), Returns(position));
      r.hasMediaPermission == Some(false) && r.location == Some(position) &&
      r.effects == s.effects + [Alerted(GalleryLimited)]
  {
  }
}
