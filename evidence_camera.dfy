/**
 * The loan-evidence camera screen as an object: its fields are the screen's
 * state variables, its methods are the screen's handlers, and each method
 * is proved to leave the screen in the state the matching step function of
 * module EvidenceFlow prescribes. Each awaited platform call is a parameter
 * holding how that call settles.
 */
module EvidenceCamera {
  import opened Js
  import opened EvidenceRecord
  import opened EvidenceFlow

  class CameraScreen {
    /** The route parameters and signed-in user this screen was opened with. */
    const request: CaptureRequest

    var hasCameraPermission: Option<bool>
    var hasMediaPermission: Option<bool>
    var hasLocationPermission: Option<bool>
    var photoUri: Option<string>
    var isCapturing: bool
    var isUploading: bool
    var location: Option<Fix>
    /** What the screen has done outside itself, oldest first. */
    var effects: seq<Effect>

    function State(): Session
      reads this
    {
      Session(hasCameraPermission, hasMediaPermission, hasLocationPermission,
              photoUri, isCapturing, isUploading, location, effects)
    }

    /** The screen as first rendered: every permission unknown, no photo, no fix, nothing in flight. */
    constructor (request: CaptureRequest)
      ensures this.request == request
      ensures State() == InitialSession
    {
      this.request := request;
      hasCameraPermission := None;
      hasMediaPermission := None;
      hasLocationPermission := None;
      photoUri := None;
      isCapturing := false;
      isUploading := false;
      location := None;
      effects := [];
    }

    /** The start-up effect's `requestRuntimePermissions`. */
    method RequestRuntimePermissions(camera: Outcome<bool>, media: Outcome<bool>,
                                     locationRequest: Outcome<bool>, position: Outcome<Fix>)
      modifies this
      ensures State() == StartupStep(old(State()), camera, media, locationRequest, position)
    {
      if camera.Throws? {
        return;
      }
      hasCameraPermission := Some(camera.value);
      var _ := RequestMediaPermission(media);
      if locationRequest.Throws? {
        return;
      }
      hasLocationPermission := Some(locationRequest.value);
      if locationRequest.value {
        if position.Returns? {
          location := Some(position.value);
        }
      }
    }

    /** The permission screen's "Grant Permission" button. */
    method GrantCameraPermission(reply: Outcome<bool>)
      modifies this`hasCameraPermission
      ensures State() == CameraPermissionStep(old(State()), reply)
    {
      if reply.Returns? {
        hasCameraPermission := Some(reply.value);
      }
    }

    /** `requestMediaPermission`. */
    method RequestMediaPermission(reply: Outcome<bool>) returns (granted: bool)
      modifies this`hasMediaPermission, this`effects
      ensures Step(State(), granted) == MediaPermissionStep(old(State()), reply)
    {
      match reply {
        case Returns(g) =>
          granted := g;
        case Throws(_) =>
          effects := effects + [Alerted(GalleryLimited)];
          granted := false;
      }
      hasMediaPermission := Some(granted);
    }

    /** `saveToGalleryIfAllowed(uri)`, where `granted` is the media flag the calling handler sees. */
    method SaveToGalleryIfAllowed(granted: Option<bool>, uri: string, reply: Outcome<()>)
      modifies this`effects
      ensures State() == GalleryStep(old(State()), granted, uri, reply)
    {
      if granted != Some(true) {
        return;
      }
      if reply.Returns? {
        effects := effects + [SavedToGallery(uri)];
      }
    }

    /** `ensureLocation`. */
    method EnsureLocation(locationRequest: Outcome<bool>, position: Outcome<Fix>) returns (fix: Outcome<Option<Fix>>)
      modifies this`hasLocationPermission, this`location, this`effects
      ensures Step(State(), fix) == LocationStep(old(State()), locationRequest, position)
    {
      if hasLocationPermission == Some(false) {
        if locationRequest.Throws? {
          return Throws(locationRequest.error);
        }
        hasLocationPermission := Some(locationRequest.value);
        if !locationRequest.value {
          effects := effects + [Alerted(LocationNeeded)];
          return Returns(None);
        }
      }
      if position.Throws? {
        return Throws(position.error);
      }
      location := Some(position.value);
      fix := Returns(Some(position.value));
    }

    /** `handleCapture`. */
    method HandleCapture(picture: Outcome<Option<string>>, gallerySave: Outcome<()>,
                         locationRequest: Outcome<bool>, position: Outcome<Fix>)
      modifies this
      ensures State() == CaptureStep(old(State()), picture, gallerySave, locationRequest, position)
    {
      if !CameraMounted(State()) || isCapturing {
        return;
      }
      var mediaGranted := hasMediaPermission;
      isCapturing := true;
      var failed := false;
      match picture {
        case Throws(_) =>
          failed := true;
        case Returns(result) =>
          if Truthy(result) {
            photoUri := result;
            SaveToGalleryIfAllowed(mediaGranted, result.value, gallerySave);
            ghost var held := State();
            assert held == GalleryStep(old(State()).(photoUri := result, isCapturing := true), mediaGranted, result.value, gallerySave);
            var located := EnsureLocation(locationRequest, position);
            assert Step(State(), located) == LocationStep(held, locationRequest, position);
            failed := located.Throws?;
          }
      }
      if failed {
        effects := effects + [Alerted(CameraError)];
      }
      isCapturing := false;
    }

    /** `handleConfirm`. */
    method HandleConfirm(x: ConfirmReplies) returns (result: ConfirmResult)
      modifies this
      ensures Step(State(), result) == ConfirmStep(old(State()), request, x)
    {
      if !Truthy(photoUri) {
        return NoPhoto;
      }
      var raw := photoUri.value;
      var mediaGranted := hasMediaPermission;
      ghost var expected := ConfirmLocation(State(), x);
      var activeLocation := location;
      if activeLocation.None? {
        var located := EnsureLocation(x.locationRequest, x.position);
        assert Step(State(), located) == expected;
        if located.Throws? {
          return Rejected(located.error);
        }
        activeLocation := located.value;
      }
      assert State() == expected.session && expected.value == Returns(activeLocation);
      if activeLocation.None? {
        return NoLocation;
      }
      var fix := activeLocation.value;

      isUploading := true;
      result := Upload(mediaGranted, raw, fix, x);
      isUploading := false;
    }

    /**
     * The `try` block of `handleConfirm`, with `mediaGranted` and `raw` the
     * media flag and photo the handler started with.
     */
    method Upload(mediaGranted: Option<bool>, raw: string, fix: Fix, x: ConfirmReplies) returns (result: ConfirmResult)
      modifies this
      ensures Step(State(), result) == UploadStep(old(State()), mediaGranted, raw, request, fix, x)
    {
      if mediaGranted != Some(true) {
        var _ := RequestMediaPermission(x.mediaRequest);
      }
      var composedUri := ComposedUri(raw, x.compose);
      SaveToGalleryIfAllowed(mediaGranted, composedUri, x.gallerySave);
      assert State() == PrepareStep(old(State()), mediaGranted, composedUri, x);
      result := Transfer(fix, composedUri, x);
    }

    /** `uploadToStorage(file)`, then `submitEvidence` with its URL, and the alert that ends the `try` block. */
    method Transfer(fix: Fix, file: string, x: ConfirmReplies) returns (result: ConfirmResult)
      modifies this`effects, this`photoUri
      ensures Step(State(), result) == TransferStep(old(State()), request, fix, file, x)
    {
      var failure: Option<Thrown> := None;
      match x.upload {
        case Throws(e) =>
          failure := Some(e);
        case Returns(remoteUrl) =>
          effects := effects + [Stored(UploadPath(request.userId, x.nowMillis), file, JpegContentType)];
          var record := SubmissionRecord(request, fix, x.nowMillis, remoteUrl);
          match x.submit {
            case Throws(e) =>
              failure := Some(e);
            case Returns(_) =>
              effects := effects + [Submitted(record)];
              effects := effects + [Alerted(UploadComplete)];
              photoUri := None;
              result := Completed(record);
          }
      }
      if failure.Some? {
        effects := effects + [Alerted(UploadFailed(failure.value))];
        result := Failed(FailureMessage(failure.value));
      }
    }

    /** `handleRetake`. */
    method HandleRetake()
      modifies this`photoUri
      ensures State() == RetakeStep(old(State()))
    {
      photoUri := None;
    }
  }
}
