# Loan evidence capture and officer review screens: a verified model

This project models the parts of a loan-monitoring mobile app's screens that hold logic:

- **The loan-evidence camera screen.** A beneficiary photographs an asset bought with a loan. The screen:
  - stamps the photo with a GPS and time watermark;
  - uploads it to `loan-evidence/{userId}/{millis}.jpg`;
  - submits an evidence record pointing at the uploaded file.

  Its state variables are three permission flags, the photo uri, the capturing and uploading flags, and the cached location fix. Its handlers change them step by step:
  - permission requests;
  - capture;
  - confirm (upload and submit);
  - retake.
- **The officer's zones screen.** Risk zones are drawn as map markers and narrowed by a risk-level filter chip. Pressing a marker opens a modal describing that zone.
- **The beneficiary risk lists.** Three sections of loan cards. Each card's status badge is coloured by a fixed status-to-token table with an `info` fallback. The lists come from props, or from the shipped lists where no prop is given.
- **The officer dashboard.** Collapsible alert sections keyed `high`, `pending` and `deadline`. Alert chips show counts zero-padded to two digits. The officer header has fallbacks for missing profile fields. A loan's "view details" opens a route.

How the model is laid out:

- **`Js`** states the JavaScript semantics the screens rely on:
  - `x ?? y` keeps `''` and `false`;
  - string truthiness;
  - thrown values and `error instanceof Error`;
  - `Number.prototype.toString` on non-negative integers;
  - `padStart`.
- **`EvidenceRecord`** holds the pure part of the camera screen: the watermark lines, the upload path and the submission record.
- **`EvidenceFlow`** is the camera screen as a state machine. A `Session` is a snapshot of the screen's state variables plus a log of effects: alerts, gallery saves, stored files, submissions. Each handler has a step function saying what the session and the result are afterwards. The inputs to a step function are:
  - the session before the handler;
  - how each awaited platform call settled: it returns a value or throws.
- **`EvidenceCamera.CameraScreen`** is a class whose fields are the state variables. Its methods run the handlers imperatively, and each method is proved to reach exactly the session its step function prescribes.
- **`Zones`**, **`RiskLists`** and **`Dashboard`** model the other three files. The zones screen and the dashboard keep their mutable state (`selected`/`filter`, `openSections`) in small classes.

Behaviour modelled as the code has it:

- **Photo kept after a camera error.** `handleCapture` stores the photo uri before fetching the location fix. A throw while getting the fix shows "Camera error" and still keeps the photo, so the screen moves to the preview (`CaptureErrorKeepsPhoto`, `CaptureShowsPreview`).
- **Location re-request.** `ensureLocation` asks for location permission again only when the flag is exactly `false`. When the flag is still unknown it fetches directly.
- **Stale media flag in `handleConfirm`.** `handleConfirm` calls `saveToGalleryIfAllowed` as it was when the handler started. So the media flag the confirmation began with decides the gallery save, not the answer to the renewed request made inside the same handler. A permission granted during a confirmation takes effect from the next one (`GrantDuringConfirmSavesNothing`, `GrantedConfirmSavesToGallery`).
- **Failed confirmation.** After a failed confirmation the photo is kept, so the preview with Retake/Confirm is shown again.
- **Failure before the upload phase.** If `ensureLocation` throws inside `handleConfirm`, the handler's promise rejects before the uploading flag is set (`Rejected`).
- **`handleViewDetails` is not wired.** The dashboard defines `handleViewDetails` but nothing in its tree calls it. It is modelled as the route it would open.

## Model

| member | source | states |
|---|---|---|
| `Js.Decimal` | screens/officer/dashboard-screen.tsx:97 | a count's decimal text is non-empty digits, with a leading zero only for 0; one digit exactly below 10 |
| `Js.ParseDecimalOfDecimal` | screens/beneficiary/loan-evidence-camera-screen.tsx:145 | reading back a number's decimal text gives the number |
| `Js.DecimalInjective` | screens/beneficiary/loan-evidence-camera-screen.tsx:145 | different numbers have different decimal texts |
| `Js.DecimalLength` | screens/beneficiary/loan-evidence-camera-screen.tsx:217 | a number in [10^k, 10^(k+1)) has k+1 digits |
| `Js.PadStart` | screens/officer/dashboard-screen.tsx:97-99 | the result has length max(len, width), ends with the input unchanged, and is preceded only by fill characters |
| `Js.ParsePadded` | screens/beneficiary/loan-evidence-camera-screen.tsx:215-220 | zero-padding a number's text keeps it all digits and keeps its value |
| `Js.ParseLeadingZeros` | screens/beneficiary/loan-evidence-camera-screen.tsx:215-220 | leading zeros do not change the value of a digit string |
| `EvidenceRecord.RequestFor` | screens/beneficiary/loan-evidence-camera-screen.tsx:24-29 | the route parameters are kept as given; the user id is the profile id when there is one and "anonymous" otherwise; it is empty exactly when the profile id is the empty string |
| `EvidenceRecord.UploadPath` | screens/beneficiary/loan-evidence-camera-screen.tsx:145 | the path starts with `loan-evidence/{userId}/` and ends with `.jpg` |
| `EvidenceRecord.UploadPathRoundTrip` | screens/beneficiary/loan-evidence-camera-screen.tsx:145 | the text between the user folder and the extension is all digits and reads back as the timestamp |
| `EvidenceRecord.UploadPathInjective` | screens/beneficiary/loan-evidence-camera-screen.tsx:145 | one user's uploads at different milliseconds get different paths |
| `EvidenceRecord.SubmissionRecord` | screens/beneficiary/loan-evidence-camera-screen.tsx:179-191 | media and thumbnail URL are both the uploaded URL; media type is photo; asset name is the requirement name via `??`, else "Loan Evidence"; remarks present exactly when the requirement id is truthy, and reading the requirement back from the remarks gives that id; captured-at is the fix's timestamp, else now; location is the fix's coordinates |
| `EvidenceRecord.Pad2Digits` | screens/beneficiary/loan-evidence-camera-screen.tsx:215-220 | a field below 100 pads to exactly two digits that read back as the field |
| `EvidenceRecord.DateTimeLayout` | screens/beneficiary/loan-evidence-camera-screen.tsx:215-220 | a DD-MM-YYYY HH:MM layout puts each field and separator at a fixed offset |
| `EvidenceRecord.LayoutReadsBack` | screens/beneficiary/loan-evidence-camera-screen.tsx:215-220 | digit fields of widths 2, 2, 4, 2 and 2 that read back as numbers still read back as those numbers at their fixed offsets in the layout |
| `EvidenceRecord.SplitAround` | screens/beneficiary/loan-evidence-camera-screen.tsx:215-220 | proof helper: a head, one separator and a rest split back into the same three parts at the head's length |
| `EvidenceRecord.DateTimeTextReadsBack` | screens/beneficiary/loan-evidence-camera-screen.tsx:214-220 | for a four-digit year the time text is 16 characters with `-`, `-`, space and `:` at fixed places, and day, month+1, year, hour and minute each read back |
| `EvidenceRecord.FourDigitYear` | screens/beneficiary/loan-evidence-camera-screen.tsx:217 | a year from 1000 to 9999 is written as four digits that read back as the year |
| `EvidenceRecord.Present` | screens/beneficiary/loan-evidence-camera-screen.tsx:229 | `filter(Boolean)` never lengthens the list |
| `EvidenceRecord.PresentAppend` | screens/beneficiary/loan-evidence-camera-screen.tsx:229 | filtering a concatenation is concatenating the filtered parts |
| `EvidenceRecord.PresentOfSlots` | screens/beneficiary/loan-evidence-camera-screen.tsx:222-229 | the six watermark slots are filtered slot by slot, in order |
| `EvidenceRecord.PresentCons` | screens/beneficiary/loan-evidence-camera-screen.tsx:229 | filtering keeps the first slot exactly when it is truthy |
| `EvidenceRecord.OptionalLinePresent` | screens/beneficiary/loan-evidence-camera-screen.tsx:226-228 | an optional line with a non-empty value is present, prefixed |
| `EvidenceRecord.WatermarkLines` | screens/beneficiary/loan-evidence-camera-screen.tsx:210-230 | no lines without a location; otherwise Lat, Lon, Time and then Loan, Req and User in that order, each only when its field is truthy |
| `EvidenceRecord.WatermarkAllFields` | screens/beneficiary/loan-evidence-camera-screen.tsx:222-229 | with all optional fields given there are exactly six lines in the fixed order |
| `EvidenceRecord.SixLines` | screens/beneficiary/loan-evidence-camera-screen.tsx:222-229 | proof helper: six singleton lists joined one by one are the six-element list in the same order |
| `EvidenceRecord.WatermarkWithoutOptionalFields` | screens/beneficiary/loan-evidence-camera-screen.tsx:226-228 | for every request whose loan and requirement name are absent or empty and whose user id is empty, the lines are exactly Lat, Lon and Time |
| `EvidenceFlow.MediaPermissionStep` | screens/beneficiary/loan-evidence-camera-screen.tsx:40-58 | the result is true exactly when the request returned granted; the flag is set to the result; a thrown request adds the "Gallery access limited" alert; nothing else changes |
| `EvidenceFlow.GalleryStep` | screens/beneficiary/loan-evidence-camera-screen.tsx:60-72 | a gallery save is logged exactly when the handler's media flag is true and the save succeeds; a failed save is swallowed; nothing else changes |
| `EvidenceFlow.StartupStep` | screens/beneficiary/loan-evidence-camera-screen.tsx:86-98 | a thrown camera request changes nothing; after a camera answer, the camera flag is that answer and the media flag is true exactly when the media request returned true; the only alert is "Gallery access limited", exactly when the media request throws; the location flag is the location answer, and unchanged when that request throws; a fix is stored exactly when the location request returned true and the fetch returned, and it is the fetched one |
| `EvidenceFlow.CameraPermissionStep` | screens/beneficiary/loan-evidence-camera-screen.tsx:246-249 | the Grant Permission button sets the camera flag to the answer; a throw changes nothing |
| `EvidenceFlow.LocationStep` | screens/beneficiary/loan-evidence-camera-screen.tsx:104-116 | it yields null exactly when the flag is false and the renewed request is denied (with the "Location needed" alert); it yields a fix exactly when the fetch succeeds and the flag was not false or was re-granted; the flag changes only to the renewed request's answer, and stays when that request throws |
| `EvidenceFlow.CaptureStep` | screens/beneficiary/loan-evidence-camera-screen.tsx:118-140 | no change without a mounted camera or while capturing; otherwise capturing is false afterwards; a thrown capture gives only the "Camera error" alert with the photo unchanged; a truthy uri becomes the photo, is saved to the gallery exactly when the media flag is true and the save returns, and is followed by `ensureLocation`, whose location, flag and "Location needed" alert the capture takes over, with "Camera error" exactly when it throws; the camera and media flags never change; a held photo uri is never empty |
| `EvidenceFlow.RetakeStep` | screens/beneficiary/loan-evidence-camera-screen.tsx:206-208 | the photo is cleared and nothing else changes |
| `EvidenceFlow.ScreenOf` | screens/beneficiary/loan-evidence-camera-screen.tsx:232-311 | blank while the camera flag is unknown; a prompt when it is false; the preview exactly when a photo is held; buttons disabled exactly while uploading; capture disabled exactly while capturing; the GPS bar shows the cached fix when there is one, else "Location permission required" exactly when the location flag is false, else "Fetching GPS lock" |
| `EvidenceFlow.ConfirmStep` | screens/beneficiary/loan-evidence-camera-screen.tsx:151-204 | no photo: nothing happens; no upload exactly when there is no photo, or no cached fix and ensureLocation yields none or throws, and then location and media flag are unchanged and only the "Location needed" alert can be added; the location flag changes only to a renewed request's answer; once the upload starts the fix used is stored, the media flag is `MediaFlagAfterUpload` of the one the handler started with, and the log is the old log followed by exactly `UploadLog`; completion exactly when upload and submit both return, and then the photo is cleared and the record, the stored path `UploadPath(userId, now)` and "Upload complete" are logged; on failure the photo is kept and the alert carries the error's message or the retry text; uploading is false after the upload phase |
| `EvidenceFlow.UploadStep` | screens/beneficiary/loan-evidence-camera-screen.tsx:158-203 | the try/catch block always ends completed or failed, completed exactly when upload and submit return, with the record for the fix and URL; the photo is cleared only on completion; the log is the old log followed by exactly `UploadLog`; the media flag is kept when the handler's flag was true and is the renewed answer otherwise; no other field changes |
| `EvidenceFlow.TransferStep` | screens/beneficiary/loan-evidence-camera-screen.tsx:176-203 | completed exactly when upload and submit both return, and then the file is stored as `image/jpeg` under the user's path, the record for the fix and URL is submitted, "Upload complete" is shown and the photo cleared; otherwise "Upload failed" with the error's message and the photo kept; the log is the old log followed by exactly `TransferLog`; no other field changes |
| `EvidenceFlow.ConfirmLocation` | screens/beneficiary/loan-evidence-camera-screen.tsx:155 | the cached fix when there is one, else `ensureLocation`'s outcome: a fix exactly when one is cached or the fetch is reached and returns, and then it is stored; null exactly when the renewed location request is denied, with the "Location needed" alert; nothing else changes |
| `EvidenceFlow.ConfirmUpload` | screens/beneficiary/loan-evidence-camera-screen.tsx:159-203 | the upload phase always ends completed or failed with uploading false, completed exactly when upload and submit return, with the record for the fix and URL; the media flag becomes `MediaFlagAfterUpload` of the handler's flag; the log gains exactly `UploadLog`; only the photo (cleared on completion), the in-flight flag, the media flag and the log change |
| `EvidenceFlow.MediaFlagAfterUpload` | screens/beneficiary/loan-evidence-camera-screen.tsx:161-163 | a true flag is kept; otherwise the flag becomes true exactly when the renewed media request returns true |
| `EvidenceFlow.PrepareStep` | screens/beneficiary/loan-evidence-camera-screen.tsx:161-174 | the renewed media request when the handler's flag was not true, then the gallery save under that flag: only the media flag and the log change, the log by the "Gallery access limited" alert and the gallery save |
| `EvidenceFlow.UploadLog` | screens/beneficiary/loan-evidence-camera-screen.tsx:161-196 | the block's added log ends with `TransferLog`, holds one more entry for a media-request throw under a flag that is not true and one for a returned save under a true flag, and holds a gallery save, of the uploaded file, exactly when the flag was true and the save returned |
| `EvidenceFlow.TransferLog` | screens/beneficiary/loan-evidence-camera-screen.tsx:142-196 | one to three entries: the `image/jpeg` file at the user's path first, exactly when the upload returns; the submitted record second, exactly when the submit returns too; and last "Upload complete" or "Upload failed" with the error; never a gallery save |
| `EvidenceFlow.AppendAssoc` | screens/beneficiary/loan-evidence-camera-screen.tsx:158-196 | proof helper: joining logs is associative |
| `EvidenceFlow.Submissions` | screens/beneficiary/loan-evidence-camera-screen.tsx:178-191 | the number of submission records in a log is zero exactly when it holds none |
| `EvidenceFlow.SubmissionsAppend` | screens/beneficiary/loan-evidence-camera-screen.tsx:178-191 | the submission count of two joined logs is the sum of their counts |
| `EvidenceFlow.UploadLogSubmissions` | screens/beneficiary/loan-evidence-camera-screen.tsx:176-196 | the `try` block submits exactly one record when upload and submit both return, and none otherwise |
| `EvidenceFlow.OneSubmissionPerSuccess` | screens/beneficiary/loan-evidence-camera-screen.tsx:151-204 | a confirmation that reaches the upload keeps the earlier log and adds exactly one submission when it completes and none when it fails |
| `EvidenceFlow.ComposeIsBestEffort` | screens/beneficiary/loan-evidence-camera-screen.tsx:167-173 | whether the watermark capture throws never changes whether or how a confirmation completes |
| `EvidenceFlow.FallbackUploadsRawPhoto` | screens/beneficiary/loan-evidence-camera-screen.tsx:167-177 | when composing throws, the raw photo is the file stored |
| `EvidenceFlow.CaptureErrorKeepsPhoto` | screens/beneficiary/loan-evidence-camera-screen.tsx:129-136 | a throw from getting the fix after the photo was taken, whether from the fetch or from the renewed location request, shows "Camera error" and keeps the photo |
| `EvidenceFlow.CaptureShowsPreview` | screens/beneficiary/loan-evidence-camera-screen.tsx:130-132 | a capture with a truthy uri leads to the preview of that uri |
| `EvidenceFlow.RetakeShowsCamera` | screens/beneficiary/loan-evidence-camera-screen.tsx:206-208 | with the camera granted, retaking shows the camera view |
| `EvidenceFlow.FailedConfirmStaysInPreview` | screens/beneficiary/loan-evidence-camera-screen.tsx:197-203 | a failed confirmation shows the same photo's preview with Confirm enabled again |
| `EvidenceFlow.CompletedConfirmShowsCamera` | screens/beneficiary/loan-evidence-camera-screen.tsx:193-196 | a completed confirmation returns to the camera view |
| `EvidenceFlow.GrantDuringConfirmSavesNothing` | screens/beneficiary/loan-evidence-camera-screen.tsx:150-175 | in any confirmation that reaches the upload, with or without a cached fix, a media permission granted by the renewed request is recorded but no gallery save happens |
| `EvidenceFlow.UngrantedUploadSavesNothing` | screens/beneficiary/loan-evidence-camera-screen.tsx:161-174 | the `try` block run with a media flag that is not true records the renewed grant and adds no gallery save to the log |
| `EvidenceFlow.GrantedConfirmSavesToGallery` | screens/beneficiary/loan-evidence-camera-screen.tsx:150-175 | in any confirmation that reaches the upload, with the media permission already granted and a save that returns, the composed (or raw) file is saved to the gallery |
| `EvidenceFlow.MediaErrorAtStartup` | screens/beneficiary/loan-evidence-camera-screen.tsx:50-57 | a media error at start-up is a denial with one alert; the location fix is still fetched |
| `EvidenceCamera.CameraScreen.constructor` | screens/beneficiary/loan-evidence-camera-screen.tsx:32-38 | every permission is unknown, with no photo, no fix and nothing in flight |
| `EvidenceCamera.CameraScreen.RequestRuntimePermissions` | screens/beneficiary/loan-evidence-camera-screen.tsx:87-99 | the new state is `StartupStep` of the old |
| `EvidenceCamera.CameraScreen.GrantCameraPermission` | screens/beneficiary/loan-evidence-camera-screen.tsx:246-249 | the new state is `CameraPermissionStep` of the old |
| `EvidenceCamera.CameraScreen.RequestMediaPermission` | screens/beneficiary/loan-evidence-camera-screen.tsx:40-58 | state and result are `MediaPermissionStep` of the old state |
| `EvidenceCamera.CameraScreen.SaveToGalleryIfAllowed` | screens/beneficiary/loan-evidence-camera-screen.tsx:60-72 | the new state is `GalleryStep` of the old |
| `EvidenceCamera.CameraScreen.EnsureLocation` | screens/beneficiary/loan-evidence-camera-screen.tsx:104-116 | state and result are `LocationStep` of the old state |
| `EvidenceCamera.CameraScreen.HandleCapture` | screens/beneficiary/loan-evidence-camera-screen.tsx:118-140 | the new state is `CaptureStep` of the old |
| `EvidenceCamera.CameraScreen.HandleConfirm` | screens/beneficiary/loan-evidence-camera-screen.tsx:151-204 | state and result are `ConfirmStep` of the old state |
| `EvidenceCamera.CameraScreen.Upload` | screens/beneficiary/loan-evidence-camera-screen.tsx:158-203 | state and result are `UploadStep` of the old state |
| `EvidenceCamera.CameraScreen.Transfer` | screens/beneficiary/loan-evidence-camera-screen.tsx:142-203 | state and result are `TransferStep` of the old state |
| `EvidenceCamera.CameraScreen.HandleRetake` | screens/beneficiary/loan-evidence-camera-screen.tsx:206-208 | the new state is `RetakeStep` of the old |
| `Zones.OfLevel` | screens/officer/zones-screen.tsx:48 | exactly the zones of the level, each as often as in the input (multiset), in original order (a subsequence) and no longer than the input |
| `Zones.FilteredZones` | screens/officer/zones-screen.tsx:46-49 | `All` returns the list unchanged; a zone is shown exactly when it is in the list and matches the filter; the result is an order-preserving subsequence |
| `Zones.AllKept` | screens/officer/zones-screen.tsx:47 | proof helper: every list is a subsequence of itself, used for the unfiltered `All` case |
| `Zones.OfLevelCons` | screens/officer/zones-screen.tsx:48 | filtering a list with a first element keeps that element exactly when it has the level, ahead of the filtered rest |
| `Zones.ShippedZonesOfLevel` | screens/officer/zones-screen.tsx:11-48 | filtering the shipped zones keeps each of zone-1, zone-2 and zone-3, in that order, exactly when its level matches |
| `Zones.OneZonePerLevel` | screens/officer/zones-screen.tsx:11-48 | with the shipped zones High, Medium and Low give zone-1, zone-2 and zone-3 alone |
| `Zones.Chips` | screens/officer/zones-screen.tsx:63-75 | four chips All, High, Medium, Low; a chip is drawn as chosen exactly when it equals the filter |
| `Zones.ExactlyOneChipChosen` | screens/officer/zones-screen.tsx:63-75 | exactly one chip is drawn as chosen |
| `Zones.ModalOf` | screens/officer/zones-screen.tsx:111-121 | visible exactly when a zone is selected; then it shows that zone's colour, name, level and message; with none selected the level reads "-" |
| `Zones.ZonesScreen.constructor` | screens/officer/zones-screen.tsx:43-44 | nothing selected, filter `All` |
| `Zones.ZonesScreen.Markers` | screens/officer/zones-screen.tsx:90-97 | with filter `All` every shipped zone has a marker |
| `Zones.ZonesScreen.SetFilter` | screens/officer/zones-screen.tsx:66 | only the filter changes; the markers become the filtered zones |
| `Zones.ZonesScreen.PressMarker` | screens/officer/zones-screen.tsx:95 | the pressed marker's zone is selected and the modal shows it |
| `Zones.ZonesScreen.CloseModal` | screens/officer/zones-screen.tsx:111-122 | Close and the request-close both clear the selection and hide the modal |
| `RiskLists.BadgeTokens` | components/organisms/beneficiary-risk-lists.tsx:183-184 | a listed status maps to its table pair; any other status to info/infoContainer |
| `RiskLists.FallbackExactlyForUnlisted` | components/organisms/beneficiary-risk-lists.tsx:158-184 | the fallback pair appears exactly for statuses the table does not list |
| `RiskLists.ListedStatuses` | components/organisms/beneficiary-risk-lists.tsx:158-166 | each of the seven statuses maps to its listed text/background pair |
| `RiskLists.CardOf` | components/organisms/beneficiary-risk-lists.tsx:182-221 | key, name, address and status come from the item; badge colours are `BadgeTokens` of the status; six details Category, Loan ID, Bank, Assigned Officer, Documents, Last Updated with the item's values; the button passes the item |
| `RiskLists.Cards` | components/organisms/beneficiary-risk-lists.tsx:233 | one card per item, in input order |
| `RiskLists.SectionOf` | components/organisms/beneficiary-risk-lists.tsx:223-235 | the header starts with the item count and ends with " beneficiaries"; the cards are those of the data |
| `RiskLists.SectionCountReadsBack` | components/organisms/beneficiary-risk-lists.tsx:230 | the header's count reads back as the number of cards |
| `RiskLists.RiskListsOf` | components/organisms/beneficiary-risk-lists.tsx:238-255 | sections High Risk, Pending Review, Deadline Crossed in that order, each with the prop's list when given, else the shipped list |
| `RiskLists.EmptyPropIsKept` | components/organisms/beneficiary-risk-lists.tsx:245 | an empty list passed in shows an empty section |
| `RiskLists.DefaultSectionSizes` | components/organisms/beneficiary-risk-lists.tsx:29-156 | without props the sections hold 3, 5 and 2 cards |
| `RiskLists.ShippedStatusesListed` | components/organisms/beneficiary-risk-lists.tsx:29-166 | every shipped loan's status has its own table entry |
| `RiskLists.ViewDetailsPressed` | components/organisms/beneficiary-risk-lists.tsx:216 | the callback gets the card's item exactly when a callback was passed |
| `RiskLists.ViewDetailsPassesOwnItem` | components/organisms/beneficiary-risk-lists.tsx:216-233 | the i-th card's button passes the i-th item |
| `Dashboard.Toggled` | screens/officer/dashboard-screen.tsx:50-52 | the toggled key is negated; the other two keys are unchanged |
| `Dashboard.SameOpenness` | screens/officer/dashboard-screen.tsx:29-33 | proof helper: an open-sections record is determined by what it says about each key |
| `Dashboard.ToggleTwice` | screens/officer/dashboard-screen.tsx:50-52 | toggling a key twice restores the record |
| `Dashboard.TogglesCommute` | screens/officer/dashboard-screen.tsx:50-52 | toggles of two keys commute |
| `Dashboard.DashboardScreen.constructor` | screens/officer/dashboard-screen.tsx:29-33 | all three sections start open |
| `Dashboard.DashboardScreen.ToggleSection` | screens/officer/dashboard-screen.tsx:50-52 | the record becomes `Toggled(old, key)` |
| `Dashboard.AlertRowOf` | screens/officer/dashboard-screen.tsx:79-89 | a row shows the item's name, "Loan ID: ", "Bank: " and "Last Updated: " texts and status |
| `Dashboard.AlertRows` | screens/officer/dashboard-screen.tsx:78-90 | one row per item, in order |
| `Dashboard.AlertCardOf` | screens/officer/dashboard-screen.tsx:54-94 | the count reads "<n> items"; the body is rendered exactly when the section is open, and then has one row per item; the chevron is up exactly then |
| `Dashboard.AlertCards` | screens/officer/dashboard-screen.tsx:208-210 | the high, pending and deadline cards in that order, each open exactly when its key is, counting the shipped lists |
| `Dashboard.ToggleRedrawsOneCard` | screens/officer/dashboard-screen.tsx:50-94 | a toggle changes the toggled section's card and no other |
| `Dashboard.ChipCount` | screens/officer/dashboard-screen.tsx:97-99 | all digits, reading back as the count; two characters below 10 ("0" then the digit); the plain decimal text from 10 on |
| `Dashboard.ChipCountKeepsAllDigits` | screens/officer/dashboard-screen.tsx:97-99 | counts of 100 or more are not truncated |
| `Dashboard.AlertChips` | screens/officer/dashboard-screen.tsx:96-100 | chips High Risk, Pending Review, Deadline Crossed opening the verification tasks filtered by highRisk, pending, deadline; each count is at least two digits and reads back as its list's length |
| `Dashboard.ShippedChipCounts` | screens/officer/dashboard-screen.tsx:96-100 | with the shipped lists the chips read "03", "05", "02" |
| `Dashboard.ChipsAgreeWithSections` | screens/officer/dashboard-screen.tsx:67-99 | each chip's count equals its section's "<n> items" count |
| `Dashboard.OfficerHeaderOf` | screens/officer/dashboard-screen.tsx:24-26 | name, id and region come from the profile when present, "" included, else from 'District Officer', 'OFF-2024-001' and 'Bhopal Division' |
| `Dashboard.ViewDetailsRoute` | screens/officer/dashboard-screen.tsx:39-44 | the route filters by the loan's status and names its loan id |
| `Dashboard.WiredViewDetailsOpensItsLoan` | screens/officer/dashboard-screen.tsx:39-44 | conditional, since nothing passes `handleViewDetails` on: were it a card's `onViewDetails`, the card's button would open the tasks for that card's own status and loan id |

## Left out

- Rendering, styles, palettes, icons and colour-string concatenation. Only the view facts named above are modelled: which screen, which texts, which controls are enabled, and in what order.
- Platform calls are parameters holding each call's outcome (returns or throws), not executions. This covers `expo-camera`, `expo-location`, `expo-media-library`, `captureRef`, `fetch`/`blob`, Firebase storage, `submitEvidence`, `Alert` and navigation. `Alert` and the storage upload are recorded in the effect log.
- The storage upload is one step: `fetch`, `blob`, `uploadBytes` and `getDownloadURL` together either return a URL or throw. A stored file is logged only when that step returns a URL, so a partial upload that then fails is not represented.
- Floating point: `toFixed(5)` and `toFixed(4)` are not modelled. The watermark takes already formatted coordinate strings, and the GPS bar carries the fix itself.
- `Date` is not modelled: time zones, `getDate`/`getMonth`/`getHours`, and the ISO rendering of `capturedAt`/`submittedAt`. The model takes calendar fields and millisecond timestamps as inputs.
- Repeated clock readings: `handleConfirm` reads the clock several times (path, `timestamp ?? Date.now()`, `submittedAt`). The model uses one reading per confirmation.
- Decimal: models `Number.prototype.toString` only for integers, and is faithful below 10^21, where JavaScript switches to exponent notation.
- Hook scheduling and interleaving are not modelled: `useEffect`/`useMemo`, `InteractionManager.runAfterInteractions`, and re-renders during an awaited call. Each handler runs to completion on the state it started with. The only guards the source has are the in-flight flags.
- The composed overlay view behind `captureRef` is not modelled. Its result is the compose outcome parameter of a confirmation.
- `navigation.goBack()` from the upload-complete alert's Done button is not modelled. Neither are the notification, refresh and quick-action buttons of the dashboard.
- Console logging is not modelled.
- The dashboard's hard-coded utilisation trend, verification queue, quick actions and today's tasks, and `utilisationChange.toFixed(1)`, are left out as static data and floating point.
- `Dashboard.AlertRowOf`: the `lastUpdated ?? '—'` fallback is unreachable, because `lastUpdated` is a required string of `LoanItem`. The row always shows the item's value.
- `ZonesScreen.PressMarker`: a marker press is modelled by index into the markers on screen. Marker keys and coordinates as map props are not modelled.
- The legend and the map's initial region in the zones screen are static presentation.
- The auth store and the route are not modelled. `RequestFor` takes the profile id and the route parameters as arguments. The second `?? 'anonymous'` in the upload filename can never apply, because the user id is already a string.
- `RiskLists.LoanItem`: `documents` is a JavaScript `number`; the model narrows it to an integer, which is all the shipped lists hold and all a card renders.
