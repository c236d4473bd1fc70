/**
 * The pure part of the loan-evidence camera screen: the watermark lines
 * burned into a photo, the storage path an upload goes to, and the
 * submission record written once the upload has a URL.
 */
module EvidenceRecord {
  import opened Js

  /**
   * What one capture screen gathers evidence for: the route parameters
   * and the signed-in user's id.
   */
  datatype CaptureRequest = CaptureRequest(
    requirementId: Option<string>,
    requirementName: Option<string>,
    loanId: Option<string>,
    userId: string)

  /**
   * The request a screen is opened with: the route parameters as given, and
   * the signed-in profile's id, or "anonymous" when there is no id. An
   * empty id is kept, and is the only way the user id can be empty.
   */
  function RequestFor(requirementId: Option<string>, requirementName: Option<string>, loanId: Option<string>,
                      profileId: Option<string>): (r: CaptureRequest)
    ensures r.requirementId == requirementId && r.requirementName == requirementName && r.loanId == loanId
    ensures profileId.Some? ==> r.userId == profileId.value
    ensures profileId.None? ==> r.userId == "anonymous"
    ensures r.userId == "" <==> profileId == Some("")
  {
    CaptureRequest(requirementId, requirementName, loanId, profileId.OrElse("anonymous"))
  }

  /** One location reading: coordinates and the time it was taken, in milliseconds. */
  datatype Fix = Fix(latitude: real, longitude: real, timestamp: Option<nat>)

  // ---------------------------------------------------------------------
  // Upload path

  const EvidenceFolder := "loan-evidence/"
  const PhotoExtension := ".jpg"
  /** The content type every upload is sent with. */
  const JpegContentType := "image/jpeg"

  /** `loan-evidence/{userId}/{millis}.jpg`. */
  function UploadPath(userId: string, millis: nat): (path: string)
    ensures StartsWith(path, EvidenceFolder + userId + "/")
    ensures EndsWith(path, PhotoExtension)
  {
    EvidenceFolder + userId + "/" + Decimal(millis) + PhotoExtension
  }

  /** Between the user's folder and the extension the path holds the timestamp, which reads back. */
  lemma UploadPathRoundTrip(userId: string, millis: nat)
    ensures var p := UploadPath(userId, millis);
      var k := |EvidenceFolder + userId + "/"|;
      k <= |p| - |PhotoExtension| &&
      IsDigits(p[k..|p| - |PhotoExtension|]) &&
      ParseDecimal(p[k..|p| - |PhotoExtension|]) == millis
  {
    var p := UploadPath(userId, millis);
    var k := |EvidenceFolder + userId + "/"|;
    assert p[k..|p| - |PhotoExtension|] == Decimal(millis);
    ParseDecimalOfDecimal(millis);
  }

  /** Two uploads by the same user at different milliseconds go to different paths. */
  lemma UploadPathInjective(userId: string, m1: nat, m2: nat)
    requires UploadPath(userId, m1) == UploadPath(userId, m2)
    ensures m1 == m2
  {
    UploadPathRoundTrip(userId, m1);
    UploadPathRoundTrip(userId, m2);
  }

  // ---------------------------------------------------------------------
  // Submission record

  datatype Coordinates = Coordinates(latitude: real, longitude: real)

  /**
   * The record handed to the submission sink. The two timestamps are kept
   * as milliseconds; their ISO-8601 rendering is not part of this model.
   */
  datatype EvidenceSubmission = EvidenceSubmission(
    assetName: string,
    mediaType: string,
    capturedAt: nat,
    submittedAt: nat,
    location: Coordinates,
    remarks: Option<string>,
    mediaUrl: string,
    thumbnailUrl: string)

  const DefaultAssetName := "Loan Evidence"
  const RequirementMarker := "Requirement: "

  /** The requirement id a remarks field names, if it carries the requirement marker. */
  function RequirementOfRemarks(remarks: Option<string>): Option<string> {
    if remarks.Some? && StartsWith(remarks.value, RequirementMarker)
    then Some(remarks.value[|RequirementMarker|..])
    else None
  }

  /**
   * The submission for a photo uploaded to `url`, located by `fix`, at
   * clock time `nowMillis`.
   */
  function SubmissionRecord(request: CaptureRequest, fix: Fix, nowMillis: nat, url: string): (r: EvidenceSubmission)
    ensures r.mediaUrl == url && r.thumbnailUrl == url
    ensures r.mediaType == "photo"
    ensures request.requirementName.Some? ==> r.assetName == request.requirementName.value
    ensures request.requirementName.None? ==> r.assetName == DefaultAssetName
    ensures r.remarks.Some? <==> Truthy(request.requirementId)
    ensures RequirementOfRemarks(r.remarks) == if Truthy(request.requirementId) then request.requirementId else None
    ensures r.capturedAt == (if fix.timestamp.Some? then fix.timestamp.value else nowMillis)
    ensures r.submittedAt == nowMillis
    ensures r.location == Coordinates(fix.latitude, fix.longitude)
  {
    EvidenceSubmission(
      assetName := request.requirementName.OrElse(DefaultAssetName),
      mediaType := "photo",
      capturedAt := fix.timestamp.OrElse(nowMillis),
      submittedAt := nowMillis,
      location := Coordinates(fix.latitude, fix.longitude),
      remarks := if Truthy(request.requirementId) then Some(RequirementMarker + request.requirementId.value) else None,
      mediaUrl := url,
      thumbnailUrl := url)
  }

  // ---------------------------------------------------------------------
  // Watermark

  /**
   * Local calendar fields of a timestamp, as `getDate()`, `getMonth()`
   * (zero-based), `getFullYear()`, `getHours()` and `getMinutes()` give them.
   */
  datatype CalendarTime = CalendarTime(day: nat, month0: nat, year: nat, hour: nat, minute: nat)

  /** `n.toString().padStart(2, '0')`. */
  function Pad2(n: nat): string {
    PadStart(Decimal(n), 2, '0')
  }

  /** Two-digit padding of a number below 100 gives two digits that read back as the number. */
  lemma Pad2Digits(n: nat)
    requires n < 100
    ensures |Pad2(n)| == 2 && IsDigits(Pad2(n)) && ParseDecimal(Pad2(n)) == n
  {
    ParsePadded(n, 2);
  }

  /** `DD-MM-YYYY HH:MM`, with the month counted from one. */
  function DateTimeText(t: CalendarTime): string {
    Pad2(t.day) + "-" + Pad2(t.month0 + 1) + "-" + Decimal(t.year) + " " + Pad2(t.hour) + ":" + Pad2(t.minute)
  }

  /** A text made of a head, one separator character and a rest splits back into those three. */
  lemma SplitAround(head: string, sep: char, rest: string)
    ensures var s := head + ([sep] + rest);
      |s| == |head| + 1 + |rest| && s[..|head|] == head && s[|head|] == sep && s[|head| + 1..] == rest
  {
    var s := head + ([sep] + rest);
    assert s[..|head|] == head;
    assert s[|head| + 1..] == rest;
  }

  /** Where each field of a `DD-MM-YYYY HH:MM` layout sits, for fields of the right widths. */
  lemma DateTimeLayout(dd: string, mm: string, yyyy: string, hh: string, mi: string)
    requires |dd| == 2 && |mm| == 2 && |yyyy| == 4 && |hh| == 2 && |mi| == 2
    ensures var s := dd + "-" + mm + "-" + yyyy + " " + hh + ":" + mi;
      |s| == 16 && s[2] == '-' && s[5] == '-' && s[10] == ' ' && s[13] == ':' &&
      s[0..2] == dd && s[3..5] == mm && s[6..10] == yyyy && s[11..13] == hh && s[14..16] == mi
  {
    var r4 := hh + ([':'] + mi);
    var r3 := yyyy + ([' '] + r4);
    var r2 := mm + (['-'] + r3);
    var s := dd + (['-'] + r2);
    assert dd + "-" + mm + "-" + yyyy + " " + hh + ":" + mi == s;
    SplitAround(dd, '-', r2);
    SplitAround(mm, '-', r3);
    SplitAround(yyyy, ' ', r4);
    SplitAround(hh, ':', mi);
    assert s[3..] == r2 && s[6..] == r3 && s[11..] == r4 && s[14..] == mi;
    assert s[3..5] == s[3..][..2];
    assert s[6..10] == s[6..][..4];
    assert s[11..13] == s[11..][..2];
    assert s[14..16] == s[14..];
  }

  /** Digit fields that read back as given numbers still do so once laid out as `DD-MM-YYYY HH:MM`. */
  lemma LayoutReadsBack(dd: string, mm: string, yyyy: string, hh: string, mi: string,
                        day: nat, month: nat, year: nat, hour: nat, minute: nat)
    requires |dd| == 2 && |mm| == 2 && |yyyy| == 4 && |hh| == 2 && |mi| == 2
    requires IsDigits(dd) && IsDigits(mm) && IsDigits(yyyy) && IsDigits(hh) && IsDigits(mi)
    requires ParseDecimal(dd) == day && ParseDecimal(mm) == month && ParseDecimal(yyyy) == year
    requires ParseDecimal(hh) == hour && ParseDecimal(mi) == minute
    ensures var s := dd + "-" + mm + "-" + yyyy + " " + hh + ":" + mi;
      |s| == 16 && s[2] == '-' && s[5] == '-' && s[10] == ' ' && s[13] == ':' &&
      IsDigits(s[0..2]) && IsDigits(s[3..5]) && IsDigits(s[6..10]) && IsDigits(s[11..13]) && IsDigits(s[14..16]) &&
      ParseDecimal(s[0..2]) == day && ParseDecimal(s[3..5]) == month &&
      ParseDecimal(s[6..10]) == year && ParseDecimal(s[11..13]) == hour &&
      ParseDecimal(s[14..16]) == minute
  {
    DateTimeLayout(dd, mm, yyyy, hh, mi);
  }

  /**
   * For any date with a four-digit year, the time text is sixteen characters
   * with its separators at fixed places, and every field reads back.
   */
  lemma DateTimeTextReadsBack(t: CalendarTime)
    requires t.day < 100 && t.month0 + 1 < 100 && t.hour < 100 && t.minute < 100
    requires 1000 <= t.year < 10000
    ensures var s := DateTimeText(t);
      |s| == 16 && s[2] == '-' && s[5] == '-' && s[10] == ' ' && s[13] == ':' &&
      IsDigits(s[0..2]) && IsDigits(s[3..5]) && IsDigits(s[6..10]) && IsDigits(s[11..13]) && IsDigits(s[14..16]) &&
      ParseDecimal(s[0..2]) == t.day && ParseDecimal(s[3..5]) == t.month0 + 1 &&
      ParseDecimal(s[6..10]) == t.year && ParseDecimal(s[11..13]) == t.hour &&
      ParseDecimal(s[14..16]) == t.minute
  {
    var dd, mm, yyyy, hh, mi := Pad2(t.day), Pad2(t.month0 + 1), Decimal(t.year), Pad2(t.hour), Pad2(t.minute);
    Pad2Digits(t.day);
    Pad2Digits(t.month0 + 1);
    Pad2Digits(t.hour);
    Pad2Digits(t.minute);
    FourDigitYear(t.year);
    assert DateTimeText(t) == dd + "-" + mm + "-" + yyyy + " " + hh + ":" + mi;
    LayoutReadsBack(dd, mm, yyyy, hh, mi, t.day, t.month0 + 1, t.year, t.hour, t.minute);
  }

  /** A year from 1000 to 9999 is written with four digits that read back as the year. */
  lemma FourDigitYear(year: nat)
    requires 1000 <= year < 10000
    ensures |Decimal(year)| == 4 && IsDigits(Decimal(year)) && ParseDecimal(Decimal(year)) == year
  {
    assert Pow10(3) == 1000 && Pow10(4) == 10000;
    DecimalLength(year, 3);
    ParseDecimalOfDecimal(year);
  }

  /** The location part of a watermark: coordinates already formatted by `toFixed(5)`, and the capture time. */
  datatype Stamp = Stamp(latitudeText: string, longitudeText: string, time: CalendarTime)

  /** What `filter(Boolean)` keeps of one `string | undefined` slot. */
  function Cell(x: Option<string>): seq<string> {
    if Truthy(x) then [x.value] else []
  }

  /** `[...].filter(Boolean)` over `string | undefined` slots: keeps the truthy ones, in order. */
  function Present(slots: seq<Option<string>>): (r: seq<string>)
    ensures |r| <= |slots|
  {
    if slots == [] then [] else Cell(slots[0]) + Present(slots[1..])
  }

  lemma {:induction false} PresentAppend(xs: seq<Option<string>>, ys: seq<Option<string>>)
    ensures Present(xs + ys) == Present(xs) + Present(ys)
  {
    if xs == [] {
      assert xs + ys == ys;
    } else {
      calc {
        Present(xs + ys);
        { assert (xs + ys)[0] == xs[0] && (xs + ys)[1..] == xs[1..] + ys; }
        Cell(xs[0]) + Present(xs[1..] + ys);
        { PresentAppend(xs[1..], ys); }
        Cell(xs[0]) + (Present(xs[1..]) + Present(ys));
      }
    }
  }

  /** An optional watermark line: `prefix + value` when the value is truthy, nothing otherwise. */
  function OptionalLine(prefix: string, value: Option<string>): seq<string> {
    if Truthy(value) then [prefix + value.value] else []
  }

  /**
   * The lines of the watermark overlay. There are none without a location;
   * otherwise latitude, longitude and time come first, then the loan,
   * requirement and user lines in that order, each only when its field is
   * truthy.
   */
  function WatermarkLines(stamp: Option<Stamp>, request: CaptureRequest): (lines: seq<string>)
    ensures stamp.None? ==> lines == []
    ensures stamp.Some? ==>
      lines == ["Lat: " + stamp.value.latitudeText]
               + (["Lon: " + stamp.value.longitudeText]
               + (["Time: " + DateTimeText(stamp.value.time)]
               + (OptionalLine("Loan: ", request.loanId)
               + (OptionalLine("Req: ", request.requirementName)
               + OptionalLine("User: ", Some(request.userId))))))
  {
    if stamp.None? then []
    else
      // The six slots of the source's array literal, before `filter(Boolean)`.
      var lat := Some("Lat: " + stamp.value.latitudeText);
      var lon := Some("Lon: " + stamp.value.longitudeText);
      var time := Some("Time: " + DateTimeText(stamp.value.time));
      var loan := if Truthy(request.loanId) then Some("Loan: " + request.loanId.value) else None;
      var req := if Truthy(request.requirementName) then Some("Req: " + request.requirementName.value) else None;
      var user := if request.userId != "" then Some("User: " + request.userId) else None;
      PresentOfSlots(lat, lon, time, loan, req, user);
      Present([lat] + ([lon] + ([time] + ([loan] + ([req] + [user])))))
  }

  /** `Present` of six slots, slot by slot. */
  lemma PresentOfSlots(a: Option<string>, b: Option<string>, c: Option<string>,
                       d: Option<string>, e: Option<string>, f: Option<string>)
    ensures Present([a] + ([b] + ([c] + ([d] + ([e] + [f])))))
            == Cell(a) + (Cell(b) + (Cell(c) + (Cell(d) + (Cell(e) + Cell(f)))))
  {
    var t5 := [f];
    var t4 := [e] + t5;
    var t3 := [d] + t4;
    var t2 := [c] + t3;
    var t1 := [b] + t2;
    assert t5 == [f] + [];
    calc {
      Present([a] + t1);
      { PresentCons(a, t1); }
      Cell(a) + Present(t1);
      { PresentCons(b, t2); }
      Cell(a) + (Cell(b) + Present(t2));
      { PresentCons(c, t3); }
      Cell(a) + (Cell(b) + (Cell(c) + Present(t3)));
      { PresentCons(d, t4); }
      Cell(a) + (Cell(b) + (Cell(c) + (Cell(d) + Present(t4))));
      { PresentCons(e, t5); }
      Cell(a) + (Cell(b) + (Cell(c) + (Cell(d) + (Cell(e) + Present(t5)))));
      { PresentCons(f, []); }
      Cell(a) + (Cell(b) + (Cell(c) + (Cell(d) + (Cell(e) + Cell(f)))));
    }
  }

  lemma PresentCons(x: Option<string>, xs: seq<Option<string>>)
    ensures Present([x] + xs) == Cell(x) + Present(xs)
  {
    assert ([x] + xs)[0] == x && ([x] + xs)[1..] == xs;
  }

  lemma OptionalLinePresent(prefix: string, value: string)
    requires value != ""
    ensures OptionalLine(prefix, Some(value)) == [prefix + value]
  {
  }

  /** With every optional field given, the overlay has exactly six lines in the fixed order. */
  lemma WatermarkAllFields(lat: string, lon: string, time: CalendarTime, requirementId: Option<string>,
                           loan: string, requirement: string, user: string)
    requires loan != "" && requirement != "" && user != ""
    ensures WatermarkLines(Some(Stamp(lat, lon, time)), CaptureRequest(requirementId, Some(requirement), Some(loan), user))
            == ["Lat: " + lat, "Lon: " + lon, "Time: " + DateTimeText(time),
                "Loan: " + loan, "Req: " + requirement, "User: " + user]
  {
    OptionalLinePresent("Loan: ", loan);
    OptionalLinePresent("Req: ", requirement);
    OptionalLinePresent("User: ", user);
    SixLines("Lat: " + lat, "Lon: " + lon, "Time: " + DateTimeText(time),
             "Loan: " + loan, "Req: " + requirement, "User: " + user);
  }

  lemma SixLines(a: string, b: string, c: string, d: string, e: string, f: string)
    ensures [a] + ([b] + ([c] + ([d] + ([e] + [f])))) == [a, b, c, d, e, f]
  {
  }

  /** With loan, requirement name and user id each absent or empty, only the three location lines remain. */
  lemma WatermarkWithoutOptionalFields(stamp: Stamp, r: CaptureRequest)
    requires !Truthy(r.loanId) && !Truthy(r.requirementName) && r.userId == ""
    ensures WatermarkLines(Some(stamp), r) ==
            ["Lat: " + stamp.latitudeText, "Lon: " + stamp.longitudeText, "Time: " + DateTimeText(stamp.time)]
  {
  }
}
