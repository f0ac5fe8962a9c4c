/** The multer configuration of `backend/middleware/uploadMiddleware.js`:
    where accepted files are stored, under which name, which media types pass
    the filter, and the size limit. */
module UploadMiddleware {
  import opened Outcomes
  import opened Text
  import MeetingModel

  /** Directory every accepted file is written to. */
  const Destination := "uploads/"

  /** `limits.fileSize`: 100 MiB. */
  const MaxFileSize: nat := 100 * 1024 * 1024

  /** Error the filter raises for anything that is not audio or video. */
  const NotMediaMessage := "Only audio and video files are allowed!"

  /** Error multer raises when a file grows past `limits.fileSize`. */
  const TooLargeMessage := "File too large"

  /** What the filter hands to its callback: an error (or none) and whether
      the file is accepted. */
  datatype FilterDecision = FilterDecision(error: Option<string>, accept: bool)

  /** A file as the multipart parser announces it, before it is stored. */
  datatype Incoming = Incoming(originalName: string, mimeType: string, size: nat)

  /** `req.file` once multer has stored the file. */
  datatype StoredFile = StoredFile(
    originalName: string, mimeType: string, fileName: string, path: string, size: nat)

  predicate IsMediaType(mimeType: string) {
    StartsWith(mimeType, "audio/") || StartsWith(mimeType, "video/")
  }

  /** `fileFilter`: accept audio and video, refuse the rest with an error. */
  function FileFilter(mimeType: string): (d: FilterDecision)
    ensures d.accept <==> IsMediaType(mimeType)
    ensures d.accept ==> d.error == None
    ensures !d.accept ==> d.error == Some(NotMediaMessage)
  {
    if StartsWith(mimeType, "audio/") || StartsWith(mimeType, "video/") then
      FilterDecision(None, true)
    else
      FilterDecision(Some(NotMediaMessage), false)
  }

  /** The filter accepts exactly the types of the form `audio/…` or `video/…`
      (case-sensitively). */
  lemma FilterAcceptsExactlyMedia(mimeType: string)
    ensures FileFilter(mimeType).accept <==>
      (exists sub :: mimeType == "audio/" + sub) || (exists sub :: mimeType == "video/" + sub)
  {
    StartsWithIff(mimeType, "audio/");
    StartsWithIff(mimeType, "video/");
  }

  /** `storage.filename`: the upload time in milliseconds, a dash, and the
      client's file name. */
  function StoredFileName(now: MeetingModel.Time, originalName: string): (name: string)
    ensures EndsWith(name, "-" + originalName)
  {
    var name := Decimal(now) + "-" + originalName;
    assert name[|name| - |"-" + originalName|..] == "-" + originalName;
    name
  }

  /** The stored name keeps both parts recoverable: the digits before the
      first dash are the timestamp, everything after it is the original name. */
  lemma {:induction false} StoredFileNameRoundTrip(now: MeetingModel.Time, originalName: string)
    ensures AfterFirst(StoredFileName(now, originalName), '-') == Some(originalName)
    ensures var stamp := BeforeFirst(StoredFileName(now, originalName), '-');
      && stamp.Some?
      && (forall i :: 0 <= i < |stamp.value| ==> IsDigit(stamp.value[i]))
      && DecimalValue(stamp.value) == now
  {
    DigitsThenDash(Decimal(now), originalName);
    DecimalRoundTrip(now);
  }

  /** A run of digits followed by a dash splits at that dash, whatever
      follows it. */
  lemma {:induction false} DigitsThenDash(digits: string, rest: string)
    requires forall i :: 0 <= i < |digits| ==> IsDigit(digits[i])
    ensures AfterFirst(digits + "-" + rest, '-') == Some(rest)
    ensures BeforeFirst(digits + "-" + rest, '-') == Some(digits)
    decreases |digits|
  {
    var s := digits + "-" + rest;
    if |digits| == 0 {
      assert s[0] == '-' && s[1..] == rest;
    } else {
      assert s[0] == digits[0] && s[0] != '-';
      assert s[1..] == digits[1..] + "-" + rest;
      DigitsThenDash(digits[1..], rest);
      assert digits == [digits[0]] + digits[1..];
    }
  }

  /** What multer does with one incoming file field: the filter runs first,
      then the file is streamed to disk, failing once it exceeds the limit. */
  function Admit(file: Incoming, now: MeetingModel.Time): (r: Result<StoredFile>)
    ensures r.Ok? <==> IsMediaType(file.mimeType) && file.size <= MaxFileSize
    ensures !IsMediaType(file.mimeType) ==> r == Err(NotMediaMessage)
    ensures IsMediaType(file.mimeType) && file.size > MaxFileSize ==> r == Err(TooLargeMessage)
    ensures r.Ok? ==>
      && r.value.originalName == file.originalName
      && r.value.mimeType == file.mimeType
      && r.value.size == file.size
      && StartsWith(r.value.path, Destination)
      && r.value.path == Destination + r.value.fileName
      && EndsWith(r.value.fileName, "-" + file.originalName)
  {
    var d := FileFilter(file.mimeType);
    if !d.accept then
      Err(d.error.GetOr(NotMediaMessage))
    else if file.size > MaxFileSize then
      Err(TooLargeMessage)
    else
      var name := StoredFileName(now, file.originalName);
      assert (Destination + name)[..|Destination|] == Destination;
      Ok(StoredFile(file.originalName, file.mimeType, name, Destination + name, file.size))
  }

  /** The limit is inclusive: a file of exactly 100 MiB of audio is stored,
      one byte more is refused. */
  lemma SizeLimitBoundary(name: string, sub: string, now: MeetingModel.Time)
    ensures Admit(Incoming(name, "audio/" + sub, 104857600), now).Ok?
    ensures Admit(Incoming(name, "audio/" + sub, 104857601), now) == Err(TooLargeMessage)
  {
    assert StartsWith("audio/" + sub, "audio/");
  }
}
