/** The Gemini wrapper of `backend/services/geminiService.js`.  Every provider
    call is an input `Reply`; what the module itself decides is modelled:
    how a provider failure is turned into a stage-specific error, the
    parse-or-empty policy of the task extraction, how a file id is cut out
    of a URI, and that deleting a remote file never fails. */
module GeminiService {
  import opened Outcomes
  import opened Text
  import opened MeetingModel

  /** What the File API returns for an upload. */
  datatype RemoteFile = RemoteFile(uri: string, mimeType: string)

  /** The `fileData` part of the transcription request. */
  datatype FileData = FileData(mimeType: string, uri: string)

  /** The four provider stages whose failures the module re-throws. */
  datatype Stage = MediaUpload | Transcription | Summarization | TaskExtraction

  /** The message prefix each stage puts in front of the provider's error. */
  function Prefix(stage: Stage): string {
    match stage
    case MediaUpload => "Failed to upload file for AI processing: "
    case Transcription => "Failed to generate transcript from media: "
    case Summarization => "Failed to generate meeting summary: "
    case TaskExtraction => "Failed to extract tasks from transcript: "
  }

  /** The `try { … } catch (error) { throw new Error(prefix + error.message) }`
      shape shared by all four stages. */
  function Guard<T>(stage: Stage, reply: Reply<T>): (r: Result<T>)
    ensures r.Ok? <==> reply.Answered?
    ensures reply.Answered? ==> r.value == reply.value
    ensures reply.Rejected? ==> r.message == Prefix(stage) + reply.message
  {
    match reply
    case Answered(v) => Ok(v)
    case Rejected(e) => Err(Prefix(stage) + e)
  }

  /** A guarded failure names its stage: the re-thrown message classifies
      back to the stage and to the provider's own message. */
  lemma GuardNamesStage<T>(stage: Stage, reply: Reply<T>)
    requires reply.Rejected?
    ensures Guard(stage, reply).Err?
    ensures Classify(Guard(stage, reply).message) == Some((stage, reply.message))
  {
    StageErrorsIdentifyStage(stage, reply.message);
  }

  /** `uploadFileToGemini(filePath, mimeType)`; `reply` is what the File API
      upload of that file did. */
  function UploadFileToGemini(reply: Reply<RemoteFile>): Result<RemoteFile> {
    Guard(MediaUpload, reply)
  }

  /** The media part `generateTranscript(geminiFile)` attaches to its request:
      the upload result's type and URI, nothing else. */
  function TranscriptionPart(file: RemoteFile): (part: FileData)
    ensures part.mimeType == file.mimeType && part.uri == file.uri
  {
    FileData(file.mimeType, file.uri)
  }

  /** `generateTranscript(geminiFile)`; `reply` is the text the model answered
      for the request carrying `TranscriptionPart(geminiFile)`. */
  function GenerateTranscript(reply: Reply<string>): Result<string> {
    Guard(Transcription, reply)
  }

  /** `generateSummary(transcript)`. */
  function GenerateSummary(reply: Reply<string>): Result<string> {
    Guard(Summarization, reply)
  }

  /** The inner `try { return JSON.parse(text) } catch { return [] }`: the
      parsed value verbatim, or the empty array when the text is not JSON.
      `parse` is `JSON.parse` as a partial function. */
  function ParseOrEmpty(text: string, parse: string -> Option<Json>): (tasks: Json)
    ensures parse(text).Some? ==> tasks == parse(text).value
    ensures parse(text).None? ==> tasks == NoTasks
  {
    match parse(text)
    case Some(v) => v
    case None => NoTasks
  }

  /** `extractTasks(transcript)`: a provider failure is re-thrown with the
      stage prefix; an answer is parsed, and unparsable text degrades to no
      tasks instead of an error. */
  function ExtractTasks(reply: Reply<string>, parse: string -> Option<Json>): (r: Result<Json>)
    ensures r.Ok? <==> reply.Answered?
    ensures reply.Answered? ==> r.value == ParseOrEmpty(reply.value, parse)
    ensures reply.Rejected? ==> r == Err(Prefix(TaskExtraction) + reply.message)
  {
    match reply
    case Answered(text) => Ok(ParseOrEmpty(text, parse))
    case Rejected(e) => Err(Prefix(TaskExtraction) + e)
  }

  /** The file id `deleteGeminiFile` sends: the part of the URI after its
      last slash, or the whole URI when it has none. */
  function FileIdOf(uri: string): (id: string)
    ensures '/' !in id && EndsWith(uri, id)
    ensures '/' in uri ==> EndsWith(uri, "/" + id)
    ensures '/' !in uri ==> id == uri
  {
    if '/' in uri then
      AfterLastBehindSlash(uri);
      AfterLast(uri, '/')
    else
      AfterLastOfPlain(uri, '/');
      AfterLast(uri, '/')
  }

  /** `FileIdOf` is what `fileUri.split('/').pop()` evaluates to. */
  lemma FileIdIsSplitPop(uri: string)
    ensures FileIdOf(uri) == Last(Split(uri, '/'))
  {
    SplitPopIsAfterLast(uri, '/');
  }

  lemma AfterLastBehindSlash(uri: string)
    requires '/' in uri
    ensures EndsWith(uri, "/" + AfterLast(uri, '/'))
  {
    var id := AfterLast(uri, '/');
    var k := |uri| - |id| - 1;
    assert uri[k] == '/' && uri[k + 1..] == id;
    assert uri[k..] == [uri[k]] + uri[k + 1..];
  }

  /** One attempt to delete a remote file: the id sent and how
      `deleteGeminiFile` itself settles. */
  datatype Deletion = Deletion(fileId: string, settled: Outcome)

  /** `deleteGeminiFile(fileUri)`; `deleted` is what the File API delete did.
      Whatever it did, the function resolves: every error is logged and
      swallowed. */
  function DeleteGeminiFile(uri: string, deleted: Outcome): (d: Deletion)
    ensures d.fileId == FileIdOf(uri)
    ensures d.settled == Done
  {
    Deletion(FileIdOf(uri), Done)
  }

  /** Reads back which stage an error message came from, and the provider's
      own message inside it. */
  function Classify(message: string): Option<(Stage, string)> {
    if StartsWith(message, Prefix(MediaUpload)) then
      Some((MediaUpload, message[|Prefix(MediaUpload)|..]))
    else if StartsWith(message, Prefix(Transcription)) then
      Some((Transcription, message[|Prefix(Transcription)|..]))
    else if StartsWith(message, Prefix(Summarization)) then
      Some((Summarization, message[|Prefix(Summarization)|..]))
    else if StartsWith(message, Prefix(TaskExtraction)) then
      Some((TaskExtraction, message[|Prefix(TaskExtraction)|..]))
    else None
  }

  /** The prefixes are distinct enough that every stage error names its
      stage: the message of a failed stage classifies back to that stage and
      the provider's original message. */
  lemma StageErrorsIdentifyStage(stage: Stage, providerMessage: string)
    ensures Classify(Prefix(stage) + providerMessage) == Some((stage, providerMessage))
  {
    var m := Prefix(stage) + providerMessage;
    assert m[..|Prefix(stage)|] == Prefix(stage);
    assert m[|Prefix(stage)|..] == providerMessage;
    assert m[10] == Prefix(stage)[10];
    match stage
    case MediaUpload =>
    case Transcription =>
      assert m[10] == 'g';
      assert !StartsWith(m, Prefix(MediaUpload)) by {
        assert Prefix(MediaUpload)[10] == 'u';
      }
    case Summarization =>
      assert m[10] == 'g' && m[19] == 'm';
      assert !StartsWith(m, Prefix(MediaUpload)) by {
        assert Prefix(MediaUpload)[10] == 'u';
      }
      assert !StartsWith(m, Prefix(Transcription)) by {
        assert Prefix(Transcription)[19] == 't';
      }
    case TaskExtraction =>
      assert m[10] == 'e';
      assert !StartsWith(m, Prefix(MediaUpload)) by {
        assert Prefix(MediaUpload)[10] == 'u';
      }
      assert !StartsWith(m, Prefix(Transcription)) by {
        assert Prefix(Transcription)[10] == 'g';
      }
      assert !StartsWith(m, Prefix(Summarization)) by {
        assert Prefix(Summarization)[10] == 'g';
      }
  }
}
