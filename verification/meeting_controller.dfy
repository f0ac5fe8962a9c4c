/** The request handlers of `backend/controllers/meetingController.js`.

    Every external call (database writes and queries, the Gemini calls, the
    file-system calls) is an input outcome, and every call the handler makes
    is recorded, with its arguments, in a trace.  A handler is then a pure
    function from the request and the outcomes to what is stored, which calls
    were made, and the HTTP response. */
module MeetingController {
  import opened Outcomes
  import opened MeetingModel
  import opened UploadMiddleware
  import opened GeminiService

  /** An external call made by a handler, with the arguments it carried. */
  datatype Call =
    | SaveMeeting(record: Meeting)
    | FindMeeting(id: MeetingId, userId: UserId)
    | UploadMedia(path: string, mimeType: string)
    | Transcribe(part: FileData)
    | Summarize(transcript: string)
    | ExtractTaskList(transcript: string)

  /** A clean-up call of `uploadMeeting`: local file-system calls and the
      deletion of the remote copy.  All of them come after the pipeline's
      own calls. */
  datatype Cleanup =
    | Unlink(path: string)
    | Stat(path: string)
    | DeleteRemote(fileId: string)

  /** Calls that go to the AI provider. */
  predicate IsAiCall(c: Call) {
    c.UploadMedia? || c.Transcribe? || c.Summarize? || c.ExtractTaskList?
  }

  /** The JSON body of a response. */
  datatype Body =
    | Message(message: string)
    | Failure(message: string, error: string)
    | Processed(meetingId: MeetingId, transcript: Option<string>, summary: Option<string>, tasks: Json)
    | Resummarized(summary: Option<string>, tasks: Json)
    | MeetingList(meetings: seq<Meeting>)
    | OneMeeting(meeting: Meeting)

  datatype Response = Response(status: int, body: Body)

  // =======================================================================
  // uploadMeeting
  // =======================================================================

  /** How each external call of one `uploadMeeting` run turns out, in the
      order the handler reaches them. */
  datatype UploadWorld = UploadWorld(
    createWrite: Outcome,                 // write of the first save
    mediaUpload: Reply<RemoteFile>,       // File API upload
    uriWrite: Outcome,                    // write of the second save
    transcription: Reply<string>,         // transcription request
    transcriptWrite: Outcome,             // write of the third save
    summary: Reply<string>,               // summary request
    taskText: Reply<string>,              // task-extraction request (raw text)
    summaryRejectsFirst: bool,            // which rejection `Promise.all` sees first
    enrichWrite: Outcome,                 // write of the fourth save
    unlink: Outcome,                      // `fs.unlink` on the success path
    remoteDelete: Outcome,                // File API delete on the success path
    statFindsFile: bool,                  // `fs.stat` in the error handler
    cleanupUnlink: Outcome,               // `fs.unlink` in the error handler
    cleanupRemoteDelete: Outcome)         // File API delete in the error handler

  /** `Promise.all([summary, tasks])`: both values, or the rejection that
      settles first. */
  function AwaitBoth(summary: Result<string>, tasks: Result<Json>, summaryRejectsFirst: bool): (r: Result<(string, Json)>)
    ensures r.Ok? <==> summary.Ok? && tasks.Ok?
    ensures r.Ok? ==> r.value == (summary.value, tasks.value)
    ensures r.Err? ==>
      (summary.Err? && r.message == summary.message) || (tasks.Err? && r.message == tasks.message)
  {
    match (summary, tasks)
    case (Ok(s), Ok(t)) => Ok((s, t))
    case (Err(e), Ok(_)) => Err(e)
    case (Ok(_), Err(e)) => Err(e)
    case (Err(e1), Err(e2)) => if summaryRejectsFirst then Err(e1) else Err(e2)
  }

  /** Where the `try` block of `uploadMeeting` stopped: what the store holds
      for the meeting, the in-memory document, the remote URI obtained
      (`""` for none), the calls made, the clean-up calls made, and the error
      thrown, if any. */
  datatype Attempt = Attempt(
    stored: Option<Meeting>, doc: Meeting, uri: string,
    calls: seq<Call>, cleanups: seq<Cleanup>, thrown: Option<string>)

  /** The `try` block, step 1: create the record and save it. */
  function TryUpload(file: StoredFile, userId: UserId, id: MeetingId, now: Time,
                     w: UploadWorld, parse: string -> Option<Json>): Attempt
  {
    var doc0 := NewMeeting(id, userId, file.originalName, now);
    var t0 := [SaveMeeting(doc0)];
    match Save(doc0, w.createWrite)
    case Failed(e) => Attempt(None, doc0, "", t0, [], Some(e))
    case Done => UploadStage(file, doc0, t0, w, parse)
  }

  /** Step 2: upload the media, remember its URI, save the record again.
      The URI is not a schema path, so this save writes nothing new. */
  function UploadStage(file: StoredFile, doc0: Meeting, t: seq<Call>,
                       w: UploadWorld, parse: string -> Option<Json>): Attempt
  {
    var t1 := t + [UploadMedia(file.path, file.mimeType)];
    match UploadFileToGemini(w.mediaUpload)
    case Err(e) => Attempt(Some(doc0), doc0, "", t1, [], Some(e))
    case Ok(remote) =>
      var t2 := t1 + [SaveMeeting(doc0)];
      match Save(doc0, w.uriWrite)
      case Failed(e) => Attempt(Some(doc0), doc0, remote.uri, t2, [], Some(e))
      case Done => TranscriptStage(file, doc0, remote, t2, w, parse)
  }

  /** Step 3: transcribe the uploaded media and save the transcript. */
  function TranscriptStage(file: StoredFile, doc0: Meeting, remote: RemoteFile, t: seq<Call>,
                           w: UploadWorld, parse: string -> Option<Json>): Attempt
  {
    var uri := remote.uri;
    var t3 := t + [Transcribe(TranscriptionPart(remote))];
    match GenerateTranscript(w.transcription)
    case Err(e) => Attempt(Some(doc0), doc0, uri, t3, [], Some(e))
    case Ok(text) =>
      var doc1 := doc0.(transcript := Some(text));
      var t4 := t3 + [SaveMeeting(doc1)];
      match Save(doc1, w.transcriptWrite)
      case Failed(e) => Attempt(Some(doc0), doc1, uri, t4, [], Some(e))
      case Done => EnrichStage(file, doc1, uri, text, t4, w, parse)
  }

  /** Step 4: ask for the summary and the tasks together, then save both. */
  function EnrichStage(file: StoredFile, doc1: Meeting, uri: string, text: string, t: seq<Call>,
                       w: UploadWorld, parse: string -> Option<Json>): Attempt
  {
    var t5 := t + [Summarize(text)] + [ExtractTaskList(text)];
    match AwaitBoth(GenerateSummary(w.summary), ExtractTasks(w.taskText, parse), w.summaryRejectsFirst)
    case Err(e) => Attempt(Some(doc1), doc1, uri, t5, [], Some(e))
    case Ok(pair) =>
      var doc2 := doc1.(summary := Some(pair.0), tasks := pair.1);
      var t6 := t5 + [SaveMeeting(doc2)];
      match Save(doc2, w.enrichWrite)
      case Failed(e) => Attempt(Some(doc1), doc2, uri, t6, [], Some(e))
      case Done => FinishStage(file, doc2, uri, t6, w)
  }

  /** Step 5: delete the local file, then the remote one.  A failing unlink
      throws; the remote deletion cannot. */
  function FinishStage(file: StoredFile, doc2: Meeting, uri: string, t: seq<Call>, w: UploadWorld): Attempt {
    var local := if file.path != "" then [Unlink(file.path)] else [];
    if file.path != "" && w.unlink.Failed? then
      Attempt(Some(doc2), doc2, uri, t, local, Some(w.unlink.message))
    else
      var remote := if uri != "" then [DeleteRemote(DeleteGeminiFile(uri, w.remoteDelete).fileId)] else [];
      Attempt(Some(doc2), doc2, uri, t, local + remote, None)
  }

  /** The `catch` block: delete the local file if `fs.stat` still finds it,
      then, independently, the remote file if a URI was obtained.  Each sits
      in its own `try`, so neither can stop the other or the response. */
  function CleanupAfterError(file: StoredFile, uri: string, w: UploadWorld): seq<Cleanup> {
    var local :=
      if file.path == "" then []
      else [Stat(file.path)] + (if w.statFindsFile then [Unlink(file.path)] else []);
    var remote :=
      if uri == "" then []
      else [DeleteRemote(DeleteGeminiFile(uri, w.cleanupRemoteDelete).fileId)];
    local + remote
  }

  /** What one upload request leaves behind: the stored copy of the
      meeting, the pipeline's calls, the clean-up calls, and the response. */
  datatype UploadReport = UploadReport(
    stored: Option<Meeting>, calls: seq<Call>, cleanups: seq<Cleanup>, response: Response)

  /** `uploadMeeting`: `file` is `req.file` (absent when the request carried
      no file), `userId` the authenticated caller, `id` and `now` the id and
      creation time the new document receives. */
  function UploadMeeting(file: Option<StoredFile>, userId: UserId, id: MeetingId, now: Time,
                         w: UploadWorld, parse: string -> Option<Json>): (r: UploadReport)
    ensures r.response.status in {200, 400, 500}
    ensures r.response.status == 400 <==> file.None?
    ensures file.None? ==>
      r.stored.None? && r.calls == [] && r.cleanups == [] && r.response.body == Message("No file uploaded.")
    ensures r.response.status == 200 ==>
      && r.stored.Some?
      && r.response.body == Processed(id, r.stored.value.transcript, r.stored.value.summary, r.stored.value.tasks)
      && r.stored.value.transcript.Some? && r.stored.value.summary.Some?
    ensures r.response.status == 500 ==>
      r.response.body.Failure? && r.response.body.message == "Failed to process meeting"
  {
    match file
    case None => UploadReport(None, [], [], Response(400, Message("No file uploaded.")))
    case Some(f) =>
      var a := TryUpload(f, userId, id, now, w, parse);
      match a.thrown
      case None =>
        UploadReport(a.stored, a.calls, a.cleanups,
          Response(200, Processed(a.doc.id, a.doc.transcript, a.doc.summary, a.doc.tasks)))
      case Some(e) =>
        UploadReport(a.stored, a.calls, a.cleanups + CleanupAfterError(f, a.uri, w),
          Response(500, Failure("Failed to process meeting", e)))
  }

  // =======================================================================
  // Lookups shared by summarizeMeeting and getMeetingById
  // =======================================================================

  /** The query `{ _id: id, userId }`. */
  predicate Matches(m: Meeting, id: MeetingId, userId: UserId) {
    m.id == id && m.userId == userId
  }

  /** `Meeting.findOne({ _id: id, userId })`: the position of the first
      document matching both the id and the owner. */
  function FindOwned(store: seq<Meeting>, id: MeetingId, userId: UserId): (r: Option<nat>)
    ensures r.Some? ==> r.value < |store| && Matches(store[r.value], id, userId)
    ensures r.Some? ==> forall j :: 0 <= j < r.value ==> !Matches(store[j], id, userId)
    ensures r.None? <==> forall j :: 0 <= j < |store| ==> !Matches(store[j], id, userId)
  {
    FindOwnedFrom(store, id, userId, 0)
  }

  function FindOwnedFrom(store: seq<Meeting>, id: MeetingId, userId: UserId, from: nat): (r: Option<nat>)
    requires from <= |store|
    requires forall j :: 0 <= j < from ==> !Matches(store[j], id, userId)
    ensures r.Some? ==> from <= r.value < |store| && Matches(store[r.value], id, userId)
    ensures r.Some? ==> forall j :: 0 <= j < r.value ==> !Matches(store[j], id, userId)
    ensures r.None? <==> forall j :: 0 <= j < |store| ==> !Matches(store[j], id, userId)
    decreases |store| - from
  {
    if from == |store| then None
    else if Matches(store[from], id, userId) then Some(from)
    else FindOwnedFrom(store, id, userId, from + 1)
  }

  // =======================================================================
  // summarizeMeeting
  // =======================================================================

  /** How each external call of one `summarizeMeeting` run turns out. */
  datatype ResummarizeWorld = ResummarizeWorld(
    lookup: Outcome,           // the `findOne` query
    summary: Reply<string>,    // summary request
    taskText: Reply<string>,   // task-extraction request (raw text)
    write: Outcome)            // write of the save

  datatype ResummarizeReport = ResummarizeReport(store: seq<Meeting>, trace: seq<Call>, response: Response)

  /** The record a successful re-summarize leaves: the same document with its
      summary and tasks replaced. */
  function Refreshed(m: Meeting, summary: string, tasks: Json): (m': Meeting)
    ensures m'.summary == Some(summary) && m'.tasks == tasks
    ensures m'.id == m.id && m'.userId == m.userId && m'.originalFileName == m.originalFileName
    ensures m'.transcript == m.transcript && m'.createdAt == m.createdAt
  {
    m.(summary := Some(summary), tasks := tasks)
  }

  /** `summarizeMeeting`: find the caller's meeting, refuse when it has no
      transcript, then ask for a summary, then (only once that succeeded) for
      the tasks, and save both with one write. */
  function SummarizeMeeting(store: seq<Meeting>, meetingId: MeetingId, userId: UserId,
                            w: ResummarizeWorld, parse: string -> Option<Json>): (r: ResummarizeReport)
    ensures r.response.status in {200, 400, 404, 500}
    ensures r.response.status == 404 <==>
      w.lookup.Done? && forall j :: 0 <= j < |store| ==> !Matches(store[j], meetingId, userId)
    ensures r.response.status == 400 <==>
      w.lookup.Done? && FindOwned(store, meetingId, userId).Some?
      && !HasTranscript(store[FindOwned(store, meetingId, userId).value])
    ensures r.response.status != 200 ==> r.store == store
    ensures r.response.status == 200 <==>
      && w.lookup.Done? && FindOwned(store, meetingId, userId).Some?
      && HasTranscript(store[FindOwned(store, meetingId, userId).value])
      && w.summary.Answered? && w.taskText.Answered?
      && Valid(store[FindOwned(store, meetingId, userId).value]) && w.write.Done?
    ensures r.response.status == 200 ==>
      var i := FindOwned(store, meetingId, userId).value;
      var tasks := ParseOrEmpty(w.taskText.value, parse);
      && r.store == store[i := Refreshed(store[i], w.summary.value, tasks)]
      && r.response.body == Resummarized(Some(w.summary.value), tasks)
  {
    var t0 := [FindMeeting(meetingId, userId)];
    match w.lookup
    case Failed(e) => ResummarizeReport(store, t0, Response(500, Failure("Failed to re-summarize meeting", e)))
    case Done =>
      match FindOwned(store, meetingId, userId)
      case None =>
        ResummarizeReport(store, t0, Response(404, Message("Meeting not found or you do not have access.")))
      case Some(i) =>
        var m := store[i];
        if !HasTranscript(m) then
          ResummarizeReport(store, t0, Response(400, Message("No transcript available for summarization.")))
        else
          var text := m.transcript.value;
          var t1 := t0 + [Summarize(text)];
          match GenerateSummary(w.summary)
          case Err(e) => ResummarizeReport(store, t1, Response(500, Failure("Failed to re-summarize meeting", e)))
          case Ok(summary) =>
            var t2 := t1 + [ExtractTaskList(text)];
            match ExtractTasks(w.taskText, parse)
            case Err(e) => ResummarizeReport(store, t2, Response(500, Failure("Failed to re-summarize meeting", e)))
            case Ok(tasks) =>
              var m' := Refreshed(m, summary, tasks);
              var t3 := t2 + [SaveMeeting(m')];
              match Save(m', w.write)
              case Failed(e) => ResummarizeReport(store, t3, Response(500, Failure("Failed to re-summarize meeting", e)))
              case Done => ResummarizeReport(store[i := m'], t3, Response(200, Resummarized(m'.summary, m'.tasks)))
  }

  // =======================================================================
  // getMeetings and getMeetingById
  // =======================================================================

  /** The documents of the store owned by `userId`, in store order. */
  function Owned(store: seq<Meeting>, userId: UserId): (owned: seq<Meeting>)
    ensures forall k :: 0 <= k < |owned| ==> owned[k].userId == userId
    ensures forall m :: m in store && m.userId == userId <==> m in owned
    ensures forall m :: multiset(owned)[m] == if m.userId == userId then multiset(store)[m] else 0
    decreases |store|
  {
    if |store| == 0 then []
    else
      var rest := Owned(store[1..], userId);
      assert store == [store[0]] + store[1..];
      assert multiset(store) == multiset{store[0]} + multiset(store[1..]);
      if store[0].userId == userId then [store[0]] + rest else rest
  }

  /** Newest first: `createdAt` never increases along the list. */
  predicate NewestFirst(ms: seq<Meeting>) {
    forall i, j :: 0 <= i < j < |ms| ==> ms[i].createdAt >= ms[j].createdAt
  }

  /** Puts `m` into a newest-first list behind every document at least as new. */
  function InsertByAge(m: Meeting, ms: seq<Meeting>): (r: seq<Meeting>)
    requires NewestFirst(ms)
    ensures NewestFirst(r)
    ensures multiset(r) == multiset(ms) + multiset{m}
    ensures r[0] == m || r[0] == ms[0]
    decreases |ms|
  {
    if |ms| == 0 then [m]
    else if ms[0].createdAt <= m.createdAt then
      PrependNewest(m, ms);
      [m] + ms
    else
      var rest := InsertByAge(m, ms[1..]);
      assert ms == [ms[0]] + ms[1..];
      assert multiset(ms) == multiset{ms[0]} + multiset(ms[1..]);
      PrependNewest(ms[0], rest);
      [ms[0]] + rest
  }

  /** A document at least as new as the head of a newest-first list can go
      in front of it. */
  lemma PrependNewest(m: Meeting, ms: seq<Meeting>)
    requires NewestFirst(ms)
    requires |ms| > 0 ==> m.createdAt >= ms[0].createdAt
    ensures NewestFirst([m] + ms)
  {
  }

  /** `.sort({ createdAt: -1 })`: the same documents, newest first. */
  function SortNewestFirst(ms: seq<Meeting>): (r: seq<Meeting>)
    ensures NewestFirst(r)
    ensures multiset(r) == multiset(ms)
    decreases |ms|
  {
    if |ms| == 0 then []
    else
      assert ms == [ms[0]] + ms[1..];
      InsertByAge(ms[0], SortNewestFirst(ms[1..]))
  }

  /** `getMeetings`: the caller's meetings, newest first. */
  function GetMeetings(store: seq<Meeting>, userId: UserId, lookup: Outcome): (r: Response)
    ensures lookup.Failed? ==> r == Response(500, Failure("Failed to fetch meetings", lookup.message))
    ensures lookup.Done? ==> r.status == 200 && r.body.MeetingList?
    ensures lookup.Done? ==>
      var list := r.body.meetings;
      && (forall k :: 0 <= k < |list| ==> list[k].userId == userId)
      && NewestFirst(list)
      && forall m :: multiset(list)[m] == if m.userId == userId then multiset(store)[m] else 0
  {
    match lookup
    case Failed(e) => Response(500, Failure("Failed to fetch meetings", e))
    case Done =>
      var list := SortNewestFirst(Owned(store, userId));
      assert forall k :: 0 <= k < |list| ==> list[k] in multiset(Owned(store, userId));
      Response(200, MeetingList(list))
  }

  /** `getMeetingById`: the caller's meeting with that id, or 404 when no
      document matches both the id and the caller. */
  function GetMeetingById(store: seq<Meeting>, id: MeetingId, userId: UserId, lookup: Outcome): (r: Response)
    ensures r.status in {200, 404, 500}
    ensures lookup.Failed? ==> r == Response(500, Failure("Failed to fetch meeting", lookup.message))
    ensures r.status == 404 <==>
      lookup.Done? && forall j :: 0 <= j < |store| ==> !Matches(store[j], id, userId)
    ensures r.status == 200 ==>
      r.body.OneMeeting? && r.body.meeting in store && Matches(r.body.meeting, id, userId)
  {
    match lookup
    case Failed(e) => Response(500, Failure("Failed to fetch meeting", e))
    case Done =>
      match FindOwned(store, id, userId)
      case None => Response(404, Message("Meeting not found or you do not have access."))
      case Some(i) => Response(200, OneMeeting(store[i]))
  }
}
